/** The pure logic of the bot's message handlers: Persian digit
    normalisation, reading the amount a user typed, the dispatch of a parsed
    AI result to a transaction or a plan with fixed defaults, the choice
    between the quota reply and the generic error reply, and reading a plan
    id back from a button's callback data. */
module Chat {
  import opened Common
  import opened Text
  import opened Json

  // ------------------------------------------------- Persian digits

  /** The Extended Arabic-Indic digits ۰ (U+06F0) to ۹ (U+06F9). */
  predicate IsPersianDigit(c: char)
  {
    '\U{06F0}' <= c <= '\U{06F9}'
  }

  /** `str.maketrans("۰۱۲۳۴۵۶۷۸۹", "0123456789")` applied to one character. */
  function FaChar(c: char): char
  {
    if IsPersianDigit(c) then ((c as int) - 0x06F0 + ('0' as int)) as char else c
  }

  /** `fa_to_en`: every Persian digit becomes the ASCII digit of the same
      value; every other character is kept, so the length is kept. */
  function FaToEn(text: string): (r: string)
    ensures |r| == |text|
  {
    seq(|text|, i requires 0 <= i < |text| => FaChar(text[i]))
  }

  /** Each position keeps its value: a Persian digit becomes the ASCII digit
      with the same value, and no Persian digit is left. */
  lemma FaToEnDigits(text: string)
    ensures forall i :: 0 <= i < |text| && IsPersianDigit(text[i]) ==>
      IsAsciiDigit(FaToEn(text)[i]) && DigitValue(FaToEn(text)[i]) == (text[i] as int) - 0x06F0
    ensures forall i :: 0 <= i < |text| && !IsPersianDigit(text[i]) ==> FaToEn(text)[i] == text[i]
    ensures forall i :: 0 <= i < |text| ==> !IsPersianDigit(FaToEn(text)[i])
    ensures forall i :: 0 <= i < |text| ==>
      (IsAsciiDigit(FaToEn(text)[i]) <==> IsAsciiDigit(text[i]) || IsPersianDigit(text[i]))
  {
  }

  /** Normalising twice is normalising once. */
  lemma FaToEnIdempotent(text: string)
    ensures FaToEn(FaToEn(text)) == FaToEn(text)
  {
    FaToEnDigits(text);
  }

  // ------------------------------------------------------- amounts

  /** The index of the first ASCII digit, if there is one. */
  function FirstDigit(s: string, from: nat): (r: Option<nat>)
    requires from <= |s|
    ensures r.Some? ==> from <= r.value < |s| && IsAsciiDigit(s[r.value])
    ensures r.Some? ==> forall k :: from <= k < r.value ==> !IsAsciiDigit(s[k])
    ensures r.None? ==> forall k :: from <= k < |s| ==> !IsAsciiDigit(s[k])
    decreases |s| - from
  {
    if from == |s| then None
    else if IsAsciiDigit(s[from]) then Some(from)
    else FirstDigit(s, from + 1)
  }

  /** The text `process_amount` searches: digits normalised, every `,` and
      every space removed. */
  function AmountText(text: string): string
  {
    Without(Without(FaToEn(text), ','), ' ')
  }

  /** `re.findall(r'\d+', ...)[0]` read as a number: the value of the first
      maximal run of digits, or None when there is no digit at all (the
      handler then asks again and changes nothing). */
  function ExtractAmount(text: string): (r: Option<nat>)
  {
    var s := AmountText(text);
    match FirstDigit(s, 0)
    case None => None
    case Some(i) => Some(DigitsValue(DigitRun(s, i)))
  }

  /** An amount is found exactly when the message holds an ASCII or a
      Persian digit. */
  lemma ExtractAmountFindsDigits(text: string)
    ensures ExtractAmount(text).None? <==>
      forall i :: 0 <= i < |text| ==> !IsAsciiDigit(text[i]) && !IsPersianDigit(text[i])
  {
    FaToEnDigits(text);
    var fa := FaToEn(text);
    var s := AmountText(text);
    if ExtractAmount(text).None? {
      forall i | 0 <= i < |text| ensures !IsAsciiDigit(text[i]) && !IsPersianDigit(text[i]) {
        assert fa[i] in fa;
      }
    } else {
      var k := FirstDigit(s, 0).value;
      assert s[k] in s;
      assert s[k] in Without(fa, ',');
      assert s[k] in fa;
      var i :| 0 <= i < |fa| && fa[i] == s[k];
    }
  }

  /** A number written out in digits (as `str` writes it) is read back. */
  lemma ExtractAmountOfDecimal(n: nat)
    ensures ExtractAmount(ToDecimal(n)) == Some(n)
  {
    var d := ToDecimal(n);
    FaToEnKeepsAscii(d);
    DigitsHoldNo(d, ',');
    DigitsHoldNo(d, ' ');
    WithoutAbsent(d, ',');
    WithoutAbsent(d, ' ');
    assert AmountText(d) == d;
    assert DigitRunLength(d, 0) == |d|;
    assert d[0..|d|] == d;
    DecimalRoundTrip(n);
  }

  /** Text without Persian digits is left as it is. */
  lemma FaToEnKeepsAscii(d: string)
    requires AllDigits(d)
    ensures FaToEn(d) == d
  {
    forall i | 0 <= i < |d| ensures FaToEn(d)[i] == d[i] {
      assert IsAsciiDigit(d[i]);
    }
  }

  // ------------------------------------------------- AI dispatch

  /** What `handle_text_ai` does with a parsed result. */
  datatype Decision =
    | RecordTransaction(amount: Json, kind: Json, category: Json, date: Json, note: Json)
    | RecordPlan(title: Json, date: Json, time: Json)
    | NotUnderstood
    | Raised(message: string)   // `result.get` on a value that is not a dict

  const OtherCategory := "سایر"
  const Untitled := "بدون عنوان"

  /** `result.get(key) == value` for a string value. */
  predicate Says(fields: map<string, Json>, key: string, value: string)
  {
    key in fields && fields[key] == JStr(value)
  }

  /** The branch chosen by `(section, action)`: only
      finance/add_transaction records a transaction and only
      planning/add_plan records a plan, each with its fixed defaults for
      missing keys; a result that is not a dict raises `AttributeError`. */
  function Dispatch(result: Json, currentDate: string): (d: Decision)
    ensures !result.JObj? <==> d.Raised?
    ensures d.RecordTransaction? <==>
      result.JObj? && Says(result.fields, "action", "add_transaction") && Says(result.fields, "section", "finance")
    ensures d.RecordPlan? <==>
      result.JObj? && Says(result.fields, "action", "add_plan") && Says(result.fields, "section", "planning")
    ensures d.RecordTransaction? ==>
      && ("amount" !in result.fields ==> d.amount == JInt(0))
      && ("type" !in result.fields ==> d.kind == JStr("expense"))
      && ("category" !in result.fields ==> d.category == JStr(OtherCategory))
      && ("date" !in result.fields ==> d.date == JStr(currentDate))
      && ("note" !in result.fields ==> d.note == JStr(""))
    ensures d.RecordPlan? ==>
      && ("title" !in result.fields ==> d.title == JStr(Untitled))
      && ("date" !in result.fields ==> d.date == JStr(currentDate))
      && ("time" !in result.fields ==> d.time == JNull)
    ensures d.Raised? ==> d.message == "'" + TypeName(result) + "' object has no attribute 'get'"
  {
    match result
    case JObj(f) =>
      var action := GetOr(f, "action", JNull);
      var section := GetOr(f, "section", JNull);
      if action == JStr("add_transaction") && section == JStr("finance") then
        RecordTransaction(GetOr(f, "amount", JInt(0)), GetOr(f, "type", JStr("expense")),
                          GetOr(f, "category", JStr(OtherCategory)), GetOr(f, "date", JStr(currentDate)),
                          GetOr(f, "note", JStr("")))
      else if action == JStr("add_plan") && section == JStr("planning") then
        RecordPlan(GetOr(f, "title", JStr(Untitled)), GetOr(f, "date", JStr(currentDate)), GetOr(f, "time", JNull))
      else NotUnderstood
    case _ => Raised("'" + TypeName(result) + "' object has no attribute 'get'")
  }

  /** Keys present in the result win over the defaults. */
  lemma DispatchKeepsGivenFields(result: Json, currentDate: string)
    requires result.JObj?
    ensures var d := Dispatch(result, currentDate);
      && (d.RecordTransaction? ==>
            forall key :: key in result.fields && key in {"amount", "type", "category", "date", "note"} ==>
              result.fields[key] == match key
                                    case "amount" => d.amount
                                    case "type" => d.kind
                                    case "category" => d.category
                                    case "date" => d.date
                                    case _ => d.note)
      && (d.RecordPlan? ==>
            forall key :: key in result.fields && key in {"title", "date", "time"} ==>
              result.fields[key] == match key
                                    case "title" => d.title
                                    case "date" => d.date
                                    case _ => d.time)
  {
  }

  /** The fallback value of the reply parser is never understood as an action. */
  lemma FallbackIsNotUnderstood(currentDate: string)
    ensures Dispatch(JObj(map["action" := JStr("fallback_to_buttons")]), currentDate) == NotUnderstood
  {
    assert !Says(map["action" := JStr("fallback_to_buttons")], "action", "add_transaction");
    assert !Says(map["action" := JStr("fallback_to_buttons")], "action", "add_plan");
  }

  // ------------------------------------------------- error replies

  datatype ErrorReply = QuotaReply | GenericErrorReply

  /** The quota reply iff the message holds "429" or, ignoring case, "quota". */
  function ClassifyError(message: string): (r: ErrorReply)
    ensures r == QuotaReply <==> Contains(message, "429") || Contains(AsciiLower(message), "quota")
  {
    if Includes(message, "429") || Includes(AsciiLower(message), "quota") then QuotaReply else GenericErrorReply
  }

  lemma {:induction false} AsciiLowerIdempotent(s: string)
    ensures AsciiLower(AsciiLower(s)) == AsciiLower(s)
  {
    var l := AsciiLower(s);
    assert forall i :: 0 <= i < |s| ==> AsciiLower(l)[i] == LowerChar(LowerChar(s[i])) == LowerChar(s[i]);
  }

  /** Lower-casing leaves "429" where it is: digits stay digits and no
      other character becomes one. */
  lemma LowerKeeps429(s: string)
    ensures Contains(AsciiLower(s), "429") <==> Contains(s, "429")
  {
    var l := AsciiLower(s);
    forall i ensures OccursAt(l, "429", i) <==> OccursAt(s, "429", i) {
      if 0 <= i && i + 3 <= |s| {
        assert l[i..i + 3] == [l[i], l[i + 1], l[i + 2]];
        assert s[i..i + 3] == [s[i], s[i + 1], s[i + 2]];
      }
    }
  }

  /** The classification does not depend on letter case. */
  lemma ClassifyIgnoresCase(message: string)
    ensures ClassifyError(AsciiLower(message)) == ClassifyError(message)
  {
    LowerKeeps429(message);
    AsciiLowerIdempotent(message);
  }

  // ---------------------------------------------------- plan ids

  /** `int(data.replace(prefix, ""))` in `done_plan` and `del_plan`. */
  function ParsePlanId(data: string, prefix: string): (r: Option<int>)
    requires |prefix| > 0
  {
    ParseInt(RemoveAll(data, prefix))
  }

  /** A digit string holds no marker that starts with a non-digit. */
  lemma DigitsHoldNoMarker(s: string, p: string)
    requires AllDigits(s) && |p| > 0 && !IsAsciiDigit(p[0])
    ensures !Contains(s, p)
  {
    forall i | 0 <= i && i + |p| <= |s| ensures !OccursAt(s, p, i) {
      assert s[i..i + |p|][0] == s[i];
    }
  }

  /** The id a plan button carries (`prefix + str(id)`) is read back. */
  lemma PlanIdRoundTrip(prefix: string, id: nat)
    requires |prefix| > 0 && !IsAsciiDigit(prefix[0])
    ensures ParsePlanId(prefix + ToDecimal(id), prefix) == Some(id)
  {
    var d := ToDecimal(id);
    DigitsHoldNoMarker(d, prefix);
    RemoveAllAfterPrefix(prefix, d);
    StripKeepsTrimmed(d);
    DecimalRoundTrip(id);
  }
}
