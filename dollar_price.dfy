/** The dollar price source: the first thousands-grouped number on the
    price page, and a once-a-day cache of it in a JSON file. The page text
    is an input (None when the request or its status check raised) and the
    cache file is a field. */
module DollarPrice {
  import opened Common
  import opened Text
  import opened Json

  /** The price returned when no cached or fetched one is available. */
  const FallbackPrice := 135000

  // ----------------------------------------------------------- extraction

  /** A `,ddd` group starts at `j`. */
  predicate IsGroup(s: string, j: nat)
  {
    j + 4 <= |s| && s[j] == ',' && AllDigits(s[j + 1..j + 4])
  }

  /** How many `,ddd` groups follow one another from `j`: what the greedy
      `(?:,\d{3})+` takes. */
  function GroupCount(s: string, j: nat): (n: nat)
    requires j <= |s|
    ensures j + 4 * n <= |s|
    ensures n > 0 <==> IsGroup(s, j)
    decreases |s| - j
  {
    if IsGroup(s, j) then 1 + GroupCount(s, j + 4) else 0
  }

  /** The count is what the greedy repetition takes: a group starts at each
      counted position and none at the next one. */
  lemma {:induction false} GroupCountIsGreedy(s: string, j: nat)
    requires j <= |s|
    ensures forall k :: j <= k < j + 4 * GroupCount(s, j) && (k - j) % 4 == 0 ==> IsGroup(s, k)
    ensures !IsGroup(s, j + 4 * GroupCount(s, j))
    decreases |s| - j
  {
    if IsGroup(s, j) {
      GroupCountIsGreedy(s, j + 4);
      forall k | j + 4 <= k < j + 4 * GroupCount(s, j) && (k - j) % 4 == 0
        ensures IsGroup(s, k)
      {
        assert (k - (j + 4)) % 4 == 0;
      }
    }
  }

  /** `\d{1,3}(?:,\d{3})+` matches at `i`. The digits before the first comma
      must be the whole digit run from `i`, since a shorter lead is followed
      by a digit, not a comma. */
  predicate MatchAt(s: string, i: nat)
    requires i <= |s|
  {
    var lead := DigitRunLength(s, i);
    1 <= lead <= 3 && IsGroup(s, i + lead)
  }

  /** The text matched at `i`. */
  function MatchText(s: string, i: nat): string
    requires i <= |s| && MatchAt(s, i)
  {
    var lead := DigitRunLength(s, i);
    s[i..i + lead + 4 * GroupCount(s, i + lead)]
  }

  /** A match holds only digits and commas. */
  lemma MatchTextChars(s: string, i: nat)
    requires i <= |s| && MatchAt(s, i)
    ensures var m := MatchText(s, i);
            forall k :: 0 <= k < |m| ==> IsAsciiDigit(m[k]) || m[k] == ','
  {
    var lead := DigitRunLength(s, i);
    GroupsAreDigitsAndCommas(s, i + lead);
    var m := MatchText(s, i);
    assert forall k :: 0 <= k < lead ==> m[k] == s[i..i + lead][k];
    assert forall k :: lead <= k < |m| ==> m[k] == s[i + k];
  }

  lemma {:induction false} GroupsAreDigitsAndCommas(s: string, j: nat)
    requires j <= |s|
    ensures forall k :: j <= k < j + 4 * GroupCount(s, j) ==> IsAsciiDigit(s[k]) || s[k] == ','
    decreases |s| - j
  {
    if IsGroup(s, j) {
      GroupsAreDigitsAndCommas(s, j + 4);
      assert forall k :: j + 1 <= k < j + 4 ==> s[k] == s[j + 1..j + 4][k - j - 1];
    }
  }

  /** Dropping the commas of a match leaves its digits. */
  lemma MatchDigits(s: string, i: nat)
    requires i <= |s| && MatchAt(s, i)
    ensures AllDigits(Without(MatchText(s, i), ','))
  {
    MatchTextChars(s, i);
    var digits := Without(MatchText(s, i), ',');
    forall k | 0 <= k < |digits| ensures IsAsciiDigit(digits[k]) {
      assert digits[k] in digits;
    }
  }

  /** `int(match.group(1).replace(",", ""))`. */
  function MatchValue(s: string, i: nat): nat
    requires i <= |s| && MatchAt(s, i)
  {
    MatchDigits(s, i);
    DigitsValue(Without(MatchText(s, i), ','))
  }

  /** `re.search` from index `from`: where the leftmost match starts. */
  function SearchFrom(s: string, from: nat): (r: Option<nat>)
    requires from <= |s|
    ensures r.Some? ==> from <= r.value <= |s| && MatchAt(s, r.value)
    ensures r.Some? ==> forall j :: from <= j < r.value ==> !MatchAt(s, j)
    ensures r.None? ==> forall j :: from <= j <= |s| ==> !MatchAt(s, j)
    decreases |s| - from
  {
    if MatchAt(s, from) then Some(from)
    else if from == |s| then None
    else SearchFrom(s, from + 1)
  }

  /** The number extraction of `fetch_usd_price` on the page text. */
  function ExtractPrice(html: string): (r: Option<nat>)
    ensures r.None? <==> forall i :: 0 <= i <= |html| ==> !MatchAt(html, i)
  {
    match SearchFrom(html, 0)
    case None => None
    case Some(i) => Some(MatchValue(html, i))
  }

  /** `fetch_usd_price`: None when the request or status check raised. */
  function FetchUsdPrice(response: Option<string>): (price: Option<nat>)
    ensures response.None? ==> price.None?
  {
    match response
    case None => None
    case Some(html) => ExtractPrice(html)
  }

  /** A page without a comma has no price, so a number written as `135000`
      is never read. */
  lemma NoCommaNoPrice(html: string)
    requires ',' !in html
    ensures ExtractPrice(html) == None
  {
    forall i | 0 <= i <= |html| ensures !MatchAt(html, i) {
      var lead := DigitRunLength(html, i);
      if i + lead < |html| {
        assert html[i + lead] in html;
      }
    }
  }

  /** `",ddd,ddd..."` for three-digit groups. */
  function GroupsText(groups: seq<string>): string
  {
    if groups == [] then [] else [','] + groups[0] + GroupsText(groups[1..])
  }

  function Concat(groups: seq<string>): string
  {
    if groups == [] then [] else groups[0] + Concat(groups[1..])
  }

  predicate ThreeDigitGroups(groups: seq<string>)
  {
    forall k :: 0 <= k < |groups| ==> |groups[k]| == 3 && AllDigits(groups[k])
  }

  lemma {:induction false} GroupCountOfGroups(s: string, j: nat, groups: seq<string>, rest: string)
    requires ThreeDigitGroups(groups)
    requires j <= |s| && s[j..] == GroupsText(groups) + rest
    requires !IsGroup(rest, 0)
    ensures GroupCount(s, j) == |groups|
    decreases |groups|
  {
    if groups == [] {
      assert s[j..] == rest;
      if j + 4 <= |s| {
        assert s[j] == s[j..][0] && s[j + 1..j + 4] == s[j..][1..4];
      }
    } else {
      var g := groups[0];
      assert GroupsText(groups) == [','] + g + GroupsText(groups[1..]);
      assert s[j..][..4] == [','] + g;
      assert s[j] == ',' && s[j + 1..j + 4] == g;
      assert s[j + 4..] == s[j..][4..];
      GroupCountOfGroups(s, j + 4, groups[1..], rest);
    }
  }

  lemma {:induction false} WithoutGroupsText(groups: seq<string>)
    requires ThreeDigitGroups(groups)
    ensures Without(GroupsText(groups), ',') == Concat(groups)
  {
    if groups != [] {
      var g, tail := groups[0], GroupsText(groups[1..]);
      assert GroupsText(groups) == [','] + g + tail;
      WithoutConcat([','] + g, tail, ',');
      WithoutConcat([','], g, ',');
      assert Without([','], ',') == [];
      DigitsHoldNo(g, ',');
      WithoutAbsent(g, ',');
      WithoutGroupsText(groups[1..]);
      assert Concat(groups) == g + Concat(groups[1..]);
    }
  }

  lemma {:induction false} RunOfLead(s: string, i: nat, lead: string)
    requires i + |lead| < |s| && s[i..i + |lead|] == lead && AllDigits(lead)
    requires !IsAsciiDigit(s[i + |lead|])
    ensures DigitRunLength(s, i) == |lead|
    decreases |lead|
  {
    if lead != [] {
      assert s[i] == lead[0];
      assert s[i + 1..i + |lead|] == lead[1..];
      RunOfLead(s, i + 1, lead[1..]);
    }
  }

  /** A page whose first digits are a 1-3 digit lead and then `,ddd` groups
      gives the value of those digits, commas removed. */
  lemma GroupedNumberIsRead(prefix: string, lead: string, groups: seq<string>, suffix: string)
    requires forall k :: 0 <= k < |prefix| ==> !IsAsciiDigit(prefix[k])
    requires 1 <= |lead| <= 3 && AllDigits(lead)
    requires groups != [] && ThreeDigitGroups(groups)
    requires !IsGroup(suffix, 0)
    ensures AllDigits(lead + Concat(groups))
    ensures ExtractPrice(prefix + (lead + GroupsText(groups) + suffix)) == Some(DigitsValue(lead + Concat(groups)))
  {
    var tail := lead + GroupsText(groups) + suffix;
    var html := prefix + tail;
    var i := |prefix|;
    NoDigitsNoMatch(prefix, tail);
    LeadThenGroupsMatch(html, i, lead, groups, suffix);
    FirstMatchWins(html, i);
    ValueOfMatch(html, i, lead, groups);
  }

  /** No match starts inside a prefix without digits. */
  lemma NoDigitsNoMatch(prefix: string, tail: string)
    requires forall k :: 0 <= k < |prefix| ==> !IsAsciiDigit(prefix[k])
    ensures (prefix + tail)[|prefix|..] == tail
    ensures forall k :: 0 <= k < |prefix| ==> !MatchAt(prefix + tail, k)
  {
    var html := prefix + tail;
    forall k | 0 <= k < |prefix| ensures !MatchAt(html, k) {
      assert html[k] == prefix[k];
    }
  }

  lemma ValueOfMatch(html: string, i: nat, lead: string, groups: seq<string>)
    requires AllDigits(lead) && ThreeDigitGroups(groups)
    requires i <= |html| && MatchAt(html, i) && MatchText(html, i) == lead + GroupsText(groups)
    ensures AllDigits(lead + Concat(groups))
    ensures MatchValue(html, i) == DigitsValue(lead + Concat(groups))
  {
    DigitsOfMatch(lead, groups);
  }

  lemma LeadThenGroupsMatch(html: string, i: nat, lead: string, groups: seq<string>, suffix: string)
    requires 1 <= |lead| <= 3 && AllDigits(lead)
    requires groups != [] && ThreeDigitGroups(groups)
    requires !IsGroup(suffix, 0)
    requires i <= |html| && html[i..] == lead + GroupsText(groups) + suffix
    ensures MatchAt(html, i) && MatchText(html, i) == lead + GroupsText(groups)
  {
    var gs := GroupsText(groups);
    assert |gs| == 4 * |groups| by { GroupsTextLength(groups); }
    ThreePartSuffix(html, i, lead, gs, suffix);
    assert DigitRunLength(html, i) == |lead| by {
      GroupsTextStartsWithComma(groups);
      LeadIsDigitRun(html, i, lead, gs + suffix);
    }
    assert GroupCount(html, i + |lead|) == |groups| by {
      GroupCountOfGroups(html, i + |lead|, groups, suffix);
    }
    MatchTextSpan(html, i, |lead|, |groups|);
  }

  /** A suffix made of three parts splits at both of its seams. */
  lemma ThreePartSuffix(s: string, i: nat, a: string, b: string, c: string)
    requires i <= |s| && s[i..] == a + b + c
    ensures i + |a| + |b| <= |s|
    ensures s[i..i + |a| + |b|] == a + b && s[i + |a|..] == b + c
  {
    SplitSuffix(s, i, a + b, c);
    assert s[i..] == a + (b + c);
    SplitSuffix(s, i, a, b + c);
  }

  /** The match at `i` spans its lead and its groups. */
  lemma MatchTextSpan(s: string, i: nat, lead: nat, count: nat)
    requires i <= |s| && DigitRunLength(s, i) == lead && 1 <= lead <= 3
    requires i + lead <= |s| && GroupCount(s, i + lead) == count && count > 0
    ensures MatchAt(s, i) && MatchText(s, i) == s[i..i + lead + 4 * count]
  {
  }

  lemma GroupsTextStartsWithComma(groups: seq<string>)
    requires groups != []
    ensures GroupsText(groups)[0] == ','
  {
  }

  /** The lead is the digit run from `i` when a comma follows it. */
  lemma LeadIsDigitRun(html: string, i: nat, lead: string, rest: string)
    requires AllDigits(lead)
    requires rest != [] && rest[0] == ','
    requires i <= |html| && html[i..] == lead + rest
    ensures DigitRunLength(html, i) == |lead|
  {
    SplitSuffix(html, i, lead, rest);
    assert html[i + |lead|] == html[i + |lead|..][0];
    RunOfLead(html, i, lead);
  }

  lemma DigitsOfMatch(lead: string, groups: seq<string>)
    requires AllDigits(lead) && ThreeDigitGroups(groups)
    ensures Without(lead + GroupsText(groups), ',') == lead + Concat(groups)
    ensures AllDigits(lead + Concat(groups))
  {
    WithoutConcat(lead, GroupsText(groups), ',');
    DigitsHoldNo(lead, ',');
    WithoutAbsent(lead, ',');
    WithoutGroupsText(groups);
    ConcatDigits(groups);
    var d := lead + Concat(groups);
    forall k | |lead| <= k < |d| ensures IsAsciiDigit(d[k]) {
      assert d[k] == Concat(groups)[k - |lead|];
    }
  }

  lemma {:induction false} GroupsTextLength(groups: seq<string>)
    requires ThreeDigitGroups(groups)
    ensures |GroupsText(groups)| == 4 * |groups|
  {
    if groups != [] {
      GroupsTextLength(groups[1..]);
    }
  }

  lemma {:induction false} ConcatDigits(groups: seq<string>)
    requires ThreeDigitGroups(groups)
    ensures AllDigits(Concat(groups))
  {
    if groups != [] {
      ConcatDigits(groups[1..]);
      var c := Concat(groups);
      assert forall k :: 3 <= k < |c| ==> c[k] == Concat(groups[1..])[k - 3];
      assert forall k :: 0 <= k < 3 ==> c[k] == groups[0][k];
    }
  }

  lemma FirstMatchWins(s: string, i: nat)
    requires i <= |s| && MatchAt(s, i)
    requires forall k :: 0 <= k < i ==> !MatchAt(s, k)
    ensures ExtractPrice(s) == Some(MatchValue(s, i))
  {
    var r := SearchFrom(s, 0);
    assert r.Some?;
  }

  // ---------------------------------------------------------------- cache

  /** The cache file: missing, not valid JSON, or holding a decoded value. */
  datatype CacheFile = Absent | Unreadable | Holds(data: Json)

  /** What `get_usd_price` raises instead of returning. */
  datatype Raise = DecodeError | NoGetAttribute(typeName: string)

  datatype Outcome = Price(value: Json) | Raised(error: Raise)

  /** `{"date": today, "price": price}`. */
  function Entry(today: string, price: nat): Json
  {
    JObj(map["date" := JStr(today), "price" := JInt(price)])
  }

  /** The cache entry answers for `today`. */
  predicate IsHit(file: CacheFile, today: string)
  {
    file.Holds? && file.data.JObj? && GetOr(file.data.fields, "date", JNull) == JStr(today)
  }

  /** One call of `get_usd_price`: its outcome and the cache file after it. */
  function CacheStep(file: CacheFile, today: string, response: Option<string>): (r: (Outcome, CacheFile))
    ensures IsHit(file, today) ==> r == (Price(GetOr(file.data.fields, "price", JNull)), file)
    ensures file == Unreadable ==> r == (Raised(DecodeError), file)
    ensures file.Holds? && !file.data.JObj? ==> r == (Raised(NoGetAttribute(TypeName(file.data))), file)
    ensures (file == Absent || (file.Holds? && file.data.JObj? && !IsHit(file, today))) ==>
              match FetchUsdPrice(response)
              case None => r == (Price(JInt(FallbackPrice)), file)
              case Some(p) => r == (Price(JInt(p)), Holds(Entry(today, p)))
  {
    if file == Unreadable then (Raised(DecodeError), file)
    else if file.Holds? && !file.data.JObj? then (Raised(NoGetAttribute(TypeName(file.data))), file)
    else if IsHit(file, today) then (Price(GetOr(file.data.fields, "price", JNull)), file)
    else
      match FetchUsdPrice(response)
      case None => (Price(JInt(FallbackPrice)), file)
      case Some(p) => (Price(JInt(p)), Holds(Entry(today, p)))
  }

  /** Once a price has been fetched, later calls the same day return it
      without looking at the page again. */
  lemma FetchedPriceIsReused(file: CacheFile, today: string, first: Option<string>, later: Option<string>)
    requires !IsHit(file, today) && (file == Absent || file.Holds?) && !(file.Holds? && !file.data.JObj?)
    requires FetchUsdPrice(first).Some?
    ensures var (r1, f1) := CacheStep(file, today, first);
            IsHit(f1, today) && CacheStep(f1, today, later) == (r1, f1)
  {
    var p := FetchUsdPrice(first).value;
    var e := Entry(today, p);
    assert GetOr(e.fields, "date", JNull) == JStr(today);
    assert GetOr(e.fields, "price", JNull) == JInt(p);
  }

  /** A failed fetch leaves the cache as it was, so the next call fetches
      again. */
  lemma FailedFetchIsRetried(file: CacheFile, today: string, first: Option<string>)
    requires !IsHit(file, today) && (file == Absent || (file.Holds? && file.data.JObj?))
    requires FetchUsdPrice(first).None?
    ensures CacheStep(file, today, first) == (Price(JInt(FallbackPrice)), file)
    ensures !IsHit(CacheStep(file, today, first).1, today)
  {
  }

  /** The price cache file of the bot's working directory. */
  class PriceCache {
    var file: CacheFile

    constructor(file: CacheFile)
      ensures this.file == file
    {
      this.file := file;
    }

    /** `get_usd_price` for the date `today` and the page the request
        would return. */
    method GetUsdPrice(today: string, response: Option<string>) returns (r: Outcome)
      modifies this
      ensures (r, file) == CacheStep(old(file), today, response)
    {
      if file.Unreadable? {
        return Raised(DecodeError);
      }
      if file.Holds? {
        if !file.data.JObj? {
          return Raised(NoGetAttribute(TypeName(file.data)));
        }
        if GetOr(file.data.fields, "date", JNull) == JStr(today) {
          return Price(GetOr(file.data.fields, "price", JNull));
        }
      }
      var price := FetchUsdPrice(response);
      if price.None? {
        return Price(JInt(FallbackPrice));
      }
      file := Holds(Entry(today, price.value));
      return Price(JInt(price.value));
    }
  }
}
