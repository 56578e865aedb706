/** String operations the bot's Python code relies on, stated over
    `string` (a sequence of Unicode scalar values): ASCII digits and their
    value, Python's whitespace set with `str.strip()`, substring search,
    `str.replace(p, "")`, `str.split(c)` and ASCII lower-casing. */
module Text {
  import opened Common

  // ---------------------------------------------------------------- digits

  predicate IsAsciiDigit(c: char)
  {
    '0' <= c <= '9'
  }

  predicate AllDigits(s: string)
  {
    forall i :: 0 <= i < |s| ==> IsAsciiDigit(s[i])
  }

  function DigitValue(c: char): nat
    requires IsAsciiDigit(c)
  {
    (c as int) - ('0' as int)
  }

  function DigitChar(d: nat): (c: char)
    requires d < 10
    ensures IsAsciiDigit(c) && DigitValue(c) == d
  {
    (('0' as int) + d) as char
  }

  /** The value of a run of ASCII digits, as `int()` reads it. */
  function DigitsValue(s: string): nat
    requires AllDigits(s)
  {
    if s == [] then 0 else 10 * DigitsValue(s[..|s| - 1]) + DigitValue(s[|s| - 1])
  }

  /** `str(n)` for a non-negative integer: ASCII digits, no leading zero. */
  function ToDecimal(n: nat): (s: string)
    ensures |s| > 0 && AllDigits(s)
    ensures |s| > 1 ==> s[0] != '0'
  {
    if n < 10 then [DigitChar(n)] else ToDecimal(n / 10) + [DigitChar(n % 10)]
  }

  /** Reading back what `str` wrote gives the number again. */
  lemma {:induction false} DecimalRoundTrip(n: nat)
    ensures DigitsValue(ToDecimal(n)) == n
  {
    if n >= 10 {
      DecimalRoundTrip(n / 10);
      var s := ToDecimal(n);
      assert s[..|s| - 1] == ToDecimal(n / 10);
    }
  }

  /** Length of the run of ASCII digits that starts at index `i`. */
  function DigitRunLength(s: string, i: nat): (n: nat)
    requires i <= |s|
    ensures i + n <= |s|
    ensures forall k :: i <= k < i + n ==> IsAsciiDigit(s[k])
    ensures i + n == |s| || !IsAsciiDigit(s[i + n])
    decreases |s| - i
  {
    if i < |s| && IsAsciiDigit(s[i]) then 1 + DigitRunLength(s, i + 1) else 0
  }

  /** The run itself, as a text of digits. */
  function DigitRun(s: string, i: nat): (run: string)
    requires i <= |s|
    ensures AllDigits(run)
    ensures run == s[i..i + DigitRunLength(s, i)]
  {
    var n := DigitRunLength(s, i);
    var run := s[i..i + n];
    assert forall k :: 0 <= k < n ==> run[k] == s[i..][k];
    run
  }

  // ------------------------------------------------------------ whitespace

  /** The characters for which Python's `str.isspace()` holds. */
  predicate IsSpace(c: char)
  {
    || c == ' '
    || '\t' <= c <= '\r'
    || '\U{1C}' <= c <= '\U{1F}'
    || c == '\U{85}' || c == '\U{A0}' || c == '\U{1680}'
    || '\U{2000}' <= c <= '\U{200A}'
    || c == '\U{2028}' || c == '\U{2029}' || c == '\U{202F}' || c == '\U{205F}'
    || c == '\U{3000}'
  }

  function StripLeft(s: string): (r: string)
    ensures |r| <= |s| && r == s[|s| - |r|..]
    ensures forall k :: 0 <= k < |s| - |r| ==> IsSpace(s[k])
    ensures r != [] ==> !IsSpace(r[0])
  {
    if s != [] && IsSpace(s[0]) then StripLeft(s[1..]) else s
  }

  function StripRight(s: string): (r: string)
    ensures |r| <= |s| && r == s[..|r|]
    ensures forall k :: |r| <= k < |s| ==> IsSpace(s[k])
    ensures r != [] ==> !IsSpace(r[|r| - 1])
  {
    if s != [] && IsSpace(s[|s| - 1]) then StripRight(s[..|s| - 1]) else s
  }

  /** `r` is `s[a..]` with only whitespace cut from each end. */
  ghost predicate TrimmedFrom(s: string, r: string, a: nat)
  {
    && a + |r| <= |s|
    && r == s[a..a + |r|]
    && (forall k :: 0 <= k < a ==> IsSpace(s[k]))
    && (forall k :: a + |r| <= k < |s| ==> IsSpace(s[k]))
  }

  /** Python's `str.strip()`: `s` without its leading and trailing whitespace. */
  function Strip(s: string): (r: string)
    ensures r == [] || (!IsSpace(r[0]) && !IsSpace(r[|r| - 1]))
    ensures |r| <= |s|
    ensures exists a: nat :: TrimmedFrom(s, r, a)
  {
    TrimmedByParts(s, StripLeft(s), StripRight(StripLeft(s)));
    StripRight(StripLeft(s))
  }

  /** Cutting leading whitespace and then trailing whitespace cuts only
      whitespace, from the two ends. */
  lemma TrimmedByParts(s: string, left: string, r: string)
    requires |left| <= |s| && left == s[|s| - |left|..]
    requires forall k :: 0 <= k < |s| - |left| ==> IsSpace(s[k])
    requires |r| <= |left| && r == left[..|r|]
    requires forall k :: |r| <= k < |left| ==> IsSpace(left[k])
    ensures TrimmedFrom(s, r, |s| - |left|)
  {
    var a := |s| - |left|;
    assert s[a..][..|r|] == s[a..a + |r|];
    forall k | a + |r| <= k < |s| ensures IsSpace(s[k]) {
      assert s[k] == left[k - a];
    }
  }

  /** A text that neither starts nor ends with whitespace is left alone. */
  lemma StripKeepsTrimmed(s: string)
    requires s != [] ==> !IsSpace(s[0]) && !IsSpace(s[|s| - 1])
    ensures Strip(s) == s
  {
  }

  /** Stripping twice is stripping once. */
  lemma StripIdempotent(s: string)
    ensures Strip(Strip(s)) == Strip(s)
  {
    StripKeepsTrimmed(Strip(s));
  }

  /** The texts `int()` accepts once stripped: one or more ASCII digits,
      with or without a leading `+` or `-`. */
  predicate IsIntText(t: string)
  {
    (t != [] && AllDigits(t)) || (|t| > 1 && (t[0] == '+' || t[0] == '-') && AllDigits(t[1..]))
  }

  /** `int(t)` for a text with optional surrounding whitespace, an optional
      sign and at least one ASCII digit; None where `int` raises. */
  function ParseInt(text: string): (r: Option<int>)
    ensures r.Some? <==> IsIntText(Strip(text))
    ensures r.Some? && r.value < 0 ==> Strip(text)[0] == '-'
  {
    var t := Strip(text);
    if t != [] && (t[0] == '-' || t[0] == '+') then
      var digits := t[1..];
      if digits != [] && AllDigits(digits) then
        var v: int := DigitsValue(digits);
        Some(if t[0] == '-' then -v else v)
      else None
    else if t != [] && AllDigits(t) then Some(DigitsValue(t))
    else None
  }

  /** A text of digits alone reads as the number it spells. */
  lemma ReadsDigits(t: string)
    requires t != [] && AllDigits(t)
    ensures ParseInt(t) == Some(DigitsValue(t))
  {
    StripKeepsTrimmed(t);
  }

  /** `str(n)` for any integer: a `-` in front of the digits of a negative number. */
  function SignedDecimal(n: int): (s: string)
    ensures IsIntText(s)
  {
    if n < 0 then "-" + ToDecimal(-n) else ToDecimal(n)
  }

  /** `int(str(n)) == n` for every integer, negative ones included. */
  lemma SignedDecimalRoundTrip(n: int)
    ensures ParseInt(SignedDecimal(n)) == Some(n)
  {
    if n < 0 {
      var t := "-" + ToDecimal(-n);
      StripKeepsTrimmed(t);
      assert t[1..] == ToDecimal(-n);
      DecimalRoundTrip(-n);
    } else {
      ReadsDigits(ToDecimal(n));
      DecimalRoundTrip(n);
    }
  }

  /** An explicit `+` reads the same number as no sign. */
  lemma PlusSignReadsSame(n: nat)
    ensures ParseInt("+" + ToDecimal(n)) == Some(n)
  {
    var t := "+" + ToDecimal(n);
    StripKeepsTrimmed(t);
    assert t[1..] == ToDecimal(n);
    DecimalRoundTrip(n);
  }

  // -------------------------------------------------------- substrings

  predicate StartsWith(s: string, p: string)
  {
    |p| <= |s| && s[..|p|] == p
  }

  predicate EndsWith(s: string, p: string)
  {
    |p| <= |s| && s[|s| - |p|..] == p
  }

  predicate OccursAt(s: string, p: string, i: int)
  {
    0 <= i && i + |p| <= |s| && s[i..i + |p|] == p
  }

  /** Python's `p in s`. */
  ghost predicate Contains(s: string, p: string)
  {
    exists i :: OccursAt(s, p, i)
  }

  /** `s.find(p, from)`: the first index at or after `from` where `p` occurs. */
  function FindFrom(s: string, p: string, from: nat): (r: Option<nat>)
    requires from <= |s|
    ensures r.Some? ==> from <= r.value && OccursAt(s, p, r.value)
    ensures r.Some? ==> forall j :: from <= j < r.value ==> !OccursAt(s, p, j)
    ensures r.None? ==> forall j :: from <= j ==> !OccursAt(s, p, j)
    decreases |s| - from
  {
    if OccursAt(s, p, from) then Some(from)
    else if from == |s| then None
    else FindFrom(s, p, from + 1)
  }

  /** Substring test, decided by searching from the start. */
  function Includes(s: string, p: string): (b: bool)
    ensures b <==> Contains(s, p)
  {
    FindFrom(s, p, 0).Some?
  }

  /** `s` starts with `p`, compared one character at a time. */
  predicate Begins(s: string, p: string)
  {
    p == [] || (s != [] && s[0] == p[0] && Begins(s[1..], p[1..]))
  }

  lemma {:induction false} BeginsIsOccursAt(s: string, p: string)
    ensures Begins(s, p) <==> OccursAt(s, p, 0)
  {
    if p != [] && s != [] {
      BeginsIsOccursAt(s[1..], p[1..]);
      if |p| <= |s| {
        assert s[0..|p|] == [s[0]] + s[1..][0..|p| - 1];
        assert p == [p[0]] + p[1..];
      }
    }
  }

  /** Python's `s.replace(p, "")`: every occurrence of `p`, scanning left to
      right without overlap, is removed. */
  function RemoveAll(s: string, p: string): (r: string)
    requires |p| > 0
    ensures |r| <= |s|
    ensures !Contains(s, p) ==> r == s
    decreases |s|
  {
    if |s| < |p| then s
    else if Begins(s, p) then BeginsIsOccursAt(s, p); RemoveAll(s[|p|..], p)
    else
      assert !Contains(s, p) ==> !Contains(s[1..], p) by {
        if Contains(s[1..], p) {
          var i :| OccursAt(s[1..], p, i);
          OccursAfterFirst(s, p, i);
        }
      }
      [s[0]] + RemoveAll(s[1..], p)
  }

  /** An occurrence of `p` at `k` in `s[1..]` is one at `k + 1` in `s`. */
  lemma OccursAfterFirst(s: string, p: string, k: nat)
    requires s != []
    ensures OccursAt(s[1..], p, k) <==> OccursAt(s, p, k + 1)
  {
    if k + |p| <= |s[1..]| {
      assert s[1..][k..k + |p|] == s[k + 1..k + 1 + |p|];
    }
  }

  /** `replace` with no occurrence to remove returns the text as it is. */
  lemma RemoveAllWhenAbsent(s: string, p: string)
    requires |p| > 0 && FindFrom(s, p, 0).None?
    ensures RemoveAll(s, p) == s
  {
    assert !Contains(s, p);
  }

  /** `replace` removes the first occurrence and carries on after it. */
  lemma RemoveAllAtFirst(s: string, p: string, i: nat)
    requires |p| > 0 && FindFrom(s, p, 0) == Some(i)
    ensures RemoveAll(s, p) == s[..i] + RemoveAll(s[i + |p|..], p)
  {
    NoneBeforeFirst(s, p, i);
    RemoveAllBefore(s, p, i);
    assert s[i..][0..|p|] == s[i..i + |p|];
    RemoveAllAtStart(s[i..], p);
    assert s[i..][|p|..] == s[i + |p|..];
  }

  /** No occurrence of `p` starts in `s` before index `i`. */
  predicate NoneBefore(s: string, p: string, i: nat)
  {
    i == 0 || (s != [] && !Begins(s, p) && NoneBefore(s[1..], p, i - 1))
  }

  lemma {:induction false} NoneBeforeFirst(s: string, p: string, i: nat)
    requires i <= |s|
    requires forall j :: 0 <= j < i ==> !OccursAt(s, p, j)
    ensures NoneBefore(s, p, i)
  {
    if i > 0 {
      forall j | 0 <= j < i - 1 ensures !OccursAt(s[1..], p, j) {
        OccursAfterFirst(s, p, j);
      }
      BeginsIsOccursAt(s, p);
      NoneBeforeFirst(s[1..], p, i - 1);
    }
  }

  /** With no occurrence before `i`, the first `i` characters are kept as they are. */
  lemma {:induction false} RemoveAllBefore(s: string, p: string, i: nat)
    requires |p| > 0 && i + |p| <= |s| && NoneBefore(s, p, i)
    ensures RemoveAll(s, p) == s[..i] + RemoveAll(s[i..], p)
    decreases i
  {
    if i == 0 {
      assert s[0..] == s;
      assert s[..0] + RemoveAll(s, p) == RemoveAll(s, p);
    } else {
      RemoveAllBefore(s[1..], p, i - 1);
      assert s[1..][i - 1..] == s[i..];
      RemoveAllJoin(s, p, i, RemoveAll(s[i..], p));
    }
  }

  lemma RemoveAllJoin(s: string, p: string, i: nat, rest: string)
    requires |p| > 0 && 1 <= i <= |s| && !Begins(s, p)
    requires RemoveAll(s[1..], p) == s[1..][..i - 1] + rest
    ensures RemoveAll(s, p) == s[..i] + rest
  {
    JoinAssoc([s[0]], s[1..][..i - 1], rest);
    assert [s[0]] + s[1..][..i - 1] == s[..i] by { FirstThenTake(s, i); }
  }

  lemma JoinAssoc<T>(a: seq<T>, b: seq<T>, c: seq<T>)
    ensures a + (b + c) == (a + b) + c
  {
  }

  lemma FirstThenTake(s: string, i: nat)
    requires 1 <= i <= |s|
    ensures [s[0]] + s[1..][..i - 1] == s[..i]
  {
  }

  /** Removing a prefix marker recovers the text it was put in front of,
      provided that text does not itself contain the marker. */
  lemma RemoveAllAfterPrefix(p: string, s: string)
    requires |p| > 0 && !Contains(s, p)
    ensures RemoveAll(p + s, p) == s
  {
    assert (p + s)[0..|p|] == p;
    RemoveAllAtStart(p + s, p);
    assert (p + s)[|p|..] == s;
  }

  /** An occurrence at the start is removed whole. */
  lemma RemoveAllAtStart(s: string, p: string)
    requires |p| > 0 && OccursAt(s, p, 0)
    ensures RemoveAll(s, p) == RemoveAll(s[|p|..], p)
  {
    BeginsIsOccursAt(s, p);
  }

  /** `s.replace(c, "")` for a one-character string `c`. */
  function Without(s: string, c: char): (r: string)
    ensures |r| <= |s|
    ensures forall x :: x in r <==> x in s && x != c
  {
    if s == [] then []
    else (if s[0] == c then [] else [s[0]]) + Without(s[1..], c)
  }

  /** Removing a character that does not occur changes nothing. */
  lemma {:induction false} WithoutAbsent(s: string, c: char)
    requires c !in s
    ensures Without(s, c) == s
  {
    if s != [] {
      WithoutAbsent(s[1..], c);
      assert [s[0]] + s[1..] == s;
    }
  }

  /** Removal works piece by piece. */
  lemma {:induction false} WithoutConcat(a: string, b: string, c: char)
    ensures Without(a + b, c) == Without(a, c) + Without(b, c)
  {
    if a == [] {
      assert a + b == b;
    } else {
      assert (a + b)[1..] == a[1..] + b;
      assert (a + b)[0] == a[0];
      WithoutConcat(a[1..], b, c);
    }
  }

  /** A run of digits holds no other character. */
  lemma DigitsHoldNo(s: string, c: char)
    requires AllDigits(s) && !IsAsciiDigit(c)
    ensures c !in s
  {
    forall k | 0 <= k < |s| ensures s[k] != c {
      assert IsAsciiDigit(s[k]);
    }
  }

  // ------------------------------------------------------------- split

  /** Python's `s.split(sep)` for a one-character separator: the pieces
      between separators, in order; `""` splits into `[""]`. */
  function Split(s: string, sep: char): (r: seq<string>)
    ensures |r| >= 1
    ensures forall k :: 0 <= k < |r| ==> sep !in r[k]
  {
    if s == [] then [[]]
    else
      var rest := Split(s[1..], sep);
      if s[0] == sep then [[]] + rest
      else [[s[0]] + rest[0]] + rest[1..]
  }

  /** `sep.join(pieces)`. */
  function Join(pieces: seq<string>, sep: char): string
    requires |pieces| >= 1
  {
    if |pieces| == 1 then pieces[0] else pieces[0] + [sep] + Join(pieces[1..], sep)
  }

  /** Splitting loses nothing: joining the pieces gives the text back. */
  lemma {:induction false} JoinSplit(s: string, sep: char)
    ensures Join(Split(s, sep), sep) == s
  {
    if s != [] {
      var rest := Split(s[1..], sep);
      JoinSplit(s[1..], sep);
      if s[0] != sep {
        if |rest| > 1 {
          assert rest[1..][1..] == rest[2..];
        }
      }
    }
  }

  /** A text without the separator is a single piece. */
  lemma {:induction false} SplitWithoutSeparator(a: string, sep: char)
    requires sep !in a
    ensures Split(a, sep) == [a]
  {
    if a != [] {
      SplitWithoutSeparator(a[1..], sep);
      assert [a[0]] + a[1..] == a;
    }
  }

  /** The first separator ends the first piece. */
  lemma {:induction false} SplitAtFirstSeparator(a: string, sep: char, rest: string)
    requires sep !in a
    ensures Split(a + [sep] + rest, sep) == [a] + Split(rest, sep)
  {
    var s := a + [sep] + rest;
    if a == [] {
      assert s[1..] == rest;
    } else {
      assert s[1..] == a[1..] + [sep] + rest;
      SplitAtFirstSeparator(a[1..], sep, rest);
      assert [a[0]] + a[1..] == a;
    }
  }

  /** Joining pieces that hold no separator and splitting again gives the
      pieces back. */
  lemma {:induction false} SplitJoin(pieces: seq<string>, sep: char)
    requires |pieces| >= 1
    requires forall k :: 0 <= k < |pieces| ==> sep !in pieces[k]
    ensures Split(Join(pieces, sep), sep) == pieces
  {
    if |pieces| == 1 {
      SplitWithoutSeparator(pieces[0], sep);
    } else {
      SplitJoin(pieces[1..], sep);
      SplitAtFirstSeparator(pieces[0], sep, Join(pieces[1..], sep));
      assert [pieces[0]] + pieces[1..] == pieces;
    }
  }

  // ------------------------------------------------------- lower case

  function LowerChar(c: char): char
  {
    if 'A' <= c <= 'Z' then ((c as int) - ('A' as int) + ('a' as int)) as char else c
  }

  /** `s.lower()` on the ASCII letters; every other character is kept. */
  function AsciiLower(s: string): (r: string)
    ensures |r| == |s|
    ensures forall i :: 0 <= i < |s| ==> r[i] == LowerChar(s[i])
  {
    if s == [] then [] else [LowerChar(s[0])] + AsciiLower(s[1..])
  }
}
