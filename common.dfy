/** Small shared vocabulary: an optional value (Python's `None` or a value)
    and an order-preserving filter over sequences. */
module Common {

  datatype Option<+T> = None | Some(value: T)

  /** `SELECT ... WHERE key = v`: the rows whose key is `v`, in table order. */
  function Select<T>(s: seq<T>, key: T -> int, v: int): (r: seq<T>)
    ensures |r| <= |s|
    ensures forall i :: 0 <= i < |r| ==> r[i] in s && key(r[i]) == v
    ensures forall i :: 0 <= i < |s| && key(s[i]) == v ==> s[i] in r
  {
    if s == [] then []
    else (if key(s[0]) == v then [s[0]] else []) + Select(s[1..], key, v)
  }

  /** `SELECT ... WHERE key = v` followed by `fetchone()`: the index of the
      first row whose key is `v`, if any. */
  function Find<T>(s: seq<T>, key: T -> int, v: int): (r: Option<nat>)
    ensures r.Some? ==> r.value < |s| && key(s[r.value]) == v
    ensures r.Some? ==> forall k :: 0 <= k < r.value ==> key(s[k]) != v
    ensures r.None? ==> forall k :: 0 <= k < |s| ==> key(s[k]) != v
  {
    if s == [] then None
    else if key(s[0]) == v then Some(0)
    else match Find(s[1..], key, v)
      case None => None
      case Some(k) => Some(k + 1)
  }

  /** `DELETE ... WHERE key = v`: the rows that remain, in table order. */
  function Delete<T>(s: seq<T>, key: T -> int, v: int): (r: seq<T>)
    ensures |r| <= |s|
    ensures forall i :: 0 <= i < |r| ==> r[i] in s && key(r[i]) != v
    ensures forall i :: 0 <= i < |s| && key(s[i]) != v ==> s[i] in r
  {
    if s == [] then []
    else (if key(s[0]) != v then [s[0]] else []) + Delete(s[1..], key, v)
  }

  /** The rows have strictly increasing keys (a table scanned in rowid order). */
  ghost predicate IncreasingBy<T>(s: seq<T>, key: T -> int)
  {
    forall i, j :: 0 <= i < j < |s| ==> key(s[i]) < key(s[j])
  }

  /** Every key is positive and below `next` (AUTOINCREMENT's next id). */
  ghost predicate KeysBelow<T>(s: seq<T>, key: T -> int, next: int)
  {
    forall i :: 0 <= i < |s| ==> 0 < key(s[i]) < next
  }

  lemma IncreasingTail<T>(s: seq<T>, key: T -> int)
    requires s != [] && IncreasingBy(s, key)
    ensures IncreasingBy(s[1..], key)
  {
    var tail := s[1..];
    forall i, j | 0 <= i < j < |tail| ensures key(tail[i]) < key(tail[j]) {
      assert tail[i] == s[i + 1] && tail[j] == s[j + 1];
    }
  }

  /** A slice of a slice is a slice of the whole. */
  lemma SliceOfSlice<T>(s: seq<T>, a: nat, b: nat, c: nat, d: nat)
    requires a <= b <= |s| && c <= d <= b - a
    ensures s[a..b][c..d] == s[a + c..a + d]
  {
    var x, y := s[a..b][c..d], s[a + c..a + d];
    assert |x| == |y|;
    forall m | 0 <= m < |x| ensures x[m] == y[m] {
      assert x[m] == s[a..b][c + m] == s[a + c + m];
    }
  }

  /** A suffix `a + b` of `s` starting at `i` splits at `i + |a|`. */
  lemma SplitSuffix<T>(s: seq<T>, i: nat, a: seq<T>, b: seq<T>)
    requires i <= |s| && s[i..] == a + b
    ensures i + |a| <= |s| && s[i..i + |a|] == a && s[i + |a|..] == b
  {
    assert s[i..i + |a|] == s[i..][..|a|];
    assert s[i + |a|..] == s[i..][|a|..];
  }

  /** A row whose key is below every key of an ordered table can lead it. */
  lemma ConsIncreasing<T>(x: T, rest: seq<T>, key: T -> int)
    requires IncreasingBy(rest, key)
    requires forall m :: 0 <= m < |rest| ==> key(x) < key(rest[m])
    ensures IncreasingBy([x] + rest, key)
  {
    var s := [x] + rest;
    forall i, j | 0 <= i < j < |s| ensures key(s[i]) < key(s[j]) {
      assert s[j] == rest[j - 1];
      if i > 0 {
        assert s[i] == rest[i - 1];
      }
    }
  }

  /** Deleting rows keeps the table in id order. */
  lemma {:induction false} DeleteKeepsIncreasing<T>(s: seq<T>, key: T -> int, v: int, id: T -> int)
    requires IncreasingBy(s, id)
    ensures IncreasingBy(Delete(s, key, v), id)
  {
    if s != [] {
      IncreasingTail(s, id);
      DeleteKeepsIncreasing(s[1..], key, v, id);
      var rest := Delete(s[1..], key, v);
      forall m | 0 <= m < |rest| ensures id(s[0]) < id(rest[m]) {
        var k :| 0 <= k < |s[1..]| && s[1..][k] == rest[m];
        assert rest[m] == s[k + 1];
      }
    }
  }

  /** Deleting rows keeps every remaining key below `next`. */
  lemma DeleteKeepsKeysBelow<T>(s: seq<T>, key: T -> int, v: int, id: T -> int, next: int)
    requires KeysBelow(s, id, next)
    ensures KeysBelow(Delete(s, key, v), id, next)
  {
    var r := Delete(s, key, v);
    forall i | 0 <= i < |r| ensures 0 < id(r[i]) < next {
      var j :| 0 <= j < |s| && s[j] == r[i];
    }
  }

  /** Appending a row with the next id keeps the table in id order and
      moves the next id on by one. */
  lemma AppendKeepsKeys<T>(s: seq<T>, x: T, id: T -> int, next: int)
    requires KeysBelow(s, id, next) && IncreasingBy(s, id) && id(x) == next && next > 0
    ensures KeysBelow(s + [x], id, next + 1) && IncreasingBy(s + [x], id)
  {
    var t := s + [x];
    forall i | 0 <= i < |t| ensures 0 < id(t[i]) < next + 1 {
      if i < |s| { assert t[i] == s[i]; }
    }
    forall i, j | 0 <= i < j < |t| ensures id(t[i]) < id(t[j]) {
      assert t[i] == s[i];
      if j < |s| { assert t[j] == s[j]; }
    }
  }

  /** An update that keeps every row's id keeps the table in id order. */
  lemma SameKeysKeepsKeys<T>(s: seq<T>, t: seq<T>, id: T -> int, next: int)
    requires KeysBelow(s, id, next) && IncreasingBy(s, id)
    requires |t| == |s| && forall i :: 0 <= i < |s| ==> id(t[i]) == id(s[i])
    ensures KeysBelow(t, id, next) && IncreasingBy(t, id)
  {
  }
}
