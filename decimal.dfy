/** Exact decimal rounding as Python's `Decimal.quantize(..., ROUND_HALF_EVEN)`
    performs it, over Dafny's exact `real`. */
module Decimal {

  /** 10^16: `quantize(Decimal('0.0000000000000001'))` keeps 16 places. */
  const Scale16: nat := 10_000_000_000_000_000
  /** 10^5: `quantize(Decimal('0.00001'))` keeps 5 places. */
  const Scale5: nat := 100_000

  /** Round to the nearest integer; a value exactly halfway between two
      integers goes to the even one. */
  function RoundHalfEven(x: real): (n: int)
    ensures -(1.0 / 2.0) <= n as real - x <= 1.0 / 2.0
    ensures (n as real - x == 1.0 / 2.0 || x - n as real == 1.0 / 2.0) ==> n % 2 == 0
  {
    var f := x.Floor;
    var frac := x - f as real;
    if frac < 1.0 / 2.0 then f
    else if frac > 1.0 / 2.0 then f + 1
    else if f % 2 == 0 then f
    else f + 1
  }

  /** The two postconditions of RoundHalfEven pin its result down: any
      integer closer than one half, or exactly one half away and even, is
      the rounded value. */
  lemma RoundHalfEvenUnique(x: real, m: int)
    requires -(1.0 / 2.0) <= m as real - x <= 1.0 / 2.0
    requires (m as real - x == 1.0 / 2.0 || x - m as real == 1.0 / 2.0) ==> m % 2 == 0
    ensures RoundHalfEven(x) == m
  {
    var n := RoundHalfEven(x);
    assert -1.0 <= (n - m) as real <= 1.0;
    if n != m {
      assert false;
    }
  }

  /** An integer is its own rounding. */
  lemma RoundHalfEvenOfInteger(m: int)
    ensures RoundHalfEven(m as real) == m
  {
    RoundHalfEvenUnique(m as real, m);
  }

  /** `x` is a whole number. */
  predicate Whole(x: real)
  {
    x.Floor as real == x
  }

  /** Sums and negations of whole numbers are whole. */
  lemma WholeArithmetic(a: real, b: real)
    requires Whole(a) && Whole(b)
    ensures Whole(a + b) && Whole(-a)
  {
    var s := a.Floor + b.Floor;
    assert a + b == s as real;
    assert (s as real).Floor == s;
    assert -a == (-a.Floor) as real;
    assert ((-a.Floor) as real).Floor == -a.Floor;
  }

  /** Scaled by `scale`, a whole `r` that lies exactly one half from `x` is even. */
  predicate TieToEven(r: real, x: real, scale: nat)
  {
    var rs := r * scale as real;
    var xs := x * scale as real;
    (rs - xs == 1.0 / 2.0 || xs - rs == 1.0 / 2.0) ==> rs.Floor % 2 == 0
  }

  /** `r` has at most as many decimal places as `scale` (a power of ten) allows. */
  predicate HasPlaces(r: real, scale: nat)
  {
    (r * scale as real).Floor as real == r * scale as real
  }

  /** Round `x` to a multiple of `1 / scale` (scale = 10^places), half to even. */
  function Quantize(x: real, scale: nat): (r: real)
    requires scale > 0
    ensures HasPlaces(r, scale)
    ensures -(1.0 / 2.0) <= r * scale as real - x * scale as real <= 1.0 / 2.0
    ensures TieToEven(r, x, scale)
  {
    var y := x * scale as real;
    var n := RoundHalfEven(y);
    var q := n as real / scale as real;
    assert q * scale as real == n as real;
    assert (n as real).Floor == n;
    assert HasPlaces(q, scale);
    assert TieToEven(q, x, scale) by {
      assert (n as real - y == 1.0 / 2.0 || y - n as real == 1.0 / 2.0) ==> n % 2 == 0;
    }
    q
  }

  /** A value that already has at most `places` decimals is not changed. */
  lemma QuantizeExact(x: real, scale: nat)
    requires scale > 0
    requires HasPlaces(x, scale)
    ensures Quantize(x, scale) == x
  {
    var m := (x * scale as real).Floor;
    RoundHalfEvenUnique(x * scale as real, m);
    assert m as real / scale as real == x;
  }
}
