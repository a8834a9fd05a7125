/** The rounding that module Satoshi relies on exists: its assumptions can be met. */
module Binary64 {
  import opened Satoshi

  lemma {:induction false} Pow2Above(n: nat)
    ensures Pow2(n) > n
  {
    if n == 0 {
    } else {
      Pow2Above(n - 1);
    }
  }

  lemma PowerAbove(x: real) returns (n: nat)
    requires x > 0.0
    ensures x < Ulp(n)
  {
    n := x.Floor + 1;
    Pow2Above(n);
  }

  lemma PowerBelow(x: real) returns (n: nat)
    requires x > 0.0
    ensures Ulp(-(n as int)) <= x
  {
    n := (1.0 / x).Floor + 1;
    Pow2Above(n);
    Reciprocal(x, Pow2(n) as real);
  }

  lemma Reciprocal(x: real, p: real)
    requires x > 0.0 && p > 1.0 / x
    ensures 1.0 / p <= x
  {
    var r := 1.0 / x;
    assert r * x == 1.0 && r > 0.0;
    Satoshi.Scale(r, p, x);
    Quotient(1.0, p, x);
  }

  lemma Quotient(a: real, p: real, x: real)
    requires p > 0.0 && a <= p * x
    ensures a / p <= x
  {
    var r := a / p;
    assert r * p == a;
    Cancel(x - r, p);
  }

  /** The binade of x. */
  lemma {:induction false} Binade(x: real, low: int, high: int) returns (e: int)
    requires low <= high && 4503599627370496.0 * Ulp(low) <= x < 4503599627370496.0 * Ulp(high)
    ensures 4503599627370496.0 * Ulp(e) <= x < 9007199254740992.0 * Ulp(e)
    decreases high - low
  {
    UlpStep(high - 1);
    if 4503599627370496.0 * Ulp(high - 1) <= x {
      e := high - 1;
    } else {
      e := Binade(x, low, high - 1);
    }
  }

  /** Rounding to the nearest multiple of q. */
  lemma NearestMultiple(x: real, q: real) returns (m: int)
    requires q > 0.0 && 4503599627370496.0 * q <= x < 9007199254740992.0 * q
    ensures 4503599627370496 <= m <= 9007199254740992
    ensures -q <= 2.0 * (m as real * q - x) <= q
  {
    var r := x / q;
    assert r * q == x;
    m := (r + 0.5).Floor;
    QuotientBounds(x, r, q);
    ErrorScales(m as real - r, q);
    assert m as real * q - x == (m as real - r) * q;
  }

  lemma QuotientBounds(x: real, r: real, q: real)
    requires q > 0.0 && x == r * q && 4503599627370496.0 * q <= x < 9007199254740992.0 * q
    ensures 4503599627370496.0 <= r <= 9007199254740992.0
  {
    assert (r - 4503599627370496.0) * q >= 0.0 && (9007199254740992.0 - r) * q >= 0.0;
    Cancel(r - 4503599627370496.0, q);
    Cancel(9007199254740992.0 - r, q);
  }

  lemma ErrorScales(d: real, q: real)
    requires q > 0.0 && -1.0 <= 2.0 * d <= 1.0
    ensures -q <= 2.0 * (d * q) <= q
  {
  }

  lemma NearestPositive(x: real) returns (m: int, e: int)
    requires x > 0.0
    ensures Approximates(x, m as real * Ulp(e), m, e)
  {
    var high := PowerAbove(x);
    var n := PowerBelow(x / 4503599627370496.0);
    var low: int := -(n as int);
    if high < low {
      UlpMonotone(high, low);
    }
    e := Binade(x, low, high);
    m := NearestMultiple(x, Ulp(e));
  }

  lemma NearestExists(x: real) returns (y: real)
    ensures Nearest(x, y)
  {
    if x == 0.0 {
      y := 0.0;
    } else if x > 0.0 {
      var m, e := NearestPositive(x);
      y := m as real * Ulp(e);
    } else {
      var m, e := NearestPositive(-x);
      y := (-m) as real * Ulp(e);
      assert Approximates(x, y, -m, e);
    }
  }

  ghost predicate Roundable(x: real) {
    exists y :: Nearest(x, y)
  }

  /** So every lemma that asks for Ieee(f) speaks of something. */
  lemma IeeeExists()
    ensures exists f :: Ieee(f)
  {
    forall x: real
      ensures Roundable(x)
    {
      var y := NearestExists(x);
    }
    var f := Float(x => if Roundable(x) then var y :| Nearest(x, y); y else 0.0, y => (y * 100_000_000.0 + 0.5).Floor);
    forall x: real
      ensures Nearest(x, f.round(x))
    {
      assert Roundable(x);
    }
    assert Ieee(f);
  }
}
