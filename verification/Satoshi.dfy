/**
  The satoshi pipeline of package btc: a JSON amount decoded to binary64, printed with %.8f,
  parsed again, and reduced by the fee in calcFee. Every binary64 operation rounds to nearest
  (section 4.3.1 of IEEE 754-2019); ties may go either way.
 */
module Satoshi {
  import opened Base

  /** 21 million bitcoin in satoshi. */
  const MAX_MONEY: nat := 2_100_000_000_000_000

  function Pow2(n: nat): (p: nat)
    ensures p > 0
  {
    if n == 0 then 1 else 2 * Pow2(n - 1)
  }

  /** 2^e for any integer e. */
  function Ulp(e: int): (q: real)
    ensures q > 0.0
  {
    if e >= 0 then Pow2(e) as real else 1.0 / Pow2(-e) as real
  }

  /** y = m * 2^e, with 2^52 <= |m| <= 2^53, is within half an ulp of x. */
  ghost predicate Approximates(x: real, y: real, m: int, e: int) {
    && (4503599627370496 <= m <= 9007199254740992 || 4503599627370496 <= -m <= 9007199254740992)
    && y == m as real * Ulp(e)
    && -Ulp(e) <= 2.0 * (y - x) <= Ulp(e)
  }

  /** y is a binary64 value nearest to x, with exponents unbounded. */
  ghost predicate Nearest(x: real, y: real) {
    if x == 0.0 then y == 0.0 else exists m: int, e: int :: Approximates(x, y, m, e)
  }

  /** round rounds a real to binary64; fixed8 counts the units of 10^-8 that %.8f prints. */
  datatype Float = Float(round: real -> real, fixed8: real -> int)

  /** Far inside the normal numbers of binary64: no overflow and no subnormal result. */
  predicate Normal(x: real) {
    && -100_000_000_000_000_000_000.0 <= x <= 100_000_000_000_000_000_000.0
    && (x == 0.0 || x >= 0.000_000_000_1 || x <= -0.000_000_000_1)
  }

  ghost predicate Ieee(f: Float) {
    && (forall x: real | Normal(x) :: Nearest(x, f.round(x)))
    && (forall y: real :: -1.0 <= 2.0 * (f.fixed8(y) as real - y * 100_000_000.0) <= 1.0)
  }

  /** Decimal text as strconv sees it: a multiple of 10^-8, or text ParseFloat rejects. */
  datatype Text = Units(n: int) | Malformed

  /** int(x) for a float64 x truncates toward zero. */
  function Trunc(x: real): int {
    if x >= 0.0 then x.Floor else -((-x).Floor)
  }

  /** The float64 that a JSON amount or a decimal text of n satoshi decodes to. */
  function Decoded(f: Float, n: int): real {
    f.round(n as real / 100_000_000.0)
  }

  /** fmt.Sprintf("%.8f", x). */
  function Printed(f: Float, x: real): Text {
    Units(f.fixed8(x))
  }

  function Truncated(f: Float, n: int): int {
    Trunc(f.round(Decoded(f, n) * 100_000_000.0))
  }

  /** The fees that int(feeSatoshi) does not wrap. */
  type Fee = n: nat | n < 0x8000_0000_0000_0000

  /** calcFee. */
  function CalcFee(f: Float, bal: Text, feeSatoshi: Fee): Result<Text> {
    match bal
    case Malformed => Err(FailedToDecode)
    case Units(n) =>
      var f64Bal := f.round(f.round((Truncated(f, n) - feeSatoshi) as real) / 100_000_000.0);
      if f64Bal < 0.0 then Err(NotEnoughBalance) else Ok(Printed(f, f64Bal))
  }

  /** What a successful fee subtraction leaves: the exact change or one satoshi less. */
  predicate Change(value: nat, fee: nat, c: nat) {
    c == value - fee || c == value - fee - 1
  }

  lemma Scale(a: real, b: real, c: real)
    requires a <= b && c > 0.0
    ensures a * c <= b * c
  {
  }

  lemma UlpStep(e: int)
    ensures Ulp(e + 1) == 2.0 * Ulp(e)
  {
    if e < 0 {
      assert Pow2(-e) == 2 * Pow2(-e - 1);
    }
  }

  lemma {:induction false} UlpMonotone(a: int, b: int)
    requires a <= b
    ensures Ulp(a) <= Ulp(b)
    decreases b - a
  {
    if a < b {
      UlpMonotone(a, b - 1);
      UlpStep(b - 1);
    }
  }

  lemma HalfUlp(r: real, q: real, x: real)
    requires q > 0.0 && 4503599627370496.0 <= r <= 9007199254740992.0
    requires -q <= 2.0 * (r * q - x) <= q
    ensures (4503599627370496.0 - 0.5) * q <= x <= (9007199254740992.0 + 0.5) * q
  {
    Scale(4503599627370496.0, r, q);
    Scale(r, 9007199254740992.0, q);
  }

  /** How large x is compared with the ulp of the value it rounds to. */
  lemma UlpBounds(x: real, y: real, m: int, e: int)
    requires Approximates(x, y, m, e)
    ensures if m > 0 then (4503599627370496.0 - 0.5) * Ulp(e) <= x <= (9007199254740992.0 + 0.5) * Ulp(e)
            else (4503599627370496.0 - 0.5) * Ulp(e) <= -x <= (9007199254740992.0 + 0.5) * Ulp(e)
  {
    if m > 0 {
      HalfUlp(m as real, Ulp(e), x);
    } else {
      assert (-m) as real * Ulp(e) == -y;
      HalfUlp((-m) as real, Ulp(e), -x);
    }
  }

  /** Rounding moves a value by at most one part in 2^53 - 1. */
  lemma RelativeError(x: real, y: real)
    requires Nearest(x, y)
    ensures if x >= 0.0 then -x <= 9007199254740991.0 * (y - x) <= x else x <= 9007199254740991.0 * (y - x) <= -x
  {
    if x != 0.0 {
      var m: int, e: int :| Approximates(x, y, m, e);
      UlpBounds(x, y, m, e);
      UlpIsSmall(Ulp(e), x, y);
    }
  }

  lemma UlpIsSmall(q: real, x: real, y: real)
    requires q > 0.0 && -q <= 2.0 * (y - x) <= q
    requires x >= (4503599627370496.0 - 0.5) * q || -x >= (4503599627370496.0 - 0.5) * q
    ensures if x >= 0.0 then -x <= 9007199254740991.0 * (y - x) <= x else x <= 9007199254740991.0 * (y - x) <= -x
  {
  }

  /** Integers up to 2^52 are binary64 values, so rounding keeps them. */
  lemma IntegersAreExact(x: int, y: real)
    requires Nearest(x as real, y)
    requires 0 <= x <= 4503599627370496
    ensures y == x as real
  {
    if x != 0 {
      var m: int, e: int :| Approximates(x as real, y, m, e);
      UlpBounds(x as real, y, m, e);
      FineGrid(e, x as real);
      GridPoint(m, Ulp(e), Pow2(-e), x);
    }
  }

  lemma FineGrid(e: int, x: real)
    requires 4503599627370496.0 >= x >= (4503599627370496.0 - 0.5) * Ulp(e)
    ensures e <= 0 && Ulp(e) * Pow2(-e) as real == 1.0
  {
    assert Ulp(1) == 2.0;
    if e >= 1 {
      UlpMonotone(1, e);
    }
  }

  lemma Cancel(a: real, q: real)
    requires q > 0.0 && a * q >= 0.0
    ensures a >= 0.0
  {
  }

  lemma GridPoint(m: int, q: real, p: nat, x: int)
    requires q * p as real == 1.0 && q > 0.0
    requires -q <= 2.0 * (m as real * q - x as real) <= q
    ensures m as real * q == x as real
  {
    var d := (m - x * p) as real;
    assert d == m as real - x as real * p as real;
    calc {
      d * q;
      m as real * q - x as real * (p as real * q);
      m as real * q - x as real;
    }
    assert (1.0 - 2.0 * d) * q >= 0.0 && (1.0 + 2.0 * d) * q >= 0.0;
    Cancel(1.0 - 2.0 * d, q);
    Cancel(1.0 + 2.0 * d, q);
  }

  /** Printing a decoded amount with eight decimals gives the amount back. */
  lemma PrintParse(f: Float, s: nat)
    requires Ieee(f) && s <= MAX_MONEY
    ensures Printed(f, Decoded(f, s)) == Units(s)
  {
    DecodedBounds(f, s);
  }

  /** Two roundings of at most one part in 2^53 - 1 move an amount by less than one satoshi. */
  lemma TwoRoundings(s: real, x: real, p: real)
    requires 0.0 <= s <= 2_100_000_000_000_000.0
    requires x >= 0.0 && -s <= 9007199254740991.0 * (x - s) <= s && -x <= 9007199254740991.0 * (p - x) <= x
    ensures s - 1.0 < p < s + 1.0 && p >= 0.0
  {
  }

  lemma DecodedBounds(f: Float, s: nat)
    requires Ieee(f) && s <= MAX_MONEY
    ensures Decoded(f, s) * 100_000_000.0 >= 0.0
    ensures -(s as real) <= 9007199254740991.0 * (Decoded(f, s) * 100_000_000.0 - s as real) <= s as real
  {
    var x := s as real / 100_000_000.0;
    assert Normal(x);
    assert Nearest(x, f.round(x));
    RelativeError(x, f.round(x));
  }

  lemma TruncatedBounds(f: Float, s: nat)
    requires Ieee(f) && s <= MAX_MONEY
    ensures Truncated(f, s) == s || Truncated(f, s) == s - 1
    ensures Truncated(f, s) == s <==> f.round(Decoded(f, s) * 100_000_000.0) >= s as real
    ensures Truncated(f, s) >= 0
  {
    var p := f.round(Decoded(f, s) * 100_000_000.0);
    ProductBounds(f, s, p);
    TruncNear(s, p);
  }

  lemma ProductBounds(f: Float, s: nat, p: real)
    requires Ieee(f) && s <= MAX_MONEY && p == f.round(Decoded(f, s) * 100_000_000.0)
    ensures s as real - 1.0 < p < s as real + 1.0 && p >= 0.0
  {
    DecodedBounds(f, s);
    var x := Decoded(f, s) * 100_000_000.0;
    assert Normal(x);
    assert Nearest(x, p);
    RelativeError(x, p);
    TwoRoundings(s as real, x, p);
  }

  lemma TruncNear(s: nat, p: real)
    requires s as real - 1.0 < p < s as real + 1.0 && p >= 0.0
    ensures 0 <= Trunc(p) && s - 1 <= Trunc(p) <= s
    ensures Trunc(p) == s <==> p >= s as real
  {
  }

  lemma SignKept(f: Float, x: real)
    requires Ieee(f) && Normal(x)
    ensures f.round(x) < 0.0 <==> x < 0.0
    ensures if x >= 0.0 then f.round(x) <= 2.0 * x && x <= 2.0 * f.round(x)
            else 2.0 * x <= f.round(x) && 2.0 * f.round(x) <= x
  {
    assert Nearest(x, f.round(x));
    RelativeError(x, f.round(x));
  }

  lemma DifferenceIsNormal(d: int, r: real)
    requires -10_000_000_000_000_000_000 <= d <= 10_000_000_000_000_000_000
    requires if d >= 0 then r <= 2.0 * d as real && d as real <= 2.0 * r
             else 2.0 * d as real <= r && 2.0 * r <= d as real
    ensures Normal(d as real) && Normal(r / 100_000_000.0)
  {
  }

  lemma CalcFeeResult(f: Float, s: nat, fee: Fee)
    requires Ieee(f) && s <= MAX_MONEY
    ensures CalcFee(f, Units(s), fee)
            == if Truncated(f, s) < fee then Err(NotEnoughBalance) else Ok(Units(Truncated(f, s) - fee))
  {
    TruncatedBounds(f, s);
    var d := Truncated(f, s) - fee;
    var r := f.round(d as real);
    assert Normal(d as real);
    SignKept(f, d as real);
    DifferenceIsNormal(d, r);
    SignKept(f, r / 100_000_000.0);
    if d >= 0 {
      assert Nearest(d as real, r);
      IntegersAreExact(d, r);
      PrintParse(f, d);
    }
  }

  /**
    calcFee on every possible balance: it succeeds from one satoshi above the fee, fails below the
    fee, and what it leaves is the exact change or one satoshi less, never more.
   */
  lemma CalcFeeSafe(f: Float, s: nat, fee: Fee)
    requires Ieee(f) && s <= MAX_MONEY
    ensures var r := CalcFee(f, Units(s), fee);
            && (s >= fee + 1 ==> r.Ok?)
            && (s < fee ==> r == Err(NotEnoughBalance))
            && (r.Ok? ==> r.value.Units? && r.value.n >= 0 && Change(s, fee, r.value.n))
            && (r.Err? ==> r == Err(NotEnoughBalance))
  {
    CalcFeeResult(f, s, fee);
    TruncatedBounds(f, s);
  }

  /** The subtraction is exact exactly when the product with 10^8 does not round below s. */
  lemma CalcFeeExact(f: Float, s: nat, fee: Fee)
    requires Ieee(f) && s <= MAX_MONEY
    ensures CalcFee(f, Units(s), fee) == Ok(Units(s - fee))
            <==> s >= fee && f.round(Decoded(f, s) * 100_000_000.0) >= s as real
  {
    CalcFeeResult(f, s, fee);
    TruncatedBounds(f, s);
  }

  /** When x lies inside the binade of 2^e, the value it rounds to is a multiple of 2^e. */
  lemma NearestGrid(x: real, y: real, e: int) returns (k: int)
    requires Nearest(x, y) && x > 0.0
    requires (4503599627370496.0 + 1.0) * Ulp(e) < x < (9007199254740992.0 - 1.0) * Ulp(e)
    ensures Approximates(x, y, k, e)
  {
    var d: int;
    k, d :| Approximates(x, y, k, d);
    NearestExponent(x, y, k, d, e);
  }

  lemma NearestExponent(x: real, y: real, k: int, d: int, e: int)
    requires Approximates(x, y, k, d)
    requires (4503599627370496.0 + 1.0) * Ulp(e) < x < (9007199254740992.0 - 1.0) * Ulp(e)
    ensures d == e
  {
    UlpBounds(x, y, k, d);
    SameBinade(x, d, e);
  }

  lemma SameBinade(x: real, d: int, e: int)
    requires (4503599627370496.0 - 0.5) * Ulp(d) <= x <= (9007199254740992.0 + 0.5) * Ulp(d)
    requires (4503599627370496.0 + 1.0) * Ulp(e) < x < (9007199254740992.0 - 1.0) * Ulp(e)
    ensures d == e
  {
    UlpStep(e);
    UlpStep(e - 1);
    if d > e {
      UlpMonotone(e + 1, d);
      FarBinade(x, Ulp(d), Ulp(e));
    } else if d < e {
      UlpMonotone(d, e - 1);
      FarBinade(x, Ulp(d), Ulp(e));
    }
  }

  lemma FarBinade(x: real, q: real, p: real)
    requires q > 0.0 && p > 0.0
    requires q >= 2.0 * p || p >= 2.0 * q
    ensures !((4503599627370496.0 - 0.5) * q <= x <= (9007199254740992.0 + 0.5) * q
              && (4503599627370496.0 + 1.0) * p < x < (9007199254740992.0 - 1.0) * p)
  {
  }

  lemma UlpValues()
    ensures Ulp(-28) == 1.0 / 0x1000_0000 as real
    ensures Ulp(-54) == 1.0 / 0x40_0000_0000_0000 as real
  {
    assert Pow2(10) == 0x400;
    assert Pow2(20) == 0x10_0000;
    assert Pow2(28) == 0x1000_0000;
    assert Pow2(40) == 0x100_0000_0000;
    assert Pow2(50) == 0x4_0000_0000_0000;
  }

  /**
    The satoshi is really lost on some balances: 0.29 BTC less the normal fee of 20000 satoshi comes
    out as 0.28979999, whichever way ties are rounded.
   */
  lemma OneSatoshiLost(f: Float)
    requires Ieee(f)
    ensures CalcFee(f, Units(29_000_000), 20_000) == Ok(Units(28_979_999))
  {
    var b := Decoded(f, 29_000_000);
    assert Normal(0.29);
    assert Nearest(0.29, b);
    RoundedTenths(b);
    var p := f.round(b * 100_000_000.0);
    assert Normal(b * 100_000_000.0);
    assert Nearest(b * 100_000_000.0, p);
    RoundedProduct(b, p);
    TruncatedBounds(f, 29_000_000);
    CalcFeeResult(f, 29_000_000, 20_000);
  }

  lemma RoundedTenths(b: real)
    requires Nearest(0.29, b)
    ensures b == 5224175567749775.0 / 18014398509481984.0
  {
    UlpValues();
    var k := NearestGrid(0.29, b, -54);
    TenthsOnGrid(k, b, Ulp(-54));
  }

  lemma TenthsOnGrid(k: int, b: real, q: real)
    requires q == 1.0 / 18014398509481984.0 && b == k as real * q && -q <= 2.0 * (b - 0.29) <= q
    ensures b == 5224175567749775.0 / 18014398509481984.0
  {
    assert b == k as real / 18014398509481984.0;
    assert k == 5224175567749775;
  }

  lemma RoundedProduct(b: real, p: real)
    requires b == 5224175567749775.0 / 18014398509481984.0 && Nearest(b * 100_000_000.0, p)
    ensures p < 29_000_000.0
  {
    UlpValues();
    var k := NearestGrid(b * 100_000_000.0, p, -28);
    assert p == k as real / 268435456.0;
    assert k == 7784628223999999;
  }

  /** int(x) is x without its fraction. */
  lemma TruncTowardZero(x: real)
    ensures if x >= 0.0 then x - 1.0 < Trunc(x) as real <= x else x <= Trunc(x) as real < x + 1.0
  {
  }

  /** Text that ParseFloat rejects is a decode error, whatever the fee. */
  lemma CalcFeeMalformed(f: Float, fee: Fee)
    ensures CalcFee(f, Malformed, fee) == Err(FailedToDecode)
  {
  }
}
