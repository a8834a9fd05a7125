/** The big-endian pair putUint64BE and getUint64BE of model/opret.go, in place on [8]byte. */
module BigEndian {
  import opened Base

  type uint64 = v: int | 0 <= v < 0x1_0000_0000_0000_0000
  type int64 = v: int | -0x8000_0000_0000_0000 <= v < 0x8000_0000_0000_0000

  /** uint64(v) for an int64 v, and int64(v) for a uint64 v: two's complement. */
  function ToUint64(v: int64): uint64 {
    if v < 0 then v + 0x1_0000_0000_0000_0000 else v
  }

  function ToInt64(v: uint64): int64 {
    if v >= 0x8000_0000_0000_0000 then v - 0x1_0000_0000_0000_0000 else v
  }

  /** The number a big-endian byte string denotes. */
  function Value(s: bytes): nat {
    if s == [] then 0 else 256 * Value(s[..|s| - 1]) + s[|s| - 1]
  }

  function Pow256(n: nat): (p: nat)
    ensures p > 0
  {
    if n == 0 then 1 else 256 * Pow256(n - 1)
  }

  /** The n least significant base-256 digits of v, most significant first. */
  function Digits(v: nat, n: nat): (s: bytes)
    ensures |s| == n
  {
    if n == 0 then [] else Digits(v / 256, n - 1) + [v % 256]
  }

  lemma {:induction false} ValueDigits(v: nat, n: nat)
    requires v < Pow256(n)
    ensures Value(Digits(v, n)) == v
  {
    if n == 0 {
    } else {
      ValueDigits(v / 256, n - 1);
      assert Digits(v, n)[..n - 1] == Digits(v / 256, n - 1);
    }
  }

  lemma {:induction false} DigitsValue(s: bytes)
    ensures Value(s) < Pow256(|s|)
    ensures Digits(Value(s), |s|) == s
  {
    if s == [] {
    } else {
      DigitsValue(s[..|s| - 1]);
      assert Value(s) / 256 == Value(s[..|s| - 1]);
      assert s == s[..|s| - 1] + [s[|s| - 1]];
    }
  }

  lemma Pow256Of8()
    ensures Pow256(8) == 0x1_0000_0000_0000_0000
  {
    assert Pow256(4) == 0x1_0000_0000;
    assert Pow256(6) == 0x1_0000_0000_0000;
  }

  lemma ValueOf8(s: bytes)
    requires |s| == 8
    ensures Value(s) == s[0] as int * 0x100_0000_0000_0000 + s[1] as int * 0x1_0000_0000_0000
                        + s[2] as int * 0x100_0000_0000 + s[3] as int * 0x1_0000_0000 + s[4] as int * 0x100_0000
                        + s[5] as int * 0x1_0000 + s[6] as int * 0x100 + s[7]
  {
    assert s[..8] == s;
    forall i | 1 <= i <= 8
      ensures Value(s[..i]) == 256 * Value(s[..i - 1]) + s[i - 1]
    {
      assert s[..i][..i - 1] == s[..i - 1];
    }
    assert Value(s[..0]) == 0;
    assert Value(s[..4]) == s[0] as int * 0x100_0000 + s[1] as int * 0x1_0000 + s[2] as int * 0x100 + s[3];
  }

  lemma DigitsOf8(v: uint64)
    ensures Digits(v, 8) == [v / 0x100_0000_0000_0000 % 256, v / 0x1_0000_0000_0000 % 256, v / 0x100_0000_0000 % 256,
                             v / 0x1_0000_0000 % 256, v / 0x100_0000 % 256, v / 0x1_0000 % 256, v / 0x100 % 256,
                                 v % 256]
  {
    var w := v / 0x1_0000_0000;
    assert v / 0x100 / 0x100 == v / 0x1_0000;
    assert v / 0x1_0000 / 0x100 == v / 0x100_0000;
    assert v / 0x100_0000 / 0x100 == w;
    assert w / 0x100 == v / 0x100_0000_0000;
    assert w / 0x100 / 0x100 == w / 0x1_0000 == v / 0x1_0000_0000_0000;
    assert w / 0x1_0000 / 0x100 == w / 0x100_0000 == v / 0x100_0000_0000_0000;
    DigitsOf4(w);
    DigitsSplit(v);
  }

  lemma DigitsOf4(v: nat)
    ensures Digits(v, 4) == [v / 0x100_0000 % 256, v / 0x1_0000 % 256, v / 0x100 % 256, v % 256]
  {
    assert v / 0x100 / 0x100 == v / 0x1_0000;
    assert v / 0x1_0000 / 0x100 == v / 0x100_0000;
    assert Digits(v / 0x100_0000, 1) == [v / 0x100_0000 % 256];
    assert Digits(v / 0x1_0000, 2) == Digits(v / 0x100_0000, 1) + [v / 0x1_0000 % 256];
    assert Digits(v / 0x100, 3) == Digits(v / 0x1_0000, 2) + [v / 0x100 % 256];
  }

  lemma DigitsSplit(v: nat)
    ensures Digits(v, 8) == Digits(v / 0x1_0000_0000, 4)
                            + [v / 0x100_0000 % 256, v / 0x1_0000 % 256, v / 0x100 % 256, v % 256]
  {
    assert v / 0x100 / 0x100 == v / 0x1_0000;
    assert v / 0x1_0000 / 0x100 == v / 0x100_0000;
    assert v / 0x100_0000 / 0x100 == v / 0x1_0000_0000;
    assert Digits(v / 0x100_0000, 5) == Digits(v / 0x1_0000_0000, 4) + [v / 0x100_0000 % 256];
    assert Digits(v / 0x1_0000, 6) == Digits(v / 0x100_0000, 5) + [v / 0x1_0000 % 256];
    assert Digits(v / 0x100, 7) == Digits(v / 0x1_0000, 6) + [v / 0x100 % 256];
  }

  /** getUint64BE: eight shifted additions; the sum never leaves the range of uint64. */
  method GetUint64BE(b: array<byte>) returns (v: uint64)
    requires b.Length == 8
    ensures v == Value(b[..])
  {
    ValueOf8(b[..]);
    v := 0;
    v := v + b[0] as uint64 * 0x100_0000_0000_0000;
    v := v + b[1] as uint64 * 0x1_0000_0000_0000;
    v := v + b[2] as uint64 * 0x100_0000_0000;
    v := v + b[3] as uint64 * 0x1_0000_0000;
    v := v + b[4] as uint64 * 0x100_0000;
    v := v + b[5] as uint64 * 0x1_0000;
    v := v + b[6] as uint64 * 0x100;
    v := v + b[7] as uint64;
  }

  /** putUint64BE: byte(v >> n) is division by 2^n and then truncation to eight bits. */
  method PutUint64BE(b: array<byte>, v: uint64)
    requires b.Length == 8
    modifies b
    ensures b[..] == Digits(v, 8)
    ensures Value(b[..]) == v
  {
    b[0] := v / 0x100_0000_0000_0000 % 256;
    b[1] := v / 0x1_0000_0000_0000 % 256;
    b[2] := v / 0x100_0000_0000 % 256;
    b[3] := v / 0x1_0000_0000 % 256;
    b[4] := v / 0x100_0000 % 256;
    b[5] := v / 0x1_0000 % 256;
    b[6] := v / 0x100 % 256;
    b[7] := v % 256;
    DigitsOf8(v);
    Bijection(v, b[..]);
  }

  /** The pair is a bijection between uint64 and [8]byte. */
  lemma Bijection(v: uint64, s: bytes)
    requires |s| == 8
    ensures Value(Digits(v, 8)) == v
    ensures Value(s) < 0x1_0000_0000_0000_0000 && Digits(Value(s), 8) == s
  {
    Pow256Of8();
    ValueDigits(v, 8);
    DigitsValue(s);
  }

  predicate LexLess(a: bytes, b: bytes)
    requires |a| == |b|
  {
    a != [] && (a[0] < b[0] || (a[0] == b[0] && LexLess(a[1..], b[1..])))
  }

  lemma {:induction false} ValueFront(s: bytes)
    requires s != []
    ensures Value(s) == s[0] * Pow256(|s| - 1) + Value(s[1..])
  {
    if |s| == 1 {
      assert Value(s[..0]) == 0;
    } else {
      var init := s[..|s| - 1];
      ValueFront(init);
      assert init[1..] == s[1..][..|s| - 2];
      assert Value(s[1..]) == 256 * Value(init[1..]) + s[|s| - 1];
      assert Value(s) == 256 * (s[0] * Pow256(|s| - 2) + Value(init[1..])) + s[|s| - 1];
      assert 256 * (s[0] * Pow256(|s| - 2)) == s[0] * Pow256(|s| - 1);
    }
  }

  lemma LeadingDigit(x: int, y: int, p: nat, u: nat, v: nat)
    requires u < p && v < p
    ensures x < y ==> x * p + u < y * p + v
  {
    if x < y {
      var d := y - x - 1;
      assert d * p >= 0;
      assert y * p == x * p + p + d * p;
    }
  }

  /** Byte order is numeric order. */
  lemma {:induction false} OrderAgrees(a: bytes, b: bytes)
    requires |a| == |b|
    ensures LexLess(a, b) <==> Value(a) < Value(b)
  {
    if a == [] {
    } else {
      ValueFront(a);
      ValueFront(b);
      DigitsValue(a[1..]);
      DigitsValue(b[1..]);
      OrderAgrees(a[1..], b[1..]);
      var p := Pow256(|a| - 1);
      LeadingDigit(a[0], b[0], p, Value(a[1..]), Value(b[1..]));
      LeadingDigit(b[0], a[0], p, Value(b[1..]), Value(a[1..]));
    }
  }

  /** The casts keep a number modulo 2^64, and the numbers both types have. */
  lemma CastsAreModular(v: int64, u: uint64)
    ensures (ToUint64(v) - v) % 0x1_0000_0000_0000_0000 == 0
    ensures (ToInt64(u) - u) % 0x1_0000_0000_0000_0000 == 0
    ensures ToInt64(ToUint64(v)) == v && ToUint64(ToInt64(u)) == u
    ensures v >= 0 ==> ToUint64(v) == v
    ensures u < 0x8000_0000_0000_0000 ==> ToInt64(u) == u
  {
  }
}
