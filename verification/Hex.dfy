/**
  The text transport of bitcoin-cli: lowercase base16 (section 8 of RFC 4648) as printed by
  Go's encoding/hex, and the removal of CR and LF from command output.
 */
module Hex {
  import opened Base

  const CR: char := '\r'
  const LF: char := '\n'

  function Digit(n: int): (c: char)
    requires 0 <= n < 16
    ensures DigitValue(c) == Some(n) && !IsBreak(c)
  {
    if n < 10 then (n + '0' as int) as char else (n - 10 + 'a' as int) as char
  }

  /** Both letter cases are accepted, as encoding/hex does. */
  function DigitValue(c: char): (v: Option<byte>)
    ensures v.Some? ==> v.value < 16
  {
    if '0' <= c <= '9' then Some(c as int - '0' as int)
    else if 'a' <= c <= 'f' then Some(c as int - 'a' as int + 10)
    else if 'A' <= c <= 'F' then Some(c as int - 'A' as int + 10)
    else None
  }

  function Encode(b: bytes): string {
    if b == [] then "" else [Digit(b[0] / 16), Digit(b[0] % 16)] + Encode(b[1..])
  }

  /** None stands for both hex.ErrLength and hex.InvalidByteError. */
  function Decode(s: string): Option<bytes> {
    if s == "" then Some([])
    else if |s| == 1 then None
    else
      match (DigitValue(s[0]), DigitValue(s[1]), Decode(s[2..]))
      case (Some(h), Some(l), Some(rest)) => Some([Join(h, l)] + rest)
      case _ => None
  }

  function Join(high: byte, low: byte): (b: byte)
    requires high < 16 && low < 16
    ensures b / 16 == high && b % 16 == low
  {
    16 * high + low
  }

  lemma {:induction false} DecodeEncode(b: bytes)
    ensures Decode(Encode(b)) == Some(b)
  {
    if b == [] {
    } else {
      DecodeEncode(b[1..]);
      var s := Encode(b);
      assert s[2..] == Encode(b[1..]);
      assert Join(b[0] / 16, b[0] % 16) == b[0];
      assert b == [b[0]] + b[1..];
    }
  }

  lemma EncodeInjective(a: bytes, b: bytes)
    ensures Encode(a) == Encode(b) <==> a == b
  {
    DecodeEncode(a);
    DecodeEncode(b);
  }

  lemma {:induction false} EncodeConcat(a: bytes, b: bytes)
    ensures Encode(a + b) == Encode(a) + Encode(b)
  {
    if a == [] {
      assert a + b == b;
    } else {
      EncodeConcat(a[1..], b);
      assert (a + b)[1..] == a[1..] + b && (a + b)[0] == a[0];
      var d := [Digit(a[0] / 16), Digit(a[0] % 16)];
      assert d + (Encode(a[1..]) + Encode(b)) == (d + Encode(a[1..])) + Encode(b);
    }
  }

  function LowerChar(c: char): char {
    if 'A' <= c <= 'Z' then (c as int - 'A' as int + 'a' as int) as char else c
  }

  function Lower(s: string): string {
    if s == "" then "" else [LowerChar(s[0])] + Lower(s[1..])
  }

  lemma DigitOfValue(c: char)
    requires DigitValue(c).Some?
    ensures Digit(DigitValue(c).value) == LowerChar(c)
  {
  }

  lemma {:induction false} DecodeLength(s: string)
    requires Decode(s).Some?
    ensures |s| == 2 * |Decode(s).value|
  {
    if s == "" {
    } else {
      DecodeLength(s[2..]);
    }
  }

  /** The other direction: text that decodes is, up to letter case, the encoding of its bytes. */
  lemma {:induction false} EncodeDecode(s: string)
    requires Decode(s).Some?
    ensures Encode(Decode(s).value) == Lower(s)
  {
    if s == "" {
    } else {
      EncodeDecode(s[2..]);
      DigitOfValue(s[0]);
      DigitOfValue(s[1]);
      var b := Decode(s).value;
      assert b[1..] == Decode(s[2..]).value;
      assert b[0] == Join(DigitValue(s[0]).value, DigitValue(s[1]).value);
      assert s[1..][1..] == s[2..];
      assert Lower(s) == [LowerChar(s[0])] + ([LowerChar(s[1])] + Lower(s[2..]));
    }
  }

  predicate IsBreak(c: char) {
    c == CR || c == LF
  }

  ghost predicate OnlyBreaks(s: string) {
    forall c | c in s :: IsBreak(c)
  }

  /** The characters of s that are neither CR nor LF, in order. */
  function Strip(s: string): string {
    if s == "" then "" else (if IsBreak(s[0]) then "" else [s[0]]) + Strip(s[1..])
  }

  lemma {:induction false} StripConcat(a: string, b: string)
    ensures Strip(a + b) == Strip(a) + Strip(b)
  {
    if a == "" {
      assert a + b == b;
    } else {
      StripConcat(a[1..], b);
      assert (a + b)[1..] == a[1..] + b && (a + b)[0] == a[0];
      var d := if IsBreak(a[0]) then "" else [a[0]];
      assert d + (Strip(a[1..]) + Strip(b)) == (d + Strip(a[1..])) + Strip(b);
    }
  }

  /** removeCRLF: reads buf byte by byte into a second buffer. */
  method RemoveCRLF(buf: string) returns (buf2: string)
    ensures buf2 == Strip(buf)
  {
    buf2 := "";
    var i := 0;
    while i < |buf|
      invariant 0 <= i <= |buf|
      invariant buf2 == Strip(buf[..i])
    {
      StripConcat(buf[..i], [buf[i]]);
      assert buf[..i + 1] == buf[..i] + [buf[i]];
      if !IsBreak(buf[i]) {
        buf2 := buf2 + [buf[i]];
      }
      i := i + 1;
    }
    assert buf[..i] == buf;
  }

  /** t with gaps[i] inserted before its i-th character and the last gap at its end. */
  function Weave(t: string, gaps: seq<string>): string
    requires |gaps| == |t| + 1
  {
    if t == "" then gaps[0] else gaps[0] + [t[0]] + Weave(t[1..], gaps[1..])
  }

  ghost predicate LineBreaks(gaps: seq<string>) {
    forall i | 0 <= i < |gaps| :: OnlyBreaks(gaps[i])
  }

  ghost predicate NoBreaks(s: string) {
    forall c | c in s :: !IsBreak(c)
  }

  lemma {:induction false} StripOnlyBreaks(s: string)
    requires OnlyBreaks(s)
    ensures Strip(s) == ""
  {
    if s == "" {
    } else {
      assert s[0] in s;
      StripOnlyBreaks(s[1..]);
    }
  }

  lemma {:induction false} StripWeave(t: string, gaps: seq<string>)
    requires |gaps| == |t| + 1 && LineBreaks(gaps) && NoBreaks(t)
    ensures Strip(Weave(t, gaps)) == t
  {
    StripOnlyBreaks(gaps[0]);
    if t == "" {
    } else {
      assert t[0] in t;
      StripWeave(t[1..], gaps[1..]);
      StripConcat(gaps[0] + [t[0]], Weave(t[1..], gaps[1..]));
      StripConcat(gaps[0], [t[0]]);
      assert Strip([t[0]]) == [t[0]];
    }
  }

  /** The line breaks that Strip takes out of s, gap by gap. */
  function Gaps(s: string): (g: seq<string>)
    ensures |g| == |Strip(s)| + 1
  {
    if s == "" then [""]
    else
      var g := Gaps(s[1..]);
      if IsBreak(s[0]) then [[s[0]] + g[0]] + g[1..] else [""] + g
  }

  lemma WeaveFrontBreak(t: string, g: seq<string>, c: char)
    requires |g| == |t| + 1
    ensures Weave(t, [[c] + g[0]] + g[1..]) == [c] + Weave(t, g)
  {
    var g' := [[c] + g[0]] + g[1..];
    assert g'[1..] == g[1..];
    if t != "" {
      var w := Weave(t[1..], g[1..]);
      assert ([c] + g[0]) + [t[0]] + w == [c] + (g[0] + [t[0]] + w);
    }
  }

  /** Stripping only removes line breaks: every text is its stripped form with breaks woven in. */
  lemma {:induction false} StripIsUnweave(s: string)
    ensures NoBreaks(Strip(s)) && LineBreaks(Gaps(s)) && Weave(Strip(s), Gaps(s)) == s
  {
    if s == "" {
    } else {
      StripIsUnweave(s[1..]);
      var t, g := Strip(s[1..]), Gaps(s[1..]);
      assert s == [s[0]] + s[1..];
      if IsBreak(s[0]) {
        WeaveFrontBreak(t, g, s[0]);
        assert OnlyBreaks(g[0]) && Strip(s) == "" + t == t;
      } else {
        assert ([s[0]] + t)[1..] == t && ([""] + g)[1..] == g;
        assert Weave([s[0]] + t, [""] + g) == "" + [s[0]] + Weave(t, g);
      }
    }
  }

  lemma StripIdempotent(s: string)
    ensures Strip(Strip(s)) == Strip(s)
  {
    StripIsUnweave(s);
    var t := Strip(s);
    var none := seq(|t| + 1, i => "");
    StripWeave(t, none);
    WeaveNothing(t, none);
  }

  lemma {:induction false} WeaveNothing(t: string, gaps: seq<string>)
    requires |gaps| == |t| + 1
    requires forall i | 0 <= i < |gaps| :: gaps[i] == ""
    ensures Weave(t, gaps) == t
  {
    if t == "" {
    } else {
      WeaveNothing(t[1..], gaps[1..]);
    }
  }

  lemma {:induction false} EncodeNoBreaks(b: bytes)
    ensures NoBreaks(Encode(b))
  {
    if b == [] {
    } else {
      EncodeNoBreaks(b[1..]);
    }
  }

  /** What CreateRawTransactionForAnchor and SendRawTransaction do with standard output. */
  function ReadHex(stdout: string): Result<bytes> {
    match Decode(Strip(stdout))
    case None => Err(FailedToDecode)
    case Some(b) => if b == [] then Err(FailedToDecode) else Ok(b)
  }

  method DecodeStdout(stdout: string) returns (r: Result<bytes>)
    ensures r == ReadHex(stdout)
  {
    var s := RemoveCRLF(stdout);
    var bs := Decode(s);
    if bs.None? || |bs.value| == 0 {
      return Err(FailedToDecode);
    }
    return Ok(bs.value);
  }

  /** The transport round trip: line breaks anywhere in the printed hex text do no harm. */
  lemma TransportRoundTrip(b: bytes, gaps: seq<string>)
    requires |gaps| == |Encode(b)| + 1 && LineBreaks(gaps)
    ensures ReadHex(Weave(Encode(b), gaps)) == if b == [] then Err(FailedToDecode) else Ok(b)
  {
    EncodeNoBreaks(b);
    StripWeave(Encode(b), gaps);
    DecodeEncode(b);
  }

  /** The text of a byte is its high and then its low hexadecimal digit, in lower case. */
  lemma {:induction false} EncodeDigits(b: bytes, i: nat)
    requires i < |b|
    ensures |Encode(b)| == 2 * |b|
    ensures Encode(b)[2 * i] == "0123456789abcdef"[b[i] / 16]
    ensures Encode(b)[2 * i + 1] == "0123456789abcdef"[b[i] % 16]
    decreases |b|
  {
    DigitText(b[0] / 16);
    DigitText(b[0] % 16);
    if |b| > 1 {
      EncodeDigits(b[1..], if i > 0 then i - 1 else 0);
    }
  }

  lemma DigitText(n: int)
    requires 0 <= n < 16
    ensures Digit(n) == "0123456789abcdef"[n]
  {
  }

  ghost predicate HexText(s: string) {
    |s| % 2 == 0 && forall c | c in s :: c in "0123456789abcdefABCDEF"
  }

  lemma DigitAccepted(c: char)
    ensures DigitValue(c).Some? <==> c in "0123456789abcdefABCDEF"
  {
    var d := "0123456789abcdefABCDEF";
    if DigitValue(c).Some? {
      var v := DigitValue(c).value;
      assert c == d[v] || c == d[v + 6];
    }
  }

  /** Decoding accepts an even number of hexadecimal digits, in either letter case, and nothing else. */
  lemma {:induction false} DecodeAccepts(s: string)
    ensures Decode(s).Some? <==> HexText(s)
  {
    if |s| >= 2 {
      DecodeAccepts(s[2..]);
      DigitAccepted(s[0]);
      DigitAccepted(s[1]);
      assert s == [s[0], s[1]] + s[2..];
    }
  }

  /** The bytes that removeCRLF drops are 0x0d and 0x0a. */
  lemma BreaksAre(c: char)
    ensures IsBreak(c) <==> c as int == 0x0d || c as int == 0x0a
  {
  }

  /** Which output is read: an even, positive number of hexadecimal digits, apart from line breaks. */
  lemma ReadHexExactly(stdout: string)
    ensures ReadHex(stdout).Ok? <==> HexText(Strip(stdout)) && Strip(stdout) != ""
    ensures ReadHex(stdout).Ok? ==> Some(ReadHex(stdout).value) == Decode(Strip(stdout))
    ensures ReadHex(stdout).Err? ==> ReadHex(stdout) == Err(FailedToDecode)
  {
    DecodeAccepts(Strip(stdout));
    if Decode(Strip(stdout)).Some? {
      DecodeLength(Strip(stdout));
    }
  }
}
