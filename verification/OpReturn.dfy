/** Package model: anchors, NewAnchor, and the 80-byte OP_RETURN codec. */
module OpReturn {
  import opened Base
  import opened BigEndian

  /** time.Time as whole seconds since 1970 (what Unix returns) and nanoseconds within the second. */
  datatype Time = Time(sec: int64, nsec: nat)

  function Floor(t: Time): Time {
    Time(t.sec, 0)
  }

  type Id32 = s: bytes | |s| == 32 witness seq(32, i => 0)

  datatype Anchor = Anchor(version: byte, net: byte, time: Time, dom: Id32, tx: Id32)

  const TESTNET3: byte := 3
  const TESTNET4: byte := 4
  const MAINNET: byte := 255

  /** BTCNet.String returns "" for every other value. */
  predicate ValidNet(n: byte) {
    n == MAINNET || n == TESTNET3 || n == TESTNET4
  }

  predicate ValidVersion(v: byte) {
    v == 1 || v == 255
  }

  /** The first 32 bytes of id, padded with zeros at the end. */
  function Pad32(id: bytes): Id32 {
    if |id| >= 32 then id[..32] else id + seq(32 - |id|, i => 0)
  }

  /** Go's copy(dst[at:], src) where src fits. */
  method CopyAt(dst: array<byte>, at: nat, src: bytes)
    requires at + |src| <= dst.Length
    modifies dst
    ensures dst[..] == old(dst[..at]) + src + old(dst[at + |src|..])
  {
    forall i | 0 <= i < |src| {
      dst[at + i] := src[i];
    }
  }

  /** The first up to 32 bytes of id, copied into a zeroed [32]byte. */
  method Copy32(id: bytes) returns (d: array<byte>)
    ensures d[..] == Pad32(id)
  {
    d := new byte[32](i => 0);
    var dlen := |id|;
    if dlen > 32 {
      dlen := 32;
    }
    CopyAt(d, 0, id[..dlen]);
    assert d[..] == id[..dlen] + seq(32 - dlen, i => 0);
  }

  /** NewAnchor clamps both lengths and copies into zeroed [32]byte values. */
  method NewAnchor(version: byte, net: byte, time: Time, bbc1dom: bytes, bbc1tx: bytes) returns (a: Anchor)
    ensures a == Anchor(version, net, time, Pad32(bbc1dom), Pad32(bbc1tx))
  {
    var d := Copy32(bbc1dom);
    var t := Copy32(bbc1tx);
    a := Anchor(version, net, time, d[..], t[..]);
  }

  /** An id is changed by NewAnchor exactly when it is not 32 bytes long. */
  lemma PadIdentity(id: bytes)
    ensures Pad32(id) == id <==> |id| == 32
  {
    if |id| == 32 {
      assert id[..32] == id;
    }
  }

  const SIGNATURE: bytes := [0x42, 0x42, 0x63, 0x31]

  function Encode(a: Anchor): (s: bytes)
    ensures |s| == 80
  {
    SIGNATURE + [a.version, a.net, 0, 0] + Digits(ToUint64(a.time.sec), 8) + a.dom + a.tx
  }

  function Decode(s: bytes): Result<Anchor>
    requires |s| == 80
  {
    if s[..4] != SIGNATURE then Err(InvalidSignature)
    else if !ValidVersion(s[4]) then Err(InvalidVersion)
    else if !ValidNet(s[5]) then Err(InvalidBTCNet)
    else
      Bijection(0, s[8..16]);
      Ok(Anchor(s[4], s[5], Time(ToInt64(Value(s[8..16])), 0), s[16..48], s[48..80]))
  }

  method SetHeader(opRet: array<byte>, version: byte, net: byte)
    requires opRet.Length == 80 && forall i | 0 <= i < 80 :: opRet[i] == 0
    modifies opRet
    ensures opRet[..8] == SIGNATURE + [version, net, 0, 0]
  {
    opRet[0] := 0x42;
    opRet[1] := 0x42;
    opRet[2] := 0x63;
    opRet[3] := 0x31;
    opRet[4] := version;
    opRet[5] := net;
  }

  /** EncodeOpReturn fills a zeroed [80]byte by assignment and copy; bytes 6 and 7 stay zero. */
  method EncodeOpReturn(a: Anchor) returns (opRet: array<byte>)
    ensures fresh(opRet) && opRet[..] == Encode(a)
  {
    opRet := new byte[80](i => 0);
    SetHeader(opRet, a.version, a.net);
    var ts := new byte[8](i => 0);
    PutUint64BE(ts, ToUint64(a.time.sec));
    ghost var head := SIGNATURE + [a.version, a.net, 0, 0];
    CopyAt(opRet, 8, ts[..]);
    ghost var timed := head + ts[..];
    assert opRet[..16] == timed;
    CopyAt(opRet, 16, a.dom);
    assert opRet[..48] == timed + a.dom;
    CopyAt(opRet, 48, a.tx);
    assert opRet[..] == timed + a.dom + a.tx;
  }

  method DecodeOpReturn(b: array<byte>) returns (r: Result<Anchor>)
    requires b.Length == 80
    ensures r == Decode(b[..])
  {
    if b[0] != 0x42 || b[1] != 0x42 || b[2] != 0x63 || b[3] != 0x31 {
      return Err(InvalidSignature);
    }
    assert b[..][..4] == SIGNATURE;
    var version := b[4];
    if !ValidVersion(version) {
      return Err(InvalidVersion);
    }
    var net := b[5];
    if !ValidNet(net) {
      return Err(InvalidBTCNet);
    }
    var ts := new byte[8](i requires 0 <= i < 8 reads b => b[8 + i]);
    assert ts[..] == b[..][8..16];
    var v := GetUint64BE(ts);
    var d := new byte[32](i requires 0 <= i < 32 reads b => b[16 + i]);
    var t := new byte[32](i requires 0 <= i < 32 reads b => b[48 + i]);
    assert d[..] == b[..][16..48] && t[..] == b[..][48..80];
    r := Ok(Anchor(version, net, Time(ToInt64(v), 0), d[..], t[..]));
  }

  lemma EncodeParts(a: Anchor)
    ensures var s := Encode(a);
            && s[..4] == SIGNATURE && s[4] == a.version && s[5] == a.net && s[6] == s[7] == 0
            && s[8..16] == Digits(ToUint64(a.time.sec), 8) && s[16..48] == a.dom && s[48..80] == a.tx
  {
  }

  /**
    Decode after encode: an anchor comes back, at whole seconds and with negative times intact,
    exactly when its version and network are valid.
   */
  lemma DecodeEncode(a: Anchor)
    ensures Decode(Encode(a)).Ok? <==> ValidVersion(a.version) && ValidNet(a.net)
    ensures Decode(Encode(a)).Ok? ==> Decode(Encode(a)) == Ok(a.(time := Floor(a.time)))
  {
    EncodeParts(a);
    Bijection(ToUint64(a.time.sec), Digits(ToUint64(a.time.sec), 8));
  }

  /** Encode after decode restores the input exactly when the two reserved bytes are zero. */
  lemma EncodeDecode(s: bytes)
    requires |s| == 80 && Decode(s).Ok?
    ensures Encode(Decode(s).value) == s <==> s[6] == s[7] == 0
  {
    var a := Decode(s).value;
    EncodeParts(a);
    Bijection(0, s[8..16]);
    assert ToUint64(a.time.sec) == Value(s[8..16]);
    assert Encode(a)[8..16] == s[8..16];
    if s[6] == s[7] == 0 {
      assert s == s[..4] + [s[4], s[5], s[6], s[7]] + s[8..16] + s[16..48] + s[48..80];
    }
  }

  /** Byte i of a padded id. */
  lemma PadBytes(id: bytes, i: nat)
    requires i < 32
    ensures |Pad32(id)| == 32 && Pad32(id)[i] == if i < |id| then id[i] else 0
  {
  }

  /** Where everything stands in the 80 bytes. */
  lemma EncodeLayout(a: Anchor)
    ensures var s := Encode(a);
            && |s| == 80 && s[..4] == [0x42, 0x42, 0x63, 0x31]
            && s[4] == a.version && s[5] == a.net && s[6] == s[7] == 0
            && (Value(s[8..16]) - a.time.sec) % 0x1_0000_0000_0000_0000 == 0
            && s[16..48] == a.dom && s[48..80] == a.tx
  {
    EncodeParts(a);
    Bijection(ToUint64(a.time.sec), Digits(ToUint64(a.time.sec), 8));
  }

  /** Which 80 bytes decode, which of the three errors the others get, and what is read from where. */
  lemma DecodeExactly(s: bytes)
    requires |s| == 80
    ensures Decode(s).Ok? <==> s[..4] == [0x42, 0x42, 0x63, 0x31] && s[4] in {1, 255} && s[5] in {3, 4, 255}
    ensures s[..4] != [0x42, 0x42, 0x63, 0x31] ==> Decode(s) == Err(InvalidSignature)
    ensures s[..4] == [0x42, 0x42, 0x63, 0x31] && s[4] !in {1, 255} ==> Decode(s) == Err(InvalidVersion)
    ensures s[..4] == [0x42, 0x42, 0x63, 0x31] && s[4] in {1, 255} && s[5] !in {3, 4, 255}
            ==> Decode(s) == Err(InvalidBTCNet)
    ensures Decode(s).Ok? ==>
              var a := Decode(s).value;
              && a.version == s[4] && a.net == s[5] && a.dom == s[16..48] && a.tx == s[48..80]
              && a.time.nsec == 0 && (a.time.sec - Value(s[8..16])) % 0x1_0000_0000_0000_0000 == 0
  {
    Bijection(0, s[8..16]);
  }
}
