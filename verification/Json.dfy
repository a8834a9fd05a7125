/** Decoded JSON, and the renderings of a ledger transaction that bitcoin-cli prints. */
module Json {
  import opened Base
  import opened Satoshi
  import opened Ledger
  import Hex

  datatype Json =
    | Null
    | Bool(b: bool)
    | Num(x: real)
    | Str(s: string)
    | Arr(items: seq<Json>)
    | Obj(fields: map<string, Json>)

  /** val["key"] on a Go map: nil when the key is missing or val is not an object. */
  function Field(j: Json, key: string): Json {
    if j.Obj? && key in j.fields then j.fields[key] else Null
  }

  /** How a scan judges one array element. */
  datatype Scan<T> = Skip | Bad | Hit(value: T)

  /** Element i decides the scan: everything before it was well-formed and did not match. */
  ghost predicate Decides<T>(scans: seq<Scan<T>>, i: int) {
    0 <= i < |scans| && !scans[i].Skip? && forall j | 0 <= j < i :: scans[j].Skip?
  }

  /** One element of "details" in ParseTransactionReceived. */
  function Received(f: Float, d: Json, recvAddr: string): Scan<(int, Text)> {
    if !d.Obj? || !Field(d, "category").Str? then Bad
    else if Field(d, "category").s != "receive" then Skip
    else if !Field(d, "address").Str? then Bad
    else if Field(d, "address").s != recvAddr then Skip
    else if !Field(d, "amount").Num? || !Field(d, "vout").Num? then Bad
    else Hit((Trunc(Field(d, "vout").x), Printed(f, Field(d, "amount").x)))
  }

  const PREFIX := "OP_RETURN "

  /** One element of "vout" in ParseRawTransactionOpReturn. */
  function OpReturnOf(o: Json): Scan<bytes> {
    var asm := Field(Field(o, "scriptPubKey"), "asm");
    if !asm.Str? then Bad
    else if !(PREFIX <= asm.s) then Skip
    else
      match Hex.Decode(asm.s[|PREFIX|..])
      case Some(b) => Hit(b)
      case None => Bad
  }

  /** gettransaction: the wallet's own transactions also list what they sent. */
  function TransactionJson(f: Float, tx: Tx): Json {
    var amount := Decoded(f, tx.body.value);
    var sent := [
      Obj(map["address" := Str(tx.body.addr), "category" := Str("send"), "amount" := Num(-amount),
              "vout" := Num(tx.index as real)]),
      Obj(map["category" := Str("send"), "amount" := Num(0.0), "vout" := Num(1.0)])];
    var received := Obj(map["address" := Str(tx.body.addr), "category" := Str("receive"),
                            "amount" := Num(amount), "vout" := Num(tx.index as real)]);
    Obj(map["details" := Arr(if tx.own then sent + [received] else [received]),
            "confirmations" := Num(tx.confs as real),
            "time" := Num(tx.time as real),
            "hex" := Str(Hex.Encode(tx.raw))])
  }

  /** decoderawtransaction: the payment script does not begin with OP_RETURN. */
  function RawTransactionJson(body: RawTx): Json {
    Obj(map["vout" := Arr([
      Obj(map["scriptPubKey" := Obj(map["asm" := Str("0 " + body.addr)])]),
      Obj(map["scriptPubKey" := Obj(map["asm" := Str(PREFIX + Hex.Encode(body.data))])])])])
  }

  /** signrawtransactionwithwallet. */
  function SignedJson(raw: bytes, complete: bool): Json {
    Obj(map["hex" := Str(Hex.Encode(raw)), "complete" := Bool(complete)])
  }

  lemma FieldExactly(fields: map<string, Json>, key: string, j: Json)
    ensures Field(Obj(fields), key) == if key in fields then fields[key] else Null
    ensures !j.Obj? ==> Field(j, key) == Null
  {
  }

  /** How one entry of "details" is judged, by what its fields hold. */
  lemma ReceivedExactly(f: Float, d: map<string, Json>, addr: string)
    ensures var r := Received(f, Obj(d), addr);
            && (r.Hit? <==> && "category" in d && d["category"] == Str("receive")
                            && "address" in d && d["address"] == Str(addr)
                            && "amount" in d && d["amount"].Num? && "vout" in d && d["vout"].Num?)
            && (r.Hit? ==> r.value == (Trunc(d["vout"].x), Printed(f, d["amount"].x)))
            && (r.Skip? <==> && "category" in d && d["category"].Str?
                             && (d["category"] == Str("receive") ==>
                                   "address" in d && d["address"].Str? && d["address"] != Str(addr)))
    ensures forall j: Json | !j.Obj? :: Received(f, j, addr) == Bad
  {
  }

  /** How one output is judged, by its script text. */
  lemma OpReturnExactly(asm: string)
    ensures var r := OpReturnOf(Obj(map["scriptPubKey" := Obj(map["asm" := Str(asm)])]));
            && (r.Skip? <==> !("OP_RETURN " <= asm))
            && (r.Hit? <==> "OP_RETURN " <= asm && Hex.Decode(asm[10..]).Some?)
            && (r.Hit? ==> Hex.Decode(asm[10..]) == Some(r.value))
  {
  }

  /** An output without a script text is malformed. */
  lemma OpReturnMalformed(o: Json)
    requires var s := Field(o, "scriptPubKey"); !Field(s, "asm").Str?
    ensures OpReturnOf(o) == Bad
  {
  }
}
