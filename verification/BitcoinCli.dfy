/** Package btc: the bitcoin-cli adapter. What the node answers beyond its ledger comes from oracles. */
module BitcoinCli {
  import opened Base
  import opened OpReturn
  import opened Satoshi
  import opened Ledger
  import opened Json
  import BigEndian
  import Hex

  /** sendrawtransaction may also broadcast and still be reported as an error (a timeout). */
  datatype SendOutcome = Refused | Accepted(id: bytes, time: BigEndian.int64)
    | Unreported(id: bytes, time: BigEndian.int64)

  /** How the foreign calls of one PutAnchor turn out. */
  datatype PutOracle = PutOracle(up: bool, got: bool, raw: Option<bytes>, signed: Option<bytes>, complete: bool,
                                 send: SendOutcome)

  /** How the foreign calls of one GetAnchor turn out. */
  datatype GetOracle = GetOracle(up: bool, got: bool, decoded: bool)

  /** The ledger and what the raw transactions seen so far mean. */
  datatype Node = Node(chain: Chain, decoded: map<bytes, RawTx>)

  ghost predicate ValidNode(n: Node) {
    && Bounded(n.chain)
    && forall id | id in n.chain ::
         var tx := n.chain[id]; tx.raw != [] && tx.raw in n.decoded && n.decoded[tx.raw] == tx.body
  }

  /** raw can be the serialisation of body: it is not known to mean something else. */
  predicate Consistent(n: Node, raw: bytes, body: RawTx) {
    raw in n.decoded ==> n.decoded[raw] == body
  }

  function Learn(n: Node, raw: bytes, body: RawTx): Node {
    n.(decoded := n.decoded[raw := body])
  }

  function Broadcast(n: Node, id: bytes, raw: bytes, body: RawTx, time: BigEndian.int64): Node {
    n.(chain := n.chain[id := Tx(body, raw, true, 0, 0, time)])
  }

  predicate CanSend(n: Node, id: bytes, body: RawTx) {
    Fresh(n.chain, id) && Acceptable(n.chain, body)
  }

  /** The node behind bitcoin-cli. Command arguments and output are the hex texts of the source. */
  class Bitcoind {
    var chain: Chain
    var decoded: map<bytes, RawTx>

    function State(): Node
      reads this
    {
      Node(chain, decoded)
    }

    method GetTransaction(f: Float, txid: string, got: bool) returns (r: Result<Json>)
      ensures r == match Hex.Decode(txid)
                   case Some(id) => if got && id in chain then Ok(TransactionJson(f, chain[id]))
                       else Err(InvalidTransactionID)
                   case None => Err(InvalidTransactionID)
    {
      var id := Hex.Decode(txid);
      if id.Some? && got && id.value in chain {
        return Ok(TransactionJson(f, chain[id.value]));
      }
      return Err(InvalidTransactionID);
    }

    method CreateRawTransaction(txid: string, vout: int, addr: string, amount: Text, data: string, raw: Option<bytes>)
      returns (r: Result<string>)
      modifies this
      ensures chain == old(chain)
      ensures r.Err? ==> decoded == old(decoded)
      ensures r.Ok? <==> raw.Some? && Hex.Decode(txid).Some? && Hex.Decode(data).Some? && amount.Units? && amount.n >= 0
                         && old(Consistent(State(), raw.value,
                                  RawTx(Hex.Decode(txid).value, vout, addr, amount.n, Hex.Decode(data).value)))
      ensures r.Ok? ==> r.value == Hex.Encode(raw.value) + "\n"
                        && State() == Learn(old(State()), raw.value,
                                            RawTx(Hex.Decode(txid).value, vout, addr, amount.n, Hex.Decode(data).value))
    {
      var id, d := Hex.Decode(txid), Hex.Decode(data);
      if raw.None? || id.None? || d.None? || !amount.Units? || amount.n < 0 {
        return Err(CommandFailed);
      }
      var body := RawTx(id.value, vout, addr, amount.n, d.value);
      if !Consistent(State(), raw.value, body) {
        return Err(CommandFailed);
      }
      decoded := decoded[raw.value := body];
      return Ok(Hex.Encode(raw.value) + "\n");
    }

    method SignRawTransactionWithWallet(rawHex: string, signed: Option<bytes>, complete: bool) returns (r: Result<Json>)
      modifies this
      ensures chain == old(chain)
      ensures r.Err? ==> decoded == old(decoded)
      ensures var raw := Hex.Decode(rawHex);
              && (r.Ok? <==> signed.Some? && raw.Some? && raw.value in old(decoded)
                             && old(Consistent(State(), signed.value, decoded[raw.value])))
              && (r.Ok? ==> r.value == SignedJson(signed.value, complete)
                            && State() == Learn(old(State()), signed.value, old(decoded[raw.value])))
    {
      var raw := Hex.Decode(rawHex);
      if signed.None? || raw.None? || raw.value !in decoded || !Consistent(State(), signed.value, decoded[raw.value]) {
        return Err(CommandFailed);
      }
      decoded := decoded[signed.value := decoded[raw.value]];
      return Ok(SignedJson(signed.value, complete));
    }

    /** Bytes that are no transaction, and bodies the ledger rejects, are refused. */
    method SendRawTransaction(rawHex: string, send: SendOutcome) returns (r: Result<string>)
      modifies this
      ensures var raw := Hex.Decode(rawHex);
              var known := raw.Some? && raw.value in old(decoded);
              var sent := known && !send.Refused? && CanSend(old(State()), send.id, old(decoded)[raw.value]);
              && (!sent ==> r.Err? && State() == old(State()))
              && (sent ==> && State() == Broadcast(old(State()), send.id, raw.value, old(decoded)[raw.value], send.time)
                           && r == if send.Accepted? then Ok(Hex.Encode(send.id) + "\n") else Err(CommandFailed))
    {
      var raw := Hex.Decode(rawHex);
      if raw.None? || raw.value !in decoded || send.Refused? || !CanSend(State(), send.id, decoded[raw.value]) {
        return Err(CommandFailed);
      }
      chain := Broadcast(State(), send.id, raw.value, decoded[raw.value], send.time).chain;
      if send.Unreported? {
        return Err(CommandFailed);
      }
      return Ok(Hex.Encode(send.id) + "\n");
    }

    method DecodeRawTransaction(rawHex: string, works: bool) returns (r: Result<Json>)
      ensures r == match Hex.Decode(rawHex)
                   case Some(raw) => if works && raw in decoded then Ok(RawTransactionJson(decoded[raw]))
                       else Err(CommandFailed)
                   case None => Err(CommandFailed)
    {
      var raw := Hex.Decode(rawHex);
      if raw.Some? && works && raw.value in decoded {
        return Ok(RawTransactionJson(decoded[raw.value]));
      }
      return Err(CommandFailed);
    }
  }

  /** What one PutAnchor does to the node and to the adapter's current UTXO; txid is None on error. */
  datatype PutResult = PutResult(node: Node, x: Utxo, txid: Option<bytes>)

  function Put(f: Float, net: byte, n: Node, x: Utxo, a: Anchor, o: PutOracle): PutResult {
    var failed := PutResult(n, x, None);
    if a.net != net || !o.up || !o.got then failed
    else
      match AnchorBody(LeftWith(f), n.chain, x, a)
      case None => failed
      case Some(body) =>
        if o.raw.None? || !Consistent(n, o.raw.value, body) then failed
        else if o.raw.value == [] then failed.(node := Learn(n, o.raw.value, body))
        else SignAndSend(Learn(n, o.raw.value, body), x, body, o)
  }

  /** The second half of PutAnchor, from signing on. */
  function SignAndSend(n: Node, x: Utxo, body: RawTx, o: PutOracle): PutResult {
    if o.signed.None? || !Consistent(n, o.signed.value, body) then PutResult(n, x, None)
    else
      var signed := Learn(n, o.signed.value, body);
      if !o.complete || o.signed.value == [] || o.send.Refused? || !CanSend(signed, o.send.id, body) then
        PutResult(signed, x, None)
      else
        var sent := Broadcast(signed, o.send.id, o.signed.value, body, o.send.time);
        if o.send.Unreported? then PutResult(sent, x, None)
        else PutResult(sent, Utxo(o.send.id, x.addr), Some(o.send.id))
  }

  /** Class BitcoinCLI: only xTransactionID and xBTCAddr change. */
  class BitcoinCLI {
    const btcNet: byte
    const node: Bitcoind
    const f: Float
    var xTransactionID: bytes
    var xBTCAddr: string

    constructor (btcNet: byte, node: Bitcoind, f: Float)
      ensures this.btcNet == btcNet && this.node == node && this.f == f && X() == Utxo([], "")
    {
      this.btcNet, this.node, this.f := btcNet, node, f;
      xTransactionID, xBTCAddr := [], "";
    }

    /** The current UTXO. */
    function X(): Utxo
      reads this
    {
      Utxo(xTransactionID, xBTCAddr)
    }

    method XSetUTXO(txid: bytes, btcAddr: string)
      modifies this
      ensures X() == Utxo(txid, btcAddr)
    {
      xTransactionID := txid;
      xBTCAddr := btcAddr;
    }

    method XGetUTXO() returns (txid: bytes, btcAddr: string)
      ensures Utxo(txid, btcAddr) == X()
    {
      return xTransactionID, xBTCAddr;
    }

    /** The first element that is malformed or that matches decides; with neither the scan fails. */
    method ParseTransactionReceived(tx: Json, recvAddr: string) returns (r: Result<(int, Text)>)
      ensures !Field(tx, "details").Arr? ==> r == Err(FailedToDecode)
      ensures Field(tx, "details").Arr? ==>
                var ds := Field(tx, "details").items;
                var scans := seq(|ds|, i requires 0 <= i < |ds| => Received(f, ds[i], recvAddr));
                && (r.Ok? <==> exists i :: Decides(scans, i) && scans[i].Hit?)
                && (forall i | Decides(scans, i) && scans[i].Hit? :: r == Ok(scans[i].value))
                && (r.Err? ==> r == Err(FailedToDecode)
                               && ((exists i :: Decides(scans, i) && scans[i].Bad?)
                                   || forall s | s in scans :: s.Skip?))
    {
      if !Field(tx, "details").Arr? {
        return Err(FailedToDecode);
      }
      var details := Field(tx, "details").items;
      ghost var scans := seq(|details|, i requires 0 <= i < |details| => Received(f, details[i], recvAddr));
      var idx := 0;
      while idx < |details|
        invariant 0 <= idx <= |details|
        invariant forall j | 0 <= j < idx :: scans[j].Skip?
      {
        var dd := details[idx];
        assert scans[idx].Skip? || Decides(scans, idx);
        if !dd.Obj? {
          return Err(FailedToDecode);
        }
        var cat := Field(dd, "category");
        if !cat.Str? {
          return Err(FailedToDecode);
        }
        if cat.s == "receive" {
          var addr := Field(dd, "address");
          if !addr.Str? {
            return Err(FailedToDecode);
          }
          if addr.s == recvAddr {
            var amo := Field(dd, "amount");
            if !amo.Num? {
              return Err(FailedToDecode);
            }
            var fvout := Field(dd, "vout");
            if !fvout.Num? {
              return Err(FailedToDecode);
            }
            return Ok((Trunc(fvout.x), Printed(f, amo.x)));
          }
        }
        idx := idx + 1;
      }
      return Err(FailedToDecode);
    }

    /** The same scan over the outputs, for the first script that begins with OP_RETURN. */
    method ParseRawTransactionOpReturn(rawTx: Json) returns (r: Result<bytes>)
      ensures !Field(rawTx, "vout").Arr? ==> r == Err(FailedToDecode)
      ensures Field(rawTx, "vout").Arr? ==>
                var vs := Field(rawTx, "vout").items;
                var scans := seq(|vs|, i requires 0 <= i < |vs| => OpReturnOf(vs[i]));
                && (r.Ok? <==> exists i :: Decides(scans, i) && scans[i].Hit?)
                && (forall i | Decides(scans, i) && scans[i].Hit? :: r == Ok(scans[i].value))
                && (r.Err? ==> r == Err(FailedToDecode)
                               && ((exists i :: Decides(scans, i) && scans[i].Bad?)
                                   || forall s | s in scans :: s.Skip?))
    {
      if !Field(rawTx, "vout").Arr? {
        return Err(FailedToDecode);
      }
      var vouts := Field(rawTx, "vout").items;
      ghost var scans := seq(|vouts|, i requires 0 <= i < |vouts| => OpReturnOf(vouts[i]));
      var idx := 0;
      while idx < |vouts|
        invariant 0 <= idx <= |vouts|
        invariant forall j | 0 <= j < idx :: scans[j].Skip?
      {
        assert scans[idx].Skip? || Decides(scans, idx);
        if !vouts[idx].Obj? {
          return Err(FailedToDecode);
        }
        var spk := Field(vouts[idx], "scriptPubKey");
        if !spk.Obj? {
          return Err(FailedToDecode);
        }
        var asm := Field(spk, "asm");
        if !asm.Str? {
          return Err(FailedToDecode);
        }
        if PREFIX <= asm.s {
          var opRet := Hex.Decode(asm.s[|PREFIX|..]);
          if opRet.None? {
            return Err(FailedToDecode);
          }
          return Ok(opRet.value);
        }
        idx := idx + 1;
      }
      return Err(FailedToDecode);
    }

    method ParseTransactionConfirmations(tx: Json) returns (r: Result<int>)
      ensures r == if Field(tx, "confirmations").Num? then Ok(Trunc(Field(tx, "confirmations").x))
              else Err(FailedToDecode)
    {
      var confs := Field(tx, "confirmations");
      if !confs.Num? {
        return Err(FailedToDecode);
      }
      return Ok(Trunc(confs.x));
    }

    method ParseTransactionTime(tx: Json) returns (r: Result<int>)
      ensures r == if Field(tx, "time").Num? then Ok(Trunc(Field(tx, "time").x)) else Err(FailedToDecode)
    {
      var unixT := Field(tx, "time");
      if !unixT.Num? {
        return Err(FailedToDecode);
      }
      return Ok(Trunc(unixT.x));
    }

    /** ParseTransactionRawHex and ParseSignRawTransactionWithWallet share this reading of "hex". */
    method ParseHexField(tx: Json) returns (r: Result<bytes>)
      ensures r.Ok? <==> && Field(tx, "hex").Str? && Hex.Decode(Field(tx, "hex").s).Some?
                         && Hex.Decode(Field(tx, "hex").s) != Some([])
      ensures if r.Ok? then Some(r.value) == Hex.Decode(Field(tx, "hex").s) else r == Err(FailedToDecode)
    {
      var hexStr := Field(tx, "hex");
      if !hexStr.Str? {
        return Err(FailedToDecode);
      }
      var bs := Hex.Decode(hexStr.s);
      if bs.None? || |bs.value| == 0 {
        return Err(FailedToDecode);
      }
      return Ok(bs.value);
    }

    method ParseSignRawTransactionWithWallet(out: Json) returns (r: Result<bytes>)
      ensures r.Ok? <==> Field(out, "complete") == Bool(true) && Field(out, "hex").Str?
                         && Hex.Decode(Field(out, "hex").s).Some? && Hex.Decode(Field(out, "hex").s) != Some([])
      ensures r.Ok? ==> Some(r.value) == Hex.Decode(Field(out, "hex").s)
      ensures r.Err? ==> r == Err(if Field(out, "complete") == Bool(false) && Field(out, "hex").Str? then FailedToSign
                                  else FailedToDecode)
    {
      var completed := Field(out, "complete");
      if !completed.Bool? || !Field(out, "hex").Str? {
        return Err(FailedToDecode);
      }
      if !completed.b {
        return Err(FailedToSign);
      }
      r := ParseHexField(out);
    }

    method CreateRawTransactionForAnchor(fromTxid: bytes, vout: int, balance: Text, toAddr: string, fee: Fee,
                                         data: bytes, raw: Option<bytes>)
      returns (r: Result<bytes>)
      modifies node
      ensures node.chain == old(node.chain)
      ensures var change := CalcFee(f, balance, fee);
              var made := change.Ok? && change.value.Units? && change.value.n >= 0 && raw.Some?
                          && Consistent(old(node.State()), raw.value, RawTx(fromTxid, vout, toAddr, change.value.n,
                              data));
              && (change.Err? ==> r == Err(InvalidFee))
              && (!made ==> r.Err? && node.State() == old(node.State()))
              && (made ==> node.State() == Learn(old(node.State()), raw.value, RawTx(fromTxid, vout, toAddr,
                  change.value.n, data))
                           && r == if raw.value == [] then Err(FailedToDecode) else Ok(raw.value))
    {
      var sFee := CalcFee(f, balance, fee);
      if sFee.Err? {
        return Err(InvalidFee);
      }
      Hex.DecodeEncode(fromTxid);
      Hex.DecodeEncode(data);
      var stdout := node.CreateRawTransaction(Hex.Encode(fromTxid), vout, toAddr, sFee.value, Hex.Encode(data), raw);
      if stdout.Err? {
        return Err(stdout.error);
      }
      PrintedLine(raw.value);
      r := Hex.DecodeStdout(stdout.value);
    }

    method SendRawTransaction(signedRawTx: bytes, send: SendOutcome) returns (r: Result<bytes>)
      modifies node
      ensures var accepted := signedRawTx in old(node.decoded) && !send.Refused?
                              && CanSend(old(node.State()), send.id, old(node.decoded)[signedRawTx]);
              && (!accepted ==> r.Err? && node.State() == old(node.State()))
              && (accepted ==> node.State() == Broadcast(old(node.State()), send.id, signedRawTx,
                                                         old(node.decoded)[signedRawTx], send.time))
              && (r.Ok? <==> accepted && send.Accepted?)
              && (r.Ok? ==> r.value == send.id)
    {
      Hex.DecodeEncode(signedRawTx);
      var stdout := node.SendRawTransaction(Hex.Encode(signedRawTx), send);
      if stdout.Err? {
        return Err(stdout.error);
      }
      PrintedLine(send.id);
      r := Hex.DecodeStdout(stdout.value);
    }

    /** The first half of PutAnchor's foreign calls: the balance of the current UTXO. */
    method ReadUTXO(got: bool) returns (r: Result<(int, Text)>)
      requires Ieee(f) && ValidNode(node.State())
      ensures r.Ok? <==> got && xTransactionID in node.chain && node.chain[xTransactionID].body.addr == xBTCAddr
      ensures r.Ok? ==> r.value == (node.chain[xTransactionID].index, Units(node.chain[xTransactionID].body.value))
    {
      Hex.DecodeEncode(xTransactionID);
      var fromTx := node.GetTransaction(f, Hex.Encode(xTransactionID), got);
      if fromTx.Err? {
        return Err(fromTx.error);
      }
      ReceivedOfTransaction(f, node.chain[xTransactionID], xBTCAddr);
      r := ParseTransactionReceived(fromTx.value, xBTCAddr);
      if r.Ok? {
        // uint(confs) < leastConfirmationNeeded compares with 0, so ErrNotEnoughConfirm cannot occur.
        var confs := ParseTransactionConfirmations(fromTx.value);
        assert confs.Ok? && confs.value >= 0;
      }
    }

    /** Sign, and read the signed bytes; the node then knows what they mean. */
    method SignRaw(rawTx: bytes, o: PutOracle) returns (r: Result<bytes>)
      modifies node
      ensures node.chain == old(node.chain)
      ensures var can := rawTx in old(node.decoded) && o.signed.Some?
                         && Consistent(old(node.State()), o.signed.value, old(node.decoded)[rawTx]);
              && (!can ==> r.Err? && node.State() == old(node.State()))
              && (can ==> && node.State() == Learn(old(node.State()), o.signed.value, old(node.decoded)[rawTx])
                          && (r.Ok? <==> o.complete && o.signed.value != []) && (r.Ok? ==> r.value == o.signed.value))
    {
      Hex.DecodeEncode(rawTx);
      var out := node.SignRawTransactionWithWallet(Hex.Encode(rawTx), o.signed, o.complete);
      if out.Err? {
        return Err(out.error);
      }
      Hex.DecodeEncode(o.signed.value);
      r := ParseSignRawTransactionWithWallet(out.value);
    }

    /** The second half: sign, send, and move on to the new output. */
    method SignAndSendRaw(rawTx: bytes, o: PutOracle) returns (r: Result<bytes>)
      modifies this, node
      ensures rawTx in old(node.decoded) ==>
                var p := SignAndSend(old(node.State()), old(X()), old(node.decoded)[rawTx], o);
                && node.State() == p.node && X() == p.x
                && (r.Ok? <==> p.txid.Some?) && (r.Ok? ==> r.value == p.txid.value)
      ensures rawTx !in old(node.decoded) ==> r.Err? && node.State() == old(node.State()) && X() == old(X())
    {
      var signedTx := SignRaw(rawTx, o);
      if signedTx.Err? {
        return Err(signedTx.error);
      }
      r := SendRawTransaction(signedTx.value, o.send);
      if r.Ok? {
        XSetUTXO(r.value, xBTCAddr);
      }
    }

    /** PutAnchor spends the current UTXO into a transaction carrying a, and moves on to its output. */
    method PutAnchor(a: Anchor, o: PutOracle) returns (r: Result<bytes>)
      requires Ieee(f) && ValidNode(node.State())
      modifies this, node
      ensures var p := Put(f, btcNet, old(node.State()), old(X()), a, o);
              && node.State() == p.node && X() == p.x
              && (r.Ok? <==> p.txid.Some?) && (r.Ok? ==> r.value == p.txid.value)
      ensures a.net != btcNet ==> r == Err(InconsistentBTCNet)
      ensures a.net == btcNet && !o.up ==> r == Err(PingFailed)
    {
      if a.net != btcNet {
        return Err(InconsistentBTCNet);
      }
      if !o.up {
        return Err(PingFailed);
      }
      var utxo := ReadUTXO(o.got);
      if utxo.Err? {
        return Err(utxo.error);
      }
      CalcFeeSafe(f, node.chain[xTransactionID].body.value, FEE);
      var opRet := EncodeOpReturn(a);
      var rawTx := CreateRawTransactionForAnchor(xTransactionID, utxo.value.0, utxo.value.1, xBTCAddr, FEE,
          opRet[..], o.raw);
      if rawTx.Err? {
        return Err(rawTx.error);
      }
      r := SignAndSendRaw(rawTx.value, o);
    }

    /** The last part of GetAnchor: only 80 bytes that decode are an anchor. */
    method DecodeData(opRetSlice: bytes) returns (r: Result<Anchor>)
      ensures r == if |opRetSlice| == 80 && Decode(opRetSlice).Ok? then Decode(opRetSlice) else Err(InvalidOpReturn)
    {
      if |opRetSlice| != 80 {
        return Err(InvalidOpReturn);
      }
      var opRet := new byte[80];
      CopyAt(opRet, 0, opRetSlice);
      assert opRet[..] == opRetSlice;
      r := DecodeOpReturn(opRet);
      if r.Err? {
        return Err(InvalidOpReturn);
      }
    }

    /** GetAnchor finds an anchor exactly when every call works and the ledger holds one there. */
    method GetAnchor(btctx: bytes, o: GetOracle) returns (r: Result<AnchorRecord>)
      requires ValidNode(node.State())
      ensures r.Ok? <==> o.up && o.got && o.decoded && RecordOf(node.chain, btctx).Some?
      ensures r.Ok? ==> Some(r.value) == RecordOf(node.chain, btctx)
      ensures r.Ok? ==> && Ok(r.value.anchor) == Decode(node.chain[btctx].body.data) && r.value.btctx == btctx
                        && r.value.txTime == Time(node.chain[btctx].time, 0) && r.value.confs == node.chain[btctx].confs
                        && r.value.domName == "" && r.value.note == ""
      ensures !o.up ==> r == Err(PingFailed)
      ensures o.up && o.got && o.decoded && btctx in node.chain && RecordOf(node.chain, btctx).None?
              ==> r == Err(InvalidOpReturn)
    {
      if !o.up {
        return Err(PingFailed);
      }
      Hex.DecodeEncode(btctx);
      var tx := node.GetTransaction(f, Hex.Encode(btctx), o.got);
      if tx.Err? {
        return Err(tx.error);
      }
      var tts := ParseTransactionTime(tx.value);
      var tcs := ParseTransactionConfirmations(tx.value);
      var t := node.chain[btctx];
      Hex.DecodeEncode(t.raw);
      var tHex := ParseHexField(tx.value);
      if tts.Err? || tcs.Err? || tHex.Err? {
        return Err(FailedToDecode);
      }
      TruncInteger(t.time);
      TruncInteger(t.confs);
      var rawTx := node.DecodeRawTransaction(Hex.Encode(tHex.value), o.decoded);
      if rawTx.Err? {
        return Err(rawTx.error);
      }
      OpReturnOfRawTransaction(t.body);
      var opRetSlice := ParseRawTransactionOpReturn(rawTx.value);
      if opRetSlice.Err? {
        return Err(FailedToDecode);
      }
      var a := DecodeData(opRetSlice.value);
      if a.Err? {
        return Err(a.error);
      }
      return Ok(AnchorRecord(a.value, btctx, Time(tts.value, 0), tcs.value, "", ""));
    }
  }

  lemma TruncInteger(n: int)
    ensures Trunc(n as real) == n
  {
  }

  lemma PrintedLine(b: bytes)
    ensures Hex.ReadHex(Hex.Encode(b) + "\n") == if b == [] then Err(FailedToDecode) else Ok(b)
  {
    var h := Hex.Encode(b);
    var gaps := seq(|h| + 1, i => "");
    Hex.EncodeNoBreaks(b);
    Hex.WeaveNothing(h, gaps);
    Hex.StripWeave(h, gaps);
    Hex.StripConcat(h, "\n");
    assert "\n"[1..] == "" && Hex.Strip("\n") == "";
    assert Hex.Strip(h + "\n") == h;
    Hex.DecodeEncode(b);
  }

  /** On every ledger transaction the first scan finds the payment, and only for its own address. */
  lemma ReceivedOfTransaction(f: Float, tx: Tx, addr: string)
    requires Ieee(f) && tx.body.value <= MAX_MONEY
    ensures var ds := Field(TransactionJson(f, tx), "details").items;
            var scans := seq(|ds|, i requires 0 <= i < |ds| => Received(f, ds[i], addr));
            && (addr == tx.body.addr ==>
                  Decides(scans, |ds| - 1) && scans[|ds| - 1] == Hit((tx.index as int, Units(tx.body.value))))
            && (addr != tx.body.addr ==> forall s | s in scans :: s.Skip?)
  {
    PrintParse(f, tx.body.value);
    TruncInteger(tx.index);
  }

  /** On every ledger transaction the second scan skips the payment and finds the data output. */
  lemma OpReturnOfRawTransaction(body: RawTx)
    ensures var vs := Field(RawTransactionJson(body), "vout").items;
            var scans := seq(|vs|, i requires 0 <= i < |vs| => OpReturnOf(vs[i]));
            Decides(scans, 1) && scans[1] == Hit(body.data)
  {
    Hex.DecodeEncode(body.data);
    var pay := "0 " + body.addr;
    assert pay[0] == '0' && PREFIX[0] == 'O';
    assert (PREFIX + Hex.Encode(body.data))[|PREFIX|..] == Hex.Encode(body.data);
  }

  /** PutAnchor keeps the node consistent, and only ever extends the ledger. */
  lemma PutKeepsNode(f: Float, net: byte, n: Node, x: Utxo, a: Anchor, o: PutOracle)
    requires Ieee(f) && ValidNode(n)
    ensures var p := Put(f, net, n, x, a, o); ValidNode(p.node) && Extends(n.chain, p.node.chain)
  {
    var made := AnchorBody(LeftWith(f), n.chain, x, a);
    if made.Some? && o.raw.Some? && Consistent(n, o.raw.value, made.value) {
      LearnKeepsNode(n, o.raw.value, made.value);
      SignAndSendKeepsNode(Learn(n, o.raw.value, made.value), x, made.value, o);
    }
  }

  lemma LearnKeepsNode(n: Node, raw: bytes, body: RawTx)
    requires ValidNode(n) && Consistent(n, raw, body)
    ensures ValidNode(Learn(n, raw, body))
  {
  }

  lemma SignAndSendKeepsNode(n: Node, x: Utxo, body: RawTx, o: PutOracle)
    requires ValidNode(n)
    ensures var p := SignAndSend(n, x, body, o); ValidNode(p.node) && Extends(n.chain, p.node.chain)
  {
    if o.signed.Some? && Consistent(n, o.signed.value, body) {
      LearnKeepsNode(n, o.signed.value, body);
    }
  }

  /** What a success means: the spent output was the current one and unspent, the fee was paid. */
  lemma PutSuccess(f: Float, net: byte, n: Node, x: Utxo, a: Anchor, o: PutOracle)
    requires Ieee(f) && ValidNode(n) && Put(f, net, n, x, a, o).txid.Some?
    ensures var p := Put(f, net, n, x, a, o); var id := p.txid.value;
            && id !in n.chain && id in p.node.chain && a.net == net
            && x in Unspent(n.chain, x.addr) && p.x == Utxo(id, x.addr)
            && p.node.chain[id].body.spends == x.txid && p.node.chain[id].body.addr == x.addr
            && Change(n.chain[x.txid].body.value, FEE, p.node.chain[id].body.value)
            && Unspent(p.node.chain, x.addr) == Unspent(n.chain, x.addr) - {x} + {p.x}
  {
    var p := Put(f, net, n, x, a, o);
    var id := p.txid.value;
    CalcFeeSafe(f, n.chain[x.txid].body.value, FEE);
    UnspentAfterSend(n.chain, id, p.node.chain[id], x.addr);
  }

  /** Everything that has to come together for a broadcast. */
  ghost predicate GoesOut(f: Float, net: byte, n: Node, x: Utxo, a: Anchor, o: PutOracle) {
    && a.net == net && o.up && o.got && o.raw.Some? && o.signed.Some? && o.complete && !o.send.Refused?
    && x.txid in n.chain && n.chain[x.txid].body.addr == x.addr
    && match CalcFee(f, Units(n.chain[x.txid].body.value), 20_000)
       case Ok(Units(c)) =>
         && c >= 0
         && var body := RawTx(x.txid, n.chain[x.txid].index, x.addr, c, Encode(a));
         && o.raw.value != [] && (o.raw.value in n.decoded ==> n.decoded[o.raw.value] == body)
         && o.signed.value != [] && (o.signed.value in n.decoded ==> n.decoded[o.signed.value] == body)
         && o.send.id != [] && o.send.id !in n.chain
         && (forall t | t in n.chain :: n.chain[t].body.spends != o.send.id && n.chain[t].body.spends != x.txid)
       case _ => false
  }

  lemma SignAndSendExactly(n: Node, x: Utxo, body: RawTx, o: PutOracle)
    requires body.spends in n.chain && body.vout == n.chain[body.spends].index
    requires body.value <= n.chain[body.spends].body.value
    ensures var p := SignAndSend(n, x, body, o);
            var out := && o.signed.Some? && o.complete && !o.send.Refused? && o.signed.value != []
                       && (o.signed.value in n.decoded ==> n.decoded[o.signed.value] == body)
                       && o.send.id != [] && o.send.id !in n.chain
                       && (forall t | t in n.chain ::
                             n.chain[t].body.spends != o.send.id && n.chain[t].body.spends != body.spends);
            && p.node.chain == (if out then n.chain[o.send.id := Tx(body, o.signed.value, true, 0, 0, o.send.time)]
                                  else n.chain)
            && p.txid == (if out && o.send.Accepted? then Some(o.send.id) else None)
            && p.x == (if out && o.send.Accepted? then Utxo(o.send.id, x.addr) else x)
  {
  }

  /**
    What PutAnchor does, for every outcome of its calls: exactly when something is broadcast, that it is
    the signed transaction with this input, output, change and data, exactly when it is reported as a
    success, and when the adapter moves on.
   */
  lemma PutExactly(f: Float, net: byte, n: Node, x: Utxo, a: Anchor, o: PutOracle)
    requires Ieee(f) && ValidNode(n)
    ensures var p, out := Put(f, net, n, x, a, o), GoesOut(f, net, n, x, a, o);
            && (p.node.chain != n.chain <==> out)
            && p.txid == (if out && o.send.Accepted? then Some(o.send.id) else None)
            && p.x == (if out && o.send.Accepted? then Utxo(o.send.id, x.addr) else x)
    ensures GoesOut(f, net, n, x, a, o) ==>
              var tx := n.chain[x.txid];
              var change := CalcFee(f, Units(tx.body.value), 20_000).value.n;
              Put(f, net, n, x, a, o).node.chain
              == n.chain[o.send.id := Tx(RawTx(x.txid, tx.index, x.addr, change, Encode(a)), o.signed.value, true, 0, 0,
                                         o.send.time)]
  {
    if x.txid in n.chain {
      LeftChange(f, n.chain[x.txid].body.value);
    }
    var made := AnchorBody(LeftWith(f), n.chain, x, a);
    if made.Some? && o.raw.Some? && Consistent(n, o.raw.value, made.value) {
      var m := Learn(n, o.raw.value, made.value);
      SignAndSendExactly(m, x, made.value, o);
    }
  }

  lemma LeftChange(f: Float, v: nat)
    requires Ieee(f) && v <= MAX_MONEY
    ensures match CalcFee(f, Units(v), 20_000)
            case Ok(Units(c)) => c >= 0 && c <= v && Left(f, v) == Some(c)
            case _ => Left(f, v).None?
  {
    CalcFeeSafe(f, v, 20_000);
  }

  /** And nothing else is needed: an unspent current UTXO worth the fee and a satoshi, and a willing node. */
  lemma PutCanSucceed(f: Float, net: byte, n: Node, x: Utxo, a: Anchor, id: bytes, raw: bytes) returns (o: PutOracle)
    requires Ieee(f) && ValidNode(n) && a.net == net && Fresh(n.chain, id) && raw != [] && raw !in n.decoded
    requires x in Unspent(n.chain, x.addr) && n.chain[x.txid].body.value >= FEE + 1
    ensures Put(f, net, n, x, a, o).txid == Some(id)
  {
    o := PutOracle(true, true, Some(raw), Some(raw), true, Accepted(id, 0));
    CalcFeeSafe(f, n.chain[x.txid].body.value, FEE);
  }

  /**
    End to end: the anchor of a successful PutAnchor is found under the returned id in every later
    ledger, with its time floored to seconds, exactly when its version and network are valid.
   */
  lemma EndToEnd(f: Float, net: byte, n: Node, x: Utxo, a: Anchor, o: PutOracle, later: Chain)
    requires Ieee(f) && ValidNode(n)
    requires var p := Put(f, net, n, x, a, o); p.txid.Some? && Extends(p.node.chain, later)
    ensures var id := Put(f, net, n, x, a, o).txid.value;
            var r := RecordOf(later, id);
            && (r.Some? <==> ValidVersion(a.version) && ValidNet(a.net))
            && (r.Some? ==> && r.value.anchor == a.(time := Time(a.time.sec, 0)) && r.value.btctx == id
                            && r.value.txTime == Time(o.send.time, 0) && r.value.confs == later[id].confs)
  {
    DecodeEncode(a);
  }
}
