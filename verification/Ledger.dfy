/**
  The Bitcoin ledger as the gateway sees it: the wallet's own transactions, each with one output to
  a wallet address and one data output. bitcoind itself is outside the model; what is kept is that
  transaction ids are fresh and that a spent output cannot be spent again.
 */
module Ledger {
  import opened Base
  import opened BigEndian
  import opened OpReturn
  import opened Satoshi

  /** An entry of the wallet queue. */
  datatype Utxo = Utxo(txid: bytes, addr: string)

  /** The transaction that CreateRawTransactionForAnchor asks for. */
  datatype RawTx = RawTx(spends: bytes, vout: int, addr: string, value: nat, data: bytes)

  /** A broadcast transaction; own is false for the transactions that funded the wallet. */
  datatype Tx = Tx(body: RawTx, raw: bytes, own: bool, index: nat, confs: nat, time: int64)

  type Chain = map<bytes, Tx>

  predicate Spent(chain: Chain, id: bytes) {
    exists t | t in chain :: chain[t].body.spends == id
  }

  /** A new transaction id: unknown to this ledger, also as something spent. */
  predicate Fresh(chain: Chain, id: bytes) {
    id != [] && id !in chain && !Spent(chain, id)
  }

  /** The serialisation of a transaction that is not on this ledger. */
  predicate Unseen(chain: Chain, raw: bytes) {
    raw != [] && forall t | t in chain :: chain[t].raw != raw
  }

  /** The wallet's unspent outputs. */
  function Unspent(chain: Chain, addr: string): set<Utxo> {
    set id | id in chain && chain[id].body.addr == addr && !Spent(chain, id) :: Utxo(id, addr)
  }

  /** sendrawtransaction accepts a body that spends an existing unspent output and creates no value. */
  predicate Acceptable(chain: Chain, body: RawTx) {
    && body.spends in chain && !Spent(chain, body.spends)
    && body.vout == chain[body.spends].index && body.value <= chain[body.spends].body.value
  }

  /** Broadcasting replaces the spent output by the new one among the wallet's unspent outputs. */
  lemma UnspentAfterSend(chain: Chain, id: bytes, tx: Tx, addr: string)
    requires Fresh(chain, id) && Acceptable(chain, tx.body)
    requires tx.body.addr == addr && chain[tx.body.spends].body.addr == addr
    ensures var from, next := Utxo(tx.body.spends, addr), Utxo(id, addr);
            && from in Unspent(chain, addr) && next !in Unspent(chain, addr)
            && Unspent(chain[id := tx], addr) == Unspent(chain, addr) - {from} + {next}
  {
    var chain' := chain[id := tx];
    forall i | i in chain'
      ensures Spent(chain', i) <==> Spent(chain, i) || i == tx.body.spends
    {
      if Spent(chain, i) {
        var t :| t in chain && chain[t].body.spends == i;
        assert chain'[t].body.spends == i;
      }
      assert chain'[id].body.spends == tx.body.spends;
    }
  }

  /** Later ledgers keep every transaction; only confirmations move, and only up. */
  ghost predicate Extends(chain: Chain, chain': Chain) {
    forall id | id in chain ::
      id in chain' && chain'[id] == chain[id].(confs := chain'[id].confs) && chain[id].confs <= chain'[id].confs
  }

  lemma ExtendsTransitive(a: Chain, b: Chain, c: Chain)
    requires Extends(a, b) && Extends(b, c)
    ensures Extends(a, c)
  {
  }

  /** No amount exceeds the money supply. */
  ghost predicate Bounded(chain: Chain) {
    forall id | id in chain :: chain[id].body.value <= MAX_MONEY
  }

  /** model.AnchorRecord. */
  datatype AnchorRecord = AnchorRecord(anchor: Anchor, btctx: bytes, txTime: Time, confs: nat,
                                       domName: string, note: string)

  /** The record that the ledger holds under id, if that transaction carries an anchor. */
  function RecordOf(chain: Chain, id: bytes): Option<AnchorRecord> {
    if id in chain && |chain[id].body.data| == 80 then
      match Decode(chain[id].body.data)
      case Ok(a) => Some(AnchorRecord(a, id, Time(chain[id].time, 0), chain[id].confs, "", ""))
      case Err(_) => None
    else None
  }

  /** feeNormal, the transaction fee in satoshi. */
  const FEE: Fee := 20_000

  /** What calcFee leaves of an output of v satoshi; None when it fails. */
  function Left(f: Float, v: nat): Option<nat> {
    match CalcFee(f, Units(v), FEE)
    case Ok(Units(c)) => if c >= 0 then Some(c) else None
    case _ => None
  }

  /** What calcFee leaves of each amount, as a function of the amount alone. */
  type Calc = nat -> Option<nat>

  function LeftWith(f: Float): Calc {
    (v: nat) => Left(f, v)
  }

  /** left is calcFee computed with the rounding f. */
  ghost predicate CalcsAs(left: Calc, f: Float) {
    forall v: nat | v <= MAX_MONEY :: left(v) == Left(f, v)
  }

  /** From one satoshi above the fee something is left, below the fee nothing, and it is what Change says. */
  ghost predicate FeeRule(left: Calc) {
    forall v: nat | v <= MAX_MONEY ::
      && (v >= FEE + 1 ==> left(v).Some?) && (v < FEE ==> left(v).None?)
      && (left(v).Some? ==> Change(v, FEE, left(v).value))
  }

  /** calcFee keeps this rule, however the arithmetic rounds. */
  lemma CalcFeeKeepsRule(f: Float, left: Calc)
    requires Ieee(f) && CalcsAs(left, f)
    ensures FeeRule(left)
  {
    forall v: nat | v <= MAX_MONEY
      ensures (v >= FEE + 1 ==> left(v).Some?) && (v < FEE ==> left(v).None?)
      ensures left(v).Some? ==> Change(v, FEE, left(v).value)
    {
      CalcFeeSafe(f, v, FEE);
    }
  }

  /** What PutAnchor asks the node to create when the current UTXO is x; None when it gives up before. */
  function AnchorBody(left: Calc, chain: Chain, x: Utxo, a: Anchor): Option<RawTx> {
    if x.txid in chain && chain[x.txid].body.addr == x.addr then
      match left(chain[x.txid].body.value)
      case Some(c) => Some(RawTx(x.txid, chain[x.txid].index, x.addr, c, Encode(a)))
      case None => None
    else None
  }

  /** The record under id, field by field: its time is that of the transaction, not that of the anchor. */
  lemma RecordFields(chain: Chain, id: bytes)
    ensures RecordOf(chain, id).Some? <==> id in chain && |chain[id].body.data| == 80 && Decode(chain[id].body.data).Ok?
    ensures RecordOf(chain, id).Some? ==>
              var r, tx := RecordOf(chain, id).value, chain[id];
              && Ok(r.anchor) == Decode(tx.body.data) && r.btctx == id
              && r.txTime == Time(tx.time, 0) && r.confs == tx.confs && r.domName == "" && r.note == ""
  {
  }
}
