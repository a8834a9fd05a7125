/**
  Every run of the state machine, with any interleaving and any faults, leaves the ledger, the adapter
  and both copies of the queue as some sequence of complete RegisterTransaction calls and restarts does.
 */
module Serial {
  import opened Base
  import opened OpReturn
  import opened Satoshi
  import opened Ledger
  import opened BitcoinCli
  import opened Protocol
  import opened Accounting
  import opened History
  import opened Liveness
  import opened Progress
  import opened WalletLife
  import G = Gateway
  import Store
  import W = Wallet

  /** A complete call of RegisterTransaction, or a restart of the process. */
  datatype Op = Calls(a: Anchor, o: G.RegisterOracle) | Restarts

  function Called(a: Anchor, put: PutOracle, next: Save, add: Save): Op {
    Calls(a, G.RegisterOracle(put, next, add, 0))
  }

  function Document(g: G.State): seq<Utxo>
    requires g.wallet.Some?
  {
    if g.wallet.value.doc.Some? then g.wallet.value.doc.value else []
  }

  function Do(f: Float, cliNet: byte, g: G.State, op: Op): (g': G.State)
    requires g.wallet.Some?
    ensures g'.wallet.Some?
  {
    match op
    case Calls(a, o) => G.Register(f, cliNet, g, a, o).s
    case Restarts => g.(x := Utxo([], ""), wallet := Some(W.State(Document(g), g.wallet.value.doc)))
  }

  function DoAll(f: Float, cliNet: byte, g: G.State, ops: seq<Op>): (g': G.State)
    requires g.wallet.Some?
    ensures g'.wallet.Some?
  {
    if ops == [] then g else Do(f, cliNet, DoAll(f, cliNet, g, ops[..|ops| - 1]), ops[|ops| - 1])
  }

  /** The transaction ids that a sequence of calls returns, in order. */
  function Results(f: Float, cliNet: byte, g: G.State, ops: seq<Op>): seq<bytes>
    requires g.wallet.Some?
  {
    if ops == [] then []
    else
      var init, op := ops[..|ops| - 1], ops[|ops| - 1];
      Results(f, cliNet, g, init) + Result(f, cliNet, DoAll(f, cliNet, g, init), op)
  }

  function Result(f: Float, cliNet: byte, g: G.State, op: Op): seq<bytes>
    requires g.wallet.Some?
  {
    if op.Restarts? then []
    else
      var r := G.Register(f, cliNet, g, op.a, op.o);
      if r.txid.Some? then [r.txid.value] else []
  }

  lemma DoOne(f: Float, cliNet: byte, g: G.State, ops: seq<Op>, op: Op)
    requires g.wallet.Some?
    ensures DoAll(f, cliNet, g, ops + [op]) == Do(f, cliNet, DoAll(f, cliNet, g, ops), op)
  {
    assert (ops + [op])[..|ops|] == ops;
  }

  lemma ResultsOne(f: Float, cliNet: byte, g: G.State, g': G.State, ops: seq<Op>, op: Op)
    requires g.wallet.Some? && g' == DoAll(f, cliNet, g, ops)
    ensures Results(f, cliNet, g, ops + [op]) == Results(f, cliNet, g, ops) + Result(f, cliNet, g', op)
  {
    assert (ops + [op])[..|ops|] == ops;
  }

  // Ledgers that differ in confirmations only.

  ghost predicate Alike(chain: Chain, chain': Chain) {
    chain.Keys == chain'.Keys && forall id | id in chain :: chain'[id] == chain[id].(confs := chain'[id].confs)
  }

  lemma AlikeSpent(chain: Chain, chain': Chain, id: bytes)
    requires Alike(chain, chain')
    ensures Spent(chain', id) <==> Spent(chain, id)
  {
    assert forall t | t in chain :: chain'[t].body.spends == chain[t].body.spends;
  }

  lemma AlikeNode(chain: Chain, chain': Chain, id: bytes, body: RawTx)
    requires Alike(chain, chain') && Fresh(chain, id) && Acceptable(chain, body)
    ensures Fresh(chain', id) && Acceptable(chain', body)
  {
    AlikeSpent(chain, chain', id);
    AlikeSpent(chain, chain', body.spends);
  }

  // A node that knows nothing but its ledger.

  ghost predicate Seen(chain: Chain, raw: bytes) {
    exists t :: t in chain && chain[t].raw == raw
  }

  ghost predicate Tidy(n: Node) {
    ValidNode(n) && forall raw | raw in n.decoded :: Seen(n.chain, raw)
  }

  /** Transactions have serialisations, and one serialisation is one transaction. */
  ghost predicate Serialised(chain: Chain) {
    && (forall i | i in chain :: chain[i].raw != [])
    && forall i, j | i in chain && j in chain && chain[i].raw == chain[j].raw :: chain[i].body == chain[j].body
  }

  /** Such a ledger can be held by a node. */
  lemma NodeFor(chain: Chain) returns (n: Node)
    requires Serialised(chain) && Bounded(chain)
    ensures Tidy(n) && n.chain == chain
  {
    n := Node(chain, map i | i in chain :: chain[i].raw := chain[i].body);
    forall raw | raw in n.decoded
      ensures Seen(chain, raw)
    {
      var i :| i in chain && chain[i].raw == raw;
    }
  }

  // What the foreign calls of the machine's steps are for PutAnchor.

  /** A PutAnchor that stops at the ping, and one that goes as far as c's send. */
  const STOPS := PutOracle(false, false, None, None, false, Refused)

  function Sends(c: Choice): PutOracle {
    PutOracle(true, true, Some(c.raw), Some(c.raw), true, c.send)
  }

  lemma BodyAlike(f: Float, w: Purse, n: Node, x: Utxo, a: Anchor)
    requires Alike(w.chain, n.chain) && Bounded(n.chain) && CalcsAs(w.left, f) && w.x == x
    ensures AnchorBody(LeftWith(f), n.chain, x, a) == Body(w, a)
  {
  }

  lemma UnseenIsConsistent(w: Purse, n: Node, raw: bytes)
    requires Tidy(n) && Alike(w.chain, n.chain) && Unseen(w.chain, raw)
    ensures raw !in n.decoded
  {
    assert raw in n.decoded ==> Seen(n.chain, raw);
  }

  lemma PutIsBroadcast(f: Float, cliNet: byte, n: Node, x: Utxo, a: Anchor, body: RawTx, c: Choice)
    requires a.net == cliNet && AnchorBody(LeftWith(f), n.chain, x, a) == Some(body)
    requires c.raw != [] && c.raw !in n.decoded && !c.send.Refused? && Fresh(n.chain, c.send.id)
             && Acceptable(n.chain, body)
    ensures var p := Put(f, cliNet, n, x, a, Sends(c));
            && p.node.chain == n.chain[c.send.id := Tx(body, c.raw, true, 0, 0, c.send.time)]
            && p.node.decoded == n.decoded[c.raw := body]
            && (c.send.Unreported? ==> p.txid.None? && p.x == x)
            && (c.send.Accepted? ==> p.txid == Some(c.send.id) && p.x == Utxo(c.send.id, x.addr))
  {
    assert n.decoded[c.raw := body][c.raw := body] == n.decoded[c.raw := body];
  }

  lemma BroadcastIsTidy(n: Node, n': Node, id: bytes, tx: Tx)
    requires Tidy(n) && id !in n.chain && tx.raw != [] && tx.raw !in n.decoded && tx.body.value <= MAX_MONEY
    requires n'.chain == n.chain[id := tx] && n'.decoded == n.decoded[tx.raw := tx.body]
    ensures Tidy(n')
  {
    forall raw | raw in n'.decoded
      ensures Seen(n'.chain, raw)
    {
      if raw == tx.raw {
        assert n'.chain[id].raw == raw;
      } else {
        assert Seen(n.chain, raw);
        var t :| t in n.chain && n.chain[t].raw == raw;
        assert n'.chain[t].raw == raw;
      }
    }
  }

  /** A broadcast of the machine is one of PutAnchor, and leaves the node tidy. */
  lemma PutSends(f: Float, cliNet: byte, n: Node, w: Purse, a: Anchor, body: RawTx, c: Choice)
    requires Tidy(n) && Alike(w.chain, n.chain) && CalcsAs(w.left, f)
    requires a.net == cliNet && Body(w, a) == Some(body) && Accepts(w, body, c)
    ensures var p := Put(f, cliNet, n, w.x, a, Sends(c));
            && Tidy(p.node) && Alike(Sending(w, body, c).chain, p.node.chain)
            && (c.send.Unreported? ==> p.txid.None? && p.x == w.x)
            && (c.send.Accepted? ==> p.txid == Some(c.send.id) && p.x == Utxo(c.send.id, w.x.addr))
  {
    BodyAlike(f, w, n, w.x, a);
    UnseenIsConsistent(w, n, c.raw);
    AlikeNode(w.chain, n.chain, c.send.id, body);
    PutIsBroadcast(f, cliNet, n, w.x, a, body, c);
    BroadcastIsTidy(n, Put(f, cliNet, n, w.x, a, Sends(c)).node, c.send.id, Tx(body, c.raw, true, 0, 0, c.send.time));
  }

  // What a registration under way has of the calls made before it, g.

  /** Nothing is under way. */
  ghost predicate Like(w: Purse, g: G.State) {
    && g.wallet.Some? && Tidy(g.node) && Alike(w.chain, g.node.chain)
    && w.x == g.x && w.mem == g.wallet.value.q && w.doc == Document(g)
  }

  /** Up to the broadcast: only the adapter's UTXO has moved. */
  ghost predicate Before(w: Purse, cliNet: byte, g: G.State, a: Anchor, pc: Pc) {
    && g.wallet.Some? && Tidy(g.node) && Alike(w.chain, g.node.chain)
    && w.mem == g.wallet.value.q && w.doc == Document(g) && Pending(pc) == Some(a)
    && (pc.RegPeek? || pc.RegSet? ==> w.x == g.x)
    && (pc.RegSet? ==> w.mem != [] && pc.head == w.mem[0])
    && (pc.RegRead? || pc.RegSend? ==> w.mem != [] && w.x == w.mem[0])
    && (pc.RegSend? ==> a.net == cliNet && Body(w, a) == Some(pc.body))
  }

  /** How far the wallet update has come, from the queue q and the document doc to the new UTXO x. */
  ghost predicate Stage(w: Purse, q: seq<Utxo>, doc: seq<Utxo>, x: Utxo, pc: Pc)
    requires q != []
  {
    && w.x == (if pc.RegSent? then q[0] else x)
    && w.mem == (if pc.RegSent? || pc.RegDequeue? then q else if pc.RegSaveAdd? then q[1..] + [x] else q[1..])
    && w.doc == (if pc.RegEnqueue? || pc.RegSaveAdd? then q[1..] else doc)
  }

  /** From the broadcast on: PutAnchor has succeeded with the oracle put. */
  ghost predicate After(f: Float, w: Purse, cliNet: byte, g: G.State, a: Anchor, put: PutOracle, pc: Pc) {
    && BroadcastDone(pc) && g.wallet.Some? && g.wallet.value.q != []
    && var p := Put(f, cliNet, g.node, g.wallet.value.q[0], a, put);
    && p.txid == Some(pc.id) && p.x == Utxo(pc.id, g.wallet.value.q[0].addr)
    && Tidy(p.node) && Alike(w.chain, p.node.chain)
    && Stage(w, g.wallet.value.q, Document(g), p.x, pc)
  }

  /** The registration that the owner of the mutex has under way, if any, with what is known of its oracle. */
  ghost predicate Mid(f: Float, w: Purse, cliNet: byte, g: G.State, a: Anchor, put: PutOracle, pc: Pc) {
    if BroadcastDone(pc) then After(f, w, cliNet, g, a, put, pc)
    else if InRegister(pc) then Before(w, cliNet, g, a, pc)
    else Like(w, g)
  }

  /** What the call comes to when PutAnchor succeeds. */
  lemma CallAfterPut(f: Float, cliNet: byte, g: G.State, a: Anchor, o: G.RegisterOracle)
    requires g.wallet.Some? && g.wallet.value.q != []
    requires Put(f, cliNet, g.node, g.wallet.value.q[0], a, o.put).txid.Some?
    ensures var p, q := Put(f, cliNet, g.node, g.wallet.value.q[0], a, o.put), g.wallet.value.q;
            var g' := Do(f, cliNet, g, Calls(a, o));
            && g'.node == p.node && g'.x == p.x
            && g'.wallet.value.q == (if o.next.Saved? then q[1..] + [p.x] else q[1..])
            && Document(g') == if o.next.NotSaved? then Document(g)
                               else if o.next.Saved? && !o.add.NotSaved? then q[1..] + [p.x] else q[1..]
    ensures var p := Put(f, cliNet, g.node, g.wallet.value.q[0], a, o.put);
            Result(f, cliNet, g, Calls(a, o)) == if o.next.Saved? && o.add.Saved? then [p.txid.value] else []
  {
  }

  /** And when it does not. */
  lemma CallWithoutPut(f: Float, cliNet: byte, g: G.State, a: Anchor, o: G.RegisterOracle)
    requires g.wallet.Some? && g.wallet.value.q != []
    requires Put(f, cliNet, g.node, g.wallet.value.q[0], a, o.put).txid.None?
    ensures var p := Put(f, cliNet, g.node, g.wallet.value.q[0], a, o.put);
            Do(f, cliNet, g, Calls(a, o)) == g.(node := p.node, x := p.x)
  {
  }

  // A step of the owner either stays inside the call or completes it.

  /** A call that ends before its broadcast. */
  lemma GivesUp(f: Float, w: Purse, cliNet: byte, g: G.State, a: Anchor, pc: Pc)
    requires Before(w, cliNet, g, a, pc) && (pc.RegRead? || pc.RegSend? || (pc.RegPeek? && w.mem == []))
    ensures Like(w, Do(f, cliNet, g, Called(a, STOPS, Saved, Saved)))
  {
    if w.mem != [] {
      CallWithoutPut(f, cliNet, g, a, G.RegisterOracle(STOPS, Saved, Saved, 0));
    }
  }

  /** A broadcast that is reported as an error ends the call, any other goes on. */
  lemma SendIsSerial(f: Float, w: Purse, cliNet: byte, g: G.State, a: Anchor, body: RawTx, c: Choice)
    requires Before(w, cliNet, g, a, RegSend(a, body)) && CalcsAs(w.left, f) && Accepts(w, body, c)
    ensures var m := Send(w, a, body, c);
            if c.send.Unreported? then Like(m.w, Do(f, cliNet, g, Called(a, Sends(c), Saved, Saved)))
            else After(f, m.w, cliNet, g, a, Sends(c), m.pc)
  {
    PutSends(f, cliNet, g.node, w, a, body, c);
    if c.send.Unreported? {
      CallWithoutPut(f, cliNet, g, a, G.RegisterOracle(Sends(c), Saved, Saved, 0));
    }
  }

  /** The first save. */
  lemma SaveNextIsSerial(f: Float, w: Purse, cliNet: byte, g: G.State, a: Anchor, put: PutOracle, pc: Pc, save: Save)
    requires After(f, w, cliNet, g, a, put, pc) && pc.RegSaveNext?
    ensures var m := Saving(w, save, RegEnqueue(pc.from, pc.id));
            if save.Saved? then After(f, m.w, cliNet, g, a, put, m.pc)
            else Like(m.w, Do(f, cliNet, g, Called(a, put, save, Saved)))
  {
    CallAfterPut(f, cliNet, g, a, G.RegisterOracle(put, save, Saved, 0));
  }

  /** The second save completes the call, whether it works or not. */
  lemma SaveAddIsSerial(f: Float, w: Purse, cliNet: byte, g: G.State, a: Anchor, put: PutOracle, pc: Pc, save: Save,
    next: Pc)
    requires After(f, w, cliNet, g, a, put, pc) && pc.RegSaveAdd?
    ensures Like(Saving(w, save, next).w, Do(f, cliNet, g, Called(a, put, Saved, save)))
    ensures Result(f, cliNet, g, Called(a, put, Saved, save)) == if save.Saved? then [pc.id] else []
  {
    CallAfterPut(f, cliNet, g, a, G.RegisterOracle(put, Saved, save, 0));
  }

  /** A restart interrupts the call where a save that does not happen would, and then reloads. */
  lemma CrashIsSerial(f: Float, w: Purse, cliNet: byte, g: G.State, a: Anchor, put: PutOracle, pc: Pc)
    requires After(f, w, cliNet, g, a, put, pc)
    ensures var next := if pc.RegEnqueue? || pc.RegSaveAdd? then Saved else NotSaved;
            var g' := Do(f, cliNet, g, Called(a, put, next, NotSaved));
            Like(Reload(w, pc), Do(f, cliNet, g', Restarts))
  {
    var next := if pc.RegEnqueue? || pc.RegSaveAdd? then Saved else NotSaved;
    CallAfterPut(f, cliNet, g, a, G.RegisterOracle(put, next, NotSaved, 0));
  }

  lemma LikeRestarts(f: Float, w: Purse, cliNet: byte, g: G.State, pc: Pc)
    requires g.wallet.Some? && Tidy(g.node) && Alike(w.chain, g.node.chain) && w.doc == Document(g)
    ensures Like(Reload(w, pc), Do(f, cliNet, g, Restarts))
  {
  }

  lemma DoNone(f: Float, cliNet: byte, g: G.State, op: Op)
    requires g.wallet.Some?
    ensures DoAll(f, cliNet, g, []) == g && DoAll(f, cliNet, g, [op]) == Do(f, cliNet, g, op)
  {
    assert [op][..0] == [];
  }

  /** A registration that succeeds returns the result of one of the calls. */
  predicate Returns(pc: Pc, ids: seq<bytes>) {
    pc.Done? && pc.r.Registered? ==> pc.r.id in ids
  }

  /** A step of the owner before its broadcast. */
  lemma BeforeIsSerial(f: Float, w: Purse, cliNet: byte, g: G.State, a: Anchor, post: bool, pc: Pc, c: Choice)
    returns (put: PutOracle, ops: seq<Op>)
    requires InRegister(pc) && !BroadcastDone(pc) && Before(w, cliNet, g, a, pc) && CalcsAs(w.left, f)
    ensures var m := RegisterStep(w, cliNet, post, pc, c); Mid(f, m.w, cliNet, DoAll(f, cliNet, g, ops), a, put, m.pc)
    ensures Returns(RegisterStep(w, cliNet, post, pc, c).pc, Results(f, cliNet, g, ops))
  {
    put, ops := if pc.RegSend? then Sends(c) else STOPS, [];
    var m := RegisterStep(w, cliNet, post, pc, c);
    if pc.RegSend? && Accepts(w, pc.body, c) {
      SendIsSerial(f, w, cliNet, g, a, pc.body, c);
      if c.send.Unreported? {
        ops := [Called(a, Sends(c), Saved, Saved)];
        DoNone(f, cliNet, g, ops[0]);
      }
    } else if m.pc.Done? {
      GivesUp(f, w, cliNet, g, a, pc);
      ops := [Called(a, STOPS, Saved, Saved)];
      DoNone(f, cliNet, g, ops[0]);
    }
  }

  /** The steps of the wallet update that save nothing go from stage to stage. */
  lemma UpdateStage(w: Purse, q: seq<Utxo>, doc: seq<Utxo>, x: Utxo, cliNet: byte, post: bool, pc: Pc, c: Choice)
    requires (pc.RegSent? || pc.RegDequeue? || pc.RegEnqueue?) && q != [] && x == Utxo(pc.id, q[0].addr)
    requires Stage(w, q, doc, x, pc)
    ensures var m := RegisterStep(w, cliNet, post, pc, c);
            && Stage(m.w, q, doc, x, m.pc) && m.w.chain == w.chain && BroadcastDone(m.pc) && m.pc.id == pc.id
  {
  }

  lemma UpdateIsSerial(f: Float, w: Purse, cliNet: byte, g: G.State, a: Anchor, put: PutOracle, post: bool, pc: Pc,
      c: Choice)
    requires After(f, w, cliNet, g, a, put, pc) && (pc.RegSent? || pc.RegDequeue? || pc.RegEnqueue?)
    ensures var m := RegisterStep(w, cliNet, post, pc, c); After(f, m.w, cliNet, g, a, put, m.pc)
  {
    var q := g.wallet.value.q;
    UpdateStage(w, q, Document(g), Put(f, cliNet, g.node, q[0], a, put).x, cliNet, post, pc, c);
  }

  lemma SaveNextCompletes(f: Float, w: Purse, cliNet: byte, g: G.State, a: Anchor, put: PutOracle, pc: Pc, save: Save)
    returns (ops: seq<Op>)
    requires After(f, w, cliNet, g, a, put, pc) && pc.RegSaveNext?
    ensures var m := Saving(w, save, RegEnqueue(pc.from, pc.id));
            Mid(f, m.w, cliNet, DoAll(f, cliNet, g, ops), a, put, m.pc) && Returns(m.pc, Results(f, cliNet, g, ops))
  {
    SaveNextIsSerial(f, w, cliNet, g, a, put, pc, save);
    ops := [];
    if !save.Saved? {
      ops := [Called(a, put, save, Saved)];
      DoNone(f, cliNet, g, ops[0]);
    }
  }

  lemma SaveAddCompletes(f: Float, w: Purse, cliNet: byte, g: G.State, a: Anchor, put: PutOracle, pc: Pc, save: Save,
    next: Pc)
    requires After(f, w, cliNet, g, a, put, pc) && pc.RegSaveAdd?
             && (next == StoLock(pc.id) || next == Done(Registered(pc.id)))
    ensures var m := Saving(w, save, next);
            Mid(f, m.w, cliNet, DoAll(f, cliNet, g, [Called(a, put, Saved, save)]), a, put, m.pc)
  {
    SaveAddIsSerial(f, w, cliNet, g, a, put, pc, save, next);
    DoNone(f, cliNet, g, Called(a, put, Saved, save));
  }

  lemma SaveAddReturns(f: Float, w: Purse, cliNet: byte, g: G.State, a: Anchor, put: PutOracle, pc: Pc, save: Save,
    next: Pc)
    requires After(f, w, cliNet, g, a, put, pc) && pc.RegSaveAdd?
             && (next == StoLock(pc.id) || next == Done(Registered(pc.id)))
    ensures Returns(Saving(w, save, next).pc, Results(f, cliNet, g, [Called(a, put, Saved, save)]))
  {
    if save.Saved? {
      SaveAddIsSerial(f, w, cliNet, g, a, put, pc, save, next);
      ResultsAlone(f, cliNet, g, Called(a, put, Saved, save), [pc.id]);
    }
  }

  lemma ResultsAlone(f: Float, cliNet: byte, g: G.State, op: Op, ids: seq<bytes>)
    requires g.wallet.Some? && Result(f, cliNet, g, op) == ids
    ensures Results(f, cliNet, g, [op]) == ids
  {
    assert [op][..0] == [];
    assert Results(f, cliNet, g, []) == [];
  }

  /** A step of the owner after its broadcast. */
  lemma AfterIsSerial(f: Float, w: Purse, cliNet: byte, g: G.State, a: Anchor, put: PutOracle, post: bool, pc: Pc,
    c: Choice)
    returns (ops: seq<Op>)
    requires After(f, w, cliNet, g, a, put, pc)
    ensures var m := RegisterStep(w, cliNet, post, pc, c); Mid(f, m.w, cliNet, DoAll(f, cliNet, g, ops), a, put, m.pc)
    ensures Returns(RegisterStep(w, cliNet, post, pc, c).pc, Results(f, cliNet, g, ops))
  {
    RegisterStepSaves(w, cliNet, post, pc, c);
    if pc.RegSaveNext? {
      ops := SaveNextCompletes(f, w, cliNet, g, a, put, pc, c.save);
    } else if pc.RegSaveAdd? {
      var next := if post then StoLock(pc.id) else Done(Registered(pc.id));
      ops := [Called(a, put, Saved, c.save)];
      SaveAddCompletes(f, w, cliNet, g, a, put, pc, c.save, next);
      SaveAddReturns(f, w, cliNet, g, a, put, pc, c.save, next);
    } else {
      ops := [];
      UpdateIsSerial(f, w, cliNet, g, a, put, post, pc, c);
    }
  }

  lemma RegisterStepSaves(w: Purse, cliNet: byte, post: bool, pc: Pc, c: Choice)
    requires BroadcastDone(pc)
    ensures var m := RegisterStep(w, cliNet, post, pc, c);
            && (pc.RegSaveNext? ==> m == Saving(w, c.save, RegEnqueue(pc.from, pc.id)))
            && (pc.RegSaveAdd? ==> m == Saving(w, c.save, if post then StoLock(pc.id) else Done(Registered(pc.id))))
            && (pc.RegSent? || pc.RegEnqueue? ==> !m.pc.Done?)
            && (m.pc.Done? && m.pc.r.Registered? ==> pc.RegSaveAdd?)
  {
  }

  lemma OutsideReturns(cfg: Config, l: Local, c: Choice)
    requires !InRegister(l.th.pc)
    ensures var pc := LocalStep(cfg, l, c).th.pc; pc == l.th.pc || !(pc.Done? && pc.r.Registered?)
  {
    if !l.th.pc.Start? && !l.th.pc.RegLock? {
      StoreReturns(l.w.chain, l.coll, l.th.req, l.th.pc, c);
    }
  }

  lemma StoreReturns(chain: Chain, coll: Store.Coll, req: Request, pc: Pc, c: Choice)
    requires !InRegister(pc)
    ensures var pc' := StoreStep(chain, coll, req, pc, c).pc; pc' == pc || !(pc'.Done? && pc'.r.Registered?)
  {
    if req.Refresh? {
      var pc' := RefreshStep(coll, req, pc, c).pc;
      assert pc' == pc || !(pc'.Done? && pc'.r.Registered?);
    }
  }

  lemma ActIsSerial(f: Float, s: State, t: nat, c: Choice, g: G.State, a: Anchor, put: PutOracle)
    returns (ops: seq<Op>, a': Anchor, put': PutOracle)
    requires Mutex(s) && t in s.threads && CalcsAs(s.w.left, f) && Mid(f, s.w, s.cfg.cliNet, g, a, put, Owner(s))
    ensures g.wallet.Some?
    ensures var s' := ThreadStep(s, t, c); Mid(f, s'.w, s.cfg.cliNet, DoAll(f, s.cfg.cliNet, g, ops), a', put',
            Owner(s'))
    ensures var pc' := ThreadStep(s, t, c).threads[t].pc;
            pc' == s.threads[t].pc || Returns(pc', Results(f, s.cfg.cliNet, g, ops))
  {
    var th := s.threads[t];
    var s' := ThreadStep(s, t, c);
    OwnerAfter(s, t, c);
    ops, a', put' := [], a, put;
    if InRegister(th.pc) {
      assert Owner(s) == th.pc;
      if BroadcastDone(th.pc) {
        ops := AfterIsSerial(f, s.w, s.cfg.cliNet, g, a, put, th.req.Post?, th.pc, c);
      } else {
        put', ops := BeforeIsSerial(f, s.w, s.cfg.cliNet, g, a, th.req.Post?, th.pc, c);
      }
    } else {
      OutsideStep(s.cfg, Local(s.w, s.coll, th), c);
      OutsideReturns(s.cfg, Local(s.w, s.coll, th), c);
      if Owner(s').RegPeek? && Owner(s') != Owner(s) {
        a' := Owner(s').a;
      }
    }
  }

  lemma CrashStep(f: Float, s: State, g: G.State, a: Anchor, put: PutOracle) returns (ops: seq<Op>)
    requires Mid(f, s.w, s.cfg.cliNet, g, a, put, Owner(s))
    ensures g.wallet.Some? && Like(Restart(s).w, DoAll(f, s.cfg.cliNet, g, ops))
  {
    var pc := Owner(s);
    if BroadcastDone(pc) {
      var next := if pc.RegEnqueue? || pc.RegSaveAdd? then Saved else NotSaved;
      CrashIsSerial(f, s.w, s.cfg.cliNet, g, a, put, pc);
      ops := [Called(a, put, next, NotSaved)];
      DoNone(f, s.cfg.cliNet, g, ops[0]);
      DoOne(f, s.cfg.cliNet, g, ops, Restarts);
      ops := ops + [Restarts];
    } else {
      LikeRestarts(f, s.w, s.cfg.cliNet, g, pc);
      DoNone(f, s.cfg.cliNet, g, Restarts);
      ops := [Restarts];
    }
  }

  lemma AlikeConfirm(w: Purse, chain: Chain, id: bytes, more: nat)
    requires Alike(w.chain, chain)
    ensures Alike(Confirm(w, id, more).chain, chain)
  {
  }

  lemma BodyConfirm(w: Purse, id: bytes, more: nat, a: Anchor)
    ensures Body(Confirm(w, id, more), a) == Body(w, a)
  {
  }

  lemma MineIsSerial(f: Float, w: Purse, cliNet: byte, g: G.State, a: Anchor, put: PutOracle, pc: Pc, id: bytes,
    more: nat)
    requires Mid(f, w, cliNet, g, a, put, pc)
    ensures Mid(f, Confirm(w, id, more), cliNet, g, a, put, pc)
  {
    if BroadcastDone(pc) {
      AlikeConfirm(w, Put(f, cliNet, g.node, g.wallet.value.q[0], a, put).node.chain, id, more);
    } else {
      AlikeConfirm(w, g.node.chain, id, more);
      BodyConfirm(w, id, more, a);
    }
  }

  lemma {:induction false} DoConcat(f: Float, cliNet: byte, g: G.State, a: seq<Op>, b: seq<Op>)
    requires g.wallet.Some?
    ensures DoAll(f, cliNet, g, a + b) == DoAll(f, cliNet, DoAll(f, cliNet, g, a), b)
  {
    if b == [] {
      assert a + b == a;
    } else {
      DoConcat(f, cliNet, g, a, b[..|b| - 1]);
      assert a + b == (a + b[..|b| - 1]) + [b[|b| - 1]];
      DoOne(f, cliNet, g, a + b[..|b| - 1], b[|b| - 1]);
    }
  }

  lemma {:induction false} ResultsConcat(f: Float, cliNet: byte, g: G.State, a: seq<Op>, h: G.State, b: seq<Op>)
    requires g.wallet.Some? && h == DoAll(f, cliNet, g, a)
    ensures Results(f, cliNet, g, a + b) == Results(f, cliNet, g, a) + Results(f, cliNet, h, b)
    decreases |b|
  {
    if b == [] {
      assert a + b == a;
    } else {
      var init, op := b[..|b| - 1], b[|b| - 1];
      assert b == init + [op];
      ResultsConcat(f, cliNet, g, a, h, init);
      ResultsConcatOne(f, cliNet, g, a, h, init, b, op);
    }
  }

  /** Two sequences that lead to the same state are both extended by the same result. */
  lemma ResultsBoth(f: Float, cliNet: byte, g: G.State, a: seq<Op>, h: G.State, b: seq<Op>, op: Op)
    returns (ids: seq<bytes>)
    requires g.wallet.Some? && h.wallet.Some? && DoAll(f, cliNet, g, a) == DoAll(f, cliNet, h, b)
    ensures Results(f, cliNet, g, a + [op]) == Results(f, cliNet, g, a) + ids
    ensures Results(f, cliNet, h, b + [op]) == Results(f, cliNet, h, b) + ids
  {
    var g' := DoAll(f, cliNet, g, a);
    ids := Result(f, cliNet, g', op);
    ResultsOne(f, cliNet, g, g', a, op);
    ResultsOne(f, cliNet, h, g', b, op);
  }

  lemma ResultsConcatOne(f: Float, cliNet: byte, g: G.State, a: seq<Op>, h: G.State, init: seq<Op>, b: seq<Op>, op: Op)
    requires g.wallet.Some? && h == DoAll(f, cliNet, g, a) && b == init + [op]
    requires Results(f, cliNet, g, a + init) == Results(f, cliNet, g, a) + Results(f, cliNet, h, init)
    ensures Results(f, cliNet, g, a + b) == Results(f, cliNet, g, a) + Results(f, cliNet, h, b)
  {
    DoConcat(f, cliNet, g, a, init);
    assert a + b == (a + init) + [op];
    var ids := ResultsBoth(f, cliNet, g, a + init, h, init, op);
    Regroup(Results(f, cliNet, g, a), Results(f, cliNet, h, init), ids);
  }

  lemma Regroup(a: seq<bytes>, b: seq<bytes>, c: seq<bytes>)
    ensures (a + b) + c == a + (b + c)
  {
  }

  lemma StepIsSerial(f: Float, s: State, st: Step, g: G.State, a: Anchor, put: PutOracle)
    returns (ops: seq<Op>, a': Anchor, put': PutOracle)
    requires Mutex(s) && CalcsAs(s.w.left, f) && Mid(f, s.w, s.cfg.cliNet, g, a, put, Owner(s))
    ensures g.wallet.Some?
    ensures var s' := Next(s, st); Mid(f, s'.w, s.cfg.cliNet, DoAll(f, s.cfg.cliNet, g, ops), a', put', Owner(s'))
    ensures var s' := Next(s, st);
            forall t | t in s'.threads :: (t in s.threads && s'.threads[t].pc == s.threads[t].pc)
                                          || Returns(s'.threads[t].pc, Results(f, s.cfg.cliNet, g, ops))
  {
    MutexStep(s, st);
    ops, a', put' := [], a, put;
    match st
    case Spawn(_, _) =>
    case Crash => ops := CrashStep(f, s, g, a, put);
    case Mine(id, more) => MineIsSerial(f, s.w, s.cfg.cliNet, g, a, put, Owner(s), id, more);
    case Act(t, c) =>
      if t in s.threads {
        ops, a', put' := ActIsSerial(f, s, t, c, g, a, put);
      }
  }

  ghost predicate AllReturn(threads: map<nat, Thread>, ids: seq<bytes>) {
    forall t | t in threads :: Returns(threads[t].pc, ids)
  }

  lemma {:induction false} SerialRun(f: Float, s: State, steps: seq<Step>, g: G.State)
    returns (ops: seq<Op>, a: Anchor, put: PutOracle)
    requires Init(s) && CalcsAs(s.w.left, f) && Like(s.w, g)
    ensures var s' := Run(s, steps); Mid(f, s'.w, s.cfg.cliNet, DoAll(f, s.cfg.cliNet, g, ops), a, put, Owner(s'))
    ensures AllReturn(Run(s, steps).threads, Results(f, s.cfg.cliNet, g, ops))
  {
    if steps == [] {
      ops, a, put := [], Anchor(0, 0, Time(0, 0), Pad32([]), Pad32([])), STOPS;
    } else {
      var init := steps[..|steps| - 1];
      var before;
      before, a, put := SerialRun(f, s, init, g);
      InvRun(s, init);
      LaterRun(s, init);
      CfgStays(s, init);
      var after;
      after, a, put := StepIsSerial(f, Run(s, init), steps[|steps| - 1], DoAll(f, s.cfg.cliNet, g, before), a, put);
      DoConcat(f, s.cfg.cliNet, g, before, after);
      ResultsConcat(f, s.cfg.cliNet, g, before, DoAll(f, s.cfg.cliNet, g, before), after);
      ops := before + after;
    }
  }

  /**
    Serialisability: in every interleaving of any number of requests, with failing calls and saves,
    unreported broadcasts and crashes, whenever no registration is under way the ledger up to
    confirmations, the adapter's UTXO, the queue and its document are what some sequence of complete
    calls of RegisterTransaction and restarts leaves, one after the other; and every registration that
    has succeeded returned the result of one of these calls.
   */
  lemma EveryRunIsSerial(f: Float, s: State, steps: seq<Step>, g: G.State) returns (ops: seq<Op>)
    requires Init(s) && CalcsAs(s.w.left, f) && Like(s.w, g) && !InRegister(Owner(Run(s, steps)))
    ensures Like(Run(s, steps).w, DoAll(f, s.cfg.cliNet, g, ops))
    ensures AllReturn(Run(s, steps).threads, Results(f, s.cfg.cliNet, g, ops))
  {
    var a, put;
    ops, a, put := SerialRun(f, s, steps, g);
  }

  /** Every wallet whose transactions have serialisations starts as some gateway. */
  lemma Starts(s: State) returns (g: G.State)
    requires Init(s) && Serialised(s.w.chain)
    ensures Like(s.w, g)
  {
    var n := NodeFor(s.w.chain);
    g := G.State(n, s.w.x, Some(W.State(s.w.mem, Some(s.w.doc))));
  }

  lemma NodeAlike(chain: Chain, n: Node) returns (n': Node)
    requires Tidy(n) && Alike(chain, n.chain)
    ensures ValidNode(n') && n'.chain == chain
  {
    n' := Node(chain, n.decoded);
  }

  /** Every reachable ledger is one that a node can hold. */
  lemma LedgersFitNodes(f: Float, s: State, steps: seq<Step>) returns (n: Node)
    requires Init(s) && CalcsAs(s.w.left, f) && Serialised(s.w.chain)
    ensures ValidNode(n) && n.chain == Run(s, steps).w.chain
  {
    var g := Starts(s);
    var ops, a, put := SerialRun(f, s, steps, g);
    var g1, w, pc := DoAll(f, s.cfg.cliNet, g, ops), Run(s, steps).w, Owner(Run(s, steps));
    if BroadcastDone(pc) {
      n := NodeAlike(w.chain, Put(f, s.cfg.cliNet, g1.node, g1.wallet.value.q[0], a, put).node);
    } else {
      n := NodeAlike(w.chain, g1.node);
    }
  }
}
