/** What the invariants say about whole runs of the state machine. */
module Runs {
  import opened Base
  import opened OpReturn
  import opened Ledger
  import opened Protocol
  import opened Accounting
  import opened History
  import opened Conservation
  import opened RoundRobin

  /** Registrations that have broadcast without finishing the wallet update, the one under way included. */
  function Interrupted(s: State): nat {
    s.w.lost + if BroadcastDone(Owner(s)) then 1 else 0
  }

  /** How far a copy of the queue may be off: n outputs on either side. */
  ghost predicate OffBy(u: set<Utxo>, q: seq<Utxo>, n: nat) {
    NoDup(q) && |u - Elems(q)| <= n && |Elems(q) - u| <= n
  }

  lemma WithinIsOffBy(u: set<Utxo>, q: seq<Utxo>, n: nat)
    requires NoDup(q) && Within(u, q, n, n)
    ensures OffBy(u, q, n)
  {
    StaleIsCardinality(u, q);
  }

  /**
    With failed saves, crashes and broadcasts reported as errors: after k interrupted registrations
    the queue in memory and the saved queue each miss at most k of the unspent outputs and list at
    most k spent ones.
   */
  lemma FaultsAreAccounted(s: State, steps: seq<Step>)
    requires Init(s)
    ensures var s' := Run(s, steps);
            && OffBy(U(s'.w), s'.w.mem, Interrupted(s'))
            && OffBy(U(s'.w), s'.w.doc, Interrupted(s'))
  {
    InvRun(s, steps);
    var s' := Run(s, steps);
    WithinIsOffBy(U(s'.w), s'.w.mem, Interrupted(s'));
    WithinIsOffBy(U(s'.w), s'.w.doc, Interrupted(s'));
  }

  lemma NoneMissing(u: set<Utxo>, q: seq<Utxo>)
    requires OffBy(u, q, 0)
    ensures Elems(q) == u
  {
    assert u - Elems(q) == {} && Elems(q) - u == {};
  }

  /** Without faults the queue is, between registrations, a list of exactly the unspent outputs, and it is saved. */
  lemma CleanQueueIsUnspent(s: State, steps: seq<Step>)
    requires Init(s) && AllClean(steps)
    ensures var s' := Run(s, steps);
            !BroadcastDone(Owner(s')) ==> NoDup(s'.w.mem) && Elems(s'.w.mem) == U(s'.w) && s'.w.doc == s'.w.mem
  {
    CleanRun(s, steps);
    FaultsAreAccounted(s, steps);
    var s' := Run(s, steps);
    if !BroadcastDone(Owner(s')) {
      NoneMissing(U(s'.w), s'.w.mem);
    }
  }

  /** What the queue and the adapter are at each point, and what NextUTXO and AddUTXO then do. */
  ghost predicate InStep(w: Purse, pc: Pc, after: Purse) {
    && (pc.RegRead? || pc.RegSend? ==> w.mem != [] && w.mem[0] == w.x)
    && (pc.RegSend? ==> pc.body.spends == w.x.txid && pc.body.data == Encode(pc.a))
    && (pc.RegDequeue? ==> && w.mem == [pc.from] + after.mem
                           && pc.id in w.chain && w.chain[pc.id].body.spends == pc.from.txid)
    && (pc.RegEnqueue? ==> after.mem == w.mem + [Utxo(pc.id, w.addr)] && Utxo(pc.id, w.addr) in U(w))
  }

  lemma RegisterInStep(w: Purse, cliNet: byte, post: bool, pc: Pc, c: Choice)
    requires InRegister(pc) && AtPc(w, U(w), pc)
    ensures InStep(w, pc, RegisterStep(w, cliNet, post, pc, c).w)
  {
  }

  /**
    In every interleaving, from XSetUTXO until the broadcast the adapter's UTXO is the head of the
    queue and what the thread will spend; NextUTXO then removes just what the broadcast spent, and
    AddUTXO queues the unspent output that replaced it.
   */
  lemma HeadIsSpentThenDropped(s: State, steps: seq<Step>, t: nat, c: Choice)
    requires Init(s) && t in Run(s, steps).threads
    ensures var s' := Run(s, steps); InStep(s'.w, s'.threads[t].pc, Next(s', Act(t, c)).w)
  {
    InvRun(s, steps);
    var s' := Run(s, steps);
    var th := s'.threads[t];
    if InRegister(th.pc) {
      assert Owner(s') == th.pc;
      RegisterInStep(s'.w, s'.cfg.cliNet, th.req.Post?, th.pc, c);
    }
  }

  /** No two threads ever broadcast the same transaction or spend the same output. */
  lemma NoDoubleSpend(s: State, steps: seq<Step>, t: nat, r: nat)
    requires Init(s)
    requires var ths := Run(s, steps).threads; t in ths && r in ths && t != r && ths[t].sent.Some? && ths[r].sent.Some?
    ensures var s' := Run(s, steps); var i, j := s'.threads[t].sent.value.id, s'.threads[r].sent.value.id;
            && i in s'.w.chain && j in s'.w.chain && i != j
            && s'.w.chain[i].body.spends != s'.w.chain[j].body.spends
  {
    HistoryRun(s, steps);
    var s' := Run(s, steps);
    assert ThreadOk(s'.cfg, s'.w.chain, s'.threads[t]) && ThreadOk(s'.cfg, s'.w.chain, s'.threads[r]);
  }

  /**
    A registration that succeeds has put its own request on the ledger: the record under the returned
    id carries the padded ids, floored time, and the embedded version and network, and it is found
    exactly when these two are valid.
   */
  lemma RegisteredIsOnLedger(s: State, steps: seq<Step>, t: nat)
    requires Init(s)
    requires var s' := Run(s, steps);
             t in s'.threads && s'.threads[t].pc.Done? && s'.threads[t].pc.r.Registered?
    ensures var s' := Run(s, steps); var th := s'.threads[t];
            var rec := RecordOf(s'.w.chain, th.pc.r.id);
            && (rec.Some? <==> ValidVersion(s'.cfg.version) && ValidNet(s'.cfg.net))
            && (rec.Some? ==> && (th.req.Register? || th.req.Post?) && rec.value.anchor.time.nsec == 0
                              && rec.value.anchor.dom == Pad32(th.req.dom) && rec.value.anchor.tx == Pad32(th.req.tx)
                              && rec.value.anchor.version == s'.cfg.version && rec.value.anchor.net == s'.cfg.net)
  {
    HistoryRun(s, steps);
    var s' := Run(s, steps);
    var th := s'.threads[t];
    assert ThreadOk(s'.cfg, s'.w.chain, th);
    DecodeEncode(th.sent.value.a);
  }

  // Service order.

  lemma DivMonotone(a: nat, b: nat, k: nat)
    requires k > 0 && a <= b
    ensures a / k <= b / k
  {
    AtLeastOnce(k, a / k - b / k);
  }

  lemma SameLap(n: nat, k: nat, i: nat, j: nat)
    requires i < k && j < k
    ensures (n + i) / k <= (n + j) / k + 1
  {
    NextLap(n + j, k);
    DivMonotone(n + i, n + j + k, k);
  }

  lemma RootKnown(w: Purse, u: Utxo)
    requires Funded(w) && u in w.mem
    ensures u.txid in w.chain
  {
    assert u in Elems(w.mem);
  }

  /** What a generation-g descendant of root is worth. */
  ghost predicate Aged(start: Chain, chain: Chain, u: Utxo, g: nat, root: bytes) {
    && root in start && u.txid in chain && Descends(chain, u.txid, g, root)
    && start[root].body.value - g * (FEE + 1) <= chain[u.txid].body.value <= start[root].body.value - g * FEE
  }

  lemma ServedIsAged(start: Purse, w: Purse, pc: Pc, i: nat)
    requires Funded(start) && ChainInv(w) && Extends(start.chain, w.chain) && i < |start.mem|
    requires CleanInv(w, pc, start.mem) && !BroadcastDone(pc)
    ensures AgedAt(start, w, i)
  {
    var k, j := |start.mem|, w.sends + i;
    assert ServedAt(w.chain, w.mem[i], start.mem, j);
    var root := start.mem[j % k];
    RootKnown(start, root);
    GenerationValue(w, w.mem[i].txid, j / k, root.txid);
  }

  /** How many broadcasts lead from an initial output to position i. */
  function Generation(start: Purse, w: Purse, i: nat): nat
    requires i < |start.mem|
  {
    (w.sends + i) / |start.mem|
  }

  /** Position i holds the generation (n + i) / k descendant of initial UTXO (n + i) mod k. */
  ghost predicate AgedAt(start: Purse, w: Purse, i: nat)
    requires i < |start.mem|
  {
    var root := start.mem[(w.sends + i) % |start.mem|].txid;
    |w.mem| == |start.mem| && Aged(start.chain, w.chain, w.mem[i], Generation(start, w, i), root)
  }

  /**
    Round robin: after any number of broadcasts without faults, whenever no wallet update is under
    way, every position of the queue holds the descendant that is due there, at its due value.
   */
  lemma RoundRobinFairness(s: State, steps: seq<Step>, i: nat)
    requires Init(s) && AllClean(steps) && i < |s.w.mem| && !BroadcastDone(Owner(Run(s, steps)))
    ensures AgedAt(s.w, Run(s, steps).w, i)
  {
    CleanRun(s, steps);
    HistoryRun(s, steps);
    ServedIsAged(s.w, Run(s, steps).w, Owner(Run(s, steps)), i);
  }

  lemma GenerationsEven(start: Purse, w: Purse, i: nat, j: nat)
    requires i < |start.mem| && j < |start.mem|
    ensures Generation(start, w, i) <= Generation(start, w, j) + 1
  {
    SameLap(w.sends, |start.mem|, i, j);
  }

  /** So in a run without faults no two spend chains of the queue ever differ by more than one generation. */
  lemma ChainsStayEven(s: State, steps: seq<Step>, i: nat, j: nat)
    requires Init(s) && AllClean(steps) && i < |s.w.mem| && j < |s.w.mem| && !BroadcastDone(Owner(Run(s, steps)))
    ensures var w := Run(s, steps).w;
            AgedAt(s.w, w, i) && AgedAt(s.w, w, j) && Generation(s.w, w, i) <= Generation(s.w, w, j) + 1
  {
    RoundRobinFairness(s, steps, i);
    RoundRobinFairness(s, steps, j);
    GenerationsEven(s.w, Run(s, steps).w, i, j);
  }
}
