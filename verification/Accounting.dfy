/** What every interleaving keeps of the mutex and of both copies of the wallet queue. */
module Accounting {
  import opened Base
  import opened OpReturn
  import opened Ledger
  import opened Protocol
  import Store

  /** Exactly the thread named by the lock is inside a locked region. */
  ghost predicate Mutex(s: State) {
    && (s.lock.Some? ==> s.lock.value in s.threads)
    && forall t | t in s.threads :: Holds(s.threads[t].pc) <==> s.lock == Some(t)
  }

  lemma MutexStep(s: State, st: Step)
    requires Mutex(s)
    ensures Mutex(Next(s, st))
    ensures st.Spawn? || st.Mine? ==> Owner(Next(s, st)) == Owner(s)
  {
    if st.Act? && st.t in s.threads {
      MutexThread(s, st.t, st.c);
    }
  }

  lemma MutexThread(s: State, t: nat, c: Choice)
    requires Mutex(s) && t in s.threads
    ensures Mutex(ThreadStep(s, t, c))
  {
    var l := LocalStep(s.cfg, Local(s.w, s.coll, s.threads[t]), c);
    assert ThreadStep(s, t, c) == s || ThreadStep(s, t, c).threads == s.threads[t := l.th];
  }

  /** The wallet's unspent outputs. */
  ghost function U(w: Purse): set<Utxo> {
    Unspent(w.chain, w.addr)
  }

  /** Every listed UTXO is an output of the ledger to the wallet address. */
  ghost predicate Known(w: Purse, q: seq<Utxo>) {
    forall u | u in q :: u.addr == w.addr && u.txid in w.chain && w.chain[u.txid].body.addr == w.addr
  }

  /** How many listed UTXOs are not among the unspent outputs u. */
  function Stale(u: set<Utxo>, q: seq<Utxo>): nat {
    if q == [] then 0 else Stale(u, q[..|q| - 1]) + (if q[|q| - 1] in u then 0 else 1)
  }

  /** At most n listed UTXOs are spent, and at most m of the unspent outputs u are not listed. */
  ghost predicate Within(u: set<Utxo>, q: seq<Utxo>, m: nat, n: nat) {
    Stale(u, q) <= n && |u| - |q| + Stale(u, q) <= m
  }

  /** id is the unspent output that replaced from. */
  ghost predicate Replaces(w: Purse, u: set<Utxo>, from: Utxo, id: bytes) {
    && from.addr == w.addr && id in w.chain && w.chain[id].body.spends == from.txid
    && w.chain[id].body.addr == w.addr && Utxo(id, w.addr) in u && from !in u
  }

  /** What holds of the queue and the adapter at each point of RegisterTransaction. */
  ghost predicate AtPc(w: Purse, u: set<Utxo>, pc: Pc) {
    && (pc.RegSet? ==> w.mem != [] && w.mem[0] == pc.head)
    && (pc.RegRead? || pc.RegSend? ==> w.mem != [] && w.mem[0] == w.x)
    && (pc.RegSend? ==>
          && pc.body.spends == w.x.txid && pc.body.addr == w.x.addr && pc.body.data == Encode(pc.a)
              && w.x.txid in w.chain
          && w.left(w.chain[w.x.txid].body.value) == Some(pc.body.value))
    && (BroadcastDone(pc) ==> Replaces(w, u, pc.from, pc.id))
    && (pc.RegSent? ==> w.x == pc.from)
    && (BroadcastDone(pc) && !pc.RegSent? ==> w.x == Utxo(pc.id, w.addr))
    && (pc.RegSent? || pc.RegDequeue? ==> w.mem != [] && w.mem[0] == pc.from)
    && (BroadcastDone(pc) && !pc.RegSaveAdd? ==> Utxo(pc.id, w.addr) !in w.mem)
    && (pc.RegSaveAdd? ==> w.mem != [] && w.mem[|w.mem| - 1] == w.x)
  }

  /** By how much a copy of the queue may be off at pc beyond what earlier faults explain. */
  function MemMisses(pc: Pc): nat {
    if BroadcastDone(pc) && !pc.RegSaveAdd? then 1 else 0
  }

  function MemStale(pc: Pc): nat {
    if pc.RegSent? || pc.RegDequeue? then 1 else 0
  }

  function DocMisses(pc: Pc): nat {
    if BroadcastDone(pc) then 1 else 0
  }

  function DocStale(pc: Pc): nat {
    if MemStale(pc) == 1 || pc.RegSaveNext? then 1 else 0
  }

  ghost predicate Lists(w: Purse) {
    NoDup(w.mem) && NoDup(w.doc) && Known(w, w.mem) && Known(w, w.doc)
  }

  ghost predicate Counts(w: Purse, u: set<Utxo>, pc: Pc) {
    && Within(u, w.mem, w.lost + MemMisses(pc), w.lost + MemStale(pc))
    && Within(u, w.doc, w.lost + DocMisses(pc), w.lost + DocStale(pc))
  }

  /** The wallet part of the invariant, for the unspent outputs u and the thread that holds the mutex at pc. */
  ghost predicate PurseInvAt(w: Purse, u: set<Utxo>, pc: Pc) {
    Lists(w) && AtPc(w, u, pc) && Counts(w, u, pc)
  }

  ghost predicate PurseInv(w: Purse, pc: Pc) {
    PurseInvAt(w, U(w), pc)
  }

  ghost predicate Inv(s: State) {
    Mutex(s) && PurseInv(s.w, Owner(s))
  }

  // Counting.

  lemma {:induction false} StaleFront(u: set<Utxo>, q: seq<Utxo>)
    requires q != []
    ensures Stale(u, q) == (if q[0] in u then 0 else 1) + Stale(u, q[1..])
  {
    if |q| == 1 {
      assert q[..0] == [] && q[1..] == [];
    } else {
      var init := q[..|q| - 1];
      StaleFront(u, init);
      assert init[1..] == q[1..][..|q| - 2];
    }
  }

  lemma {:induction false} StaleSame(u: set<Utxo>, u': set<Utxo>, q: seq<Utxo>)
    requires forall v | v in q :: v in u <==> v in u'
    ensures Stale(u', q) == Stale(u, q)
  {
    if q == [] {
    } else {
      StaleSame(u, u', q[..|q| - 1]);
    }
  }

  /** When from leaves the unspent outputs, a queue without duplicates lists at most one more spent one. */
  lemma {:induction false} StaleAfterSend(u: set<Utxo>, from: Utxo, next: Utxo, q: seq<Utxo>)
    requires NoDup(q) && next !in q
    ensures Stale(u - {from} + {next}, q) <= Stale(u, q) + 1
  {
    if q == [] {
    } else {
      var init, last := q[..|q| - 1], q[|q| - 1];
      if last == from {
        StaleSame(u, u - {from} + {next}, init);
      } else {
        StaleAfterSend(u, from, next, init);
      }
    }
  }

  lemma SendCounts(u: set<Utxo>, u': set<Utxo>, q: seq<Utxo>, from: Utxo, next: Utxo, m: nat, n: nat)
    requires from in u && next !in u && u' == u - {from} + {next} && NoDup(q) && next !in q && Within(u, q, m, n)
    ensures Within(u', q, m + 1, n + 1)
  {
    StaleAfterSend(u, from, next, q);
    assert |u'| == |u|;
  }

  lemma DequeueCounts(u: set<Utxo>, q: seq<Utxo>, m: nat, n: nat)
    requires q != [] && q[0] !in u && Within(u, q, m, n + 1)
    ensures Within(u, q[1..], m, n)
  {
    StaleFront(u, q);
  }

  lemma EnqueueCounts(u: set<Utxo>, q: seq<Utxo>, x: Utxo, m: nat, n: nat)
    requires x in u && Within(u, q, m + 1, n)
    ensures Within(u, q + [x], m, n)
  {
    assert (q + [x])[..|q|] == q;
  }

  lemma OneMore(u: set<Utxo>, e: set<Utxo>, x: Utxo)
    requires x !in e
    ensures x in u ==> |e + {x} - u| == |e - u| && |u - (e + {x})| == |u - e| - 1
    ensures x !in u ==> |e + {x} - u| == |e - u| + 1 && |u - (e + {x})| == |u - e|
  {
    if x in u {
      assert e + {x} - u == e - u;
      assert u - (e + {x}) == (u - e) - {x};
    } else {
      assert e + {x} - u == (e - u) + {x};
      assert u - (e + {x}) == u - e;
    }
  }

  lemma ElemsSplit(q: seq<Utxo>)
    requires q != [] && NoDup(q)
    ensures Elems(q) == Elems(q[..|q| - 1]) + {q[|q| - 1]} && q[|q| - 1] !in Elems(q[..|q| - 1])
  {
    assert q == q[..|q| - 1] + [q[|q| - 1]];
  }

  /** What the counts say about sets. */
  lemma {:induction false} StaleIsCardinality(u: set<Utxo>, q: seq<Utxo>)
    requires NoDup(q)
    ensures |Elems(q) - u| == Stale(u, q) && |u - Elems(q)| == |u| - |q| + Stale(u, q)
  {
    if q == [] {
      assert Elems(q) == {};
      assert Elems(q) - u == {} && u - Elems(q) == u;
    } else {
      StaleIsCardinality(u, q[..|q| - 1]);
      ElemsSplit(q);
      OneMore(u, Elems(q[..|q| - 1]), q[|q| - 1]);
    }
  }

  lemma FundedInv(w: Purse)
    requires Funded(w)
    ensures PurseInv(w, Start)
  {
    var u := U(w);
    StaleIsCardinality(u, w.mem);
    assert u - Elems(w.mem) == {} && Elems(w.mem) - u == {};
    forall v | v in w.mem
      ensures v in u
    {
      assert v in Elems(w.mem);
    }
  }

  // Queue contents: no duplicates, only known outputs.

  lemma ListsGrow(w: Purse, w': Purse)
    requires Lists(w) && w'.addr == w.addr && w'.mem == w.mem && w'.doc == w.doc
    requires forall i | i in w.chain :: i in w'.chain && w'.chain[i].body == w.chain[i].body
    ensures Lists(w')
  {
  }

  lemma ListsDequeue(w: Purse)
    requires Lists(w) && w.mem != []
    ensures Lists(w.(mem := w.mem[1..])) && w.mem[0] !in w.mem[1..]
  {
    var r := w.mem[1..];
    assert forall i | 0 <= i < |r| :: r[i] == w.mem[i + 1];
    assert forall v | v in r :: v in w.mem;
  }

  lemma ListsEnqueue(w: Purse, x: Utxo)
    requires Lists(w) && x !in w.mem && x.addr == w.addr && x.txid in w.chain && w.chain[x.txid].body.addr == w.addr
    ensures Lists(w.(mem := w.mem + [x]))
  {
  }

  // The steps of RegisterTransaction.

  /** Counts only depend on the queues, the fault counter and the slack at pc. */
  lemma CountsFrame(w: Purse, w': Purse, u: set<Utxo>, pc: Pc, pc': Pc)
    requires Counts(w, u, pc) && w'.mem == w.mem && w'.doc == w.doc
    requires w.lost + MemMisses(pc) <= w'.lost + MemMisses(pc') && w.lost + MemStale(pc) <= w'.lost + MemStale(pc')
    requires w.lost + DocMisses(pc) <= w'.lost + DocMisses(pc') && w.lost + DocStale(pc) <= w'.lost + DocStale(pc')
    ensures Counts(w', u, pc')
  {
  }

  /** The broadcast replaces the head of the queue by the new output among the unspent ones. */
  lemma SendingUnspent(w: Purse, body: RawTx, c: Choice)
    requires Accepts(w, body, c) && body.addr == w.addr && w.chain[body.spends].body.addr == w.addr
    ensures U(Sending(w, body, c)) == U(w) - {Utxo(body.spends, w.addr)} + {Utxo(c.send.id, w.addr)}
    ensures Utxo(body.spends, w.addr) in U(w) && Utxo(c.send.id, w.addr) !in U(w) && c.send.id != body.spends
  {
    UnspentAfterSend(w.chain, c.send.id, Sending(w, body, c).chain[c.send.id], w.addr);
  }

  lemma SendLists(w: Purse, body: RawTx, c: Choice)
    requires Lists(w) && Accepts(w, body, c)
    ensures Lists(Sending(w, body, c)) && Utxo(c.send.id, w.addr) !in w.mem && Utxo(c.send.id, w.addr) !in w.doc
  {
    ListsGrow(w, Sending(w, body, c));
  }

  lemma SendAtPc(w: Purse, u: set<Utxo>, u': set<Utxo>, a: Anchor, body: RawTx, c: Choice)
    requires AtPc(w, u, RegSend(a, body)) && Accepts(w, body, c) && w.x.addr == w.addr
    requires u' == u - {w.x} + {Utxo(c.send.id, w.addr)} && c.send.id != body.spends
             && Utxo(c.send.id, w.addr) !in w.mem
    ensures AtPc(Sending(w, body, c), u', RegSent(w.x, c.send.id))
  {
  }

  lemma SendingCounts(w: Purse, u: set<Utxo>, u': set<Utxo>, a: Anchor, body: RawTx, c: Choice)
    requires Counts(w, u, RegSend(a, body)) && Lists(w) && Accepts(w, body, c)
    requires var next := Utxo(c.send.id, w.addr);
             w.x in u && next !in u && u' == u - {w.x} + {next} && next !in w.mem && next !in w.doc
    ensures Counts(Sending(w, body, c), u', RegSent(w.x, c.send.id))
  {
    SendCounts(u, u', w.mem, w.x, Utxo(c.send.id, w.addr), w.lost, w.lost);
    SendCounts(u, u', w.doc, w.x, Utxo(c.send.id, w.addr), w.lost, w.lost);
  }

  /** A registration that ends, and a queue that may be off by one more on every side. */
  lemma GivingUp(w: Purse, u: set<Utxo>, pc: Pc)
    requires PurseInvAt(w, u, pc) && BroadcastDone(pc)
    ensures PurseInvAt(GiveUp(w).w, u, Done(Failed))
  {
    var w' := GiveUp(w).w;
    ListsGrow(w, w');
    CountsFrame(w, w', u, pc, Done(Failed));
  }

  lemma SendStep(w: Purse, u: set<Utxo>, u': set<Utxo>, a: Anchor, body: RawTx, c: Choice)
    requires PurseInvAt(w, u, RegSend(a, body)) && Accepts(w, body, c)
    requires var next := Utxo(c.send.id, w.addr);
             w.x in u && next !in u && u' == u - {w.x} + {next} && c.send.id != body.spends
    ensures var m := Send(w, a, body, c); PurseInvAt(m.w, u', m.pc)
  {
    assert w.x in w.mem;
    var w' := Sending(w, body, c);
    SendLists(w, body, c);
    SendAtPc(w, u, u', a, body, c);
    SendingCounts(w, u, u', a, body, c);
    GivingUp(w', u', RegSent(w.x, c.send.id));
  }

  lemma DequeueStep(w: Purse, u: set<Utxo>, from: Utxo, id: bytes)
    requires PurseInvAt(w, u, RegDequeue(from, id))
    ensures var m := Dequeue(w, from, id); PurseInvAt(m.w, u, m.pc)
  {
    ListsDequeue(w);
    DequeueCounts(u, w.mem, w.lost + 1, w.lost);
    assert forall v | v in w.mem[1..] :: v in w.mem;
  }

  lemma EnqueueStep(w: Purse, u: set<Utxo>, from: Utxo, id: bytes)
    requires PurseInvAt(w, u, RegEnqueue(from, id))
    ensures PurseInvAt(w.(mem := w.mem + [w.x]), u, RegSaveAdd(from, id))
  {
    var w' := w.(mem := w.mem + [w.x]);
    ListsEnqueue(w, w.x);
    EnqueueCounts(u, w.mem, w.x, w.lost, w.lost);
    assert w'.mem[|w'.mem| - 1] == w.x;
  }

  /** A save that happens makes the document as good as the queue. */
  lemma Copied(w: Purse, u: set<Utxo>, pc: Pc)
    requires PurseInvAt(w, u, pc) && (pc.RegSaveNext? || pc.RegSaveAdd?)
    ensures PurseInvAt(w.(doc := w.mem), u, pc)
    ensures var k := w.lost; Within(u, w.mem, k + MemMisses(pc), k + MemStale(pc))
  {
  }

  lemma SaveNextStep(w: Purse, u: set<Utxo>, from: Utxo, id: bytes, save: Save)
    requires PurseInvAt(w, u, RegSaveNext(from, id))
    ensures var m := Saving(w, save, RegEnqueue(from, id)); PurseInvAt(m.w, u, m.pc)
  {
    Copied(w, u, RegSaveNext(from, id));
    GivingUp(w, u, RegSaveNext(from, id));
    GivingUp(w.(doc := w.mem), u, RegSaveNext(from, id));
  }

  lemma SaveAddStep(w: Purse, u: set<Utxo>, from: Utxo, id: bytes, save: Save, next: Pc)
    requires PurseInvAt(w, u, RegSaveAdd(from, id)) && (next.StoLock? || next.Done?)
    ensures var m := Saving(w, save, next); PurseInvAt(m.w, u, m.pc)
  {
    Copied(w, u, RegSaveAdd(from, id));
    GivingUp(w, u, RegSaveAdd(from, id));
    GivingUp(w.(doc := w.mem), u, RegSaveAdd(from, id));
  }

  lemma PeekStep(w: Purse, u: set<Utxo>, a: Anchor)
    requires PurseInvAt(w, u, RegPeek(a))
    ensures var m := Peek(w, a); PurseInvAt(m.w, u, m.pc)
  {
    CountsFrame(w, w, u, RegPeek(a), Peek(w, a).pc);
  }

  lemma SetStep(w: Purse, u: set<Utxo>, a: Anchor, head: Utxo)
    requires PurseInvAt(w, u, RegSet(a, head))
    ensures PurseInvAt(w.(x := head), u, RegRead(a))
  {
    ListsGrow(w, w.(x := head));
    CountsFrame(w, w.(x := head), u, RegSet(a, head), RegRead(a));
  }

  lemma ReadAtPc(w: Purse, u: set<Utxo>, cliNet: byte, a: Anchor, c: Choice)
    requires AtPc(w, u, RegRead(a)) && w.x.addr == w.addr
    ensures AtPc(w, u, Read(w, cliNet, a, c).pc)
  {
  }

  lemma ReadStep(w: Purse, u: set<Utxo>, cliNet: byte, a: Anchor, c: Choice)
    requires PurseInvAt(w, u, RegRead(a))
    ensures var m := Read(w, cliNet, a, c); PurseInvAt(m.w, u, m.pc)
  {
    assert w.x in w.mem;
    ReadAtPc(w, u, cliNet, a, c);
    CountsFrame(w, w, u, RegRead(a), Read(w, cliNet, a, c).pc);
  }

  lemma SentStep(w: Purse, u: set<Utxo>, from: Utxo, id: bytes)
    requires PurseInvAt(w, u, RegSent(from, id))
    ensures PurseInvAt(w.(x := Utxo(id, w.x.addr)), u, RegDequeue(from, id))
  {
    ListsGrow(w, w.(x := Utxo(id, w.x.addr)));
    CountsFrame(w, w.(x := Utxo(id, w.x.addr)), u, RegSent(from, id), RegDequeue(from, id));
  }

  lemma RefusedStep(w: Purse, u: set<Utxo>, a: Anchor, body: RawTx)
    requires PurseInvAt(w, u, RegSend(a, body))
    ensures PurseInvAt(w, u, Done(Failed))
  {
    CountsFrame(w, w, u, RegSend(a, body), Done(Failed));
  }

  /** Every step but a broadcast leaves the unspent outputs alone. */
  lemma OtherStep(w: Purse, u: set<Utxo>, cliNet: byte, post: bool, pc: Pc, c: Choice)
    requires InRegister(pc) && PurseInvAt(w, u, pc) && (pc.RegSend? ==> !Accepts(w, pc.body, c))
    ensures var m := RegisterStep(w, cliNet, post, pc, c); PurseInvAt(m.w, u, m.pc)
  {
    match pc
    case RegPeek(a) => PeekStep(w, u, a);
    case RegSet(a, head) => SetStep(w, u, a, head);
    case RegRead(a) => ReadStep(w, u, cliNet, a, c);
    case RegSend(a, body) => RefusedStep(w, u, a, body);
    case RegSent(from, id) => SentStep(w, u, from, id);
    case RegDequeue(from, id) => DequeueStep(w, u, from, id);
    case RegSaveNext(from, id) => SaveNextStep(w, u, from, id, c.save);
    case RegEnqueue(from, id) => EnqueueStep(w, u, from, id);
    case RegSaveAdd(from, id) => SaveAddStep(w, u, from, id, c.save, if post then StoLock(id)
        else Done(Registered(id)));
  }

  lemma OtherStepChain(w: Purse, cliNet: byte, post: bool, pc: Pc, c: Choice)
    requires InRegister(pc) && (pc.RegSend? ==> !Accepts(w, pc.body, c))
    ensures var m := RegisterStep(w, cliNet, post, pc, c);
            m.w.chain == w.chain && m.w.addr == w.addr && m.w.left == w.left && m.w.sends == w.sends
                && m.w.fees == w.fees && m.sent.None?
  {
  }

  lemma PurseStep(w: Purse, cliNet: byte, post: bool, pc: Pc, c: Choice)
    requires InRegister(pc) && PurseInv(w, pc)
    ensures var m := RegisterStep(w, cliNet, post, pc, c); PurseInv(m.w, m.pc)
  {
    if pc.RegSend? && Accepts(w, pc.body, c) {
      assert w.x in w.mem;
      SendingUnspent(w, pc.body, c);
      SendStep(w, U(w), U(Sending(w, pc.body, c)), pc.a, pc.body, c);
    } else {
      OtherStep(w, U(w), cliNet, post, pc, c);
      OtherStepChain(w, cliNet, post, pc, c);
    }
  }

  /** The invariant asks nothing special of a thread outside the locked part of RegisterTransaction. */
  predicate Quiet(pc: Pc) {
    !InRegister(pc) || pc.RegPeek?
  }

  lemma QuietPurse(w: Purse, pc: Pc, pc': Pc)
    requires PurseInv(w, pc) && Quiet(pc) && Quiet(pc')
    ensures PurseInv(w, pc')
  {
    CountsFrame(w, w, U(w), pc, pc');
  }

  lemma RefreshStaysOutside(coll: Store.Coll, req: Request, pc: Pc, c: Choice)
    requires req.Refresh? && !InRegister(pc)
    ensures !InRegister(RefreshStep(coll, req, pc, c).pc)
  {
  }

  lemma StoreStaysOutside(chain: Chain, coll: Store.Coll, req: Request, pc: Pc, c: Choice)
    requires !InRegister(pc)
    ensures !InRegister(StoreStep(chain, coll, req, pc, c).pc)
  {
    if req.Refresh? {
      RefreshStaysOutside(coll, req, pc, c);
    }
  }

  /** Other steps leave the purse alone, and enter the locked part only at its beginning. */
  lemma OutsideStep(cfg: Config, l: Local, c: Choice)
    requires !InRegister(l.th.pc)
    ensures var l' := LocalStep(cfg, l, c);
            l'.w == l.w && l'.th.req == l.th.req && Quiet(l'.th.pc) && l'.th.sent == l.th.sent
  {
    StoreStaysOutside(l.w.chain, l.coll, l.th.req, l.th.pc, c);
  }

  lemma ThreadInv(s: State, t: nat, c: Choice)
    requires Inv(s) && t in s.threads
    ensures Inv(ThreadStep(s, t, c))
  {
    MutexThread(s, t, c);
    var s' := ThreadStep(s, t, c);
    var pc, pc' := s.threads[t].pc, s'.threads[t].pc;
    if InRegister(pc) {
      assert Owner(s) == pc;
      PurseStep(s.w, s.cfg.cliNet, s.threads[t].req.Post?, pc, c);
      if !Holds(pc') {
        QuietPurse(s'.w, pc', Start);
      }
    } else {
      OutsideStep(s.cfg, Local(s.w, s.coll, s.threads[t]), c);
      if Holds(pc) || Holds(pc') {
        assert Quiet(Owner(s)) && Quiet(Owner(s'));
        QuietPurse(s.w, Owner(s), Owner(s'));
      } else {
        assert Owner(s') == Owner(s);
      }
    }
  }

  lemma ReloadInv(w: Purse, pc: Pc)
    requires PurseInv(w, pc)
    ensures PurseInv(Reload(w, pc), Start)
  {
    ReloadAt(w, U(w), pc);
  }

  lemma ReloadAt(w: Purse, u: set<Utxo>, pc: Pc)
    requires PurseInvAt(w, u, pc)
    ensures PurseInvAt(Reload(w, pc), u, Start)
  {
  }

  lemma ConfirmInv(w: Purse, id: bytes, more: nat, pc: Pc)
    requires PurseInv(w, pc)
    ensures PurseInv(Confirm(w, id, more), pc)
  {
    ConfirmUnspent(w, id, more);
    ConfirmAt(w, id, more, U(w), pc);
  }

  lemma ConfirmAt(w: Purse, id: bytes, more: nat, u: set<Utxo>, pc: Pc)
    requires PurseInvAt(w, u, pc)
    ensures PurseInvAt(Confirm(w, id, more), u, pc)
  {
    var w' := Confirm(w, id, more);
    assert forall i | i in w.chain :: i in w'.chain && w'.chain[i].body == w.chain[i].body;
    ListsGrow(w, w');
    CountsFrame(w, w', u, pc, pc);
    ConfirmAtPc(w, w', u, pc);
  }

  lemma ConfirmAtPc(w: Purse, w': Purse, u: set<Utxo>, pc: Pc)
    requires AtPc(w, u, pc) && w' == w.(chain := w'.chain)
    requires forall i | i in w.chain :: i in w'.chain && w'.chain[i].body == w.chain[i].body
    ensures AtPc(w', u, pc)
  {
  }

  lemma ConfirmUnspent(w: Purse, id: bytes, more: nat)
    ensures U(Confirm(w, id, more)) == U(w)
  {
    var w' := Confirm(w, id, more);
    assert forall i | i in w.chain :: i in w'.chain && w'.chain[i].body == w.chain[i].body;
    assert forall i :: Spent(w'.chain, i) <==> Spent(w.chain, i);
  }

  /** Every step of every thread, every crash and every block keeps the invariant. */
  lemma InvStep(s: State, st: Step)
    requires Inv(s)
    ensures Inv(Next(s, st))
  {
    MutexStep(s, st);
    match st
    case Spawn(_, _) =>
    case Crash => ReloadInv(s.w, Owner(s));
    case Mine(id, more) => ConfirmInv(s.w, id, more, Owner(s));
    case Act(t, c) =>
      if t in s.threads {
        ThreadInv(s, t, c);
      }
  }

  lemma {:induction false} InvRun(s: State, steps: seq<Step>)
    requires Init(s)
    ensures Inv(Run(s, steps))
  {
    if steps == [] {
      FundedInv(s.w);
    } else {
      InvRun(s, steps[..|steps| - 1]);
      InvStep(Run(s, steps[..|steps| - 1]), steps[|steps| - 1]);
    }
  }
}
