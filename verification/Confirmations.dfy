/** Stored confirmations against those of the ledger, in every interleaving of stores and refreshes. */
module Confirmations {
  import opened Base
  import opened OpReturn
  import opened Ledger
  import opened Store
  import opened Protocol
  import opened Accounting
  import opened History
  import opened Index
  import opened Bridge
  import opened Liveness
  import opened Progress
  import opened StoreBridge
  import opened RoundRobin
  import opened WalletLife
  import BitcoinCli

  /** The key a refresh works on. */
  function Key(req: Request): string
    requires req.Refresh?
  {
    Cid(req.dom, req.tx)
  }

  /** Where the thread of a refresh can be. */
  predicate RefreshPc(pc: Pc) {
    pc.Start? || pc.RefGet? || pc.RefLock? || pc.RefRead? || pc.RefConfs? || pc.RefName? || pc.RefNote? || pc.Done?
  }

  /** confs is at most what the ledger now says about e's transaction. */
  ghost predicate AtMost(chain: Chain, e: Entity, confs: nat) {
    e.btctx in chain && confs <= chain[e.btctx].confs
  }

  ghost predicate NoneAhead(chain: Chain, coll: Coll) {
    forall k | k in coll :: AtMost(chain, coll[k], coll[k].confs)
  }

  /** A refresh under way still refers to the transaction its key is stored with. */
  ghost predicate RefreshOk(chain: Chain, coll: Coll, th: Thread) {
    th.req.Refresh? ==>
      && RefreshPc(th.pc)
      && (th.pc.RefLock? || th.pc.RefRead? ==> Key(th.req) in coll && coll[Key(th.req)].btctx == th.pc.btctx)
      && (th.pc.RefConfs? ==> Key(th.req) in coll && AtMost(chain, coll[Key(th.req)], th.pc.confs))
  }

  ghost predicate ConfsInv(s: State) {
    && NoneAhead(s.w.chain, s.coll)
    && forall t | t in s.threads :: RefreshOk(s.w.chain, s.coll, s.threads[t])
  }

  /** Later collections keep every key, with its transaction. */
  ghost predicate SameTxs(coll: Coll, coll': Coll) {
    forall k | k in coll :: k in coll' && coll'[k].btctx == coll[k].btctx
  }

  /** A store step does not change the transaction of a key that is already stored. */
  ghost predicate KeepsTx(s: State, st: Step) {
    st.Act? && st.t in s.threads && s.threads[st.t].pc.StoPut? ==>
      var e := NewAnchorEntity(s.threads[st.t].pc.rec);
      e.cid in s.coll ==> s.coll[e.cid].btctx == e.btctx
  }

  /** Along the run each key is only ever stored with one Bitcoin transaction. */
  ghost predicate SingleTx(s: State, steps: seq<Step>) {
    forall i | 0 <= i < |steps| :: KeepsTx(Run(s, steps[..i]), steps[i])
  }

  lemma RefreshOkGrows(chain: Chain, chain': Chain, coll: Coll, coll': Coll, th: Thread)
    requires RefreshOk(chain, coll, th) && Extends(chain, chain') && SameTxs(coll, coll')
    ensures RefreshOk(chain', coll', th)
  {
  }

  lemma NoneAheadGrows(chain: Chain, chain': Chain, coll: Coll)
    requires NoneAhead(chain, coll) && Extends(chain, chain')
    ensures NoneAhead(chain', coll)
  {
  }

  lemma UpdateConfs(chain: Chain, coll: Coll, key: string, m: Mods, save: Save)
    requires NoneAhead(chain, coll)
    requires m.confs.Some? && key in coll ==> AtMost(chain, coll[key], m.confs.value)
    ensures NoneAhead(chain, UpdateAt(coll, key, m, save)) && SameTxs(coll, UpdateAt(coll, key, m, save))
  {
    if key in coll {
      ModifiedFields(coll[key], m);
    }
  }

  lemma PutConfs(chain: Chain, coll: Coll, rec: AnchorRecord, save: Save)
    requires NoneAhead(chain, coll) && FromLedger(chain, rec)
    requires var e := NewAnchorEntity(rec); e.cid in coll ==> coll[e.cid].btctx == e.btctx
    ensures NoneAhead(chain, PutAt(coll, rec, save)) && SameTxs(coll, PutAt(coll, rec, save))
  {
  }

  /** How a refresh moves on by itself. */
  lemma RefreshMoves(chain: Chain, coll: Coll, req: Request, pc: Pc, c: Choice)
    requires req.Refresh? && (pc.RefGet? || pc.RefConfs? || pc.RefName? || pc.RefNote? || pc.Done?)
    ensures var k := RefreshStep(coll, req, pc, c);
            && RefreshPc(k.pc) && !k.pc.RefRead? && !k.pc.RefConfs? && !k.pc.Start?
            && (k.pc.RefLock? ==> Key(req) in coll && k.pc.btctx == coll[Key(req)].btctx && k.coll == coll)
  {
  }

  lemma RefreshConfs(chain: Chain, coll: Coll, req: Request, pc: Pc, c: Choice)
    requires req.Refresh? && NoneAhead(chain, coll) && RefreshOk(chain, coll, Thread(req, pc, None, false))
    ensures var k := RefreshStep(coll, req, pc, c); NoneAhead(chain, k.coll) && SameTxs(coll, k.coll)
  {
    Index.RefreshShape(coll, req, pc, c);
    var m := RefreshMods(req, pc);
    if m.Some? {
      UpdateConfs(chain, coll, Key(req), m.value, c.save);
    }
  }

  /** The locked read of a refresh. */
  lemma ReadMoves(chain: Chain, coll: Coll, req: Request, pc: Pc, c: Choice)
    requires req.Refresh? && (pc.RefLock? || pc.RefRead?)
    ensures var k := StoreStep(chain, coll, req, pc, c);
            && k.coll == coll && RefreshPc(k.pc)
            && (pc.RefLock? ==> k.pc == RefRead(pc.btctx))
            && (pc.RefRead? ==> || k.pc.Done?
                                || (k.pc.RefConfs? && pc.btctx in chain && k.pc.confs == chain[pc.btctx].confs))
  {
  }

  lemma StoreConfs(chain: Chain, coll: Coll, th: Thread, c: Choice)
    requires NoneAhead(chain, coll) && RefreshOk(chain, coll, th) && StoreThreadOk(chain, th) && !InRegister(th.pc)
    requires !th.pc.Start?
    requires th.pc.StoPut? ==> var e := NewAnchorEntity(th.pc.rec); e.cid in coll ==> coll[e.cid].btctx == e.btctx
    ensures var k := StoreStep(chain, coll, th.req, th.pc, c);
            NoneAhead(chain, k.coll) && SameTxs(coll, k.coll) && RefreshOk(chain, k.coll, th.(pc := k.pc))
  {
    if th.pc.StoPut? {
      StoPutShape(chain, coll, th.req, th.pc.rec, c);
      PutConfs(chain, coll, th.pc.rec, c.save);
    } else if !th.req.Refresh? {
      OtherShape(chain, coll, th.req, th.pc, c);
    } else if th.pc.RefLock? || th.pc.RefRead? {
      ReadMoves(chain, coll, th.req, th.pc, c);
    } else {
      RefreshIsStore(chain, coll, th.req, th.pc, c);
      RefreshMoves(chain, coll, th.req, th.pc, c);
      RefreshConfs(chain, coll, th.req, th.pc, c);
    }
  }

  lemma OtherShape(chain: Chain, coll: Coll, req: Request, pc: Pc, c: Choice)
    requires !req.Refresh? && !pc.StoPut?
    ensures StoreStep(chain, coll, req, pc, c).coll == coll
  {
  }

  lemma LocalConfs(cfg: Config, l: Local, c: Choice)
    requires NoneAhead(l.w.chain, l.coll) && RefreshOk(l.w.chain, l.coll, l.th) && StoreThreadOk(l.w.chain, l.th)
    requires l.th.pc.StoPut? ==> var e := NewAnchorEntity(l.th.pc.rec); e.cid in l.coll ==>
             l.coll[e.cid].btctx == e.btctx
    ensures var l' := LocalStep(cfg, l, c);
            NoneAhead(l.w.chain, l'.coll) && SameTxs(l.coll, l'.coll) && RefreshOk(l.w.chain, l'.coll, l'.th)
  {
    if !InRegister(l.th.pc) && !l.th.pc.Start? && !l.th.pc.RegLock? {
      StoreConfs(l.w.chain, l.coll, l.th, c);
    }
  }

  /** One thread has moved; the others see a longer ledger and the same transactions under their keys. */
  lemma InstallConfs(s: State, s': State, t: nat)
    requires ConfsInv(s) && t in s.threads && t in s'.threads && s'.threads == s.threads[t := s'.threads[t]]
    requires Extends(s.w.chain, s'.w.chain) && SameTxs(s.coll, s'.coll) && NoneAhead(s.w.chain, s'.coll)
    requires RefreshOk(s.w.chain, s'.coll, s'.threads[t])
    ensures ConfsInv(s')
  {
    NoneAheadGrows(s.w.chain, s'.w.chain, s'.coll);
    forall r | r in s'.threads
      ensures RefreshOk(s'.w.chain, s'.coll, s'.threads[r])
    {
      if r == t {
        RefreshOkGrows(s.w.chain, s'.w.chain, s'.coll, s'.coll, s'.threads[t]);
      } else {
        RefreshOkGrows(s.w.chain, s'.w.chain, s.coll, s'.coll, s.threads[r]);
      }
    }
  }

  lemma ThreadConfs(s: State, t: nat, c: Choice)
    requires Reached(s) && ConfsInv(s) && t in s.threads && KeepsTx(s, Act(t, c))
    ensures ConfsInv(ThreadStep(s, t, c))
  {
    var s' := ThreadStep(s, t, c);
    LocalConfs(s.cfg, Local(s.w, s.coll, s.threads[t]), c);
    ThreadHistory(s, t, c);
    if s' != s {
      InstallConfs(s, s', t);
    }
  }

  lemma ConfirmConfs(s: State, id: bytes, more: nat)
    requires HistoryInv(s) && ConfsInv(s)
    ensures ConfsInv(Next(s, Mine(id, more)))
  {
    var s' := Next(s, Mine(id, more));
    ConfirmChain(s.w, id, more);
    NoneAheadGrows(s.w.chain, s'.w.chain, s.coll);
    forall r | r in s.threads
      ensures RefreshOk(s'.w.chain, s'.coll, s'.threads[r])
    {
      RefreshOkGrows(s.w.chain, s'.w.chain, s.coll, s.coll, s.threads[r]);
    }
  }

  lemma RestartConfs(s: State)
    requires ConfsInv(s)
    ensures ConfsInv(Restart(s))
  {
  }

  lemma ConfsStep(s: State, st: Step)
    requires Reached(s) && ConfsInv(s) && KeepsTx(s, st)
    ensures ConfsInv(Next(s, st))
  {
    match st
    case Spawn(_, _) =>
    case Crash => RestartConfs(s);
    case Mine(id, more) => ConfirmConfs(s, id, more);
    case Act(t, c) =>
      if t in s.threads {
        ThreadConfs(s, t, c);
      }
  }

  lemma {:induction false} ConfsRun(s: State, steps: seq<Step>)
    requires Init(s) && SingleTx(s, steps)
    ensures ConfsInv(Run(s, steps))
  {
    if steps == [] {
    } else {
      var n := |steps| - 1;
      var init := steps[..n];
      forall i | 0 <= i < |init|
        ensures KeepsTx(Run(s, init[..i]), init[i])
      {
        assert init[..i] == steps[..i];
        assert KeepsTx(Run(s, steps[..i]), steps[i]);
      }
      ConfsRun(s, init);
      ReachedRun(s, init);
      assert KeepsTx(Run(s, steps[..n]), steps[n]);
      ConfsStep(Run(s, init), steps[n]);
    }
  }

  /**
    If each key is only ever stored with one Bitcoin transaction, stored confirmations never exceed
    the ledger's, in any interleaving of stores, refreshes, crashes and failing writes.
   */
  lemma NeverAhead(s: State, steps: seq<Step>, k: string)
    requires Init(s) && SingleTx(s, steps) && k in Run(s, steps).coll
    ensures var s' := Run(s, steps); var e := s'.coll[k];
            e.btctx in s'.w.chain && e.confs <= s'.w.chain[e.btctx].confs
  {
    ConfsRun(s, steps);
    assert AtMost(Run(s, steps).w.chain, Run(s, steps).coll[k], Run(s, steps).coll[k].confs);
  }

  // What a refresh may change.

  ghost predicate RefreshStays(s: State) {
    forall t | t in s.threads :: s.threads[t].req.Refresh? ==> RefreshPc(s.threads[t].pc)
  }

  lemma LocalStays(cfg: Config, l: Local, c: Choice)
    requires l.th.req.Refresh? && RefreshPc(l.th.pc)
    ensures var l' := LocalStep(cfg, l, c); l'.th.req == l.th.req && RefreshPc(l'.th.pc)
  {
    if l.th.pc.RefLock? || l.th.pc.RefRead? {
      ReadMoves(l.w.chain, l.coll, l.th.req, l.th.pc, c);
    } else if !l.th.pc.Start? {
      RefreshIsStore(l.w.chain, l.coll, l.th.req, l.th.pc, c);
      RefreshMoves(l.w.chain, l.coll, l.th.req, l.th.pc, c);
    }
  }

  lemma LocalRequest(cfg: Config, l: Local, c: Choice)
    ensures LocalStep(cfg, l, c).th.req == l.th.req
  {
  }

  lemma StaysStep(s: State, st: Step)
    requires RefreshStays(s)
    ensures RefreshStays(Next(s, st))
  {
    if st.Act? && st.t in s.threads {
      var l := Local(s.w, s.coll, s.threads[st.t]);
      LocalRequest(s.cfg, l, st.c);
      if l.th.req.Refresh? {
        LocalStays(s.cfg, l, st.c);
      }
    }
  }

  lemma {:induction false} StaysRun(s: State, steps: seq<Step>)
    requires Init(s)
    ensures RefreshStays(Run(s, steps))
  {
    if steps == [] {
    } else {
      StaysRun(s, steps[..|steps| - 1]);
      StaysStep(Run(s, steps[..|steps| - 1]), steps[|steps| - 1]);
    }
  }

  lemma LocalRefreshes(cfg: Config, l: Local, c: Choice, k: string)
    requires l.th.req.Refresh? && RefreshPc(l.th.pc)
    ensures var l' := LocalStep(cfg, l, c);
            && l'.w == l.w && l'.coll.Keys == l.coll.Keys
            && (k in l.coll && k != Key(l.th.req) ==> l'.coll[k] == l.coll[k])
            && (k in l.coll ==> l'.coll[k] == l.coll[k].(confs := l'.coll[k].confs, domName := l'.coll[k].domName,
                                                         note := l'.coll[k].note))
  {
    if l.th.pc.RefLock? || l.th.pc.RefRead? {
      ReadMoves(l.w.chain, l.coll, l.th.req, l.th.pc, c);
    } else if !l.th.pc.Start? {
      RefreshIsStore(l.w.chain, l.coll, l.th.req, l.th.pc, c);
      Index.RefreshShape(l.coll, l.th.req, l.th.pc, c);
      var m := RefreshMods(l.th.req, l.th.pc);
      if m.Some? && Key(l.th.req) in l.coll {
        ModifiedFields(l.coll[Key(l.th.req)], m.value);
      }
    }
  }

  /** No step of a refresh changes the ledger or a wallet, another key, or another field. */
  lemma RefreshTouchesThreeFields(s: State, steps: seq<Step>, t: nat, c: Choice, k: string)
    requires Init(s)
    requires t in Run(s, steps).threads && Run(s, steps).threads[t].req.Refresh?
    ensures var s1 := Run(s, steps); var s2 := Next(s1, Act(t, c)); var key := Key(s1.threads[t].req);
            && s2.w == s1.w && s2.coll.Keys == s1.coll.Keys
            && (k in s1.coll && k != key ==> s2.coll[k] == s1.coll[k])
            && (k in s1.coll ==> s2.coll[k] == s1.coll[k].(confs := s2.coll[k].confs, domName := s2.coll[k].domName,
                                                           note := s2.coll[k].note))
  {
    StaysRun(s, steps);
    var s1 := Run(s, steps);
    LocalRefreshes(s1.cfg, Local(s1.w, s1.coll, s1.threads[t]), c, k);
  }

  // The proviso of one transaction per key is needed.

  /** Every call and write works. */
  const SMOOTH := Call(true, Saved)

  /** A new StoreRecord or RefreshRecord has begun. */
  lemma Begins(s: State, req: Request) returns (t: nat, steps: seq<Step>)
    requires req.StoreRecord? || req.Refresh?
    ensures t !in s.threads
    ensures var pc := if req.StoreRecord? then StoLock(req.id) else RefGet;
            Run(s, steps) == s.(threads := s.threads[t := Thread(req, pc, None, false)])
  {
    t := Above(s.threads.Keys);
    assert t !in s.threads;
    steps := [Spawn(t, req), Act(t, SMOOTH)];
    Extend(s, [], Spawn(t, req));
    Extend(s, [Spawn(t, req)], Act(t, SMOOTH));
  }

  /** The others see a thread that stood where it stands as they saw it before. */
  lemma OthersStay(s: State, s1: State, s2: State, t: nat, req: Request, pc: Pc, coll: Coll)
    requires t !in s.threads && t in s1.threads
             && s1 == s.(threads := s.threads[t := Thread(req, s1.threads[t].pc, None, false)])
    requires Stands(s1, s2, t, pc, coll) && !Holds(pc)
    ensures s2.lock.None? && s2.w == s.w && s2.coll == coll
    ensures forall r | r in s.threads :: r in s2.threads && s2.threads[r] == s.threads[r]
  {
  }

  /** A new StoreRecord runs alone. */
  lemma StoreNew(s: State, id: bytes) returns (steps: seq<Step>)
    requires s.lock.None? && RecordOf(s.w.chain, id).Some?
    ensures var s' := Run(s, steps);
            && s'.lock.None? && s'.w == s.w && s'.coll == PutAt(s.coll, RecordOf(s.w.chain, id).value, Saved)
            && forall t | t in s.threads :: t in s'.threads && s'.threads[t] == s.threads[t]
  {
    var t, begin := Begins(s, StoreRecord(id));
    var s1 := Run(s, begin);
    var store := StoreAlone(s1, t, id, BitcoinCli.GetOracle(true, true, true), Saved);
    OthersStay(s, s1, Run(s1, store), t, StoreRecord(id), Done(Stored), PutAt(s.coll, RecordOf(s.w.chain, id).value,
        Saved));
    RunConcat(s, begin, store);
    steps := begin + store;
  }

  /** The steps of a RefreshRecord up to its read of the ledger. */
  lemma ReadShapes(chain: Chain, coll: Coll, req: Request)
    requires req.Refresh? && Key(req) in coll && RecordOf(chain, coll[Key(req)].btctx).Some?
    ensures var id := coll[Key(req)].btctx;
            && StoreStep(chain, coll, req, RefGet, SMOOTH) == Kept(coll, RefLock(id))
            && StoreStep(chain, coll, req, RefLock(id), SMOOTH) == Kept(coll, RefRead(id))
            && StoreStep(chain, coll, req, RefRead(id), SMOOTH) == Kept(coll, RefConfs(chain[id].confs))
  {
  }

  /** A RefreshRecord up to its read of the ledger. */
  lemma ReadsOn(s: State, t: nat) returns (steps: seq<Step>)
    requires t in s.threads && s.threads[t].pc == RefGet && s.threads[t].req.Refresh? && s.lock.None?
    requires Key(s.threads[t].req) in s.coll && RecordOf(s.w.chain, s.coll[Key(s.threads[t].req)].btctx).Some?
    ensures var id := s.coll[Key(s.threads[t].req)].btctx;
            Stands(s, Run(s, steps), t, RefConfs(s.w.chain[id].confs), s.coll)
  {
    var id := s.coll[Key(s.threads[t].req)].btctx;
    assert s.threads[t := s.threads[t].(pc := RefGet)] == s.threads;
    ReadShapes(s.w.chain, s.coll, s.threads[t].req);
    steps := Move(s, [], t, RefGet, s.coll, SMOOTH);
    steps := Move(s, steps, t, RefLock(id), s.coll, SMOOTH);
    steps := Move(s, steps, t, RefRead(id), s.coll, SMOOTH);
  }

  /** A new RefreshRecord has read the ledger and not yet written. */
  lemma RefreshReads(s: State, req: Request) returns (t: nat, steps: seq<Step>)
    requires s.lock.None? && req.Refresh? && Key(req) in s.coll
    requires RecordOf(s.w.chain, s.coll[Key(req)].btctx).Some?
    ensures var s' := Run(s, steps);
            && s'.lock.None? && s'.w == s.w && s'.coll == s.coll && t in s'.threads
            && s'.threads[t] == Thread(req, RefConfs(s.w.chain[s.coll[Key(req)].btctx].confs), None, false)
  {
    var begin;
    t, begin := Begins(s, req);
    var read := ReadsOn(Run(s, begin), t);
    RunConcat(s, begin, read);
    steps := begin + read;
  }

  /** Two ledger transactions that carry an anchor of the same pair of ids. */
  ghost predicate SamePair(chain: Chain, one: bytes, two: bytes) {
    && RecordOf(chain, one).Some? && RecordOf(chain, two).Some?
    && var a, b := RecordOf(chain, one).value.anchor, RecordOf(chain, two).value.anchor; a.dom == b.dom && a.tx == b.tx
  }

  /** A refresh that has read `confs` writes it, whatever is now stored. */
  lemma WritesLate(s: State, t: nat, confs: nat)
    requires t in s.threads && s.threads[t].req.Refresh? && s.threads[t].pc == RefConfs(confs)
    requires Key(s.threads[t].req) in s.coll
    ensures var s', key := Next(s, Act(t, SMOOTH)), Key(s.threads[t].req);
            s'.w == s.w && key in s'.coll && s'.coll[key].btctx == s.coll[key].btctx && s'.coll[key].confs == confs
  {
  }

  /** The second transaction is stored between the read and the write of a refresh of the first. */
  lemma Overtake(s: State, one: bytes, two: bytes, req: Request) returns (steps: seq<Step>)
    requires s.lock.None? && SamePair(s.w.chain, one, two) && req.Refresh?
    requires Key(req) == NewAnchorEntity(RecordOf(s.w.chain, two).value).cid
    requires Key(req) in s.coll && s.coll[Key(req)].btctx == one
    ensures var s' := Run(s, steps);
            && s'.w == s.w && Key(req) in s'.coll
            && s'.coll[Key(req)].btctx == two && s'.coll[Key(req)].confs == s.w.chain[one].confs
  {
    var t, first := RefreshReads(s, req);
    var second := StoreNew(Run(s, first), two);
    RunConcat(s, first, second);
    WritesLate(Run(s, first + second), t, s.w.chain[one].confs);
    Extend(s, first + second, Act(t, SMOOTH));
    steps := first + second + [Act(t, SMOOTH)];
  }

  /**
    The proviso is needed: as soon as the ledger holds two anchors of one pair, the first with more
    confirmations, some interleaving leaves the stored confirmations ahead of the ledger's.
   */
  lemma AheadWithoutSingleTx(s: State, one: bytes, two: bytes) returns (steps: seq<Step>)
    requires s.lock.None? && SamePair(s.w.chain, one, two) && s.w.chain[two].confs < s.w.chain[one].confs
    ensures !NoneAhead(Run(s, steps).w.chain, Run(s, steps).coll) && Run(s, steps).w == s.w
  {
    var rec := RecordOf(s.w.chain, one).value;
    var req := Refresh(rec.anchor.dom, rec.anchor.tx, None, None);
    var store := StoreNew(s, one);
    var rest := Overtake(Run(s, store), one, two, req);
    RunConcat(s, store, rest);
    steps := store + rest;
    var s2 := Run(s, steps);
    assert !AtMost(s2.w.chain, s2.coll[Key(req)], s2.coll[Key(req)].confs);
  }

  /** What a registration leaves on the ledger is a record of its pair. */
  lemma RenewedRecord(w: Purse, id: bytes, a: Anchor)
    requires Ready(w) && ValidVersion(a.version) && ValidNet(a.net)
    ensures var rec := RecordOf(Renewed(w, id, a).chain, id);
            rec.Some? && rec.value.anchor.dom == a.dom && rec.value.anchor.tx == a.tx && rec.value.confs == 0
  {
    DecodeEncode(a);
  }

  /** A later registration leaves an earlier record alone. */
  lemma RenewedKeeps(w: Purse, id: bytes, a: Anchor, one: bytes)
    requires Ready(w) && one in w.chain && id !in w.chain
    ensures id != one && RecordOf(Renewed(w, id, a).chain, one) == RecordOf(w.chain, one)
  {
  }

  /** One registration of the pair, which lasts. */
  lemma RegisteredOnce(s: State, steps: seq<Step>, req: Request) returns (more: seq<Step>, id: bytes)
    requires Init(s) && s.w.mem != [] && s.cfg.net == s.cfg.cliNet && AllClean(steps) && req.Register?
    requires Run(s, steps).lock.None? && Run(s, steps).w.sends < Lifetime(Funds(s.w))
    requires ValidVersion(s.cfg.version) && ValidNet(s.cfg.net)
    ensures var s1, s' := Run(s, steps), Run(s, steps + more);
            && AllClean(steps + more) && s'.lock.None? && s'.w.sends == s1.w.sends + 1
            && id !in s1.w.chain && Registers(s'.w.chain, id, req)
            && forall one | one in s1.w.chain :: RecordOf(s'.w.chain, one) == RecordOf(s1.w.chain, one)
  {
    var t, a: Anchor;
    more, t, a, id := OneMoreRequest(s, steps, req);
    CfgStays(s, steps);
    var s1 := Run(s, steps);
    RenewedRecord(s1.w, id, a);
    forall one | one in s1.w.chain
      ensures RecordOf(Renewed(s1.w, id, a).chain, one) == RecordOf(s1.w.chain, one)
    {
      RenewedKeeps(s1.w, id, a, one);
    }
  }

  /** The record under id is an unconfirmed one of the pair that req registers. */
  ghost predicate Registers(chain: Chain, id: bytes, req: Request)
    requires req.Register?
  {
    var rec := RecordOf(chain, id);
    && rec.Some? && rec.value.anchor.dom == Pad32(req.dom) && rec.value.anchor.tx == Pad32(req.tx)
        && rec.value.confs == 0
  }

  /** The gateway registers one pair twice. */
  lemma RegisteredTwice(s: State, req: Request) returns (steps: seq<Step>, one: bytes, two: bytes)
    requires Init(s) && s.w.mem != [] && s.cfg.net == s.cfg.cliNet && req.Register? && 2 <= Lifetime(Funds(s.w))
    requires ValidVersion(s.cfg.version) && ValidNet(s.cfg.net)
    ensures var s' := Run(s, steps);
            s'.lock.None? && one != two && Registers(s'.w.chain, one, req) && Registers(s'.w.chain, two, req)
  {
    var first: seq<Step>, second: seq<Step>;
    first, one := RegisteredOnce(s, [], req);
    assert [] + first == first;
    second, two := RegisteredOnce(s, first, req);
    steps := first + second;
  }

  // The exact condition.

  /** The ledger holds two anchors of one pair. */
  ghost predicate TwoAnchors(chain: Chain) {
    exists one, two :: one != two && SamePair(chain, one, two)
  }

  lemma TwoAnchorsStay(chain: Chain, chain': Chain)
    requires Extends(chain, chain') && TwoAnchors(chain)
    ensures TwoAnchors(chain')
  {
    var one, two :| one != two && SamePair(chain, one, two);
    RecordGrows(chain, chain', one);
    RecordGrows(chain, chain', two);
    assert SamePair(chain', one, two);
  }

  /** A store that changes the transaction of a key has found a second anchor of its pair. */
  lemma OtherTxIsSecondAnchor(chain: Chain, coll: Coll, rec: AnchorRecord)
    requires Sound(chain, coll) && FromLedger(chain, rec)
    requires var e := NewAnchorEntity(rec); e.cid in coll && coll[e.cid].btctx != e.btctx
    ensures TwoAnchors(chain)
  {
    var e := NewAnchorEntity(rec);
    var before := coll[e.cid];
    assert Backed(chain, before);
    CidInjective(before.dom, before.tx, rec.anchor.dom, rec.anchor.tx);
    PadIdentity(before.dom);
    PadIdentity(before.tx);
    assert SamePair(chain, before.btctx, rec.btctx);
  }

  lemma OneAnchorKeepsTx(s: State, st: Step)
    requires Reached(s) && !TwoAnchors(s.w.chain)
    ensures KeepsTx(s, st)
  {
    if st.Act? && st.t in s.threads && s.threads[st.t].pc.StoPut? {
      var rec := s.threads[st.t].pc.rec;
      assert StoreThreadOk(s.w.chain, s.threads[st.t]);
      var e := NewAnchorEntity(rec);
      if e.cid in s.coll && s.coll[e.cid].btctx != e.btctx {
        OtherTxIsSecondAnchor(s.w.chain, s.coll, rec);
      }
    }
  }

  lemma PrefixExtends(s: State, a: seq<Step>, b: seq<Step>)
    requires Init(s)
    ensures Reached(Run(s, a)) && Extends(Run(s, a).w.chain, Run(s, a + b).w.chain)
  {
    ReachedRun(s, a);
    KeysStay(Run(s, a), b);
    RunConcat(s, a, b);
  }

  /** A ledger that never comes to hold two anchors of one pair: each key has one transaction all along. */
  lemma OneAnchorIsSingleTx(s: State, steps: seq<Step>)
    requires Init(s) && !TwoAnchors(Run(s, steps).w.chain)
    ensures SingleTx(s, steps)
  {
    forall i | 0 <= i < |steps|
      ensures KeepsTx(Run(s, steps[..i]), steps[i])
    {
      OneAnchorAt(s, steps, i);
    }
  }

  lemma OneAnchorBefore(s: State, a: seq<Step>, b: seq<Step>)
    requires Init(s) && !TwoAnchors(Run(s, a + b).w.chain)
    ensures Reached(Run(s, a)) && !TwoAnchors(Run(s, a).w.chain)
  {
    PrefixExtends(s, a, b);
    if TwoAnchors(Run(s, a).w.chain) {
      TwoAnchorsStay(Run(s, a).w.chain, Run(s, a + b).w.chain);
    }
  }

  lemma OneAnchorAt(s: State, steps: seq<Step>, i: nat)
    requires Init(s) && !TwoAnchors(Run(s, steps).w.chain) && i < |steps|
    ensures KeepsTx(Run(s, steps[..i]), steps[i])
  {
    var a, b := steps[..i], steps[i..];
    assert a + b == steps;
    OneAnchorBefore(s, a, b);
    OneAnchorKeepsTx(Run(s, a), steps[i]);
  }

  /** As long as the ledger holds one anchor of each pair, stored confirmations never exceed the ledger's. */
  lemma NeverAheadOfOneAnchor(s: State, steps: seq<Step>)
    requires Init(s) && !TwoAnchors(Run(s, steps).w.chain)
    ensures NoneAhead(Run(s, steps).w.chain, Run(s, steps).coll)
  {
    OneAnchorIsSingleTx(s, steps);
    ConfsRun(s, steps);
  }

  lemma Deepened(w: Purse, one: bytes, two: bytes)
    requires one != two && SamePair(w.chain, one, two)
    ensures var chain := Confirm(w, one, w.chain[two].confs + 1).chain;
            SamePair(chain, one, two) && chain[two].confs < chain[one].confs
  {
  }

  /** With a free mutex: deepen the first, and let a refresh of it be overtaken. */
  lemma IdleGetsAhead(s: State, one: bytes, two: bytes) returns (more: seq<Step>)
    requires s.lock.None? && one != two && SamePair(s.w.chain, one, two)
    ensures !NoneAhead(Run(s, more).w.chain, Run(s, more).coll)
  {
    var mine := Mine(one, s.w.chain[two].confs + 1);
    Deepened(s.w, one, two);
    Extend(s, [], mine);
    var rest := AheadWithoutSingleTx(Next(s, mine), one, two);
    RunConcat(s, [mine], rest);
    more := [mine] + rest;
  }

  /** With two anchors of one pair, in whatever state, some continuation gets ahead. */
  lemma TwoAnchorsGetAhead(s: State) returns (more: seq<Step>)
    requires Inv(s) && TwoAnchors(s.w.chain)
    ensures !NoneAhead(Run(s, more).w.chain, Run(s, more).coll)
  {
    var one, two :| one != two && SamePair(s.w.chain, one, two);
    var drain := Drain(s);
    var rest := IdleGetsAhead(Run(s, drain), one, two);
    RunConcat(s, drain, rest);
    more := drain + rest;
  }

  /** From any funded wallet that lasts for two registrations the gateway gets there by itself. */
  lemma AheadFromTheStart(s: State, req: Request) returns (steps: seq<Step>)
    requires Init(s) && s.w.mem != [] && s.cfg.net == s.cfg.cliNet && req.Register? && 2 <= Lifetime(Funds(s.w))
    requires ValidVersion(s.cfg.version) && ValidNet(s.cfg.net)
    ensures !NoneAhead(Run(s, steps).w.chain, Run(s, steps).coll)
  {
    var twice, one, two := RegisteredTwice(s, req);
    InvRun(s, twice);
    assert SamePair(Run(s, twice).w.chain, one, two);
    var rest := TwoAnchorsGetAhead(Run(s, twice));
    RunConcat(s, twice, rest);
    steps := twice + rest;
  }

  /**
    The exact condition, in every reachable state: some continuation leaves stored confirmations ahead
    of the ledger's if and only if some continuation brings two anchors of one pair onto the ledger.
   */
  lemma AheadIffTwoAnchors(s: State, steps: seq<Step>)
    requires Init(s)
    ensures var s1 := Run(s, steps);
            (exists more :: !NoneAhead(Run(s1, more).w.chain, Run(s1, more).coll))
            <==> (exists more :: TwoAnchors(Run(s1, more).w.chain))
  {
    var s1 := Run(s, steps);
    if more :| !NoneAhead(Run(s1, more).w.chain, Run(s1, more).coll) {
      AheadHasTwoAnchors(s, steps, more);
    }
    if more :| TwoAnchors(Run(s1, more).w.chain) {
      RunConcat(s, steps, more);
      InvRun(s, steps + more);
      var rest := TwoAnchorsGetAhead(Run(s1, more));
      RunConcat(s1, more, rest);
    }
  }

  lemma AheadHasTwoAnchors(s: State, steps: seq<Step>, more: seq<Step>)
    requires Init(s) && var s2 := Run(Run(s, steps), more); !NoneAhead(s2.w.chain, s2.coll)
    ensures TwoAnchors(Run(Run(s, steps), more).w.chain)
  {
    RunConcat(s, steps, more);
    if !TwoAnchors(Run(s, steps + more).w.chain) {
      NeverAheadOfOneAnchor(s, steps + more);
    }
  }
}
