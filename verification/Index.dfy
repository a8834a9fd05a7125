/** The record store as an index over the ledger, in every interleaving of stores, refreshes and POSTs. */
module Index {
  import opened Base
  import opened Ledger
  import opened Store
  import opened Protocol
  import opened Accounting
  import opened History

  /** rec is what the ledger holds under its transaction id, at some earlier number of confirmations. */
  ghost predicate FromLedger(chain: Chain, rec: AnchorRecord) {
    var now := RecordOf(chain, rec.btctx);
    now.Some? && rec.confs <= now.value.confs && rec == now.value.(confs := rec.confs)
  }

  /** e names a ledger transaction whose OP_RETURN decodes to e's anchor. */
  ghost predicate Backed(chain: Chain, e: Entity) {
    var now := RecordOf(chain, e.btctx);
    now.Some? && Record(e).anchor == now.value.anchor && e.txTime == now.value.txTime
  }

  ghost predicate AllBacked(chain: Chain, coll: Coll) {
    forall k | k in coll :: Backed(chain, coll[k])
  }

  ghost predicate Sound(chain: Chain, coll: Coll) {
    Indexed(coll) && AllBacked(chain, coll)
  }

  /** An answered POST was answered with a ledger-backed record of the same concatenated ids. */
  ghost predicate AnswerOk(chain: Chain, req: Request, rec: AnchorRecord) {
    && req.Post? && rec.anchor.dom + rec.anchor.tx == req.dom + req.tx
    && RecordOf(chain, rec.btctx).Some? && RecordOf(chain, rec.btctx).value.anchor == rec.anchor
  }

  ghost predicate StoreThreadOk(chain: Chain, th: Thread) {
    && (th.pc.StoPut? ==> FromLedger(chain, th.pc.rec))
    && (th.pc.Done? && th.pc.r.Answered? ==> AnswerOk(chain, th.req, th.pc.r.rec))
  }

  ghost predicate IndexInv(s: State) {
    && Sound(s.w.chain, s.coll)
    && forall t | t in s.threads :: StoreThreadOk(s.w.chain, s.threads[t])
  }

  lemma RecordGrows(chain: Chain, chain': Chain, id: bytes)
    requires Extends(chain, chain') && RecordOf(chain, id).Some?
    ensures RecordOf(chain', id) == Some(RecordOf(chain, id).value.(confs := chain'[id].confs))
    ensures chain[id].confs <= chain'[id].confs
  {
  }

  lemma BackedGrows(chain: Chain, chain': Chain, coll: Coll)
    requires AllBacked(chain, coll) && Extends(chain, chain')
    ensures AllBacked(chain', coll)
  {
    forall k | k in coll
      ensures Backed(chain', coll[k])
    {
      RecordGrows(chain, chain', coll[k].btctx);
    }
  }

  lemma ThreadGrows(chain: Chain, chain': Chain, th: Thread)
    requires StoreThreadOk(chain, th) && Extends(chain, chain')
    ensures StoreThreadOk(chain', th)
  {
    if th.pc.StoPut? {
      RecordGrows(chain, chain', th.pc.rec.btctx);
    } else if th.pc.Done? && th.pc.r.Answered? {
      RecordGrows(chain, chain', th.pc.r.rec.btctx);
    }
  }

  lemma PutBacked(chain: Chain, coll: Coll, rec: AnchorRecord, save: Save)
    requires AllBacked(chain, coll) && FromLedger(chain, rec)
    ensures AllBacked(chain, PutAt(coll, rec, save))
  {
    EntityRoundTrip(rec);
  }

  lemma UpdateBacked(chain: Chain, coll: Coll, key: string, m: Mods, save: Save)
    requires AllBacked(chain, coll)
    ensures AllBacked(chain, UpdateAt(coll, key, m, save))
  {
    if key in coll {
      ModifiedFields(coll[key], m);
    }
  }

  /** The modification that a step of RefreshRecord makes, if any. */
  function RefreshMods(req: Request, pc: Pc): Option<Mods>
    requires req.Refresh?
  {
    if pc.RefConfs? then Some(Mods(Some(pc.confs), None, None))
    else if pc.RefName? && req.domName.Some? then Some(Mods(None, req.domName, None))
    else if pc.RefNote? && req.note.Some? then Some(Mods(None, None, req.note))
    else None
  }

  lemma RefreshShape(coll: Coll, req: Request, pc: Pc, c: Choice)
    requires req.Refresh?
    ensures var k := RefreshStep(coll, req, pc, c);
            var m := RefreshMods(req, pc);
            && k.coll == (if m.None? then coll else UpdateAt(coll, Cid(req.dom, req.tx), m.value, c.save))
            && (k.pc == pc || (!k.pc.StoPut? && !(k.pc.Done? && k.pc.r.Answered?)))
  {
  }

  lemma UpdateKeeps(chain: Chain, coll: Coll, key: string, m: Mods, save: Save)
    requires Sound(chain, coll)
    ensures Sound(chain, UpdateAt(coll, key, m, save)) && UpdateAt(coll, key, m, save).Keys == coll.Keys
  {
    UpdateKeepsIndexed(coll, key, m, save);
    UpdateBacked(chain, coll, key, m, save);
  }

  lemma RefreshKeeps(chain: Chain, coll: Coll, req: Request, pc: Pc, c: Choice)
    requires req.Refresh? && Sound(chain, coll)
    ensures var k := RefreshStep(coll, req, pc, c); Sound(chain, k.coll) && k.coll.Keys == coll.Keys
  {
    RefreshShape(coll, req, pc, c);
    var m := RefreshMods(req, pc);
    if m.Some? {
      UpdateKeeps(chain, coll, Cid(req.dom, req.tx), m.value, c.save);
    }
  }

  lemma PutKeeps(chain: Chain, coll: Coll, rec: AnchorRecord, save: Save)
    requires Sound(chain, coll) && FromLedger(chain, rec)
    ensures Sound(chain, PutAt(coll, rec, save)) && coll.Keys <= PutAt(coll, rec, save).Keys
  {
    PutKeepsIndexed(coll, rec, save);
    PutBacked(chain, coll, rec, save);
  }

  lemma ReplyOk(chain: Chain, coll: Coll, req: Request)
    requires Sound(chain, coll) && req.Post? && Cid(req.dom, req.tx) in coll
    ensures AnswerOk(chain, req, Record(coll[Cid(req.dom, req.tx)]))
  {
    LookupFindsSameBytes(coll, req.dom, req.tx);
    assert Backed(chain, coll[Cid(req.dom, req.tx)]);
  }

  /** Steps other than StoPut, Reply and those of RefreshRecord leave the collection alone. */
  lemma ReadShape(chain: Chain, coll: Coll, req: Request, pc: Pc, c: Choice)
    requires !InRegister(pc) && !pc.StoPut? && !pc.Reply?
    requires pc.StoLock? || pc.StoRead? || pc.RefLock? || pc.RefRead? || !req.Refresh?
    ensures var k := StoreStep(chain, coll, req, pc, c);
            && k.coll == coll && (k.pc.StoPut? ==> FromLedger(chain, k.pc.rec))
            && (k.pc == pc || !(k.pc.Done? && k.pc.r.Answered?))
  {
  }

  lemma StoPutShape(chain: Chain, coll: Coll, req: Request, rec: AnchorRecord, c: Choice)
    ensures var k := StoreStep(chain, coll, req, StoPut(rec), c);
            k.coll == PutAt(coll, rec, c.save) && !k.pc.StoPut? && !(k.pc.Done? && k.pc.r.Answered?)
  {
  }

  lemma ReplyShape(chain: Chain, coll: Coll, req: Request, c: Choice)
    ensures var k := StoreStep(chain, coll, req, Reply, c);
            && k.coll == coll && !k.pc.StoPut?
            && (k.pc.Done? && k.pc.r.Answered? ==>
                  req.Post? && Cid(req.dom, req.tx) in coll && k.pc.r.rec == Record(coll[Cid(req.dom, req.tx)]))
  {
  }

  lemma RefreshIsStore(chain: Chain, coll: Coll, req: Request, pc: Pc, c: Choice)
    requires req.Refresh? && !pc.StoPut? && !pc.Reply? && !pc.StoLock? && !pc.StoRead? && !pc.RefLock? && !pc.RefRead?
    ensures StoreStep(chain, coll, req, pc, c) == RefreshStep(coll, req, pc, c)
  {
  }

  lemma StoreKeeps(chain: Chain, coll: Coll, th: Thread, c: Choice)
    requires Sound(chain, coll) && StoreThreadOk(chain, th) && !InRegister(th.pc)
    ensures var k := StoreStep(chain, coll, th.req, th.pc, c);
            Sound(chain, k.coll) && coll.Keys <= k.coll.Keys && StoreThreadOk(chain, th.(pc := k.pc))
  {
    if th.pc.StoPut? {
      StoPutShape(chain, coll, th.req, th.pc.rec, c);
      PutKeeps(chain, coll, th.pc.rec, c.save);
    } else if th.pc.Reply? {
      ReplyShape(chain, coll, th.req, c);
      if th.req.Post? && Cid(th.req.dom, th.req.tx) in coll {
        ReplyOk(chain, coll, th.req);
      }
    } else if !th.req.Refresh? || th.pc.StoLock? || th.pc.StoRead? || th.pc.RefLock? || th.pc.RefRead? {
      ReadShape(chain, coll, th.req, th.pc, c);
    } else {
      RefreshIsStore(chain, coll, th.req, th.pc, c);
      RefreshShape(coll, th.req, th.pc, c);
      RefreshKeeps(chain, coll, th.req, th.pc, c);
    }
  }

  /** A registering thread is never at a store step. */
  lemma RegisterQuiet(w: Purse, cliNet: byte, post: bool, pc: Pc, c: Choice)
    requires InRegister(pc)
    ensures var pc' := RegisterStep(w, cliNet, post, pc, c).pc; !pc'.StoPut? && !(pc'.Done? && pc'.r.Answered?)
  {
  }

  lemma LocalKeeps(cfg: Config, l: Local, c: Choice)
    requires Sound(l.w.chain, l.coll) && StoreThreadOk(l.w.chain, l.th)
    ensures var l' := LocalStep(cfg, l, c);
            Sound(l.w.chain, l'.coll) && StoreThreadOk(l.w.chain, l'.th) && l.coll.Keys <= l'.coll.Keys
  {
    if InRegister(l.th.pc) {
      RegisterQuiet(l.w, cfg.cliNet, l.th.req.Post?, l.th.pc, c);
    } else if !l.th.pc.Start? && !l.th.pc.RegLock? {
      StoreKeeps(l.w.chain, l.coll, l.th, c);
    }
  }

  lemma ThreadIndex(s: State, t: nat, c: Choice)
    requires Inv(s) && HistoryInv(s) && IndexInv(s) && t in s.threads
    ensures IndexInv(ThreadStep(s, t, c)) && s.coll.Keys <= ThreadStep(s, t, c).coll.Keys
  {
    var l := Local(s.w, s.coll, s.threads[t]);
    var l' := LocalStep(s.cfg, l, c);
    var s' := ThreadStep(s, t, c);
    LocalKeeps(s.cfg, l, c);
    ThreadHistory(s, t, c);
    if s' != s {
      assert s'.w == l'.w && s'.coll == l'.coll && s'.threads == s.threads[t := l'.th];
      BackedGrows(s.w.chain, s'.w.chain, s'.coll);
      forall r | r in s'.threads
        ensures StoreThreadOk(s'.w.chain, s'.threads[r])
      {
        ThreadGrows(s.w.chain, s'.w.chain, s'.threads[r]);
      }
    }
  }

  lemma ConfirmIndex(s: State, id: bytes, more: nat)
    requires HistoryInv(s) && IndexInv(s)
    ensures IndexInv(Next(s, Mine(id, more)))
  {
    var s' := Next(s, Mine(id, more));
    ConfirmChain(s.w, id, more);
    BackedGrows(s.w.chain, s'.w.chain, s.coll);
    forall r | r in s.threads
      ensures StoreThreadOk(s'.w.chain, s'.threads[r])
    {
      ThreadGrows(s.w.chain, s'.w.chain, s.threads[r]);
    }
  }

  lemma RestartIndex(s: State)
    requires IndexInv(s)
    ensures IndexInv(Restart(s))
  {
  }

  lemma IndexStep(s: State, st: Step)
    requires Inv(s) && HistoryInv(s) && IndexInv(s)
    ensures IndexInv(Next(s, st)) && s.coll.Keys <= Next(s, st).coll.Keys
  {
    match st
    case Spawn(_, _) =>
    case Crash => RestartIndex(s);
    case Mine(id, more) => ConfirmIndex(s, id, more);
    case Act(t, c) =>
      if t in s.threads {
        ThreadIndex(s, t, c);
      }
  }

  lemma {:induction false} IndexRun(s: State, steps: seq<Step>)
    requires Init(s)
    ensures IndexInv(Run(s, steps))
  {
    if steps == [] {
    } else {
      var init := steps[..|steps| - 1];
      IndexRun(s, init);
      InvRun(s, init);
      HistoryRun(s, init);
      IndexStep(Run(s, init), steps[|steps| - 1]);
    }
  }

  /** What is known of a state when a run is continued. */
  ghost predicate Reached(s: State) {
    Inv(s) && HistoryInv(s) && IndexInv(s)
  }

  lemma ReachedRun(s: State, steps: seq<Step>)
    requires Init(s)
    ensures Reached(Run(s, steps))
  {
    InvRun(s, steps);
    HistoryRun(s, steps);
    IndexRun(s, steps);
  }

  lemma ReachedStep(s: State, st: Step)
    requires Reached(s)
    ensures Reached(Next(s, st)) && s.coll.Keys <= Next(s, st).coll.Keys && Extends(s.w.chain, Next(s, st).w.chain)
  {
    InvStep(s, st);
    HistoryStep(s, st);
    IndexStep(s, st);
  }

  /** Once a key is stored it stays, and its entity stays backed by the ledger. */
  lemma {:induction false} KeysStay(s: State, steps: seq<Step>)
    requires Reached(s)
    ensures Reached(Run(s, steps)) && s.coll.Keys <= Run(s, steps).coll.Keys
    ensures Extends(s.w.chain, Run(s, steps).w.chain)
  {
    if steps == [] {
    } else {
      var init := steps[..|steps| - 1];
      KeysStay(s, init);
      ReachedStep(Run(s, init), steps[|steps| - 1]);
      ExtendsTransitive(s.w.chain, Run(s, init).w.chain, Run(s, steps).w.chain);
    }
  }
}
