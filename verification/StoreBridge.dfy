/** The store steps of the state machine, when one request runs alone, compute what the methods specify. */
module StoreBridge {
  import opened Base
  import opened OpReturn
  import opened Ledger
  import opened BitcoinCli
  import opened Store
  import opened Protocol
  import opened Bridge
  import S = Service
  import G = Gateway
  import Satoshi

  // StoreRecord.

  /** s' is s but for the pc of thread t, the mutex, which no other thread holds, and the collection. */
  ghost predicate Stands(s: State, s': State, t: nat, pc: Pc, coll: Coll) {
    && t in s.threads
    && s' == State(s.cfg, s.w, if Holds(pc) then Some(t) else None, s.threads[t := s.threads[t].(pc := pc)], coll)
  }

  /** The choices of a step of StoreRecord or RefreshRecord. */
  function Call(ok: bool, save: Save): Choice {
    Choice(ok, Time(0, 0), Refused, [], save)
  }

  lemma Move(s: State, steps: seq<Step>, t: nat, pc: Pc, coll: Coll, c: Choice) returns (steps': seq<Step>)
    requires Stands(s, Run(s, steps), t, pc, coll) && !InRegister(pc) && !pc.Start? && !pc.RegLock?
    ensures OnlyActs(steps, t) ==> OnlyActs(steps', t)
    ensures var k := StoreStep(s.w.chain, coll, s.threads[t].req, pc, c); Stands(s, Run(s, steps'), t, k.pc, k.coll)
  {
    steps' := steps + [Act(t, c)];
    Extend(s, steps, Act(t, c));
  }

  /** Where StoreRecord leaves its thread. */
  function StoredAt(req: Request, stored: bool): Pc {
    if !stored then Done(Failed) else if req.Post? then Reply else Done(Stored)
  }

  /** A StoreRecord that runs alone ends as the gateway's method specifies, for every outcome of its calls. */
  lemma StoreAlone(s: State, t: nat, id: bytes, get: GetOracle, save: Save) returns (steps: seq<Step>)
    requires t in s.threads && s.threads[t].pc == StoLock(id) && s.lock.None?
    ensures OnlyActs(steps, t)
    ensures var rec := RecordOf(s.w.chain, id);
            var found := G.GotRecord(s.w.chain, id, get);
            Stands(s, Run(s, steps), t, StoredAt(s.threads[t].req, found && save.Saved?),
                   if found then PutAt(s.coll, rec.value, save) else s.coll)
  {
    var c := Call(get.up && get.got && get.decoded, save);
    assert s.threads[t := s.threads[t].(pc := StoLock(id))] == s.threads;
    steps := Move(s, [], t, StoLock(id), s.coll, c);
    steps := Move(s, steps, t, StoRead(id), s.coll, c);
    if G.GotRecord(s.w.chain, id, get) {
      steps := Move(s, steps, t, StoPut(RecordOf(s.w.chain, id).value), s.coll, c);
    }
  }

  // RefreshRecord.

  /** What the steps of RefreshRecord outside the mutex do. */
  lemma RefreshShapes(chain: Chain, coll: Coll, req: Request, confs: nat, c: Choice)
    requires req.Refresh?
    ensures var key := Cid(req.dom, req.tx);
            && StoreStep(chain, coll, req, RefGet, c)
               == Kept(coll, if c.ok && key in coll then RefLock(coll[key].btctx) else Done(Failed))
            && StoreStep(chain, coll, req, RefConfs(confs), c)
                == Update(coll, req, Mods(Some(confs), None, None), c, RefName)
            && StoreStep(chain, coll, req, RefName, c)
               == (if req.domName.Some? then Update(coll, req, Mods(None, req.domName, None), c, RefNote)
                   else Kept(coll, RefNote))
            && StoreStep(chain, coll, req, RefNote, c)
               == (if req.note.Some? then Update(coll, req, Mods(None, None, req.note), c, Done(Protocol.Refreshed))
                   else Kept(coll, Done(Protocol.Refreshed)))
  {
  }

  lemma FetchShapes(chain: Chain, coll: Coll, req: Request, id: bytes, c: Choice)
    ensures StoreStep(chain, coll, req, RefLock(id), c) == Kept(coll, RefRead(id))
    ensures StoreStep(chain, coll, req, RefRead(id), c)
            == Kept(coll, if c.ok && RecordOf(chain, id).Some? then RefConfs(chain[id].confs) else Done(Failed))
  {
  }

  /** The locked read of the ledger. */
  lemma RefreshFetches(s: State, steps: seq<Step>, t: nat, id: bytes, get: GetOracle) returns (steps': seq<Step>)
    requires Stands(s, Run(s, steps), t, RefLock(id), s.coll)
    ensures OnlyActs(steps, t) ==> OnlyActs(steps', t)
    ensures Stands(s, Run(s, steps'), t,
                   if G.GotRecord(s.w.chain, id, get) then RefConfs(s.w.chain[id].confs) else Done(Failed), s.coll)
  {
    var c := Call(get.up && get.got && get.decoded, Saved);
    FetchShapes(s.w.chain, s.coll, s.threads[t].req, id, c);
    steps' := Move(s, steps, t, RefLock(id), s.coll, c);
    steps' := Move(s, steps', t, RefRead(id), s.coll, c);
  }

  /** Up to and with the read of the ledger. */
  lemma RefreshReads(s: State, t: nat, o: G.RefreshOracle) returns (steps: seq<Step>)
    requires t in s.threads && s.threads[t].pc == RefGet && s.threads[t].req.Refresh? && s.lock.None?
    ensures OnlyActs(steps, t)
    ensures var key := Cid(s.threads[t].req.dom, s.threads[t].req.tx);
            var read := o.read && key in s.coll && G.GotRecord(s.w.chain, s.coll[key].btctx, o.get);
            Stands(s, Run(s, steps), t,
                   if read then RefConfs(s.w.chain[s.coll[key].btctx].confs) else Done(Failed), s.coll)
  {
    var req, c := s.threads[t].req, Call(o.read, Saved);
    var key := Cid(req.dom, req.tx);
    assert s.threads[t := s.threads[t].(pc := RefGet)] == s.threads;
    RefreshShapes(s.w.chain, s.coll, req, 0, c);
    steps := Move(s, [], t, RefGet, s.coll, c);
    if o.read && key in s.coll {
      steps := RefreshFetches(s, steps, t, s.coll[key].btctx, o.get);
    }
  }

  /** The three updates, as far as they go. */
  lemma RefreshWrites(s: State, steps: seq<Step>, t: nat, o: G.RefreshOracle) returns (steps': seq<Step>)
    requires t in s.threads && s.threads[t].req.Refresh?
    requires var key := Cid(s.threads[t].req.dom, s.threads[t].req.tx);
             && key in s.coll && o.read && G.GotRecord(s.w.chain, s.coll[key].btctx, o.get)
             && Stands(s, Run(s, steps), t, RefConfs(s.w.chain[s.coll[key].btctx].confs), s.coll)
    ensures OnlyActs(steps, t) ==> OnlyActs(steps', t)
    ensures var req := s.threads[t].req;
            var r := G.Refreshed(s.w.chain, s.coll, Cid(req.dom, req.tx), req.domName, req.note, o);
            Stands(s, Run(s, steps'), t, Done(if r.1 then Protocol.Refreshed else Failed), r.0)
  {
    var req := s.threads[t].req;
    var key := Cid(req.dom, req.tx);
    var confs := s.w.chain[s.coll[key].btctx].confs;
    var c1 := UpdateAt(s.coll, key, Mods(Some(confs), None, None), o.confs);
    RefreshShapes(s.w.chain, s.coll, req, confs, Call(true, o.confs));
    steps' := Move(s, steps, t, RefConfs(confs), s.coll, Call(true, o.confs));
    if o.confs.Saved? {
      var c2 := if req.domName.Some? then UpdateAt(c1, key, Mods(None, req.domName, None), o.name) else c1;
      RefreshShapes(s.w.chain, c1, req, confs, Call(true, o.name));
      steps' := Move(s, steps', t, RefName, c1, Call(true, o.name));
      if req.domName.Some? ==> o.name.Saved? {
        RefreshShapes(s.w.chain, c2, req, confs, Call(true, o.note));
        steps' := Move(s, steps', t, RefNote, c2, Call(true, o.note));
      }
    }
  }

  /** A RefreshRecord that runs alone ends as the gateway's method specifies, for every outcome of its calls. */
  lemma RefreshAlone(s: State, t: nat, o: G.RefreshOracle) returns (steps: seq<Step>)
    requires t in s.threads && s.threads[t].pc == RefGet && s.threads[t].req.Refresh? && s.lock.None?
    ensures OnlyActs(steps, t)
    ensures var req := s.threads[t].req;
            var r := G.Refreshed(s.w.chain, s.coll, Cid(req.dom, req.tx), req.domName, req.note, o);
            Stands(s, Run(s, steps), t, Done(if r.1 then Protocol.Refreshed else Failed), r.0)
  {
    steps := RefreshReads(s, t, o);
    var key := Cid(s.threads[t].req.dom, s.threads[t].req.tx);
    if o.read && key in s.coll && G.GotRecord(s.w.chain, s.coll[key].btctx, o.get) {
      steps := RefreshWrites(s, steps, t, o);
    }
  }

  // The POST handler.

  /** The reply that the handler writes where the machine's thread ends. */
  ghost predicate Replies(pc: Pc, r: S.Reply) {
    && pc.Done?
    && match pc.r
       case AlreadyExists => r == S.Failure(S.DigestAlreadyExists)
       case Answered(rec) => r == S.Success(S.Show(rec))
       case Failed => r == S.Failure(S.RegisterFailed)
       case _ => false
  }

  lemma ReplyStep(chain: Chain, coll: Coll, req: Request, works: bool)
    requires req.Post?
    ensures var k := StoreStep(chain, coll, req, Reply, Call(works, Saved));
            && k.coll == coll
            && Replies(k.pc, if works && Cid(req.dom, req.tx) in coll
                             then S.Success(S.Show(Store.Record(coll[Cid(req.dom, req.tx)])))
                                 else S.Failure(S.RegisterFailed))
  {
  }

  /** The handler from the store on. */
  lemma KeepAlone(s: State, t: nat, id: bytes, o: S.PostOracle) returns (steps: seq<Step>, pc: Pc)
    requires t in s.threads && s.threads[t].pc == StoLock(id) && s.threads[t].req.Post? && s.lock.None?
    ensures OnlyActs(steps, t)
    ensures var req := s.threads[t].req;
            var k := S.KeepRecord(s.w.chain, s.coll, req.dom, req.tx, id, o);
            Stands(s, Run(s, steps), t, pc, k.0) && Replies(pc, k.1)
  {
    steps := StoreAlone(s, t, id, o.get, o.put);
    pc := Done(Failed);
    if G.GotRecord(s.w.chain, id, o.get) && o.put.Saved? {
      var coll := PutAt(s.coll, RecordOf(s.w.chain, id).value, o.put);
      ReplyStep(s.w.chain, coll, s.threads[t].req, o.reply);
      pc := StoreStep(s.w.chain, coll, s.threads[t].req, Reply, Call(o.reply, Saved)).pc;
      steps := Move(s, steps, t, Reply, coll, Call(o.reply, Saved));
    }
  }

  /** The gateway that the handler works on. */
  function Settings(s: State, f: Satoshi.Float): S.Config {
    S.Config(f, s.cfg.cliNet, s.cfg.net, s.cfg.version)
  }

  /** s' is what the handler leaves of ledger, wallet and store, with its reply at thread t. */
  ghost predicate Answers(s': State, t: nat, w: S.World, r: S.Reply) {
    t in s'.threads && Matches(s'.w, w.g) && s'.coll == w.coll && s'.lock.None? && Replies(s'.threads[t].pc, r)
  }

  /** A thread that stands at its end has answered. */
  lemma StandsAnswers(s: State, s': State, t: nat, pc: Pc, coll: Coll, g: G.State, r: S.Reply)
    requires Stands(s, s', t, pc, coll) && Matches(s.w, g) && Replies(pc, r)
    ensures Answers(s', t, S.World(g, coll), r)
  {
  }

  /** The handler from the registration on. */
  lemma AbsentAlone(f: Satoshi.Float, s: State, t: nat, g: G.State, o: S.PostOracle) returns (steps: seq<Step>)
    requires ValidNode(g.node) && Matches(s.w, g) && CalcsAs(s.w.left, f) && s.lock.None?
    requires t in s.threads && s.threads[t].req.Post?
             && s.threads[t].pc == RegLock(AnchorFor(s.cfg, s.threads[t].req, o.now))
    ensures OnlyActs(steps, t)
    ensures var req := s.threads[t].req;
            var p := S.PostAbsent(Settings(s, f), S.World(g, s.coll), req.dom, req.tx, o);
            Answers(Run(s, steps), t, p.0, p.1)
  {
    var req := s.threads[t].req;
    var a := AnchorFor(s.cfg, req, o.now);
    var r := G.Register(f, s.cfg.cliNet, g, a, o.register);
    steps := RegisterAlone(f, s, t, a, g, o.register);
    if r.txid.Some? {
      var s2 := Run(s, steps);
      var keep, pc := KeepAlone(s2, t, r.txid.value, o);
      var k := S.KeepRecord(s2.w.chain, s2.coll, req.dom, req.tx, r.txid.value, o);
      StandsAnswers(s2, Run(s2, keep), t, pc, k.0, r.s, k.1);
      RunConcat(s, steps, keep);
      steps := steps + keep;
    }
  }

  lemma BeginsPost(s: State, t: nat, o: S.PostOracle)
    requires t in s.threads && s.threads[t].req.Post? && s.threads[t].pc.Start?
    ensures var s1 := Run(s, [Act(t, Call(o.check, Saved).(now := o.now))]);
            var req := s.threads[t].req;
            var found := o.check && Cid(req.dom, req.tx) in s.coll;
            && t in s1.threads && s1.threads[t].req == req && s1 == s.(threads := s1.threads)
            && s1.threads[t].pc == if found then Done(AlreadyExists) else RegLock(AnchorFor(s.cfg, req, o.now))
  {
    Extend(s, [], Act(t, Call(o.check, Saved).(now := o.now)));
  }

  /**
    A POST that runs alone ends as the handler specifies, for every outcome of its calls: with its
    ledger, both copies of its queue, its store and its reply.
   */
  lemma PostAlone(f: Satoshi.Float, s: State, t: nat, g: G.State, o: S.PostOracle) returns (steps: seq<Step>)
    requires ValidNode(g.node) && Matches(s.w, g) && CalcsAs(s.w.left, f) && s.lock.None?
    requires t in s.threads && s.threads[t].req.Post? && s.threads[t].pc.Start?
    ensures OnlyActs(steps, t)
    ensures var req := s.threads[t].req;
            var p := S.Post(Settings(s, f), S.World(g, s.coll), req.dom, req.tx, o);
            Answers(Run(s, steps), t, p.0, p.1)
  {
    var req := s.threads[t].req;
    steps := [Act(t, Call(o.check, Saved).(now := o.now))];
    BeginsPost(s, t, o);
    if !(o.check && Cid(req.dom, req.tx) in s.coll) {
      var rest := AbsentAlone(f, Run(s, steps), t, g, o);
      RunConcat(s, steps, rest);
      steps := steps + rest;
    }
  }
}
