/** The state machine, when one registration runs alone, computes what the gateway's method specifies. */
module Bridge {
  import opened Base
  import opened OpReturn
  import opened Satoshi
  import opened Ledger
  import opened BitcoinCli
  import opened Protocol
  import G = Gateway
  import W = Wallet

  /** The purse of the state machine is the wallet, adapter and ledger of a gateway. */
  ghost predicate Matches(w: Purse, g: G.State) {
    && g.wallet.Some? && w.chain == g.node.chain && w.x == g.x && w.mem == g.wallet.value.q
    && w.doc == (if g.wallet.value.doc.Some? then g.wallet.value.doc.value else [])
  }

  /** Thread t holds the mutex at pc, with purse w; everything else is as in s. */
  ghost predicate At(s: State, s': State, t: nat, w: Purse, pc: Pc) {
    && t in s.threads && t in s'.threads
    && s'.cfg == s.cfg && s'.coll == s.coll && s'.w == w && s'.threads == s.threads[t := s'.threads[t]]
    && s'.threads[t] == s.threads[t].(pc := pc, sent := s'.threads[t].sent)
    && s'.lock == if Holds(pc) then Some(t) else None
  }

  lemma Advance(s: State, s1: State, t: nat, w: Purse, pc: Pc, c: Choice)
    requires At(s, s1, t, w, pc) && InRegister(pc)
    ensures var m := RegisterStep(w, s.cfg.cliNet, s.threads[t].req.Post?, pc, c);
            At(s, Next(s1, Act(t, c)), t, m.w, m.pc) || (Holds(m.pc) && !InRegister(m.pc))
  {
  }

  lemma Enter(s: State, t: nat, a: Anchor, c: Choice)
    requires t in s.threads && s.threads[t].pc == RegLock(a) && s.lock.None?
    ensures At(s, Next(s, Act(t, c)), t, s.w, RegPeek(a))
  {
  }

  /** All steps are t's. */
  ghost predicate OnlyActs(steps: seq<Step>, t: nat) {
    forall st | st in steps :: st.Act? && st.t == t
  }

  /** Run the next step of a thread, and remember it. */
  lemma Extend(s: State, steps: seq<Step>, st: Step)
    ensures Run(s, steps + [st]) == Next(Run(s, steps), st)
  {
    assert (steps + [st])[..|steps|] == steps;
  }

  lemma {:induction false} RunConcat(s: State, a: seq<Step>, b: seq<Step>)
    ensures Run(s, a + b) == Run(Run(s, a), b)
  {
    if b == [] {
      assert a + b == a;
    } else {
      RunConcat(s, a, b[..|b| - 1]);
      assert a + b == (a + b[..|b| - 1]) + [b[|b| - 1]];
      Extend(s, a + b[..|b| - 1], b[|b| - 1]);
    }
  }

  lemma Go(s: State, t: nat, steps: seq<Step>, w: Purse, pc: Pc, c: Choice) returns (steps': seq<Step>)
    requires At(s, Run(s, steps), t, w, pc) && InRegister(pc)
    ensures OnlyActs(steps, t) ==> OnlyActs(steps', t)
    ensures steps' == steps + [Act(t, c)]
    ensures var m := RegisterStep(w, s.cfg.cliNet, s.threads[t].req.Post?, pc, c);
            At(s, Run(s, steps'), t, m.w, m.pc) || (Holds(m.pc) && !InRegister(m.pc))
  {
    steps' := steps + [Act(t, c)];
    Extend(s, steps, Act(t, c));
    Advance(s, Run(s, steps), t, w, pc, c);
  }

  /** From the lock to the point where PutAnchor reads the adapter's UTXO, which is the head of the queue. */
  lemma ToRead(s: State, t: nat, a: Anchor, c: Choice) returns (steps: seq<Step>)
    requires t in s.threads && s.threads[t].pc == RegLock(a) && s.lock.None? && s.w.mem != []
    ensures OnlyActs(steps, t)
    ensures steps == [Act(t, c), Act(t, c), Act(t, c)]
    ensures At(s, Run(s, steps), t, s.w.(x := s.w.mem[0]), RegRead(a))
  {
    Extend(s, [], Act(t, c));
    Enter(s, t, a, c);
    steps := Go(s, t, [Act(t, c)], s.w, RegPeek(a), c);
    steps := Go(s, t, steps, s.w, RegSet(a, s.w.mem[0]), c);
  }

  /** Reading and sending. */
  lemma ToSent(s: State, t: nat, steps: seq<Step>, w: Purse, a: Anchor, body: RawTx, c: Choice)
    returns (steps': seq<Step>)
    requires At(s, Run(s, steps), t, w, RegRead(a)) && Buildable(w, s.cfg.cliNet, a, c)
    requires Body(w, a) == Some(body) && Accepts(w, body, c)
    ensures OnlyActs(steps, t) ==> OnlyActs(steps', t)
    ensures steps' == steps + [Act(t, c), Act(t, c)]
    ensures var m := Send(w, a, body, c); At(s, Run(s, steps'), t, m.w, m.pc)
  {
    steps' := Go(s, t, steps, w, RegRead(a), c);
    steps' := Go(s, t, steps', w, RegSend(a, body), c);
  }

  /** The purse after NextUTXO, and after AddUTXO. */
  function Dropped(w: Purse, from: Utxo, id: bytes, save: Save): Moved
    requires w.mem != []
  {
    Saving(w.(x := Utxo(id, w.x.addr), mem := w.mem[1..]), save, RegEnqueue(from, id))
  }

  function Queued(w: Purse, save: Save, done: Pc): Moved {
    Saving(w.(mem := w.mem + [w.x]), save, done)
  }

  lemma ToDropped(s: State, t: nat, steps: seq<Step>, w: Purse, from: Utxo, id: bytes, c: Choice)
    returns (steps': seq<Step>)
    requires At(s, Run(s, steps), t, w, RegSent(from, id)) && w.mem != []
    ensures OnlyActs(steps, t) ==> OnlyActs(steps', t)
    ensures steps' == steps + [Act(t, c), Act(t, c), Act(t, c)]
    ensures var m := Dropped(w, from, id, c.save); At(s, Run(s, steps'), t, m.w, m.pc)
  {
    var w1 := w.(x := Utxo(id, w.x.addr));
    steps' := Go(s, t, steps, w, RegSent(from, id), c);
    steps' := ToSavedNext(s, t, steps', w1, from, id, c);
  }

  lemma ToSavedNext(s: State, t: nat, steps: seq<Step>, w: Purse, from: Utxo, id: bytes, c: Choice)
    returns (steps': seq<Step>)
    requires At(s, Run(s, steps), t, w, RegDequeue(from, id)) && w.mem != []
    ensures steps' == steps + [Act(t, c), Act(t, c)]
    ensures var m := Saving(w.(mem := w.mem[1..]), c.save, RegEnqueue(from, id)); At(s, Run(s, steps'), t, m.w, m.pc)
  {
    steps' := ToDequeued(s, t, steps, w, from, id, c);
    steps' := Go(s, t, steps', w.(mem := w.mem[1..]), RegSaveNext(from, id), c);
  }

  lemma ToDequeued(s: State, t: nat, steps: seq<Step>, w: Purse, from: Utxo, id: bytes, c: Choice)
    returns (steps': seq<Step>)
    requires At(s, Run(s, steps), t, w, RegDequeue(from, id)) && w.mem != []
    ensures steps' == steps + [Act(t, c)]
    ensures At(s, Run(s, steps'), t, w.(mem := w.mem[1..]), RegSaveNext(from, id))
  {
    steps' := Go(s, t, steps, w, RegDequeue(from, id), c);
  }

  function Finished(s: State, t: nat, id: bytes): Pc
    requires t in s.threads
  {
    if s.threads[t].req.Post? then StoLock(id) else Done(Registered(id))
  }

  lemma ToQueued(s: State, t: nat, steps: seq<Step>, w: Purse, from: Utxo, id: bytes, c: Choice)
    returns (steps': seq<Step>)
    requires At(s, Run(s, steps), t, w, RegEnqueue(from, id))
    ensures OnlyActs(steps, t) ==> OnlyActs(steps', t)
    ensures steps' == steps + [Act(t, c), Act(t, c)]
    ensures var m := Queued(w, c.save, Finished(s, t, id)); At(s, Run(s, steps'), t, m.w, m.pc)
  {
    steps' := Go(s, t, steps, w, RegEnqueue(from, id), c);
    steps' := Go(s, t, steps', w.(mem := w.mem + [w.x]), RegSaveAdd(from, id), c);
  }

  /** The step choices that stand for an oracle: PutAnchor either reaches its broadcast or stops before. */
  function Choices(f: Float, cliNet: byte, g: G.State, x: Utxo, a: Anchor, o: G.RegisterOracle, save: Save): Choice {
    var p := Put(f, cliNet, g.node, x, a, o.put);
    var sent := !o.put.send.Refused? && o.put.send.id !in g.node.chain && o.put.send.id in p.node.chain;
    if sent then Choice(true, Time(0, 0), o.put.send, p.node.chain[o.put.send.id].raw, save)
    else Choice(false, Time(0, 0), Refused, [], save)
  }

  /** What PutAnchor does to the ledger: nothing, or the broadcast that the machine makes. */
  lemma PutIsSend(f: Float, cliNet: byte, g: G.State, w: Purse, a: Anchor, o: G.RegisterOracle)
    requires ValidNode(g.node) && w.chain == g.node.chain && CalcsAs(w.left, f)
    ensures var c := Choices(f, cliNet, g, w.x, a, o, o.next);
            var p := Put(f, cliNet, g.node, w.x, a, o.put);
            && (!c.ok ==> p.node.chain == w.chain && p.txid.None? && p.x == w.x)
            && (c.ok ==> && Buildable(w, cliNet, a, c)
                         && var body := Body(w, a).value;
                         && Accepts(w, body, c) && p.node.chain == Sending(w, body, c).chain
                         && (c.send.Unreported? ==> p.txid.None? && p.x == w.x)
                         && (c.send.Accepted? ==> p.txid == Some(c.send.id) && p.x == Utxo(c.send.id, w.x.addr)))
  {
  }

  /** Where a run ends up, compared with what the method specifies. */
  ghost predicate EndsAs(s: State, s': State, t: nat, r: G.Registered) {
    && t in s.threads && t in s'.threads && Matches(s'.w, r.s) && s'.lock.None? && s'.coll == s.coll
    && s'.cfg == s.cfg && s'.threads == s.threads[t := s'.threads[t]] && s'.threads[t].req == s.threads[t].req
    && s'.threads[t].pc == match r.txid case Some(id) => Finished(s, t, id) case None => Done(Failed)
  }

  lemma AloneEmpty(f: Float, s: State, t: nat, a: Anchor, g: G.State, o: G.RegisterOracle, c: Choice)
    returns (steps: seq<Step>)
    requires Matches(s.w, g) && t in s.threads && s.threads[t].pc == RegLock(a) && s.lock.None? && s.w.mem == []
    ensures OnlyActs(steps, t)
    ensures EndsAs(s, Run(s, steps), t, G.Register(f, s.cfg.cliNet, g, a, o))
  {
    Extend(s, [], Act(t, c));
    Enter(s, t, a, c);
    steps := Go(s, t, [Act(t, c)], s.w, RegPeek(a), c);
  }

  lemma AloneUnsent(f: Float, s: State, t: nat, a: Anchor, g: G.State, o: G.RegisterOracle, c: Choice)
    returns (steps: seq<Step>)
    requires ValidNode(g.node) && Matches(s.w, g) && CalcsAs(s.w.left, f)
    requires t in s.threads && s.threads[t].pc == RegLock(a) && s.lock.None? && s.w.mem != []
    requires c == Choices(f, s.cfg.cliNet, g, s.w.mem[0], a, o, o.next) && !c.ok
    ensures OnlyActs(steps, t)
    ensures EndsAs(s, Run(s, steps), t, G.Register(f, s.cfg.cliNet, g, a, o))
  {
    var w := s.w.(x := s.w.mem[0]);
    PutIsSend(f, s.cfg.cliNet, g, w, a, o);
    steps := ToRead(s, t, a, c);
    steps := Go(s, t, steps, w, RegRead(a), c);
  }

  /** A broadcast that is reported as an error, in the terms of the method. */
  lemma UnreportedEnds(f: Float, s: State, s': State, t: nat, a: Anchor, g: G.State, o: G.RegisterOracle)
    requires Matches(s.w, g) && s.w.mem != [] && t in s.threads && At(s, s', t, s'.w, Done(Failed))
    requires var p := Put(f, s.cfg.cliNet, g.node, s.w.mem[0], a, o.put);
             p.txid.None? && p.node.chain == s'.w.chain && p.x == s'.w.x
    requires s'.w.mem == s.w.mem && s'.w.doc == s.w.doc
    ensures EndsAs(s, s', t, G.Register(f, s.cfg.cliNet, g, a, o))
  {
  }

  lemma AloneUnreported(f: Float, s: State, t: nat, a: Anchor, g: G.State, o: G.RegisterOracle, c: Choice)
    returns (steps: seq<Step>)
    requires ValidNode(g.node) && Matches(s.w, g) && CalcsAs(s.w.left, f)
    requires t in s.threads && s.threads[t].pc == RegLock(a) && s.lock.None? && s.w.mem != []
    requires c == Choices(f, s.cfg.cliNet, g, s.w.mem[0], a, o, o.next) && c.ok && c.send.Unreported?
    ensures OnlyActs(steps, t)
    ensures EndsAs(s, Run(s, steps), t, G.Register(f, s.cfg.cliNet, g, a, o))
  {
    var w := s.w.(x := s.w.mem[0]);
    PutIsSend(f, s.cfg.cliNet, g, w, a, o);
    steps := ToRead(s, t, a, c);
    var body := Body(w, a).value;
    steps := ToSent(s, t, steps, w, a, body, c);
    UnreportedEnds(f, s, Run(s, steps), t, a, g, o);
  }

  /** Up to the broadcast. */
  lemma AloneToSent(f: Float, s: State, t: nat, a: Anchor, g: G.State, o: G.RegisterOracle, c: Choice)
    returns (steps: seq<Step>, w: Purse)
    requires ValidNode(g.node) && Matches(s.w, g) && CalcsAs(s.w.left, f)
    requires t in s.threads && s.threads[t].pc == RegLock(a) && s.lock.None? && s.w.mem != []
    requires c == Choices(f, s.cfg.cliNet, g, s.w.mem[0], a, o, o.next) && c.ok && c.send.Accepted?
    ensures OnlyActs(steps, t)
    ensures At(s, Run(s, steps), t, w, RegSent(s.w.mem[0], c.send.id))
    ensures w.mem == s.w.mem && w.doc == s.w.doc && w.x == s.w.mem[0]
    ensures var p := Put(f, s.cfg.cliNet, g.node, s.w.mem[0], a, o.put);
            p.txid == Some(c.send.id) && p.node.chain == w.chain && p.x == Utxo(c.send.id, w.x.addr)
  {
    w := s.w.(x := s.w.mem[0]);
    PutIsSend(f, s.cfg.cliNet, g, w, a, o);
    steps := ToRead(s, t, a, c);
    var body := Body(w, a).value;
    steps := ToSent(s, t, steps, w, a, body, c);
    w := Sending(w, body, c);
  }

  /** From the broadcast to the end of the wallet update. */
  lemma AloneToDone(s: State, t: nat, steps: seq<Step>, w: Purse, from: Utxo, id: bytes, g: W.State,
    o: G.RegisterOracle, c: Choice)
    returns (steps': seq<Step>)
    requires At(s, Run(s, steps), t, w, RegSent(from, id)) && w.mem != [] && SameWallet(w, g) && c.save == o.next
    ensures OnlyActs(steps, t) ==> OnlyActs(steps', t)
    ensures var (g', saved) := G.UpdateWallet(g, Utxo(id, w.x.addr), o);
            var s' := Run(s, steps');
            && At(s, s', t, s'.w, if saved then Finished(s, t, id) else Done(Failed))
            && SameWallet(s'.w, g') && s'.w.chain == w.chain && s'.w.x == Utxo(id, w.x.addr)
  {
    DropIsNext(w, from, id, g, o);
    steps' := ToDropped(s, t, steps, w, from, id, c);
    if o.next.Saved? {
      var w2 := Dropped(w, from, id, o.next).w;
      QueueIsAdd(w2, W.Apply(g, W.Next(o.next)), o.add, Finished(s, t, id));
      steps' := ToQueued(s, t, steps', w2, from, id, c.(save := o.add));
    }
  }

  lemma RegisterAfterPut(f: Float, cliNet: byte, g: G.State, a: Anchor, o: G.RegisterOracle, p: PutResult)
    requires g.wallet.Some? && g.wallet.value.q != []
    requires p == Put(f, cliNet, g.node, g.wallet.value.q[0], a, o.put) && p.txid.Some?
    ensures var u := G.UpdateWallet(g.wallet.value, p.x, o);
            G.Register(f, cliNet, g, a, o)
            == G.Registered(G.State(p.node, p.x, Some(u.0)), if u.1 then p.txid else None)
  {
  }

  /** The end of a run that sent, in the terms of the method. */
  lemma SentEnds(s: State, s': State, t: nat, p: PutResult, g: W.State, saved: bool)
    requires p.txid.Some? && t in s.threads
    requires At(s, s', t, s'.w, if saved then Finished(s, t, p.txid.value) else Done(Failed))
    requires SameWallet(s'.w, g) && s'.w.chain == p.node.chain && s'.w.x == p.x
    ensures EndsAs(s, s', t, G.Registered(G.State(p.node, p.x, Some(g)), if saved then p.txid else None))
  {
  }

  lemma AloneSent(f: Float, s: State, t: nat, a: Anchor, g: G.State, o: G.RegisterOracle, c: Choice)
    returns (steps: seq<Step>)
    requires ValidNode(g.node) && Matches(s.w, g) && CalcsAs(s.w.left, f)
    requires t in s.threads && s.threads[t].pc == RegLock(a) && s.lock.None? && s.w.mem != []
    requires c == Choices(f, s.cfg.cliNet, g, s.w.mem[0], a, o, o.next) && c.ok && c.send.Accepted?
    ensures OnlyActs(steps, t)
    ensures EndsAs(s, Run(s, steps), t, G.Register(f, s.cfg.cliNet, g, a, o))
  {
    var w: Purse;
    steps, w := AloneToSent(f, s, t, a, g, o, c);
    steps := AloneToDone(s, t, steps, w, s.w.mem[0], c.send.id, g.wallet.value, o, c);
    var p := Put(f, s.cfg.cliNet, g.node, s.w.mem[0], a, o.put);
    var u := G.UpdateWallet(g.wallet.value, p.x, o);
    RegisterAfterPut(f, s.cfg.cliNet, g, a, o, p);
    SentEnds(s, Run(s, steps), t, p, u.0, u.1);
  }

  /** The saved copy on both sides. */
  ghost predicate SameWallet(w: Purse, g: W.State) {
    w.mem == g.q && w.doc == (if g.doc.Some? then g.doc.value else [])
  }

  lemma DropIsNext(w: Purse, from: Utxo, id: bytes, g: W.State, o: G.RegisterOracle)
    requires w.mem != [] && SameWallet(w, g)
    ensures var m := Dropped(w, from, id, o.next);
            && SameWallet(m.w, W.Apply(g, W.Next(o.next))) && m.w.chain == w.chain && m.w.x == Utxo(id, w.x.addr)
            && m.pc == if o.next.Saved? then RegEnqueue(from, id) else Done(Failed)
  {
  }

  lemma QueueIsAdd(w: Purse, g: W.State, save: Save, done: Pc)
    requires SameWallet(w, g)
    ensures var m := Queued(w, save, done);
            && SameWallet(m.w, W.Apply(g, W.Add(w.x, save))) && m.w.chain == w.chain && m.w.x == w.x
            && m.pc == if save.Saved? then done else Done(Failed)
  {
  }

  /**
    For every outcome of the foreign calls and saves there is a run of the state machine in which
    this thread alone takes the steps of RegisterTransaction, and it ends with the ledger, the
    adapter, both copies of the queue and the result that the gateway's method specifies.
   */
  lemma RegisterAlone(f: Float, s: State, t: nat, a: Anchor, g: G.State, o: G.RegisterOracle) returns (steps: seq<Step>)
    requires ValidNode(g.node) && Matches(s.w, g) && CalcsAs(s.w.left, f)
    requires t in s.threads && s.threads[t].pc == RegLock(a) && s.lock.None?
    ensures OnlyActs(steps, t)
    ensures EndsAs(s, Run(s, steps), t, G.Register(f, s.cfg.cliNet, g, a, o))
  {
    if s.w.mem == [] {
      steps := AloneEmpty(f, s, t, a, g, o, Choices(f, s.cfg.cliNet, g, s.w.x, a, o, o.next));
    } else {
      var c := Choices(f, s.cfg.cliNet, g, s.w.mem[0], a, o, o.next);
      if !c.ok {
        steps := AloneUnsent(f, s, t, a, g, o, c);
      } else if c.send.Unreported? {
        steps := AloneUnreported(f, s, t, a, g, o, c);
      } else {
        steps := AloneSent(f, s, t, a, g, o, c);
      }
    }
  }
}
