/** Exactly when the gateway can still broadcast, in every reachable state. */
module Liveness {
  import opened Base
  import opened OpReturn
  import opened Ledger
  import opened BitcoinCli
  import opened Protocol
  import opened Accounting
  import opened History
  import opened RoundRobin
  import opened Bridge
  import opened Progress

  // A front that is not live never becomes live.

  /** What of the purse decides whether a known queue is live: the ledger may only grow. */
  ghost predicate Later(w: Purse, w': Purse) {
    w'.addr == w.addr && w'.left == w.left && Extends(w.chain, w'.chain)
  }

  lemma NotLiveLater(w: Purse, w': Purse, q: seq<Utxo>)
    requires Known(w, q) && Later(w, w') && !Live(w, q)
    ensures !Live(w', q)
  {
    if q != [] {
      assert q[0] in q;
      if t :| t in w.chain && w.chain[t].body.spends == q[0].txid {
        assert w'.chain[t].body.spends == q[0].txid;
      }
    }
  }

  // The two copies of the queue have the same front, or the document has none that is live.

  ghost predicate Heads(w: Purse, pc: Pc) {
    && (Live(w, w.doc) ==> w.mem != [] && w.mem[0] == w.doc[0])
    && (pc.RegSaveNext? ==> !Live(w, w.doc))
  }

  lemma HeadsLater(w: Purse, w': Purse, pc: Pc, pc': Pc)
    requires Lists(w) && Heads(w, pc) && Later(w, w') && w'.mem == w.mem && w'.doc == w.doc
    requires pc'.RegSaveNext? ==> pc.RegSaveNext?
    ensures Heads(w', pc')
  {
    if !Live(w, w.doc) {
      NotLiveLater(w, w', w.doc);
    }
  }

  /** The front that NextUTXO takes is spent, so the document is left without a live one. */
  lemma HeadsDequeue(w: Purse, from: Utxo, id: bytes)
    requires Heads(w, RegDequeue(from, id)) && AtPc(w, U(w), RegDequeue(from, id))
    ensures var m := Dequeue(w, from, id); Heads(m.w, m.pc)
  {
  }

  lemma HeadsSave(w: Purse, save: Save, pc: Pc, next: Pc)
    requires Heads(w, pc) && !next.RegSaveNext?
    ensures var m := Saving(w, save, next); Heads(m.w, m.pc)
  {
  }

  lemma HeadsEnqueue(w: Purse, from: Utxo, id: bytes)
    requires Heads(w, RegEnqueue(from, id))
    ensures Heads(w.(mem := w.mem + [w.x]), RegSaveAdd(from, id))
  {
  }

  lemma SendingIsLater(w: Purse, body: RawTx, c: Choice)
    requires Accepts(w, body, c)
    ensures Later(w, Sending(w, body, c))
  {
  }

  lemma HeadsSend(w: Purse, a: Anchor, body: RawTx, c: Choice)
    requires Lists(w) && Heads(w, RegSend(a, body))
    ensures var m := Send(w, a, body, c); Heads(m.w, m.pc)
  {
    if Accepts(w, body, c) {
      SendingIsLater(w, body, c);
      HeadsLater(w, Send(w, a, body, c).w, RegSend(a, body), Send(w, a, body, c).pc);
    }
  }

  lemma HeadsRegister(w: Purse, cliNet: byte, post: bool, pc: Pc, c: Choice)
    requires InRegister(pc) && Lists(w) && AtPc(w, U(w), pc) && Heads(w, pc)
    ensures var m := RegisterStep(w, cliNet, post, pc, c); Heads(m.w, m.pc)
  {
    match pc
    case RegPeek(a) =>
    case RegSet(a, head) => HeadsLater(w, w.(x := head), pc, RegRead(a));
    case RegRead(a) => HeadsLater(w, w, pc, Read(w, cliNet, a, c).pc);
    case RegSend(a, body) => HeadsSend(w, a, body, c);
    case RegSent(from, id) => HeadsLater(w, w.(x := Utxo(id, w.x.addr)), pc, RegDequeue(from, id));
    case RegDequeue(from, id) => HeadsDequeue(w, from, id);
    case RegSaveNext(from, id) => HeadsSave(w, c.save, pc, RegEnqueue(from, id));
    case RegEnqueue(from, id) => HeadsEnqueue(w, from, id);
    case RegSaveAdd(from, id) => HeadsSave(w, c.save, pc, if post then StoLock(id) else Done(Registered(id)));
  }

  /** Where the owner of the mutex stands after a step of t. */
  lemma OwnerAfter(s: State, t: nat, c: Choice)
    requires Mutex(s) && t in s.threads
    ensures var s' := ThreadStep(s, t, c);
            if Holds(s'.threads[t].pc) then Owner(s') == s'.threads[t].pc
            else if Holds(s.threads[t].pc) then Owner(s') == Start
            else Owner(s') == Owner(s)
  {
    MutexThread(s, t, c);
  }

  lemma HeadsThread(s: State, t: nat, c: Choice)
    requires Inv(s) && t in s.threads && Heads(s.w, Owner(s))
    ensures Heads(ThreadStep(s, t, c).w, Owner(ThreadStep(s, t, c)))
  {
    var l := Local(s.w, s.coll, s.threads[t]);
    OwnerAfter(s, t, c);
    if InRegister(l.th.pc) {
      assert Owner(s) == l.th.pc;
      HeadsRegister(s.w, s.cfg.cliNet, l.th.req.Post?, l.th.pc, c);
    } else {
      OutsideStep(s.cfg, l, c);
    }
  }

  lemma ConfirmIsLater(w: Purse, id: bytes, more: nat)
    ensures Later(w, Confirm(w, id, more))
  {
  }

  lemma HeadsStep(s: State, st: Step)
    requires Inv(s) && Heads(s.w, Owner(s))
    ensures Heads(Next(s, st).w, Owner(Next(s, st)))
  {
    MutexStep(s, st);
    match st
    case Spawn(_, _) =>
    case Crash =>
    case Mine(id, more) =>
      ConfirmIsLater(s.w, id, more);
      HeadsLater(s.w, Confirm(s.w, id, more), Owner(s), Owner(s));
    case Act(t, c) =>
      if t in s.threads {
        HeadsThread(s, t, c);
      }
  }

  lemma {:induction false} HeadsRun(s: State, steps: seq<Step>)
    requires Init(s)
    ensures Heads(Run(s, steps).w, Owner(Run(s, steps)))
  {
    if steps == [] {
    } else {
      var init := steps[..|steps| - 1];
      HeadsRun(s, init);
      InvRun(s, init);
      HeadsStep(Run(s, init), steps[|steps| - 1]);
    }
  }

  // Without a live front on either copy nothing is ever broadcast.

  /** Neither the queue, once the update under way is done, nor its document has a live front. */
  ghost predicate Halted(w: Purse, pc: Pc) {
    !Live(w, Settled(w, pc)) && !Live(w, w.doc)
  }

  lemma HaltedSend(w: Purse, a: Anchor, body: RawTx, c: Choice)
    requires Lists(w) && AtPc(w, U(w), RegSend(a, body)) && !Live(w, w.mem)
    ensures !Accepts(w, body, c)
  {
    assert w.x in w.mem;
  }

  lemma HaltedDequeue(w: Purse, from: Utxo, id: bytes)
    requires Halted(w, RegDequeue(from, id)) && w.mem != []
    ensures var m := Dequeue(w, from, id); Halted(m.w, m.pc)
  {
  }

  lemma HaltedSaveNext(w: Purse, from: Utxo, id: bytes, save: Save)
    requires Halted(w, RegSaveNext(from, id))
    ensures var m := Saving(w, save, RegEnqueue(from, id)); Halted(m.w, m.pc)
  {
    assert Live(w, w.mem) ==> Live(w, w.mem + [Utxo(id, w.addr)]);
  }

  lemma HaltedSaveAdd(w: Purse, pc: Pc, save: Save, next: Pc)
    requires Halted(w, pc) && pc.RegSaveAdd? && (next.StoLock? || next.Done?)
    ensures var m := Saving(w, save, next); Halted(m.w, m.pc)
  {
  }

  lemma HaltedSame(w: Purse, w': Purse, pc: Pc, pc': Pc)
    requires Halted(w, pc) && w' == w.(x := w'.x) && Settled(w', pc') == Settled(w, pc)
    ensures Halted(w', pc')
  {
  }

  lemma HaltedBefore(w: Purse, cliNet: byte, post: bool, pc: Pc, c: Choice)
    requires InRegister(pc) && !BroadcastDone(pc) && Lists(w) && AtPc(w, U(w), pc) && Halted(w, pc)
    ensures var m := RegisterStep(w, cliNet, post, pc, c); Halted(m.w, m.pc) && m.w.sends == w.sends
  {
    if pc.RegPeek? {
      HaltedSame(w, w, pc, Peek(w, pc.a).pc);
    } else if pc.RegSet? {
      HaltedSame(w, w.(x := pc.head), pc, RegRead(pc.a));
    } else if pc.RegRead? {
      HaltedSame(w, w, pc, Read(w, cliNet, pc.a, c).pc);
    } else {
      HaltedSend(w, pc.a, pc.body, c);
      HaltedSame(w, w, pc, Done(Failed));
    }
  }

  lemma HaltedSent(w: Purse, from: Utxo, id: bytes)
    requires Halted(w, RegSent(from, id))
    ensures Halted(w.(x := Utxo(id, w.x.addr)), RegDequeue(from, id))
  {
  }

  lemma HaltedEnqueue(w: Purse, from: Utxo, id: bytes)
    requires Halted(w, RegEnqueue(from, id)) && AtPc(w, U(w), RegEnqueue(from, id))
    ensures Halted(w.(mem := w.mem + [w.x]), RegSaveAdd(from, id))
  {
  }

  lemma HaltedAfter(w: Purse, cliNet: byte, post: bool, pc: Pc, c: Choice)
    requires BroadcastDone(pc) && AtPc(w, U(w), pc) && Halted(w, pc)
    ensures var m := RegisterStep(w, cliNet, post, pc, c); Halted(m.w, m.pc) && m.w.sends == w.sends
  {
    if pc.RegSent? {
      HaltedSent(w, pc.from, pc.id);
    } else if pc.RegDequeue? {
      HaltedDequeue(w, pc.from, pc.id);
    } else if pc.RegSaveNext? {
      HaltedSaveNext(w, pc.from, pc.id, c.save);
    } else if pc.RegEnqueue? {
      HaltedEnqueue(w, pc.from, pc.id);
    } else {
      HaltedSaveAdd(w, pc, c.save, if post then StoLock(pc.id) else Done(Registered(pc.id)));
    }
  }

  lemma HaltedRegister(w: Purse, cliNet: byte, post: bool, pc: Pc, c: Choice)
    requires InRegister(pc) && Lists(w) && AtPc(w, U(w), pc) && Halted(w, pc)
    ensures var m := RegisterStep(w, cliNet, post, pc, c); Halted(m.w, m.pc) && m.w.sends == w.sends
  {
    if BroadcastDone(pc) {
      HaltedAfter(w, cliNet, post, pc, c);
    } else {
      HaltedBefore(w, cliNet, post, pc, c);
    }
  }

  lemma HaltedQuiet(w: Purse, pc: Pc, pc': Pc)
    requires Halted(w, pc) && !BroadcastDone(pc) && !BroadcastDone(pc')
    ensures Halted(w, pc')
  {
  }

  lemma HaltedThread(s: State, t: nat, c: Choice)
    requires Inv(s) && t in s.threads && Halted(s.w, Owner(s))
    ensures Halted(ThreadStep(s, t, c).w, Owner(ThreadStep(s, t, c))) && ThreadStep(s, t, c).w.sends == s.w.sends
  {
    var l := Local(s.w, s.coll, s.threads[t]);
    var s' := ThreadStep(s, t, c);
    OwnerAfter(s, t, c);
    if InRegister(l.th.pc) {
      assert Owner(s) == l.th.pc;
      HaltedRegister(s.w, s.cfg.cliNet, l.th.req.Post?, l.th.pc, c);
      if !Holds(s'.threads[t].pc) {
        HaltedQuiet(s'.w, s'.threads[t].pc, Start);
      }
    } else {
      OutsideStep(s.cfg, l, c);
      if Owner(s') != Owner(s) {
        HaltedQuiet(s.w, Owner(s), Owner(s'));
      }
    }
  }

  lemma LiveConfirm(w: Purse, id: bytes, more: nat, q: seq<Utxo>)
    ensures Live(Confirm(w, id, more), q) <==> Live(w, q)
  {
    ConfirmUnspent(w, id, more);
  }

  lemma HaltedConfirm(w: Purse, id: bytes, more: nat, pc: Pc)
    requires Halted(w, pc)
    ensures Halted(Confirm(w, id, more), pc)
  {
    LiveConfirm(w, id, more, Settled(w, pc));
    LiveConfirm(w, id, more, w.doc);
  }

  lemma HaltedStep(s: State, st: Step)
    requires Inv(s) && Halted(s.w, Owner(s))
    ensures Halted(Next(s, st).w, Owner(Next(s, st))) && Next(s, st).w.sends == s.w.sends
  {
    MutexStep(s, st);
    match st
    case Spawn(_, _) =>
    case Crash =>
    case Mine(id, more) => HaltedConfirm(s.w, id, more, Owner(s));
    case Act(t, c) =>
      if t in s.threads {
        HaltedThread(s, t, c);
      }
  }

  lemma {:induction false} HaltedForever(s: State, more: seq<Step>)
    requires Inv(s) && Halted(s.w, Owner(s))
    ensures Inv(Run(s, more)) && Halted(Run(s, more).w, Owner(Run(s, more))) && Run(s, more).w.sends == s.w.sends
  {
    if more == [] {
    } else {
      var init := more[..|more| - 1];
      HaltedForever(s, init);
      InvStep(Run(s, init), more[|more| - 1]);
      HaltedStep(Run(s, init), more[|more| - 1]);
    }
  }

  // With a live front the gateway can go on.

  /** Calls fail and saves work: the owner of the mutex gives up, or completes its wallet update. */
  const QUIT := Choice(false, Time(0, 0), Refused, [], Saved)

  function Rank(pc: Pc): nat {
    match pc
    case RegPeek(_) => 10
    case RegSet(_, _) => 9
    case RegRead(_) => 8
    case RegSend(_, _) => 7
    case RegSent(_, _) => 6
    case RegDequeue(_, _) => 5
    case RegSaveNext(_, _) => 4
    case RegEnqueue(_, _) => 3
    case RegSaveAdd(_, _) => 2
    case StoRead(_) => 1
    case RefRead(_) => 1
    case _ => 0
  }

  lemma RegisterQuits(w: Purse, u: set<Utxo>, cliNet: byte, post: bool, pc: Pc)
    requires InRegister(pc) && AtPc(w, u, pc)
    ensures var m := RegisterStep(w, cliNet, post, pc, QUIT);
            && Rank(m.pc) < Rank(pc) && Settled(m.w, m.pc) == Settled(w, pc)
            && (Holds(m.pc) ==> InRegister(m.pc))
            && m.w == w.(mem := m.w.mem, doc := m.w.doc, x := m.w.x)
  {
    if pc.RegDequeue? {
      assert w.mem != [];
    }
  }

  /** s' is s with the same ledger, and the queue as it will be when the update under way is done. */
  ghost predicate Drained(s: State, s': State) {
    && Inv(s') && s'.cfg == s.cfg && Settled(s'.w, Owner(s')) == Settled(s.w, Owner(s))
    && s'.w == s.w.(mem := s'.w.mem, doc := s'.w.doc, x := s'.w.x)
  }

  lemma ReadQuits(cfg: Config, l: Local)
    requires l.th.pc.StoRead? || l.th.pc.RefRead?
    ensures LocalStep(cfg, l, QUIT).th.pc == Done(Failed) && LocalStep(cfg, l, QUIT).w == l.w
  {
  }

  lemma LocalQuits(cfg: Config, l: Local, u: set<Utxo>)
    requires Holds(l.th.pc) && AtPc(l.w, u, l.th.pc)
    ensures var l' := LocalStep(cfg, l, QUIT);
            && Rank(l'.th.pc) < Rank(l.th.pc) && Settled(l'.w, l'.th.pc) == Settled(l.w, l.th.pc)
            && l'.w == l.w.(mem := l'.w.mem, doc := l'.w.doc, x := l'.w.x)
  {
    if InRegister(l.th.pc) {
      RegisterQuits(l.w, u, cfg.cliNet, l.th.req.Post?, l.th.pc);
    } else {
      ReadQuits(cfg, l);
    }
  }

  lemma DrainStep(s: State)
    requires Inv(s) && s.lock.Some?
    ensures var s' := Next(s, Act(s.lock.value, QUIT)); Drained(s, s') && Rank(Owner(s')) < Rank(Owner(s))
  {
    var t := s.lock.value;
    InvStep(s, Act(t, QUIT));
    OwnerAfter(s, t, QUIT);
    LocalQuits(s.cfg, Local(s.w, s.coll, s.threads[t]), U(s.w));
  }

  lemma {:induction false} Drain(s: State) returns (more: seq<Step>)
    requires Inv(s)
    ensures Drained(s, Run(s, more)) && Run(s, more).lock.None?
    decreases Rank(Owner(s))
  {
    if s.lock.None? {
      more := [];
    } else {
      var first := Act(s.lock.value, QUIT);
      DrainStep(s);
      var rest := Drain(Next(s, first));
      Extend(s, [], first);
      RunConcat(s, [first], rest);
      more := [first] + rest;
    }
  }

  /** What lets a gateway broadcast: its settings agree, and the arithmetic follows the fee rule. */
  ghost predicate Sane(s: State) {
    Inv(s) && s.cfg.net == s.cfg.cliNet && FeeRule(s.w.left) && Bounded(s.w.chain)
  }

  lemma IdleGoesOn(s: State) returns (more: seq<Step>)
    requires Sane(s) && s.lock.None? && Live(s.w, s.w.mem)
    ensures Run(s, more).w.sends == s.w.sends + 1
  {
    var t, a, arrive := Arrive(s, Register([], []));
    var id := FreshId(s.w.chain);
    var finish := GoesThrough(Run(s, arrive), t, a, id);
    RunConcat(s, arrive, finish);
    more := arrive + finish;
  }

  lemma GoesOn(s: State) returns (more: seq<Step>)
    requires Sane(s) && Live(s.w, Settled(s.w, Owner(s)))
    ensures Run(s, more).w.sends == s.w.sends + 1
  {
    var drain := Drain(s);
    var rest := IdleGoesOn(Run(s, drain));
    RunConcat(s, drain, rest);
    more := drain + rest;
  }

  /** From the document, after a restart. */
  lemma RestartGoesOn(s: State) returns (more: seq<Step>)
    requires Sane(s) && Live(s.w, s.w.doc)
    ensures Run(s, more).w.sends == s.w.sends + 1
  {
    InvStep(s, Crash);
    Extend(s, [], Crash);
    var rest := IdleGoesOn(Next(s, Crash));
    RunConcat(s, [Crash], rest);
    more := [Crash] + rest;
  }

  /**
    In any state that keeps the wallet invariant, reachable or not: some continuation broadcasts if and
    only if the queue, once the update under way is done, or its document has a live front.
   */
  lemma BroadcastsAgain(s: State)
    requires Sane(s)
    ensures (exists more :: Run(s, more).w.sends != s.w.sends)
            <==> Live(s.w, Settled(s.w, Owner(s))) || Live(s.w, s.w.doc)
  {
    if Live(s.w, Settled(s.w, Owner(s))) {
      var more := GoesOn(s);
    } else if Live(s.w, s.w.doc) {
      var more := RestartGoesOn(s);
    } else {
      forall more
        ensures Run(s, more).w.sends == s.w.sends
      {
        HaltedForever(s, more);
      }
    }
  }

  lemma RunIsSane(s: State, steps: seq<Step>)
    requires Init(s) && s.cfg.net == s.cfg.cliNet
    ensures Sane(Run(s, steps))
  {
    InvRun(s, steps);
    HistoryRun(s, steps);
    CfgStays(s, steps);
  }

  /** In a reachable state a live front of the document is also that of the queue. */
  lemma DocumentAddsNothing(w: Purse, pc: Pc)
    requires Heads(w, pc) && AtPc(w, U(w), pc) && Live(w, w.doc)
    ensures Live(w, Settled(w, pc))
  {
  }

  /**
    In every reachable state, whatever has failed before: some continuation broadcasts if and only if
    the queue, once the update under way is done, begins with an unspent output that can pay the fee.
   */
  lemma BroadcastsAgainIff(s: State, steps: seq<Step>)
    requires Init(s) && s.cfg.net == s.cfg.cliNet
    ensures var s1 := Run(s, steps);
            (exists more :: Run(s1, more).w.sends != s1.w.sends) <==> Live(s1.w, Settled(s1.w, Owner(s1)))
  {
    var s1 := Run(s, steps);
    RunIsSane(s, steps);
    BroadcastsAgain(s1);
    HeadsRun(s, steps);
    if Live(s1.w, s1.w.doc) {
      DocumentAddsNothing(s1.w, Owner(s1));
    }
  }

  // What makes the front dead.

  /** A spent front on the queue leaves none on the document either. */
  lemma SpentFrontHalts(w: Purse, pc: Pc)
    requires Heads(w, pc) && !BroadcastDone(pc) && !Live(w, w.mem)
    ensures Halted(w, pc)
  {
  }

  /** A broadcast reported as an error leaves the spent UTXO in front: it is the last broadcast ever. */
  lemma UnreportedBlocks(s: State, steps: seq<Step>, t: nat, c: Choice, more: seq<Step>)
    requires Init(s)
    requires var s1 := Run(s, steps);
             && t in s1.threads && s1.threads[t].pc.RegSend?
             && Accepts(s1.w, s1.threads[t].pc.body, c) && c.send.Unreported?
    ensures Run(Next(Run(s, steps), Act(t, c)), more).w.sends == Run(s, steps).w.sends + 1
  {
    InvRun(s, steps);
    HeadsRun(s, steps);
    var s1 := Run(s, steps);
    var after := Next(s1, Act(t, c));
    assert Owner(s1) == s1.threads[t].pc;
    InvStep(s1, Act(t, c));
    HeadsStep(s1, Act(t, c));
    OwnerAfter(s1, t, c);
    SentIsDead(s1.w, s1.threads[t].pc.body, c);
    SpentFrontHalts(after.w, Owner(after));
    HaltedForever(after, more);
  }

  lemma SentIsDead(w: Purse, body: RawTx, c: Choice)
    requires Accepts(w, body, c) && w.mem != [] && w.mem[0] == w.x && body.spends == w.x.txid
    ensures !Live(Sending(w, body, c).(lost := w.lost + 1), w.mem)
  {
    assert Sending(w, body, c).chain[c.send.id].body.spends == body.spends;
  }

  /** So does a crash between a broadcast and the first save that follows it. */
  lemma CrashBlocks(s: State, steps: seq<Step>, more: seq<Step>)
    requires Init(s)
    requires var pc := Owner(Run(s, steps)); pc.RegSent? || pc.RegDequeue? || pc.RegSaveNext?
    ensures Run(Next(Run(s, steps), Crash), more).w.sends == Run(s, steps).w.sends
  {
    InvRun(s, steps);
    HeadsRun(s, steps);
    var s1 := Run(s, steps);
    InvStep(s1, Crash);
    assert !Live(s1.w, s1.w.doc);
    HaltedForever(Next(s1, Crash), more);
  }
}
