/** What every interleaving keeps of the ledger and of what each thread has broadcast. */
module History {
  import opened Base
  import opened OpReturn
  import opened Satoshi
  import opened Ledger
  import opened Protocol
  import opened Accounting
  import Store

  /** body is worth what calcFee leaves of the output it spends. */
  predicate Paid(w: Purse, body: RawTx)
    requires body.spends in w.chain
  {
    var v := w.chain[body.spends].body.value;
    w.left(v) == Some(body.value) && Change(v, FEE, body.value)
  }

  /** Every transaction of the gateway spends an older one, pays the fee, and shares its input with no other. */
  ghost predicate ChainInv(w: Purse) {
    && Bounded(w.chain) && FeeRule(w.left)
    && (forall id | id in w.chain :: w.chain[id].body.addr == w.addr)
    && (forall id | id in w.chain && w.chain[id].own ::
          && w.chain[id].body.spends in w.chain
          && Paid(w, w.chain[id].body))
    && (forall id | id in w.chain && !w.chain[id].own :: w.chain[id].body.spends !in w.chain)
    && (forall i, j | i in w.chain && j in w.chain && i != j && w.chain[i].own ::
          w.chain[i].body.spends != w.chain[j].body.spends)
  }

  lemma FundedChain(w: Purse)
    requires Funded(w)
    ensures ChainInv(w)
  {
    forall id | id in w.chain
      ensures w.chain[id].body.spends !in w.chain
    {
      assert Spent(w.chain, w.chain[id].body.spends);
    }
  }

  lemma SendingChain(w: Purse, body: RawTx, c: Choice)
    requires ChainInv(w) && Accepts(w, body, c) && body.addr == w.addr
    requires Paid(w, body)
    ensures ChainInv(Sending(w, body, c)) && Extends(w.chain, Sending(w, body, c).chain)
  {
    var w' := Sending(w, body, c);
    forall id | id in w.chain
      ensures w.chain[id].body.spends != body.spends && w.chain[id].body.spends != c.send.id
    {
      assert !Spent(w.chain, body.spends) && !Spent(w.chain, c.send.id);
    }
  }

  /** What is about to be sent is paid for. */
  lemma SendPaid(w: Purse, u: set<Utxo>, pc: Pc)
    requires ChainInv(w) && AtPc(w, u, pc) && pc.RegSend?
    ensures pc.body.spends in w.chain && Paid(w, pc.body)
  {
  }

  lemma ConfirmChain(w: Purse, id: bytes, more: nat)
    requires ChainInv(w)
    ensures ChainInv(Confirm(w, id, more)) && Extends(w.chain, Confirm(w, id, more).chain)
  {
    var w' := Confirm(w, id, more);
    assert forall i | i in w'.chain ::
        i in w.chain && w'.chain[i].body == w.chain[i].body && w'.chain[i].own == w.chain[i].own;
  }

  /** The anchor a thread is about to broadcast. */
  function Pending(pc: Pc): Option<Anchor> {
    if pc.RegLock? || pc.RegPeek? || pc.RegSet? || pc.RegRead? || pc.RegSend? then Some(pc.a) else None
  }

  /** The broadcast a registering thread stands for. */
  function Standing(pc: Pc): Option<bytes> {
    if BroadcastDone(pc) then Some(pc.id) else if pc.Done? && pc.r.Registered? then Some(pc.r.id) else None
  }

  /** a is what NewAnchor makes of the request, at some time. */
  ghost predicate ForRequest(cfg: Config, req: Request, a: Anchor) {
    (req.Register? || req.Post?) && a == AnchorFor(cfg, req, a.time)
  }

  ghost predicate ThreadOk(cfg: Config, chain: Chain, th: Thread) {
    && (Pending(th.pc).Some? ==> th.sent.None? && ForRequest(cfg, th.req, Pending(th.pc).value))
    && (Standing(th.pc).Some? ==> th.sent.Some? && th.sent.value.id == Standing(th.pc).value)
    && (th.req.Post? && (th.pc.StoLock? || th.pc.StoRead?) ==> th.sent.Some? && th.sent.value.id == th.pc.btctx)
    && (th.pc.Start? ==> th.sent.None?)
    && (th.sent.Some? ==> && th.sent.value.id in chain && chain[th.sent.value.id].own
                          && chain[th.sent.value.id].body.data == Encode(th.sent.value.a)
                          && ForRequest(cfg, th.req, th.sent.value.a))
  }

  lemma ThreadOkGrows(cfg: Config, chain: Chain, chain': Chain, th: Thread)
    requires ThreadOk(cfg, chain, th) && Extends(chain, chain')
    ensures ThreadOk(cfg, chain', th)
  {
  }

  /** The successors of a program counter inside RegisterTransaction that broadcasts nothing. */
  lemma RegisterShape(w: Purse, cliNet: byte, post: bool, pc: Pc, c: Choice)
    requires InRegister(pc) && (pc.RegSend? ==> !Accepts(w, pc.body, c))
    ensures var m := RegisterStep(w, cliNet, post, pc, c);
            && (Pending(m.pc).Some? ==> Pending(m.pc) == Pending(pc))
            && (Standing(m.pc).Some? ==> Standing(m.pc) == Standing(pc))
            && (m.pc.StoLock? ==> Standing(pc) == Some(m.pc.btctx))
            && !m.pc.StoRead? && !m.pc.Start?
  {
  }

  lemma StoreShape(chain: Chain, coll: Store.Coll, req: Request, pc: Pc, c: Choice)
    requires !InRegister(pc) && !pc.Start? && !pc.RegLock?
    ensures var pc' := StoreStep(chain, coll, req, pc, c).pc;
            && Pending(pc').None? && (Standing(pc').Some? ==> Standing(pc') == Standing(pc))
            && !pc'.Start? && (pc'.StoLock? ==> pc' == pc) && (pc'.StoRead? ==> (pc.StoLock? && pc'.btctx == pc.btctx))
  {
    if req.Refresh? {
      RefreshShape(coll, req, pc, c);
    }
  }

  lemma RefreshShape(coll: Store.Coll, req: Request, pc: Pc, c: Choice)
    requires req.Refresh? && !InRegister(pc) && !pc.Start? && !pc.RegLock?
    ensures var pc' := RefreshStep(coll, req, pc, c).pc;
            && Pending(pc').None? && (Standing(pc').Some? ==> Standing(pc') == Standing(pc))
            && !pc'.Start? && (pc'.StoLock? || pc'.StoRead? ==> pc' == pc)
  {
  }

  /** A step of a thread that is not a broadcast. */
  lemma LocalHistory(cfg: Config, l: Local, c: Choice)
    requires ThreadOk(cfg, l.w.chain, l.th) && (l.th.pc.RegSend? ==> !Accepts(l.w, l.th.pc.body, c))
    ensures var l' := LocalStep(cfg, l, c);
            && ThreadOk(cfg, l.w.chain, l'.th) && l'.w.chain == l.w.chain && l'.w.addr == l.w.addr
                && l'.w.left == l.w.left
            && l'.th.req == l.th.req && l'.th.sent == l.th.sent && l'.w.sends == l.w.sends && l'.w.fees == l.w.fees
  {
    if InRegister(l.th.pc) {
      RegisterShape(l.w, cfg.cliNet, l.th.req.Post?, l.th.pc, c);
      OtherStepChain(l.w, cfg.cliNet, l.th.req.Post?, l.th.pc, c);
    } else if !l.th.pc.Start? && !l.th.pc.RegLock? {
      StoreShape(l.w.chain, l.coll, l.th.req, l.th.pc, c);
    }
  }

  /** A broadcast. */
  lemma BroadcastHistory(cfg: Config, l: Local, c: Choice)
    requires l.th.pc.RegSend? && Accepts(l.w, l.th.pc.body, c)
    requires ThreadOk(cfg, l.w.chain, l.th) && l.th.pc.body.data == Encode(l.th.pc.a)
    ensures var l' := LocalStep(cfg, l, c);
            && ThreadOk(cfg, l'.w.chain, l'.th) && l'.th.req == l.th.req
            && l'.w.chain == Sending(l.w, l.th.pc.body, c).chain && l'.w.addr == l.w.addr && l'.w.left == l.w.left
            && l'.w.sends == l.w.sends + 1 && l'.w.fees == Sending(l.w, l.th.pc.body, c).fees
            && l'.th.sent == Some(Sent(c.send.id, l.th.pc.a)) && l.th.sent.None?
  {
  }

  ghost predicate Distinct(threads: map<nat, Thread>) {
    forall t, r | t in threads && r in threads && t != r && threads[t].sent.Some? && threads[r].sent.Some? ::
      threads[t].sent.value.id != threads[r].sent.value.id
  }

  ghost predicate HistoryInv(s: State) {
    && s.cfg.addr == s.w.addr && ChainInv(s.w)
    && (forall t | t in s.threads :: ThreadOk(s.cfg, s.w.chain, s.threads[t]))
    && Distinct(s.threads)
  }

  /** One thread has moved to th, the ledger has grown, and what th has newly broadcast is new to the ledger. */
  lemma Install(s: State, s': State, t: nat)
    requires HistoryInv(s) && t in s.threads && t in s'.threads && s'.threads == s.threads[t := s'.threads[t]]
    requires s'.cfg == s.cfg && s'.w.addr == s.w.addr && s'.w.left == s.w.left && ChainInv(s'.w)
             && Extends(s.w.chain, s'.w.chain)
    requires ThreadOk(s.cfg, s'.w.chain, s'.threads[t])
    requires var sent := s'.threads[t].sent; sent == s.threads[t].sent || (sent.Some? && sent.value.id !in s.w.chain)
    ensures HistoryInv(s')
  {
    OthersGrow(s, s'.w.chain, t);
    forall r | r in s.threads && s.threads[r].sent.Some?
      ensures s.threads[r].sent.value.id in s.w.chain
    {
      assert ThreadOk(s.cfg, s.w.chain, s.threads[r]);
    }
    StaysDistinct(s.threads, t, s'.threads[t], s.w.chain);
  }

  lemma StaysDistinct(threads: map<nat, Thread>, t: nat, th: Thread, chain: Chain)
    requires Distinct(threads) && t in threads
    requires forall r | r in threads && threads[r].sent.Some? :: threads[r].sent.value.id in chain
    requires th.sent == threads[t].sent || (th.sent.Some? && th.sent.value.id !in chain)
    ensures Distinct(threads[t := th])
  {
  }

  lemma SendHistory(s: State, t: nat, c: Choice)
    requires Inv(s) && HistoryInv(s) && t in s.threads
    requires s.threads[t].pc.RegSend? && Accepts(s.w, s.threads[t].pc.body, c)
    ensures HistoryInv(ThreadStep(s, t, c)) && Extends(s.w.chain, ThreadStep(s, t, c).w.chain)
    ensures var s' := ThreadStep(s, t, c); var sent := Sending(s.w, s.threads[t].pc.body, c);
            s'.w.chain == sent.chain && s'.w.addr == s.w.addr && s'.w.left == s.w.left && s'.w.sends == sent.sends
                && s'.w.fees == sent.fees
  {
    var l := Local(s.w, s.coll, s.threads[t]);
    assert Owner(s) == l.th.pc;
    assert s.w.x in s.w.mem;
    SendingChain(s.w, l.th.pc.body, c);
    BroadcastHistory(s.cfg, l, c);
    SameChain(Sending(s.w, l.th.pc.body, c), ThreadStep(s, t, c).w);
    Install(s, ThreadStep(s, t, c), t);
  }

  lemma SameChain(w: Purse, w': Purse)
    requires ChainInv(w) && w'.chain == w.chain && w'.addr == w.addr && w'.left == w.left
    ensures ChainInv(w')
  {
  }

  lemma QuietHistory(s: State, t: nat, c: Choice)
    requires HistoryInv(s) && t in s.threads
    requires s.threads[t].pc.RegSend? ==> !Accepts(s.w, s.threads[t].pc.body, c)
    ensures HistoryInv(ThreadStep(s, t, c))
    ensures var s' := ThreadStep(s, t, c);
            s'.w.chain == s.w.chain && s'.w.addr == s.w.addr && s'.w.left == s.w.left && s'.w.sends == s.w.sends
                && s'.w.fees == s.w.fees
  {
    var l := Local(s.w, s.coll, s.threads[t]);
    LocalHistory(s.cfg, l, c);
    SameChain(s.w, LocalStep(s.cfg, l, c).w);
    Install(s, ThreadStep(s, t, c), t);
  }

  lemma ThreadHistory(s: State, t: nat, c: Choice)
    requires Inv(s) && HistoryInv(s) && t in s.threads
    ensures HistoryInv(ThreadStep(s, t, c)) && Extends(s.w.chain, ThreadStep(s, t, c).w.chain)
  {
    if s.threads[t].pc.RegSend? && Accepts(s.w, s.threads[t].pc.body, c) {
      SendHistory(s, t, c);
    } else {
      QuietHistory(s, t, c);
    }
  }

  lemma OthersGrow(s: State, chain': Chain, t: nat)
    requires HistoryInv(s) && Extends(s.w.chain, chain')
    ensures forall r | r in s.threads && r != t :: ThreadOk(s.cfg, chain', s.threads[r])
  {
    forall r | r in s.threads && r != t
      ensures ThreadOk(s.cfg, chain', s.threads[r])
    {
      ThreadOkGrows(s.cfg, s.w.chain, chain', s.threads[r]);
    }
  }

  lemma RestartHistory(s: State)
    requires HistoryInv(s)
    ensures HistoryInv(Restart(s))
  {
    var s' := Restart(s);
    SameChain(s.w, s'.w);
    forall t | t in s.threads
      ensures ThreadOk(s.cfg, s'.w.chain, s'.threads[t]) && s'.threads[t].sent == s.threads[t].sent
    {
      assert ThreadOk(s.cfg, s.w.chain, s.threads[t]);
    }
  }

  lemma ConfirmHistory(s: State, id: bytes, more: nat)
    requires HistoryInv(s)
    ensures HistoryInv(Next(s, Mine(id, more))) && Extends(s.w.chain, Next(s, Mine(id, more)).w.chain)
  {
    var s' := Next(s, Mine(id, more));
    ConfirmChain(s.w, id, more);
    forall r | r in s.threads
      ensures ThreadOk(s'.cfg, s'.w.chain, s'.threads[r])
    {
      ThreadOkGrows(s.cfg, s.w.chain, s'.w.chain, s.threads[r]);
    }
  }

  lemma SpawnHistory(s: State, t: nat, req: Request)
    requires HistoryInv(s)
    ensures HistoryInv(Next(s, Spawn(t, req)))
  {
    var s' := Next(s, Spawn(t, req));
    if t !in s.threads {
      assert ThreadOk(s.cfg, s.w.chain, Thread(req, Start, None, false));
      forall r | r in s'.threads
        ensures ThreadOk(s.cfg, s.w.chain, s'.threads[r])
      {
        assert r == t || s'.threads[r] == s.threads[r];
      }
    }
  }

  lemma HistoryStep(s: State, st: Step)
    requires Inv(s) && HistoryInv(s)
    ensures HistoryInv(Next(s, st)) && Extends(s.w.chain, Next(s, st).w.chain)
  {
    match st
    case Spawn(t, req) => SpawnHistory(s, t, req);
    case Crash => RestartHistory(s);
    case Mine(id, more) => ConfirmHistory(s, id, more);
    case Act(t, c) =>
      if t in s.threads {
        ThreadHistory(s, t, c);
      }
  }

  lemma {:induction false} HistoryRun(s: State, steps: seq<Step>)
    requires Init(s)
    ensures HistoryInv(Run(s, steps)) && Extends(s.w.chain, Run(s, steps).w.chain)
  {
    if steps == [] {
      FundedChain(s.w);
    } else {
      var init := steps[..|steps| - 1];
      HistoryRun(s, init);
      InvRun(s, init);
      HistoryStep(Run(s, init), steps[|steps| - 1]);
      ExtendsTransitive(s.w.chain, Run(s, init).w.chain, Run(s, steps).w.chain);
    }
  }
}
