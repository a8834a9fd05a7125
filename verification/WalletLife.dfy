/** How long a wallet lasts without faults, and a setting with which it never starts. */
module WalletLife {
  import opened Base
  import opened Ledger
  import opened Protocol
  import opened Accounting
  import opened History
  import opened RoundRobin
  import opened Runs
  import opened Bridge
  import opened Liveness
  import opened Progress
  import opened Satoshi
  import OpReturn
  import Store

  /** How a step counts broadcasts. */
  lemma SendsStep(s: State, st: Step)
    requires Inv(s) && HistoryInv(s)
    ensures Next(s, st).w.sends == s.w.sends || (Owner(s).RegSend? && Next(s, st).w.sends == s.w.sends + 1)
  {
    if st.Act? && st.t in s.threads {
      var pc := s.threads[st.t].pc;
      if pc.RegSend? && Accepts(s.w, pc.body, st.c) {
        assert Owner(s) == pc;
        SendHistory(s, st.t, st.c);
      } else {
        QuietHistory(s, st.t, st.c);
      }
    }
  }

  // A gateway and an adapter set to different networks.

  ghost predicate NetOk(s: State) {
    forall t | t in s.threads && s.threads[t].pc.RegSend? :: s.threads[t].pc.a.net == s.cfg.cliNet
  }

  lemma StoreNeverSends(chain: Chain, coll: Store.Coll, req: Request, pc: Pc, c: Choice)
    requires !InRegister(pc)
    ensures !StoreStep(chain, coll, req, pc, c).pc.RegSend?
  {
    StoreStaysOutside(chain, coll, req, pc, c);
  }

  lemma LocalNet(cfg: Config, l: Local, c: Choice)
    requires l.th.pc.RegSend? ==> l.th.pc.a.net == cfg.cliNet
    ensures var pc := LocalStep(cfg, l, c).th.pc; pc.RegSend? ==> pc.a.net == cfg.cliNet
  {
    if !InRegister(l.th.pc) {
      StoreNeverSends(l.w.chain, l.coll, l.th.req, l.th.pc, c);
    }
  }

  lemma NetStep(s: State, st: Step)
    requires NetOk(s)
    ensures NetOk(Next(s, st))
  {
    if st.Act? && st.t in s.threads {
      LocalNet(s.cfg, Local(s.w, s.coll, s.threads[st.t]), st.c);
    }
  }

  lemma WrongNetNotSending(s: State)
    requires HistoryInv(s) && NetOk(s) && s.cfg.net != s.cfg.cliNet
    ensures !Owner(s).RegSend?
  {
    if s.lock.Some? && s.lock.value in s.threads {
      assert ThreadOk(s.cfg, s.w.chain, s.threads[s.lock.value]);
    }
  }

  /** Anchors carry the gateway's network, so with another one in the adapter nothing is ever broadcast. */
  lemma {:induction false} WrongNetworkNeverSends(s: State, steps: seq<Step>)
    requires Init(s) && s.cfg.net != s.cfg.cliNet
    ensures NetOk(Run(s, steps)) && Run(s, steps).w.sends == 0
  {
    if steps == [] {
    } else {
      var s1 := Run(s, steps[..|steps| - 1]);
      WrongNetworkNeverSends(s, steps[..|steps| - 1]);
      InvRun(s, steps[..|steps| - 1]);
      HistoryRun(s, steps[..|steps| - 1]);
      CfgStays(s, steps[..|steps| - 1]);
      NetStep(s1, steps[|steps| - 1]);
      SendsStep(s1, steps[|steps| - 1]);
      WrongNetNotSending(s1);
    }
  }

  // The exact lifetime.

  /** The values of the initial queue. */
  ghost function Values(w: Purse): (vs: seq<nat>)
    requires Funded(w)
    ensures |vs| == |w.mem|
    ensures forall i: nat | i < |vs| ::
              w.mem[i].txid in w.chain && vs[i] == w.chain[w.mem[i].txid].body.value <= MAX_MONEY
  {
    assert forall u | u in w.mem :: u in Elems(w.mem);
    assert forall u | u in Elems(w.mem) :: u.txid in w.chain;
    seq(|w.mem|, i requires 0 <= i < |w.mem| => w.chain[w.mem[i].txid].body.value)
  }

  /** The turns of each output of the initial queue. */
  ghost function Funds(w: Purse): (ts: seq<nat>)
    requires Funded(w)
    ensures |ts| == |w.mem|
    ensures forall i: nat | i < |ts| :: ts[i] == Turns(w.left, Values(w)[i])
  {
    seq(|w.mem|, i requires 0 <= i < |w.mem| => Turns(w.left, Values(w)[i]))
  }

  ghost predicate AllPayable(ts: seq<nat>, n: nat)
    requires ts != []
  {
    forall j: nat | j < n :: Payable(ts, j)
  }

  /** The head has as many turns left as its initial output had, less one for every time it was spent. */
  lemma HeadTurns(start: Purse, w: Purse, pc: Pc)
    requires Funded(start) && start.mem != [] && ChainInv(w) && Later(start, w)
    requires CleanInv(w, pc, start.mem) && !BroadcastDone(pc)
    ensures w.mem != [] && w.mem[0].txid in w.chain
    ensures w.left(w.chain[w.mem[0].txid].body.value).Some? <==> Payable(Funds(start), w.sends)
  {
    var k, g := |start.mem|, w.sends / |start.mem|;
    assert ServedAt(w.chain, w.mem[0], start.mem, w.sends + 0);
    var root := start.mem[w.sends % k];
    RootKnown(start, root);
    GenerationTurns(w, w.mem[0].txid, g, root.txid);
    assert Values(start)[w.sends % k] == w.chain[root.txid].body.value;
  }

  /** A broadcast under way finds a head that can pay. */
  lemma OneMorePayable(start: Purse, w: Purse, u: set<Utxo>, pc: Pc)
    requires Funded(start) && start.mem != [] && ChainInv(w) && Later(start, w)
    requires CleanInv(w, pc, start.mem) && pc.RegSend? && AtPc(w, u, pc) && AllPayable(Funds(start), w.sends)
    ensures AllPayable(Funds(start), w.sends + 1)
  {
    HeadTurns(start, w, pc);
  }

  lemma {:induction false} LaterRun(s: State, steps: seq<Step>)
    requires Init(s)
    ensures Later(s.w, Run(s, steps).w)
  {
    if steps == [] {
    } else {
      var init := steps[..|steps| - 1];
      LaterRun(s, init);
      InvRun(s, init);
      HistoryRun(s, init);
      LaterStep(Run(s, init), steps[|steps| - 1]);
      ExtendsTransitive(s.w.chain, Run(s, init).w.chain, Run(s, steps).w.chain);
    }
  }

  lemma LaterStep(s: State, st: Step)
    requires Inv(s) && HistoryInv(s)
    ensures Later(s.w, Next(s, st).w)
  {
    HistoryStep(s, st);
    if st.Act? && st.t in s.threads {
      var pc := s.threads[st.t].pc;
      if pc.RegSend? && Accepts(s.w, pc.body, st.c) {
        SendHistory(s, st.t, st.c);
      } else {
        QuietHistory(s, st.t, st.c);
      }
    }
  }

  lemma {:induction false} PayableRun(s: State, steps: seq<Step>)
    requires Init(s) && s.w.mem != [] && AllClean(steps)
    ensures AllPayable(Funds(s.w), Run(s, steps).w.sends)
  {
    if steps == [] {
    } else {
      var init := steps[..|steps| - 1];
      var s1 := Run(s, init);
      PayableRun(s, init);
      InvRun(s, init);
      HistoryRun(s, init);
      LaterRun(s, init);
      CleanRun(s, init);
      SendsStep(s1, steps[|steps| - 1]);
      if Owner(s1).RegSend? {
        OneMorePayable(s.w, s1.w, U(s1.w), Owner(s1));
      }
    }
  }

  lemma PayableIffBelow(ts: seq<nat>, n: nat)
    requires ts != [] && AllPayable(ts, n)
    ensures n <= Lifetime(ts)
    ensures Payable(ts, n) <==> n < Lifetime(ts)
  {
    PayableUpToLifetime(ts, n);
    PayableUpToLifetime(ts, Lifetime(ts));
  }

  /** Without faults an idle wallet can pay once more exactly as long as its lifetime is not used up. */
  lemma IdleCanPay(s: State, steps: seq<Step>)
    requires Init(s) && s.w.mem != [] && AllClean(steps) && !BroadcastDone(Owner(Run(s, steps)))
    ensures var w := Run(s, steps).w;
            && w.mem != [] && w.doc == w.mem && FeeRule(w.left) && Bounded(w.chain)
            && (Live(w, w.mem) <==> w.sends < Lifetime(Funds(s.w)))
  {
    CleanRun(s, steps);
    HistoryRun(s, steps);
    LaterRun(s, steps);
    CleanQueueIsUnspent(s, steps);
    PayableRun(s, steps);
    var s1 := Run(s, steps);
    HeadTurns(s.w, s1.w, Owner(s1));
    assert s1.w.mem[0] in Elems(s1.w.mem);
    PayableIffBelow(Funds(s.w), s1.w.sends);
  }

  /** A request that has reached the mutex goes on to its broadcast. */
  lemma Continue(s: State, steps: seq<Step>, arrive: seq<Step>, t: nat, a: OpReturn.Anchor) returns (more: seq<Step>,
    id: bytes)
    requires Init(s) && s.w.mem != [] && s.cfg.net == s.cfg.cliNet && AllClean(steps) && AllClean(arrive)
    requires Run(s, steps).lock.None? && Run(s, steps).w.sends < Lifetime(Funds(s.w))
    requires var s1, s2 := Run(s, steps), Run(Run(s, steps), arrive);
             s2 == s1.(threads := s2.threads) && t in s2.threads && s2.threads[t].pc == RegLock(a)
                 && a.net == s1.cfg.net
    ensures AllClean(steps + more) && Run(s, steps + more) == Run(Run(s, steps), more)
    ensures var s1, s2, s' := Run(s, steps), Run(Run(s, steps), arrive), Run(s, steps + more);
            Ready(s1.w) && Fresh(s1.w.chain, id) && At(s2, s', t, Renewed(s1.w, id, a), Finished(s2, t, id))
  {
    IdleCanPay(s, steps);
    CfgStays(s, steps);
    var s1 := Run(s, steps);
    id := FreshId(s1.w.chain);
    var finish := GoesThrough(Run(s1, arrive), t, a, id);
    more := arrive + finish;
    RunConcat(s1, arrive, finish);
    RunConcat(s, steps, more);
  }

  /** s' is s after a new request has gone through to the end of its registration. */
  ghost predicate Joined(s: State, s': State, t: nat, req: Request, a: OpReturn.Anchor, id: bytes)
    requires Ready(s.w)
  {
    && (req.Register? || req.Post?) && a == AnchorFor(s.cfg, req, a.time)
    && s'.lock.None? && s'.cfg == s.cfg && s'.coll == s.coll && s'.w == Renewed(s.w, id, a)
    && t !in s.threads && t in s'.threads && s'.threads == s.threads[t := s'.threads[t]]
    && s'.threads[t] == Thread(req, if req.Post? then StoLock(id)
        else Done(Registered(id)), s'.threads[t].sent, req.Post?)
  }

  lemma IsJoined(s: State, s2: State, s': State, t: nat, req: Request, a: OpReturn.Anchor, id: bytes)
    requires t !in s.threads && s2 == s.(threads := s.threads[t := Thread(req, RegLock(a), None, req.Post?)])
    requires Ready(s.w) && (req.Register? || req.Post?) && a == AnchorFor(s.cfg, req, a.time)
    requires At(s2, s', t, Renewed(s.w, id, a), Finished(s2, t, id))
    ensures Joined(s, s', t, req, a, id)
  {
  }

  /** While the lifetime is not used up one more request of any kind goes through. */
  lemma OneMoreRequest(s: State, steps: seq<Step>, req: Request)
    returns (more: seq<Step>, t: nat, a: OpReturn.Anchor, id: bytes)
    requires Init(s) && s.w.mem != [] && s.cfg.net == s.cfg.cliNet && AllClean(steps)
    requires Run(s, steps).lock.None? && Run(s, steps).w.sends < Lifetime(Funds(s.w))
    requires req.Register? || (req.Post? && Store.Cid(req.dom, req.tx) !in Run(s, steps).coll)
    ensures AllClean(steps + more) && Run(s, steps + more) == Run(Run(s, steps), more)
    ensures Fresh(Run(s, steps).w.chain, id)
    ensures Ready(Run(s, steps).w) && Joined(Run(s, steps), Run(s, steps + more), t, req, a, id)
  {
    var s1 := Run(s, steps);
    var arrive;
    t, a, arrive := Arrive(s1, req);
    more, id := Continue(s, steps, arrive, t, a);
    IsJoined(s1, Run(s1, arrive), Run(s, steps + more), t, req, a, id);
  }

  lemma {:induction false} Attain(s: State, n: nat) returns (steps: seq<Step>)
    requires Init(s) && s.w.mem != [] && s.cfg.net == s.cfg.cliNet && n <= Lifetime(Funds(s.w))
    ensures AllClean(steps) && Run(s, steps).lock.None? && Run(s, steps).w.sends == n
  {
    if n == 0 {
      steps := [];
    } else {
      var before := Attain(s, n - 1);
      var more, t, a, id := OneMoreRequest(s, before, Register([], []));
      steps := before + more;
    }
  }

  /**
    The exact lifetime: a run without faults can make n broadcasts if and only if n is at most the
    minimum over the k initial UTXOs i of i + k * t_i, where t_i is how often calcFee can be applied to
    the value of i before it fails.
   */
  lemma LifetimeIsExact(s: State, n: nat)
    requires Init(s) && s.w.mem != [] && s.cfg.net == s.cfg.cliNet
    ensures (exists steps :: AllClean(steps) && Run(s, steps).w.sends == n) <==> n <= Lifetime(Funds(s.w))
  {
    if steps :| AllClean(steps) && Run(s, steps).w.sends == n {
      PayableRun(s, steps);
      PayableUpToLifetime(Funds(s.w), n);
    }
    if n <= Lifetime(Funds(s.w)) {
      var steps := Attain(s, n);
    }
  }

  /** How many times each amount holds `unit` satoshi. */
  function Shares(vs: seq<nat>, unit: nat): (ts: seq<nat>)
    requires unit > 0
    ensures |ts| == |vs| && forall i: nat | i < |ts| :: ts[i] == vs[i] / unit
  {
    seq(|vs|, i requires 0 <= i < |vs| => Share(vs[i], unit))
  }

  function Share(v: nat, unit: nat): nat
    requires unit > 0
  {
    v / unit
  }

  /** For every rounding: the lifetime lies between those at a fee of one satoshi more and at the exact fee. */
  lemma LifetimeBracket(w: Purse)
    requires Funded(w) && w.mem != []
    ensures Lifetime(Shares(Values(w), FEE + 1)) <= Lifetime(Funds(w)) <= Lifetime(Shares(Values(w), FEE))
  {
    forall i: nat | i < |w.mem|
      ensures Shares(Values(w), FEE + 1)[i] <= Funds(w)[i] <= Shares(Values(w), FEE)[i]
    {
      TurnsBracket(w.left, Values(w)[i]);
    }
    LifetimeMonotone(Shares(Values(w), FEE + 1), Funds(w));
    LifetimeMonotone(Funds(w), Shares(Values(w), FEE));
  }

  /**
    The lifetime is the minimum of i + k * floor(v_i / fee) if and only if the lost satoshi pull no
    output's own bound below that minimum.
   */
  lemma LifetimeIsFormula(w: Purse)
    requires Funded(w) && w.mem != []
    ensures Lifetime(Funds(w)) == Lifetime(Shares(Values(w), FEE))
            <==> forall i: nat | i < |w.mem| :: Lifetime(Shares(Values(w), FEE)) <= Bound(Funds(w), i)
  {
    LifetimeBracket(w);
    LifetimeIsMin(Funds(w), 0);
  }

  /** In particular where on every output the rest of v_i / fee makes up for what is lost. */
  lemma LifetimeWhenMadeUp(w: Purse)
    requires Funded(w) && w.mem != []
    requires forall i: nat | i < |w.mem| :: MadeUp(w.left, Values(w)[i])
    ensures Lifetime(Funds(w)) == Lifetime(Shares(Values(w), FEE))
  {
    forall i: nat | i < |w.mem|
      ensures Funds(w)[i] == Shares(Values(w), FEE)[i]
    {
      assert MadeUp(w.left, Values(w)[i]);
      TurnsExactly(w.left, Values(w)[i]);
    }
    assert Funds(w) == Shares(Values(w), FEE);
  }

  ghost predicate MadeUp(left: Calc, v: nat)
    requires FeeRule(left) && v <= MAX_MONEY
  {
    Lost(left, v) <= v % FEE
  }

  /** For a single output that is the exact condition. */
  lemma SingleIsFormula(w: Purse)
    requires Funded(w) && |w.mem| == 1
    ensures Lifetime(Funds(w)) == Lifetime(Shares(Values(w), FEE)) <==> MadeUp(w.left, Values(w)[0])
  {
    TurnsExactly(w.left, Values(w)[0]);
  }

  /** It is not always: a wallet of 0.29 BTC lasts 1449 broadcasts, not 1450. */
  lemma LifetimeFallsShort(f: Float, w: Purse)
    requires Ieee(f) && CalcsAs(w.left, f) && Funded(w) && Values(w) == [29_000_000]
    ensures Lifetime(Funds(w)) == 1449 && Lifetime(Shares(Values(w), FEE)) == 1450
  {
    OneTurnLost(f, w.left);
    assert Funds(w)[0] == 1449 && Shares(Values(w), FEE)[0] == 1450;
  }

  /** When the lifetime is used up the wallet is stuck for good, faults or not. */
  lemma StuckAfterLifetime(s: State, steps: seq<Step>, more: seq<Step>)
    requires Init(s) && s.w.mem != [] && AllClean(steps) && !BroadcastDone(Owner(Run(s, steps)))
    requires Run(s, steps).w.sends == Lifetime(Funds(s.w))
    ensures Run(Run(s, steps), more).w.sends == Lifetime(Funds(s.w))
  {
    IdleCanPay(s, steps);
    InvRun(s, steps);
    HaltedForever(Run(s, steps), more);
  }
}
