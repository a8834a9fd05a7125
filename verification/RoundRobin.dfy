/** Runs without faults: the wallet queue is served round robin, and how long a wallet lasts. */
module RoundRobin {
  import opened Base
  import opened Satoshi
  import opened Ledger
  import opened Protocol
  import opened Accounting
  import opened History
  import opened Conservation
  import OpReturn

  /** No crash, no failed save, no broadcast reported as an error. Everything else may still fail. */
  predicate Clean(st: Step) {
    match st
    case Crash => false
    case Act(_, c) => c.save.Saved? && !c.send.Unreported?
    case _ => true
  }

  predicate AllClean(steps: seq<Step>) {
    forall st | st in steps :: Clean(st)
  }

  /** The queue as it will be once the registration in progress has finished. */
  function Settled(w: Purse, pc: Pc): seq<Utxo> {
    if (pc.RegSent? || pc.RegDequeue?) && w.mem != [] then w.mem[1..] + [Utxo(pc.id, w.addr)]
    else if pc.RegSaveNext? || pc.RegEnqueue? then w.mem + [Utxo(pc.id, w.addr)]
    else w.mem
  }

  /** What the document lags behind by. */
  ghost predicate Lag(w: Purse, pc: Pc) {
    if pc.RegSaveNext? then w.doc == [pc.from] + w.mem
    else if pc.RegSaveAdd? then w.mem == w.doc + [w.x]
    else w.doc == w.mem
  }

  /** After n broadcasts position i holds generation (n + i) / k of initial output (n + i) mod k. */
  ghost predicate Served(chain: Chain, q: seq<Utxo>, roots: seq<Utxo>, n: nat) {
    |q| == |roots| && forall i: nat | i < |q| :: ServedAt(chain, q[i], roots, n + i)
  }

  ghost predicate ServedAt(chain: Chain, u: Utxo, roots: seq<Utxo>, j: nat)
    requires roots != []
  {
    Descends(chain, u.txid, j / |roots|, roots[j % |roots|].txid)
  }

  ghost predicate CleanInv(w: Purse, pc: Pc, roots: seq<Utxo>) {
    w.lost == 0 && Lag(w, pc) && Served(w.chain, Settled(w, pc), roots, w.sends)
  }

  lemma ServedGrows(chain: Chain, chain': Chain, q: seq<Utxo>, roots: seq<Utxo>, n: nat)
    requires Served(chain, q, roots, n) && Extends(chain, chain')
    ensures Served(chain', q, roots, n)
  {
    forall i: nat | i < |q|
      ensures ServedAt(chain', q[i], roots, n + i)
    {
      assert ServedAt(chain, q[i], roots, n + i);
      DescendsGrows(chain, chain', q[i].txid, (n + i) / |roots|, roots[(n + i) % |roots|].txid);
    }
  }

  lemma NextLap(n: nat, k: nat)
    requires k > 0
    ensures (n + k) / k == n / k + 1 && (n + k) % k == n % k
  {
    assert n + k == k * (n / k + 1) + n % k;
    DivModUnique(n + k, k, n / k + 1, n % k);
  }

  lemma DivModUnique(x: nat, k: nat, q: nat, r: nat)
    requires k > 0 && x == k * q + r && r < k
    ensures x / k == q && x % k == r
  {
    assert k * (x / k - q) == r - x % k;
    AtLeastOnce(k, x / k - q);
  }

  lemma AtLeastOnce(k: int, d: int)
    requires k > 0
    ensures d >= 1 ==> k * d >= k
    ensures d <= -1 ==> k * d <= -k
  {
    if d >= 1 {
      assert k * (d - 1) >= 0;
    } else if d <= -1 {
      assert k * (-d - 1) >= 0;
    }
  }

  /** Spending the head into a new output at the back is one round-robin step. */
  lemma ServeHead(chain: Chain, q: seq<Utxo>, roots: seq<Utxo>, n: nat, next: Utxo)
    requires q != [] && Served(chain, q, roots, n)
    requires next.txid in chain && chain[next.txid].own && chain[next.txid].body.spends == q[0].txid
    ensures Served(chain, q[1..] + [next], roots, n + 1)
  {
    var k := |roots|;
    var q' := q[1..] + [next];
    NextLap(n, k);
    forall i: nat | i < |q'|
      ensures ServedAt(chain, q'[i], roots, n + 1 + i)
    {
      if i < k - 1 {
        assert ServedAt(chain, q[i + 1], roots, n + (i + 1));
      } else {
        assert n + 1 + i == n + k && ServedAt(chain, q[0], roots, n + 0);
      }
    }
  }

  lemma SendingExtends(w: Purse, body: RawTx, c: Choice)
    requires Accepts(w, body, c)
    ensures var chain := Sending(w, body, c).chain;
            && Extends(w.chain, chain)
            && c.send.id in chain && chain[c.send.id].own && chain[c.send.id].body == body
  {
  }

  lemma SendServed(w: Purse, body: RawTx, c: Choice, roots: seq<Utxo>)
    requires Accepts(w, body, c) && Served(w.chain, w.mem, roots, w.sends)
    requires w.mem != [] && w.mem[0] == w.x && body.spends == w.x.txid && body.addr == w.addr
    ensures Served(Sending(w, body, c).chain, w.mem[1..] + [Utxo(c.send.id, w.addr)], roots, w.sends + 1)
  {
    var w' := Sending(w, body, c);
    SendingExtends(w, body, c);
    ServedGrows(w.chain, w'.chain, w.mem, roots, w.sends);
    ServeHead(w'.chain, w.mem, roots, w.sends, Utxo(c.send.id, w.addr));
  }

  lemma SendClean(w: Purse, u: set<Utxo>, a: OpReturn.Anchor, body: RawTx, c: Choice, roots: seq<Utxo>)
    requires AtPc(w, u, RegSend(a, body)) && w.x.addr == w.addr && CleanInv(w, RegSend(a, body), roots) && ChainInv(w)
    requires Accepts(w, body, c) && !c.send.Unreported?
    ensures CleanInv(Sending(w, body, c), RegSent(w.x, c.send.id), roots)
  {
    SendServed(w, body, c, roots);
  }

  lemma SendAnyClean(w: Purse, u: set<Utxo>, a: OpReturn.Anchor, body: RawTx, c: Choice, roots: seq<Utxo>)
    requires AtPc(w, u, RegSend(a, body)) && w.x.addr == w.addr && CleanInv(w, RegSend(a, body), roots) && ChainInv(w)
    requires !c.send.Unreported?
    ensures var m := Send(w, a, body, c); CleanInv(m.w, m.pc, roots)
  {
    if Accepts(w, body, c) {
      SendClean(w, u, a, body, c, roots);
    } else {
      PrepareClean(w, w, RegSend(a, body), Done(Failed), roots);
    }
  }

  lemma DequeueClean(w: Purse, from: Utxo, id: bytes, roots: seq<Utxo>)
    requires w.mem != [] && w.mem[0] == from && CleanInv(w, RegDequeue(from, id), roots)
    ensures var m := Dequeue(w, from, id); CleanInv(m.w, m.pc, roots)
  {
    assert w.mem == [from] + w.mem[1..];
  }

  lemma PrepareClean(w: Purse, w': Purse, pc: Pc, pc': Pc, roots: seq<Utxo>)
    requires CleanInv(w, pc, roots) && !BroadcastDone(pc) && !BroadcastDone(pc') && w' == w.(x := w'.x)
    ensures CleanInv(w', pc', roots)
  {
  }

  lemma SentClean(w: Purse, from: Utxo, id: bytes, roots: seq<Utxo>)
    requires CleanInv(w, RegSent(from, id), roots)
    ensures CleanInv(w.(x := Utxo(id, w.x.addr)), RegDequeue(from, id), roots)
  {
  }

  lemma SaveNextClean(w: Purse, from: Utxo, id: bytes, roots: seq<Utxo>)
    requires CleanInv(w, RegSaveNext(from, id), roots)
    ensures CleanInv(w.(doc := w.mem), RegEnqueue(from, id), roots)
  {
  }

  lemma EnqueueClean(w: Purse, from: Utxo, id: bytes, roots: seq<Utxo>)
    requires CleanInv(w, RegEnqueue(from, id), roots) && w.x == Utxo(id, w.addr)
    ensures CleanInv(w.(mem := w.mem + [w.x]), RegSaveAdd(from, id), roots)
  {
  }

  lemma SaveAddClean(w: Purse, from: Utxo, id: bytes, next: Pc, roots: seq<Utxo>)
    requires CleanInv(w, RegSaveAdd(from, id), roots) && (next.StoLock? || next.Done?)
    ensures CleanInv(w.(doc := w.mem), next, roots)
  {
  }

  lemma CleanBefore(w: Purse, u: set<Utxo>, cliNet: byte, post: bool, pc: Pc, c: Choice, roots: seq<Utxo>)
    requires InRegister(pc) && !BroadcastDone(pc)
    requires AtPc(w, u, pc) && Known(w, w.mem) && CleanInv(w, pc, roots) && ChainInv(w) && !c.send.Unreported?
    ensures var m := RegisterStep(w, cliNet, post, pc, c); CleanInv(m.w, m.pc, roots)
  {
    if pc.RegPeek? {
      PrepareClean(w, w, pc, Peek(w, pc.a).pc, roots);
    } else if pc.RegSet? {
      PrepareClean(w, w.(x := pc.head), pc, RegRead(pc.a), roots);
    } else if pc.RegRead? {
      PrepareClean(w, w, pc, Read(w, cliNet, pc.a, c).pc, roots);
    } else {
      assert w.x in w.mem;
      SendAnyClean(w, u, pc.a, pc.body, c, roots);
    }
  }

  lemma CleanAfter(w: Purse, u: set<Utxo>, cliNet: byte, post: bool, pc: Pc, c: Choice, roots: seq<Utxo>)
    requires BroadcastDone(pc) && AtPc(w, u, pc) && CleanInv(w, pc, roots) && c.save.Saved?
    ensures var m := RegisterStep(w, cliNet, post, pc, c); CleanInv(m.w, m.pc, roots)
  {
    if pc.RegSent? {
      SentClean(w, pc.from, pc.id, roots);
    } else if pc.RegDequeue? {
      DequeueClean(w, pc.from, pc.id, roots);
    } else if pc.RegSaveNext? {
      SaveNextClean(w, pc.from, pc.id, roots);
    } else if pc.RegEnqueue? {
      EnqueueClean(w, pc.from, pc.id, roots);
    } else {
      SaveAddClean(w, pc.from, pc.id, if post then StoLock(pc.id) else Done(Registered(pc.id)), roots);
    }
  }

  lemma RegisterClean(w: Purse, u: set<Utxo>, cliNet: byte, post: bool, pc: Pc, c: Choice, roots: seq<Utxo>)
    requires InRegister(pc) && AtPc(w, u, pc) && Known(w, w.mem) && CleanInv(w, pc, roots) && ChainInv(w)
    requires c.save.Saved? && !c.send.Unreported?
    ensures var m := RegisterStep(w, cliNet, post, pc, c); CleanInv(m.w, m.pc, roots)
  {
    if BroadcastDone(pc) {
      CleanAfter(w, u, cliNet, post, pc, c, roots);
    } else {
      CleanBefore(w, u, cliNet, post, pc, c, roots);
    }
  }

  lemma QuietClean(w: Purse, pc: Pc, pc': Pc, roots: seq<Utxo>)
    requires CleanInv(w, pc, roots) && Quiet(pc) && Quiet(pc')
    ensures CleanInv(w, pc', roots)
  {
  }

  lemma ThreadClean(s: State, t: nat, c: Choice, roots: seq<Utxo>)
    requires Inv(s) && HistoryInv(s) && CleanInv(s.w, Owner(s), roots) && t in s.threads
    requires c.save.Saved? && !c.send.Unreported?
    ensures CleanInv(ThreadStep(s, t, c).w, Owner(ThreadStep(s, t, c)), roots)
  {
    MutexThread(s, t, c);
    var s' := ThreadStep(s, t, c);
    var pc, pc' := s.threads[t].pc, s'.threads[t].pc;
    if InRegister(pc) {
      assert Owner(s) == pc;
      RegisterClean(s.w, U(s.w), s.cfg.cliNet, s.threads[t].req.Post?, pc, c, roots);
      if !Holds(pc') {
        QuietClean(s'.w, pc', Start, roots);
      }
    } else {
      OutsideStep(s.cfg, Local(s.w, s.coll, s.threads[t]), c);
      if Holds(pc) || Holds(pc') {
        assert Quiet(Owner(s)) && Quiet(Owner(s'));
        QuietClean(s.w, Owner(s), Owner(s'), roots);
      } else {
        assert Owner(s') == Owner(s);
      }
    }
  }

  lemma ConfirmClean(w: Purse, id: bytes, more: nat, pc: Pc, roots: seq<Utxo>)
    requires ChainInv(w) && CleanInv(w, pc, roots)
    ensures CleanInv(Confirm(w, id, more), pc, roots)
  {
    ConfirmChain(w, id, more);
    ServedGrows(w.chain, Confirm(w, id, more).chain, Settled(w, pc), roots, w.sends);
  }

  lemma CleanStep(s: State, st: Step, roots: seq<Utxo>)
    requires Inv(s) && HistoryInv(s) && CleanInv(s.w, Owner(s), roots) && Clean(st)
    ensures CleanInv(Next(s, st).w, Owner(Next(s, st)), roots)
  {
    MutexStep(s, st);
    match st
    case Spawn(_, _) =>
    case Mine(id, more) => ConfirmClean(s.w, id, more, Owner(s), roots);
    case Act(t, c) =>
      if t in s.threads {
        ThreadClean(s, t, c, roots);
      }
  }

  lemma ServedInitially(chain: Chain, q: seq<Utxo>)
    ensures Served(chain, q, q, 0)
  {
    forall i: nat | i < |q|
      ensures ServedAt(chain, q[i], q, 0 + i)
    {
      DivModUnique(i, |q|, 0, i);
    }
  }

  lemma {:induction false} CleanRun(s: State, steps: seq<Step>)
    requires Init(s) && AllClean(steps)
    ensures CleanInv(Run(s, steps).w, Owner(Run(s, steps)), s.w.mem)
  {
    if steps == [] {
      ServedInitially(s.w.chain, s.w.mem);
    } else {
      var init := steps[..|steps| - 1];
      CleanRun(s, init);
      InvRun(s, init);
      HistoryRun(s, init);
      CleanStep(Run(s, init), steps[|steps| - 1], s.w.mem);
    }
  }

  // How long a wallet lasts.

  /** How often an output of v satoshi can be spent on before calcFee fails on what is left. */
  ghost function Turns(left: Calc, v: nat): nat
    requires FeeRule(left) && v <= MAX_MONEY
    decreases v
  {
    if left(v).None? then 0 else 1 + Turns(left, left(v).value)
  }

  /** Between the turns at a fee of one satoshi more and those at the exact fee. */
  lemma {:induction false} TurnsBracket(left: Calc, v: nat)
    requires FeeRule(left) && v <= MAX_MONEY
    ensures v / (FEE + 1) <= Turns(left, v) <= v / FEE
    decreases v
  {
    if left(v).Some? {
      TurnsBracket(left, left(v).value);
      OneTurnLess(v, left(v).value);
    }
  }

  lemma OneTurnLess(v: nat, c: nat)
    requires Change(v, FEE, c)
    ensures v / (FEE + 1) <= c / (FEE + 1) + 1 && c / FEE + 1 <= v / FEE
  {
  }

  /** How many of the subtractions in a row, the last one that fails included, are not exact. */
  ghost function Lost(left: Calc, v: nat): nat
    requires FeeRule(left) && v <= MAX_MONEY
    decreases v
  {
    if v < FEE then 0
    else if left(v).None? then 1
    else (if left(v) == Some(v - FEE) then 0 else 1) + Lost(left, left(v).value)
  }

  /** The fees, the lost satoshi, and a rest below the fee. */
  lemma {:induction false} TurnsAddUp(left: Calc, v: nat)
    requires FeeRule(left) && v <= MAX_MONEY
    ensures 0 <= v - Turns(left, v) * FEE - Lost(left, v) < FEE
    decreases v
  {
    if left(v).Some? {
      TurnsAddUp(left, left(v).value);
    }
  }

  /** v pays for floor(v / fee) turns exactly when the rest of that division makes up for what is lost. */
  lemma TurnsExactly(left: Calc, v: nat)
    requires FeeRule(left) && v <= MAX_MONEY
    ensures Turns(left, v) == v / FEE <==> Lost(left, v) <= v % FEE
  {
    TurnsAddUp(left, v);
    TurnsBracket(left, v);
  }

  /** The condition can fail: 0.29 BTC can be spent 1449 times, one less than it holds fees. */
  lemma OneTurnLost(f: Float, left: Calc)
    requires Ieee(f) && CalcsAs(left, f) && FeeRule(left)
    ensures Turns(left, 29_000_000) == 1449 && 29_000_000 / FEE == 1450
  {
    OneSatoshiLost(f);
    assert left(29_000_000) == Left(f, 29_000_000) == Some(28_979_999);
    TurnsBracket(left, 28_979_999);
  }

  /** Each generation uses up one turn. */
  lemma {:induction false} GenerationTurns(w: Purse, id: bytes, g: nat, root: bytes)
    requires ChainInv(w) && Descends(w.chain, id, g, root) && root in w.chain
    ensures id in w.chain && Turns(w.left, w.chain[root].body.value) == g + Turns(w.left, w.chain[id].body.value)
    decreases g
  {
    if g > 0 {
      GenerationTurns(w, w.chain[id].body.spends, g - 1, root);
    }
  }

  /** Broadcast number j, counting from 0, finds an output that still has a turn; ts are those of the initial ones. */
  predicate Payable(ts: seq<nat>, j: nat)
    requires ts != []
  {
    j / |ts| < ts[j % |ts|]
  }

  /** How many broadcasts come before initial output i cannot pay. */
  function Bound(ts: seq<nat>, i: nat): nat
    requires i < |ts|
  {
    i + |ts| * ts[i]
  }

  /** The least bound from position `from` on. */
  function LifetimeFrom(ts: seq<nat>, from: nat): nat
    requires from < |ts|
    decreases |ts| - from
  {
    var here := Bound(ts, from);
    if from == |ts| - 1 then here
    else if here <= LifetimeFrom(ts, from + 1) then here else LifetimeFrom(ts, from + 1)
  }

  function Lifetime(ts: seq<nat>): nat
    requires ts != []
  {
    LifetimeFrom(ts, 0)
  }

  lemma {:induction false} LifetimeIsMin(ts: seq<nat>, from: nat)
    requires from < |ts|
    ensures forall i: nat | from <= i < |ts| :: LifetimeFrom(ts, from) <= Bound(ts, i)
    ensures exists i: nat | from <= i < |ts| :: LifetimeFrom(ts, from) == Bound(ts, i)
    decreases |ts| - from
  {
    if from == |ts| - 1 {
      assert LifetimeFrom(ts, from) == Bound(ts, from);
    } else {
      LifetimeIsMin(ts, from + 1);
      var j: nat :| from + 1 <= j < |ts| && LifetimeFrom(ts, from + 1) == Bound(ts, j);
      assert LifetimeFrom(ts, from) == Bound(ts, from) || LifetimeFrom(ts, from) == Bound(ts, j);
    }
  }

  /** More turns make a longer life. */
  lemma LifetimeMonotone(ts: seq<nat>, us: seq<nat>)
    requires |ts| == |us| && ts != [] && forall i: nat | i < |ts| :: ts[i] <= us[i]
    ensures Lifetime(ts) <= Lifetime(us)
  {
    LifetimeIsMin(us, 0);
    var i: nat :| i < |us| && LifetimeFrom(us, 0) == Bound(us, i);
    LifetimeIsMin(ts, 0);
    BoundMonotone(|ts|, ts[i], us[i]);
    assert Bound(ts, i) <= Bound(us, i);
  }

  lemma BoundMonotone(k: nat, a: nat, b: nat)
    requires a <= b
    ensures k * a <= k * b
  {
    assert k * (b - a) >= 0;
  }

  /** The j-th broadcast is payable exactly when j lies below the bound of its own output. */
  lemma PayableBelow(ts: seq<nat>, j: nat)
    requires ts != []
    ensures var i := j % |ts|; Payable(ts, j) <==> j < Bound(ts, i)
  {
    var k, g, t := |ts|, j / |ts|, ts[j % |ts|];
    assert j == j % k + k * g;
    if g < t {
      assert k * g < k * t by {
        assert k * (t - g) > 0;
      }
    } else {
      BoundMonotone(k, t, g);
    }
  }

  /** The first n broadcasts are all payable exactly when n does not exceed the lifetime. */
  lemma PayableUpToLifetime(ts: seq<nat>, n: nat)
    requires ts != []
    ensures (forall j: nat | j < n :: Payable(ts, j)) <==> n <= Lifetime(ts)
    ensures !Payable(ts, Lifetime(ts))
  {
    LifetimeIsMin(ts, 0);
    var i: nat :| i < |ts| && LifetimeFrom(ts, 0) == Bound(ts, i);
    DivModUnique(Lifetime(ts), |ts|, ts[i], i);
    PayableBelow(ts, Lifetime(ts));
    if n <= Lifetime(ts) {
      forall j: nat | j < n
        ensures Payable(ts, j)
      {
        PayableBelow(ts, j);
      }
    }
  }
}
