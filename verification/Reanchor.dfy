/** A pair that is stored is not anchored again, up to the race of POSTs that checked before. */
module Reanchor {
  import opened Base
  import opened OpReturn
  import opened Ledger
  import opened Store
  import opened Protocol
  import opened Accounting
  import opened History
  import opened Index
  import opened BitcoinCli
  import opened Bridge
  import opened Progress
  import opened StoreBridge
  import opened RoundRobin
  import opened WalletLife

  /** th handles a POST whose ids form this key. */
  predicate PostFor(th: Thread, key: string) {
    th.req.Post? && Cid(th.req.dom, th.req.tx) == key
  }

  /** The existence check of a POST does not fail for a key that is present. */
  ghost predicate Reliable(s: State, st: Step) {
    && st.Act? && st.t in s.threads && s.threads[st.t].pc.Start? && s.threads[st.t].req.Post?
    && Cid(s.threads[st.t].req.dom, s.threads[st.t].req.tx) in s.coll
    ==> st.c.ok
  }

  ghost predicate AllReliable(s: State, steps: seq<Step>) {
    forall i | 0 <= i < |steps| :: Reliable(Run(s, steps[..i]), steps[i])
  }

  /** The threads whose POST for key found it absent, and those that have broadcast. */
  ghost function Checked(s: State, key: string): set<nat> {
    set t | t in s.threads && PostFor(s.threads[t], key) && s.threads[t].missing
  }

  ghost function Broadcasters(s: State, key: string): set<nat> {
    set t | t in s.threads && PostFor(s.threads[t], key) && s.threads[t].sent.Some?
  }

  /** Only a POST that found its key absent gets as far as the mutex. */
  ghost predicate PostOk(th: Thread) {
    th.req.Post? && (th.pc.RegLock? || InRegister(th.pc) || th.sent.Some?) ==> th.missing
  }

  ghost predicate PostsOk(s: State) {
    forall t | t in s.threads :: PostOk(s.threads[t])
  }

  lemma LocalPost(cfg: Config, l: Local, c: Choice)
    requires PostOk(l.th)
    requires l.th.pc.Start? && l.th.req.Post? && Cid(l.th.req.dom, l.th.req.tx) in l.coll ==> c.ok
    ensures var l' := LocalStep(cfg, l, c);
            && PostOk(l'.th) && l'.th.req == l.th.req
            && (l'.th.missing && !l.th.missing ==> l.th.req.Post? && Cid(l.th.req.dom, l.th.req.tx) !in l.coll)
            && (l.th.sent.Some? ==> l'.th.sent.Some?)
            && (l.th.missing && !l.th.pc.Start? ==> l'.th.missing)
  {
    if !InRegister(l.th.pc) && !l.th.pc.Start? && !l.th.pc.RegLock? {
      StoreStaysOutside(l.w.chain, l.coll, l.th.req, l.th.pc, c);
      NotBack(l.w.chain, l.coll, l.th.req, l.th.pc, c);
    }
  }

  lemma NotBack(chain: Chain, coll: Coll, req: Request, pc: Pc, c: Choice)
    requires !pc.RegLock?
    ensures !StoreStep(chain, coll, req, pc, c).pc.RegLock?
  {
    if req.Refresh? {
      assert !RefreshStep(coll, req, pc, c).pc.RegLock?;
    }
  }

  lemma PostsStep(s: State, st: Step)
    requires PostsOk(s) && Reliable(s, st)
    ensures PostsOk(Next(s, st))
  {
    if st.Act? && st.t in s.threads {
      LocalPost(s.cfg, Local(s.w, s.coll, s.threads[st.t]), st.c);
    }
  }

  /** No POST for a key that is already stored joins those that found it absent. */
  lemma CheckedStep(s: State, st: Step, key: string)
    requires PostsOk(s) && Reliable(s, st) && key in s.coll
    ensures Checked(Next(s, st), key) <= Checked(s, key)
  {
    if st.Act? && st.t in s.threads {
      LocalPost(s.cfg, Local(s.w, s.coll, s.threads[st.t]), st.c);
    }
  }

  lemma ReliablePrefix(s: State, steps: seq<Step>)
    requires steps != [] && AllReliable(s, steps)
    ensures AllReliable(s, steps[..|steps| - 1]) && Reliable(Run(s, steps[..|steps| - 1]), steps[|steps| - 1])
  {
    var init := steps[..|steps| - 1];
    forall i | 0 <= i < |init|
      ensures Reliable(Run(s, init[..i]), init[i])
    {
      assert init[..i] == steps[..i];
      assert Reliable(Run(s, steps[..i]), steps[i]);
    }
    assert Reliable(Run(s, steps[..|steps| - 1]), steps[|steps| - 1]);
  }

  lemma {:induction false} PostsRun(s: State, steps: seq<Step>)
    requires Init(s) && AllReliable(s, steps)
    ensures PostsOk(Run(s, steps))
  {
    if steps == [] {
    } else {
      ReliablePrefix(s, steps);
      PostsRun(s, steps[..|steps| - 1]);
      PostsStep(Run(s, steps[..|steps| - 1]), steps[|steps| - 1]);
    }
  }

  lemma {:induction false} CheckedRun(s: State, more: seq<Step>, key: string)
    requires Reached(s) && PostsOk(s) && AllReliable(s, more) && key in s.coll
    ensures PostsOk(Run(s, more)) && Checked(Run(s, more), key) <= Checked(s, key)
  {
    if more == [] {
    } else {
      var init := more[..|more| - 1];
      ReliablePrefix(s, more);
      CheckedRun(s, init, key);
      KeysStay(s, init);
      PostsStep(Run(s, init), more[|more| - 1]);
      CheckedStep(Run(s, init), more[|more| - 1], key);
    }
  }

  lemma {:induction false} Fewer(a: set<nat>, b: set<nat>)
    requires a <= b
    ensures |a| <= |b|
  {
    if a == {} {
    } else {
      var x :| x in a;
      Fewer(a - {x}, b - {x});
    }
  }

  /**
    No re-anchoring: from the moment a key is stored, every POST for it that has broadcast or ever
    will is one that had found it absent by then; so the broadcasts number at most those POSTs.
   */
  lemma NoReanchoring(s: State, steps: seq<Step>, more: seq<Step>, key: string)
    requires Init(s) && AllReliable(s, steps) && AllReliable(Run(s, steps), more) && key in Run(s, steps).coll
    ensures var s1, s2 := Run(s, steps), Run(Run(s, steps), more);
            Broadcasters(s2, key) <= Checked(s1, key) && |Broadcasters(s2, key)| <= |Checked(s1, key)|
  {
    var s1, s2 := Run(s, steps), Run(Run(s, steps), more);
    PostsRun(s, steps);
    ReachedRun(s, steps);
    CheckedRun(s1, more, key);
    assert Broadcasters(s2, key) <= Checked(s2, key);
    Fewer(Broadcasters(s2, key), Checked(s1, key));
  }

  ghost predicate NotYetChecked(s: State) {
    forall t | t in s.threads && s.threads[t].pc.Start? :: !s.threads[t].missing
  }

  lemma NotYetStep(s: State, st: Step)
    requires NotYetChecked(s)
    ensures NotYetChecked(Next(s, st))
  {
    if st.Act? && st.t in s.threads {
      NeverStart(s.cfg, Local(s.w, s.coll, s.threads[st.t]), st.c);
    }
  }

  lemma NeverStart(cfg: Config, l: Local, c: Choice)
    ensures LocalStep(cfg, l, c).th.pc.Start? ==> LocalStep(cfg, l, c).th == l.th
  {
    if l.th.req.Refresh? {
      assert RefreshStep(l.coll, l.th.req, l.th.pc, c).pc.Start? ==> l.th.pc.Start?;
    }
  }

  lemma {:induction false} NotYetRun(s: State, steps: seq<Step>)
    requires Init(s)
    ensures NotYetChecked(Run(s, steps))
  {
    if steps == [] {
    } else {
      NotYetRun(s, steps[..|steps| - 1]);
      NotYetStep(Run(s, steps[..|steps| - 1]), steps[|steps| - 1]);
    }
  }

  /** A POST that has not made its check when the key is stored never broadcasts. */
  lemma LateCheckNeverBroadcasts(s: State, steps: seq<Step>, more: seq<Step>, t: nat)
    requires Init(s) && AllReliable(s, steps) && AllReliable(Run(s, steps), more)
    requires var s1, s2 := Run(s, steps), Run(Run(s, steps), more);
             && (t in s1.threads ==> s1.threads[t].pc.Start?)
             && t in s2.threads && s2.threads[t].req.Post?
             && Cid(s2.threads[t].req.dom, s2.threads[t].req.tx) in s1.coll
    ensures Run(Run(s, steps), more).threads[t].sent.None?
  {
    var s1, s2 := Run(s, steps), Run(Run(s, steps), more);
    var key := Cid(s2.threads[t].req.dom, s2.threads[t].req.tx);
    NotYetRun(s, steps);
    NoReanchoring(s, steps, more, key);
    assert t !in Checked(s1, key);
    assert s2.threads[t].sent.Some? ==> t in Broadcasters(s2, key);
  }

  // The race is real: the bound on the broadcasts cannot be improved.

  /** n POSTs of one pair have checked and broadcast, and none has stored. */
  ghost predicate Racing(s: State, n: nat, dom: bytes, tx: bytes) {
    && s.lock.None? && s.coll == map[] && s.w.sends == n && |s.threads| == n
    && forall t | t in s.threads :: Racer(s.threads[t], dom, tx)
  }

  ghost predicate Racer(th: Thread, dom: bytes, tx: bytes) {
    th.req == Post(dom, tx) && th.missing && th.sent.Some? && th.pc.StoLock?
  }

  /** One more POST of the pair checks and broadcasts, and stops before it stores. */
  lemma OneMoreRacer(s: State, steps: seq<Step>, n: nat, dom: bytes, tx: bytes) returns (steps': seq<Step>)
    requires Init(s) && s.w.mem != [] && s.cfg.net == s.cfg.cliNet && AllClean(steps)
    requires Racing(Run(s, steps), n, dom, tx) && n < Lifetime(Funds(s.w))
    ensures AllClean(steps') && Racing(Run(s, steps'), n + 1, dom, tx)
  {
    var more, t, a, id := OneMoreRequest(s, steps, Post(dom, tx));
    steps' := steps + more;
    PostSent(s, steps', t);
    NewRacer(Run(s, steps), Run(s, steps'), t, n, dom, tx);
  }

  lemma PostSent(s: State, steps: seq<Step>, t: nat)
    requires Init(s)
    requires var th := Run(s, steps).threads; t in th && th[t].req.Post? && th[t].pc.StoLock?
    ensures Run(s, steps).threads[t].sent.Some?
  {
    HistoryRun(s, steps);
    var s' := Run(s, steps);
    assert ThreadOk(s'.cfg, s'.w.chain, s'.threads[t]);
  }

  lemma NewRacer(s1: State, s3: State, t: nat, n: nat, dom: bytes, tx: bytes)
    requires Racing(s1, n, dom, tx) && t !in s1.threads
    requires s3.lock.None? && s3.coll == map[] && s3.w.sends == s1.w.sends + 1
    requires t in s3.threads && s3.threads == s1.threads[t := s3.threads[t]] && Racer(s3.threads[t], dom, tx)
    ensures Racing(s3, n + 1, dom, tx)
  {
    assert s3.threads.Keys == s1.threads.Keys + {t};
    assert |s3.threads.Keys| == n + 1;
  }

  lemma {:induction false} Race(s: State, n: nat, dom: bytes, tx: bytes) returns (steps: seq<Step>)
    requires Init(s) && s.w.mem != [] && s.cfg.net == s.cfg.cliNet && n <= Lifetime(Funds(s.w))
    ensures AllClean(steps) && Racing(Run(s, steps), n, dom, tx)
  {
    if n == 0 {
      steps := [];
    } else {
      steps := Race(s, n - 1, dom, tx);
      steps := OneMoreRacer(s, steps, n - 1, dom, tx);
    }
  }

  lemma RacersCount(s: State, n: nat, dom: bytes, tx: bytes)
    requires Racing(s, n, dom, tx)
    ensures Broadcasters(s, Cid(dom, tx)) == Checked(s, Cid(dom, tx)) == s.threads.Keys
    ensures |Broadcasters(s, Cid(dom, tx))| == n
  {
    assert |s.threads.Keys| == |s.threads|;
  }

  /** The step that stores keeps who has checked and who has broadcast. */
  lemma StoringCounts(s: State, s': State, t: nat, pc: Pc, key: string)
    requires Stands(s, s', t, pc, s'.coll)
    ensures Broadcasters(s', key) == Broadcasters(s, key) && Checked(s', key) == Checked(s, key)
  {
  }

  /** What a racer has broadcast is the anchor of its pair. */
  lemma RacerRecord(s: State, steps: seq<Step>, t: nat, dom: bytes, tx: bytes)
    requires Init(s) && ValidVersion(s.cfg.version) && ValidNet(s.cfg.net)
    requires t in Run(s, steps).threads && Racer(Run(s, steps).threads[t], dom, tx)
    ensures var s1 := Run(s, steps);
            var rec := RecordOf(s1.w.chain, s1.threads[t].pc.btctx);
            rec.Some? && rec.value.anchor.dom == Pad32(dom) && rec.value.anchor.tx == Pad32(tx)
  {
    HistoryRun(s, steps);
    CfgStays(s, steps);
    var s1 := Run(s, steps);
    assert ThreadOk(s1.cfg, s1.w.chain, s1.threads[t]);
    DecodeEncode(s1.threads[t].sent.value.a);
  }

  /** A racer that goes on stores the pair. */
  lemma RacerStores(s: State, t: nat, dom: bytes, tx: bytes) returns (steps: seq<Step>)
    requires t in s.threads && Racer(s.threads[t], dom, tx) && s.lock.None? && Findable(dom, tx)
    requires var rec := RecordOf(s.w.chain, s.threads[t].pc.btctx);
             rec.Some? && rec.value.anchor.dom == Pad32(dom) && rec.value.anchor.tx == Pad32(tx)
    ensures var s', key := Run(s, steps), Cid(dom, tx);
            && key in s'.coll && s'.w == s.w
            && Broadcasters(s', key) == Broadcasters(s, key) && Checked(s', key) == Checked(s, key)
  {
    FoundUnderRawKey(dom, tx);
    steps := StoreAlone(s, t, s.threads[t].pc.btctx, GetOracle(true, true, true), Saved);
    StoringCounts(s, Run(s, steps), t, Reply, Cid(dom, tx));
  }

  /**
    For every n from 1 up to the lifetime of the wallet some run without faults lets n POSTs of one
    findable pair check first and all broadcast, and then stores the pair.
   */
  lemma PostsRace(s: State, n: nat, dom: bytes, tx: bytes) returns (steps: seq<Step>)
    requires Init(s) && s.w.mem != [] && s.cfg.net == s.cfg.cliNet && 1 <= n <= Lifetime(Funds(s.w))
    requires ValidVersion(s.cfg.version) && ValidNet(s.cfg.net) && Findable(dom, tx)
    ensures var s', key := Run(s, steps), Cid(dom, tx);
            && key in s'.coll && s'.w.sends == n
            && Broadcasters(s', key) == Checked(s', key) && |Broadcasters(s', key)| == n
  {
    var race := Race(s, n, dom, tx);
    var s1 := Run(s, race);
    RacersCount(s1, n, dom, tx);
    assert |s1.threads.Keys| == n;
    var t :| t in s1.threads.Keys;
    RacerRecord(s, race, t, dom, tx);
    var store := RacerStores(s1, t, dom, tx);
    RunConcat(s, race, store);
    steps := race + store;
  }
}
