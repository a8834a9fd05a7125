/** The bound of Runs.FaultsAreAccounted cannot be improved. */
module FaultBound {
  import opened Base
  import opened OpReturn
  import opened Ledger
  import opened Protocol
  import opened Accounting
  import opened History
  import opened Runs
  import opened Bridge
  import opened Liveness
  import opened Progress
  import opened WalletLife

  /** n registrations have broadcast and then failed to save the shortened queue: the document is still q. */
  ghost predicate Drifted(s: State, start: Purse, n: nat) {
    && s.lock.None? && s.w.addr == start.addr && s.w.lost == n && n <= |start.mem|
    && s.w.doc == start.mem && s.w.mem == start.mem[n..] && |U(s.w)| == |start.mem|
    && (forall i | 0 <= i < n :: start.mem[i] !in U(s.w))
    && (forall i | n <= i < |start.mem| :: start.mem[i] in U(s.w))
  }

  /** The purse after a broadcast whose queue update is not saved. */
  ghost function Failing(w: Purse, body: RawTx, c: Choice): Purse
    requires Accepts(w, body, c) && w.mem != []
  {
    Sending(w, body, c).(mem := w.mem[1..], x := Utxo(c.send.id, w.x.addr), lost := w.lost + 1)
  }

  lemma FailingRun(s: State, t: nat, w: Purse, a: Anchor, body: RawTx, c: Choice) returns (steps: seq<Step>)
    requires t in s.threads && s.threads[t].pc == RegLock(a) && s.lock.None? && s.w.mem != []
    requires w == s.w.(x := s.w.mem[0]) && Buildable(w, s.cfg.cliNet, a, c) && Accepts(w, body, c) && c.send.Accepted?
    requires Body(w, a) == Some(body) && c.save.NotSaved?
    ensures At(s, Run(s, steps), t, Failing(w, body, c), Done(Failed))
  {
    steps := Pay(s, t, w, a, body, c);
    steps := ToDropped(s, t, steps, Sending(w, body, c), w.x, c.send.id, c);
  }

  lemma SwapSize(u: set<Utxo>, from: Utxo, next: Utxo)
    requires from in u && next !in u
    ensures |u - {from} + {next}| == |u|
  {
  }

  /** The spent head leaves the unspent outputs, and the new output is not one of the initial ones. */
  lemma FailingDrifts(s: State, s': State, start: Purse, n: nat, w: Purse, body: RawTx, c: Choice)
    requires Drifted(s, start, n) && n < |start.mem| && NoDup(start.mem) && Known(s.w, start.mem)
    requires w == s.w.(x := s.w.mem[0]) && Accepts(w, body, c) && body.addr == w.addr && body.spends == w.x.txid
    requires s'.lock.None? && s'.w == Failing(w, body, c)
    ensures Drifted(s', start, n + 1)
  {
    var u, next := U(s.w), Utxo(c.send.id, s.w.addr);
    assert w.x == start.mem[n];
    assert w.chain[body.spends].body.addr == w.addr;
    SendingUnspent(w, body, c);
    assert U(s'.w) == u - {w.x} + {next};
    SwapSize(u, w.x, next);
    forall i | 0 <= i < |start.mem|
      ensures start.mem[i] != next
    {
      assert start.mem[i] in start.mem;
    }
  }

  /** A registration at the mutex broadcasts and then fails to save. */
  lemma DriftFrom(s: State, t: nat, a: Anchor, id: bytes, start: Purse, n: nat) returns (steps: seq<Step>)
    requires Drifted(s, start, n) && n < |start.mem| && NoDup(start.mem) && Known(s.w, start.mem)
    requires CanPay(s, t, a, id)
    ensures Drifted(Run(s, steps), start, n + 1)
  {
    var w := s.w.(x := s.w.mem[0]);
    assert w.x == start.mem[n];
    NoObstacle(w, s.cfg.cliNet, a, id);
    var c, body := Willing(id).(save := NotSaved), Body(w, a).value;
    steps := FailingRun(s, t, w, a, body, c);
    FailingDrifts(s, Run(s, steps), start, n, w, body, c);
  }

  /** One more registration broadcasts and then fails to save. */
  lemma DriftOnce(s: State, start: Purse, n: nat) returns (steps: seq<Step>)
    requires Drifted(s, start, n) && n < |start.mem| && NoDup(start.mem) && Known(s.w, start.mem)
    requires s.cfg.net == s.cfg.cliNet && Ready(s.w)
    ensures Drifted(Run(s, steps), start, n + 1)
  {
    var t, a, arrive := Arrive(s, Register([], []));
    var id := FreshId(s.w.chain);
    var rest := DriftFrom(Run(s, arrive), t, a, id, start, n);
    RunConcat(s, arrive, rest);
    steps := arrive + rest;
  }

  lemma FundedDrifted(s: State)
    requires Init(s)
    ensures Drifted(s, s.w, 0) && Known(s.w, s.w.mem) && NoDup(s.w.mem)
  {
    FundedInv(s.w);
    StaleIsCardinality(U(s.w), s.w.mem);
    assert U(s.w) - Elems(s.w.mem) == {} && Elems(s.w.mem) - U(s.w) == {};
    assert forall i | 0 <= i < |s.w.mem| :: s.w.mem[i] in Elems(s.w.mem);
  }

  /** Every output of the initial queue can pay one fee. */
  ghost predicate EachPays(w: Purse) {
    forall u | u in w.mem :: u.txid in w.chain && w.left(w.chain[u.txid].body.value).Some?
  }

  lemma {:induction false} Drift(s: State, n: nat) returns (steps: seq<Step>)
    requires Init(s) && s.cfg.net == s.cfg.cliNet && EachPays(s.w) && n <= |s.w.mem|
    ensures Drifted(Run(s, steps), s.w, n)
  {
    if n == 0 {
      steps := [];
      FundedDrifted(s);
    } else {
      var before := Drift(s, n - 1);
      var s1 := Run(s, before);
      FundedDrifted(s);
      HistoryRun(s, before);
      LaterRun(s, before);
      CfgStays(s, before);
      KnownLater(s.w, s1.w, n - 1);
      var more := DriftOnce(s1, s.w, n - 1);
      RunConcat(s, before, more);
      steps := before + more;
    }
  }

  lemma KnownLater(start: Purse, w: Purse, n: nat)
    requires Known(start, start.mem) && EachPays(start) && Later(start, w)
    requires n < |start.mem| && w.mem == start.mem[n..]
    ensures Known(w, start.mem) && w.mem[0].txid in w.chain && w.left(w.chain[w.mem[0].txid].body.value).Some?
  {
    assert w.mem[0] == start.mem[n];
    assert start.mem[n] in start.mem;
  }

  lemma {:induction false} ElemsSize(q: seq<Utxo>)
    requires NoDup(q)
    ensures |Elems(q)| == |q|
  {
    StaleIsCardinality({}, q);
    StaleOfNone(q);
    assert Elems(q) - {} == Elems(q);
  }

  lemma {:induction false} StaleOfNone(q: seq<Utxo>)
    ensures Stale({}, q) == |q|
  {
    if q == [] {
    } else {
      StaleOfNone(q[..|q| - 1]);
    }
  }

  /** What a drifted document is off by. */
  lemma DriftedCounts(s: State, start: Purse, n: nat)
    requires Drifted(s, start, n) && NoDup(start.mem)
    ensures |U(s.w) - Elems(start.mem)| == n && |Elems(start.mem) - U(s.w)| == n
  {
    var q, u := start.mem, U(s.w);
    var front := q[..n];
    assert Elems(q) - u == Elems(front) by {
      forall v | v in Elems(q) - u
        ensures v in Elems(front)
      {
        var i :| 0 <= i < |q| && q[i] == v;
        assert i < n && front[i] == v;
      }
      forall v | v in Elems(front)
        ensures v in Elems(q) - u
      {
        var i :| 0 <= i < n && front[i] == v;
        assert q[i] == v;
      }
    }
    ElemsSize(front);
    StaleIsCardinality(u, q);
  }

  /**
    The bound is attained: for every k up to the length of the queue there is a run with k interrupted
    registrations after which both copies of the queue miss exactly k unspent outputs and list exactly
    k spent ones.
   */
  lemma BoundIsAttained(s: State, k: nat) returns (steps: seq<Step>)
    requires Init(s) && s.cfg.net == s.cfg.cliNet && EachPays(s.w) && k <= |s.w.mem|
    ensures var s' := Run(s, steps); var u, q := U(s'.w), s'.w.mem;
            && Interrupted(s') == k && s'.w.doc == q
            && |u - Elems(q)| == k && |Elems(q) - u| == k
  {
    steps := Drift(s, k);
    FundedDrifted(s);
    DriftedCounts(Run(s, steps), s.w, k);
    Extend(s, steps, Crash);
    steps := steps + [Crash];
  }
}
