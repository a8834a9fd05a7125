/** Runs that can be made: a registration goes through whenever the head of the queue can pay. */
module Progress {
  import opened Base
  import opened OpReturn
  import opened Ledger
  import opened BitcoinCli
  import opened Protocol
  import opened Accounting
  import opened Bridge
  import opened RoundRobin
  import Store

  lemma {:induction false} CfgStays(s: State, steps: seq<Step>)
    ensures Run(s, steps).cfg == s.cfg
  {
    if steps == [] {
    } else {
      CfgStays(s, steps[..|steps| - 1]);
    }
  }

  // New thread names and transaction ids.

  lemma {:induction false} Above(ns: set<nat>) returns (n: nat)
    ensures n > 0 && forall x | x in ns :: x < n
  {
    if ns == {} {
      n := 1;
    } else {
      var x :| x in ns;
      var m := Above(ns - {x});
      n := if m <= x then x + 1 else m;
      assert forall y | y in ns :: y == x || y in ns - {x};
    }
  }

  /** There is always another transaction id, which also does as a serialisation. */
  lemma FreshId(chain: Chain) returns (id: bytes)
    ensures Fresh(chain, id) && Unseen(chain, id)
  {
    var lengths := (set i | i in chain :: |i|) + (set i | i in chain :: |chain[i].body.spends|)
                   + (set i | i in chain :: |chain[i].raw|);
    var n := Above(lengths);
    id := seq(n, i => 0);
    forall i | i in chain
      ensures |i| < n && |chain[i].body.spends| < n && |chain[i].raw| < n
    {
      assert |i| in lengths && |chain[i].body.spends| in lengths && |chain[i].raw| in lengths;
    }
  }

  /** A new request reaches the mutex: a registration, or a POST for an absent key. */
  lemma Arrive(s: State, req: Request) returns (t: nat, a: Anchor, steps: seq<Step>)
    requires req.Register? || (req.Post? && Store.Cid(req.dom, req.tx) !in s.coll)
    ensures AllClean(steps) && t !in s.threads && a == AnchorFor(s.cfg, req, a.time)
    ensures Run(s, steps) == s.(threads := s.threads[t := Thread(req, RegLock(a), None, req.Post?)])
  {
    t := Above(s.threads.Keys);
    assert t !in s.threads;
    var c := Choice(true, Time(0, 0), Refused, [], Saved);
    a := AnchorFor(s.cfg, req, c.now);
    steps := [Spawn(t, req), Act(t, c)];
    Extend(s, [], Spawn(t, req));
    Extend(s, [Spawn(t, req)], Act(t, c));
  }

  // A registration without obstacles.

  /** The front of q is an unspent output that can pay a fee. */
  ghost predicate Live(w: Purse, q: seq<Utxo>) {
    q != [] && q[0] in U(w) && w.left(w.chain[q[0].txid].body.value).Some?
  }

  /** A registration finds a head that can pay. */
  ghost predicate Ready(w: Purse) {
    FeeRule(w.left) && Bounded(w.chain) && Live(w, w.mem)
  }

  /** What the wallet and the ledger are after a success. */
  ghost function Renewed(w: Purse, id: bytes, a: Anchor): Purse
    requires Ready(w)
  {
    var from := w.mem[0];
    var value := w.chain[from.txid].body.value;
    var change := w.left(value).value;
    var q := w.mem[1..] + [Utxo(id, from.addr)];
    var body := RawTx(from.txid, w.chain[from.txid].index, from.addr, change, Encode(a));
    w.(chain := w.chain[id := Tx(body, id, true, 0, 0, 0)], mem := q, doc := q, x := Utxo(id, from.addr),
       sends := w.sends + 1, fees := w.fees + (value - change))
  }

  /** The choices of a step that meets no obstacle. */
  function Willing(id: bytes): Choice {
    Choice(true, Time(0, 0), Accepted(id, 0), id, Saved)
  }

  lemma NoObstacle(w: Purse, cliNet: byte, a: Anchor, id: bytes)
    requires Live(w, [w.x]) && FeeRule(w.left) && Bounded(w.chain) && a.net == cliNet
    requires Fresh(w.chain, id) && Unseen(w.chain, id)
    ensures Buildable(w, cliNet, a, Willing(id)) && Accepts(w, Body(w, a).value, Willing(id))
  {
  }

  lemma PaidIsRenewed(w: Purse, x: Utxo, id: bytes, a: Anchor)
    requires Ready(w) && x == w.mem[0] && Body(w.(x := x), a).Some?
    requires Accepts(w.(x := x), Body(w.(x := x), a).value, Willing(id))
    ensures var q := w.mem[1..] + [Utxo(id, x.addr)];
            Renewed(w, id, a)
            == Sending(w.(x := x), Body(w.(x := x), a).value, Willing(id)).(mem := q, doc := q, x := Utxo(id, x.addr))
  {
  }

  /** Up to the broadcast, for any choices that meet no obstacle. */
  lemma Pay(s: State, t: nat, w: Purse, a: Anchor, body: RawTx, c: Choice) returns (steps: seq<Step>)
    requires t in s.threads && s.threads[t].pc == RegLock(a) && s.lock.None? && s.w.mem != []
    requires w == s.w.(x := s.w.mem[0]) && Buildable(w, s.cfg.cliNet, a, c) && Accepts(w, body, c) && c.send.Accepted?
    requires Body(w, a) == Some(body)
    ensures steps == [Act(t, c), Act(t, c), Act(t, c), Act(t, c), Act(t, c)]
    ensures At(s, Run(s, steps), t, Sending(w, body, c), RegSent(w.x, c.send.id))
  {
    steps := ToRead(s, t, a, c);
    steps := ToSent(s, t, steps, w, a, body, c);
  }

  /** The wallet update when both saves work. */
  lemma Finish(s: State, t: nat, steps: seq<Step>, w: Purse, from: Utxo, id: bytes,
    c: Choice) returns (steps': seq<Step>)
    requires At(s, Run(s, steps), t, w, RegSent(from, id)) && w.mem != [] && c.save.Saved?
    ensures steps' == steps + [Act(t, c), Act(t, c), Act(t, c), Act(t, c), Act(t, c)]
    ensures var q := w.mem[1..] + [Utxo(id, w.x.addr)];
            At(s, Run(s, steps'), t, w.(mem := q, doc := q, x := Utxo(id, w.x.addr)), Finished(s, t, id))
  {
    steps' := ToDropped(s, t, steps, w, from, id, c);
    steps' := ToQueued(s, t, steps', Dropped(w, from, id, c.save).w, from, id, c);
  }

  /** The mutex is free, t is next to take it, and the head of the queue can pay. */
  ghost predicate CanPay(s: State, t: nat, a: Anchor, id: bytes) {
    && t in s.threads && s.threads[t].pc == RegLock(a) && s.lock.None? && a.net == s.cfg.cliNet
    && Ready(s.w) && Fresh(s.w.chain, id) && Unseen(s.w.chain, id)
  }

  /** With a head that can pay and a node that accepts, a registration goes through. */
  lemma GoesThrough(s: State, t: nat, a: Anchor, id: bytes) returns (steps: seq<Step>)
    requires CanPay(s, t, a, id)
    ensures AllClean(steps)
    ensures At(s, Run(s, steps), t, Renewed(s.w, id, a), Finished(s, t, id))
  {
    var w := s.w.(x := s.w.mem[0]);
    NoObstacle(w, s.cfg.cliNet, a, id);
    var body := Body(w, a).value;
    steps := Pay(s, t, w, a, body, Willing(id));
    steps := Finish(s, t, steps, Sending(w, body, Willing(id)), w.x, id, Willing(id));
    PaidIsRenewed(s.w, w.x, id, a);
  }
}
