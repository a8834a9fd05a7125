/** Value over whole runs: nothing is lost but fees, and the fees bound the number of broadcasts. */
module Conservation {
  import opened Base
  import opened Satoshi
  import opened Ledger
  import opened Protocol
  import opened Accounting
  import opened History

  /** The value of an output in units of `unit` satoshi, rounded down. */
  function Worth(chain: Chain, u: Utxo, unit: nat): nat
    requires unit > 0
  {
    if u.txid in chain then chain[u.txid].body.value / unit else 0
  }

  ghost function Sum(chain: Chain, us: set<Utxo>, unit: nat): nat
    requires unit > 0
  {
    if us == {} then 0
    else
      var u :| u in us;
      Worth(chain, u, unit) + Sum(chain, us - {u}, unit)
  }

  lemma {:induction false} SumTake(chain: Chain, us: set<Utxo>, x: Utxo, unit: nat)
    requires unit > 0 && x in us
    ensures Sum(chain, us, unit) == Worth(chain, x, unit) + Sum(chain, us - {x}, unit)
  {
    var u :| u in us && Sum(chain, us, unit) == Worth(chain, u, unit) + Sum(chain, us - {u}, unit);
    if u != x {
      SumTake(chain, us - {u}, x, unit);
      SumTake(chain, us - {x}, u, unit);
      assert us - {u} - {x} == us - {x} - {u};
    }
  }

  lemma {:induction false} SumFrame(chain: Chain, chain': Chain, us: set<Utxo>, unit: nat)
    requires unit > 0 && forall u | u in us :: Worth(chain', u, unit) == Worth(chain, u, unit)
    ensures Sum(chain', us, unit) == Sum(chain, us, unit)
  {
    if us == {} {
    } else {
      var u :| u in us && Sum(chain, us, unit) == Worth(chain, u, unit) + Sum(chain, us - {u}, unit);
      SumTake(chain', us, u, unit);
      SumFrame(chain, chain', us - {u}, unit);
    }
  }

  /** A broadcast trades the worth of the spent output for that of the new one. */
  lemma SumAfterSend(w: Purse, body: RawTx, c: Choice, unit: nat)
    requires unit > 0 && ChainInv(w) && Accepts(w, body, c) && body.addr == w.addr
    ensures var w' := Sending(w, body, c);
            Sum(w'.chain, U(w'), unit) + w.chain[body.spends].body.value / unit
                == Sum(w.chain, U(w), unit) + body.value / unit
  {
    var w' := Sending(w, body, c);
    var from, next := Utxo(body.spends, w.addr), Utxo(c.send.id, w.addr);
    SendingUnspent(w, body, c);
    SumTake(w.chain, U(w), from, unit);
    SumTake(w'.chain, U(w'), next, unit);
    assert U(w') - {next} == U(w) - {from};
    forall u | u in U(w) - {from}
      ensures Worth(w'.chain, u, unit) == Worth(w.chain, u, unit)
    {
      assert u.txid in w.chain && u.txid != c.send.id;
    }
    SumFrame(w.chain, w'.chain, U(w) - {from}, unit);
  }

  ghost function Total(w: Purse): nat {
    Sum(w.chain, U(w), 1)
  }

  /** How many more fees the unspent outputs can pay, each on its own. */
  ghost function Potential(w: Purse): nat {
    Sum(w.chain, U(w), FEE)
  }

  lemma DivByFee(v: nat, c: nat)
    requires Change(v, FEE, c)
    ensures c / FEE <= v / FEE - 1
  {
  }

  ghost predicate Conserved(w: Purse, total: nat, potential: nat) {
    Total(w) + w.fees == total && w.sends + Potential(w) <= potential
  }

  lemma SendConserves(w: Purse, body: RawTx, c: Choice, total: nat, potential: nat)
    requires Conserved(w, total, potential) && ChainInv(w) && Accepts(w, body, c) && body.addr == w.addr
    requires Paid(w, body)
    ensures Conserved(Sending(w, body, c), total, potential)
  {
    SumAfterSend(w, body, c, 1);
    SumAfterSend(w, body, c, FEE);
    DivByFee(w.chain[body.spends].body.value, body.value);
  }

  lemma SameSums(w: Purse, w': Purse, total: nat, potential: nat)
    requires Conserved(w, total, potential)
    requires w'.chain == w.chain && w'.addr == w.addr && w'.sends == w.sends && w'.fees == w.fees
    ensures Conserved(w', total, potential)
  {
  }

  lemma ConfirmConserves(w: Purse, id: bytes, more: nat, total: nat, potential: nat)
    requires Conserved(w, total, potential)
    ensures Conserved(Confirm(w, id, more), total, potential)
  {
    var w' := Confirm(w, id, more);
    ConfirmUnspent(w, id, more);
    SumFrame(w.chain, w'.chain, U(w), 1);
    SumFrame(w.chain, w'.chain, U(w), FEE);
  }

  lemma ConservedStep(s: State, st: Step, total: nat, potential: nat)
    requires Inv(s) && HistoryInv(s) && Conserved(s.w, total, potential)
    ensures Conserved(Next(s, st).w, total, potential)
  {
    match st
    case Spawn(_, _) =>
    case Crash => SameSums(s.w, Next(s, st).w, total, potential);
    case Mine(id, more) => ConfirmConserves(s.w, id, more, total, potential);
    case Act(t, c) =>
      if t in s.threads {
        var pc := s.threads[t].pc;
        if pc.RegSend? && Accepts(s.w, pc.body, c) {
          assert Owner(s) == pc;
          assert s.w.x in s.w.mem;
          SendConserves(s.w, pc.body, c, total, potential);
          SendHistory(s, t, c);
          SameSums(Sending(s.w, pc.body, c), Next(s, st).w, total, potential);
        } else {
          QuietHistory(s, t, c);
          SameSums(s.w, Next(s, st).w, total, potential);
        }
      }
  }

  /**
    In every reachable state, crashes and faults included, the unspent value and the fees paid add up
    to the initial value, and no more broadcasts have happened than the initial outputs can pay for.
   */
  lemma ValueIsConserved(s: State, steps: seq<Step>)
    requires Init(s)
    ensures var w := Run(s, steps).w; Total(w) + w.fees == Total(s.w)
    ensures var w := Run(s, steps).w; w.sends + Potential(w) <= Potential(s.w)
    ensures var w := Run(s, steps).w; w.sends * FEE <= w.fees <= w.sends * (FEE + 1)
  {
    ConservedRun(s, steps);
    FeesRun(s, steps);
  }

  lemma {:induction false} ConservedRun(s: State, steps: seq<Step>)
    requires Init(s)
    ensures Conserved(Run(s, steps).w, Total(s.w), Potential(s.w))
  {
    if steps == [] {
    } else {
      var init := steps[..|steps| - 1];
      ConservedRun(s, init);
      InvRun(s, init);
      HistoryRun(s, init);
      ConservedStep(Run(s, init), steps[|steps| - 1], Total(s.w), Potential(s.w));
    }
  }

  ghost predicate FeesPerSend(w: Purse) {
    w.sends * FEE <= w.fees <= w.sends * (FEE + 1)
  }

  lemma FeesSend(w: Purse, body: RawTx, c: Choice)
    requires FeesPerSend(w) && Accepts(w, body, c) && Paid(w, body)
    ensures FeesPerSend(Sending(w, body, c))
  {
  }

  lemma FeesStep(s: State, st: Step)
    requires Inv(s) && HistoryInv(s) && FeesPerSend(s.w)
    ensures FeesPerSend(Next(s, st).w)
  {
    if st.Act? && st.t in s.threads {
      var pc := s.threads[st.t].pc;
      if pc.RegSend? && Accepts(s.w, pc.body, st.c) {
        assert Owner(s) == pc;
        SendHistory(s, st.t, st.c);
        SendPaid(s.w, U(s.w), pc);
        FeesSend(s.w, pc.body, st.c);
      } else {
        QuietHistory(s, st.t, st.c);
      }
    }
  }

  lemma {:induction false} FeesRun(s: State, steps: seq<Step>)
    requires Init(s)
    ensures FeesPerSend(Run(s, steps).w)
  {
    if steps == [] {
    } else {
      var init := steps[..|steps| - 1];
      FeesRun(s, init);
      InvRun(s, init);
      HistoryRun(s, init);
      FeesStep(Run(s, init), steps[|steps| - 1]);
    }
  }

  /** id is the g-th generation after root: g broadcasts, each spending the one before. */
  ghost predicate Descends(chain: Chain, id: bytes, g: nat, root: bytes)
    decreases g
  {
    if g == 0 then id == root
    else id in chain && chain[id].own && Descends(chain, chain[id].body.spends, g - 1, root)
  }

  lemma {:induction false} DescendsGrows(chain: Chain, chain': Chain, id: bytes, g: nat, root: bytes)
    requires Descends(chain, id, g, root) && Extends(chain, chain')
    ensures Descends(chain', id, g, root)
    decreases g
  {
    if g > 0 {
      DescendsGrows(chain, chain', chain[id].body.spends, g - 1, root);
    }
  }

  /** Each generation costs the fee, and at most one satoshi more. */
  lemma {:induction false} GenerationValue(w: Purse, id: bytes, g: nat, root: bytes)
    requires ChainInv(w) && Descends(w.chain, id, g, root) && root in w.chain
    ensures id in w.chain
    ensures var v0, v := w.chain[root].body.value, w.chain[id].body.value;
            v0 - g * (FEE + 1) <= v <= v0 - g * FEE
    decreases g
  {
    if g > 0 {
      GenerationValue(w, w.chain[id].body.spends, g - 1, root);
      assert g * (FEE + 1) == (g - 1) * (FEE + 1) + (FEE + 1) && g * FEE == (g - 1) * FEE + FEE;
    }
  }
}
