/** Package gw: GatewayImpl. The mutex and interleavings are in module Protocol; here one call runs alone. */
module Gateway {
  import opened Base
  import opened OpReturn
  import opened Satoshi
  import opened Ledger
  import opened BitcoinCli
  import opened Store
  import W = Wallet

  /** How the foreign calls and saves of one RegisterTransaction turn out. */
  datatype RegisterOracle = RegisterOracle(put: PutOracle, next: Save, add: Save, spare: nat)

  /** The node, the adapter's current UTXO, and the wallet if there is one. */
  datatype State = State(node: Node, x: Utxo, wallet: Option<W.State>)

  datatype Registered = Registered(s: State, txid: Option<bytes>)

  /** RegisterTransaction for the anchor a. */
  function Register(f: Float, cliNet: byte, s: State, a: Anchor, o: RegisterOracle): Registered {
    if s.wallet.Some? && s.wallet.value.q == [] then Registered(s, None)
    else
      var x := if s.wallet.Some? then s.wallet.value.q[0] else s.x;
      var p := Put(f, cliNet, s.node, x, a, o.put);
      var s1 := s.(node := p.node, x := p.x);
      if p.txid.None? || s.wallet.None? then Registered(s1, p.txid)
      else
        var w := UpdateWallet(s.wallet.value, p.x, o);
        Registered(s1.(wallet := Some(w.0)), if w.1 then p.txid else None)
  }

  /** Drop the spent head and queue the new output x, saving after each; false when a save failed. */
  function UpdateWallet(w: W.State, x: Utxo, o: RegisterOracle): (W.State, bool) {
    var w1 := W.Apply(w, W.Next(o.next));
    if w.q == [] || !o.next.Saved? then (w1, false) else (W.Apply(w1, W.Add(x, o.add)), o.add.Saved?)
  }

  /** How one RefreshRecord turns out. */
  datatype RefreshOracle = RefreshOracle(read: bool, get: GetOracle, confs: Save, name: Save, note: Save)

  /** GetAnchor works, and the ledger holds an anchor under id. */
  predicate GotRecord(chain: Chain, id: bytes, get: GetOracle) {
    get.up && get.got && get.decoded && RecordOf(chain, id).Some?
  }

  /** What RefreshRecord leaves of the collection, and whether it succeeds. */
  function Refreshed(chain: Chain, coll: Coll, key: string, domName: Option<string>, note: Option<string>,
                     o: RefreshOracle): (Coll, bool)
  {
    if !o.read || key !in coll || !GotRecord(chain, coll[key].btctx, o.get) then (coll, false)
    else
      var c1 := UpdateAt(coll, key, Mods(Some(chain[coll[key].btctx].confs), None, None), o.confs);
      if !o.confs.Saved? then (c1, false)
      else
        var c2 := if domName.Some? then UpdateAt(c1, key, Mods(None, domName, None), o.name) else c1;
        if domName.Some? && !o.name.Saved? then (c2, false)
        else
          (if note.Some? then UpdateAt(c2, key, Mods(None, None, note), o.note) else c2, note.Some? ==> o.note.Saved?)
  }

  /** Exactly which fields of which entity each outcome changes, and exactly when a refresh succeeds. */
  lemma RefreshedFields(chain: Chain, coll: Coll, key: string, domName: Option<string>, note: Option<string>,
                        o: RefreshOracle)
    ensures var coll' := Refreshed(chain, coll, key, domName, note, o).0;
            coll'.Keys == coll.Keys && forall k | k in coll && k != key :: coll'[k] == coll[k]
    ensures key in coll ==>
              var e, e' := coll[key], Refreshed(chain, coll, key, domName, note, o).0[key];
              var read := o.read && GotRecord(chain, e.btctx, o.get);
              && e' == e.(confs := e'.confs, domName := e'.domName, note := e'.note)
              && e'.confs == (if read && !o.confs.NotSaved? then chain[e.btctx].confs else e.confs)
              && e'.domName == (if read && o.confs.Saved? && domName.Some? && !o.name.NotSaved? then domName.value
                                else e.domName)
              && e'.note == (if read && o.confs.Saved? && (domName.Some? ==> o.name.Saved?) && note.Some?
                                && !o.note.NotSaved? then note.value
                             else e.note)
    ensures Refreshed(chain, coll, key, domName, note, o).1
            <==> && key in coll && o.read && GotRecord(chain, coll[key].btctx, o.get)
                 && o.confs.Saved? && (domName.Some? ==> o.name.Saved?) && (note.Some? ==> o.note.Saved?)
  {
  }

  class GatewayImpl {
    const net: byte
    const version: byte
    const cli: BitcoinCLI
    const wallet: W.DocstoreWallet?
    const store: Docstore

    constructor (net: byte, version: byte, cli: BitcoinCLI, wallet: W.DocstoreWallet?, store: Docstore)
      ensures this.net == net && this.version == version && this.cli == cli && this.wallet == wallet
              && this.store == store
    {
      this.net, this.version, this.cli, this.wallet, this.store := net, version, cli, wallet, store;
    }

    ghost predicate Valid()
      reads this, cli, cli.node, wallet
    {
      && Ieee(cli.f) && ValidNode(cli.node.State())
      && (wallet != null ==> wallet.Valid())
    }

    ghost function Abs(): State
      requires Valid()
      reads this, cli, cli.node, wallet, if wallet != null then {wallet.backing} else {}
    {
      State(cli.node.State(), cli.X(), if wallet != null then Some(wallet.Abs()) else None)
    }

    /** Peek, point the adapter at the head, spend it, drop it, and queue the new output. */
    method RegisterTransaction(domID: bytes, txID: bytes, now: Time, o: RegisterOracle) returns (r: Result<bytes>)
      requires Valid()
      modifies cli, cli.node, wallet, if wallet != null then {wallet.backing} else {}
      ensures Valid() && (wallet != null ==> wallet.backing == old(wallet.backing) || fresh(wallet.backing))
      ensures var g := Register(cli.f, cli.btcNet, old(Abs()), Anchor(version, net, now, Pad32(domID), Pad32(txID)), o);
              Abs() == g.s && r == match g.txid case Some(id) => Ok(id) case None => Err(CouldNotPutAnchor)
    {
      var a := NewAnchor(version, net, now, domID, txID);
      if wallet != null {
        var head := wallet.PeekNextUTXO();
        if head.Err? {
          return Err(CouldNotPutAnchor);
        }
        cli.XSetUTXO(head.value.txid, head.value.addr);
      }
      PutKeepsNode(cli.f, cli.btcNet, cli.node.State(), cli.X(), a, o.put);
      var txid := cli.PutAnchor(a, o.put);
      if txid.Err? {
        return Err(CouldNotPutAnchor);
      }
      if wallet != null {
        var updated := ReplaceHead(o);
        if !updated {
          return Err(CouldNotPutAnchor);
        }
      }
      return txid;
    }

    /** The wallet update after a successful PutAnchor. */
    method ReplaceHead(o: RegisterOracle) returns (updated: bool)
      requires wallet != null && wallet.Valid()
      modifies wallet, wallet.backing
      ensures wallet.Valid() && (wallet.backing == old(wallet.backing) || fresh(wallet.backing))
      ensures (wallet.Abs(), updated) == UpdateWallet(old(wallet.Abs()), cli.X(), o)
    {
      var spent := wallet.NextUTXO(o.next);
      if spent.Err? {
        return false;
      }
      var id, addr := cli.XGetUTXO();
      var added := wallet.AddUTXO(id, addr, o.spare, o.add);
      return added.Ok?;
    }

    /** Nothing is stored unless the ledger holds an anchor under btcTXID. */
    method StoreRecord(btcTXID: bytes, get: GetOracle, save: Save) returns (r: Result<()>)
      requires Valid()
      modifies store
      ensures var rec := RecordOf(cli.node.chain, btcTXID);
              var found := GotRecord(cli.node.chain, btcTXID, get);
              && store.coll == (if found then PutAt(old(store.coll), rec.value, save) else old(store.coll))
              && r == if found && save.Saved? then Ok(()) else Err(CouldNotStoreRecord)
    {
      var ar := cli.GetAnchor(btcTXID, get);
      if ar.Err? {
        return Err(CouldNotStoreRecord);
      }
      var put := store.Put(ar.value, save);
      if put.Err? {
        return Err(CouldNotStoreRecord);
      }
      return Ok(());
    }

    method GetRecord(domID: bytes, txID: bytes, works: bool) returns (r: Result<AnchorRecord>)
      ensures r == if works && Cid(domID, txID) in store.coll then Ok(Record(store.coll[Cid(domID, txID)]))
                   else Err(CouldNotGetRecord)
    {
      var ar := store.Get(domID, txID, works);
      if ar.Err? {
        return Err(CouldNotGetRecord);
      }
      return ar;
    }

    /** Only the entity of this key can change, and only in its confirmations, domain name and note. */
    method RefreshRecord(domID: bytes, txID: bytes, domName: Option<string>, note: Option<string>, o: RefreshOracle)
      returns (r: Result<()>)
      requires Valid()
      modifies store
      ensures (store.coll, r.Ok?) == Refreshed(cli.node.chain, old(store.coll), Cid(domID, txID), domName, note, o)
      ensures r.Err? ==> r == Err(CouldNotRefreshRecord)
    {
      var oldAR := GetRecord(domID, txID, o.read);
      if oldAR.Err? {
        return Err(CouldNotRefreshRecord);
      }
      var newAR := cli.GetAnchor(oldAR.value.btctx, o.get);
      if newAR.Err? {
        return Err(CouldNotRefreshRecord);
      }
      var confs := store.UpdateConfirmations(domID, txID, newAR.value.confs, o.confs);
      if confs.Err? {
        return Err(CouldNotRefreshRecord);
      }
      if domName.Some? {
        var named := store.UpdateBBc1DomainName(domID, txID, domName.value, o.name);
        if named.Err? {
          return Err(CouldNotRefreshRecord);
        }
      }
      if note.Some? {
        var noted := store.UpdateNote(domID, txID, note.value, o.note);
        if noted.Err? {
          return Err(CouldNotRefreshRecord);
        }
      }
      return Ok(());
    }
  }

  /** One RegisterTransaction call of a sequence. */
  datatype Call = Call(a: Anchor, o: RegisterOracle)

  function RunCalls(f: Float, cliNet: byte, s: State, calls: seq<Call>): State {
    if calls == [] then s
    else Register(f, cliNet, RunCalls(f, cliNet, s, calls[..|calls| - 1]), calls[|calls| - 1].a, calls[|calls| - 1].o).s
  }

  /** A gateway without a wallet, and one whose wallet queues just the current UTXO of the first. */
  ghost predicate Mirrors(bare: State, one: State) {
    && bare.wallet.None? && one.wallet.Some?
    && one.wallet.value.q == [bare.x] && one.node == bare.node
  }

  /** A call that loses nothing of a one-UTXO wallet: its first save works, or nothing was sent with success. */
  predicate Keeps(f: Float, cliNet: byte, bare: State, c: Call) {
    c.o.next.Saved? || Register(f, cliNet, bare, c.a, c.o).txid.None?
  }

  /** One call: the mirror is kept exactly by such a call, and otherwise the wallet is left empty. */
  lemma MirrorStep(f: Float, cliNet: byte, bare: State, one: State, c: Call)
    requires Mirrors(bare, one)
    ensures var bare', one' := Register(f, cliNet, bare, c.a, c.o), Register(f, cliNet, one, c.a, c.o);
            && bare'.s.wallet.None? && one'.s.wallet.Some?
            && (if Keeps(f, cliNet, bare, c) then Mirrors(bare'.s, one'.s) else one'.s.wallet.value.q == [])
            && (c.o.next.Saved? && c.o.add.Saved? ==> one'.txid == bare'.txid)
  {
  }

  /** Call i of a sequence keeps the mirror. */
  predicate KeepsAt(f: Float, cliNet: byte, bare: State, calls: seq<Call>, i: nat)
    requires i < |calls|
  {
    Keeps(f, cliNet, RunCalls(f, cliNet, bare, calls[..i]), calls[i])
  }

  ghost predicate AllKeep(f: Float, cliNet: byte, bare: State, calls: seq<Call>) {
    forall i: nat | i < |calls| :: KeepsAt(f, cliNet, bare, calls, i)
  }

  lemma AllKeepLast(f: Float, cliNet: byte, bare: State, calls: seq<Call>)
    requires calls != []
    ensures var n := |calls| - 1;
            AllKeep(f, cliNet, bare, calls)
            <==> AllKeep(f, cliNet, bare, calls[..n]) && KeepsAt(f, cliNet, bare, calls, n)
  {
    var n := |calls| - 1;
    assert forall i: nat | i < n :: calls[..n][..i] == calls[..i];
    assert forall i: nat | i < n :: KeepsAt(f, cliNet, bare, calls[..n], i) <==> KeepsAt(f, cliNet, bare, calls, i);
  }

  lemma {:induction false} MirrorOrEmpty(f: Float, cliNet: byte, bare: State, one: State, calls: seq<Call>)
    requires Mirrors(bare, one)
    ensures var bare', one' := RunCalls(f, cliNet, bare, calls), RunCalls(f, cliNet, one, calls);
            && bare'.wallet.None? && one'.wallet.Some?
            && if AllKeep(f, cliNet, bare, calls) then Mirrors(bare', one') else one'.wallet.value.q == []
  {
    if calls == [] {
    } else {
      var n := |calls| - 1;
      MirrorOrEmpty(f, cliNet, bare, one, calls[..n]);
      AllKeepLast(f, cliNet, bare, calls);
      var bare1, one1 := RunCalls(f, cliNet, bare, calls[..n]), RunCalls(f, cliNet, one, calls[..n]);
      if AllKeep(f, cliNet, bare, calls[..n]) {
        MirrorStep(f, cliNet, bare1, one1, calls[n]);
      }
    }
  }

  /**
    The wallet-less mode is the one-UTXO wallet: after any sequence of successful and failed calls both
    have the same ledger and stand at the same UTXO if and only if in every call the first save worked
    or nothing was sent with success.
   */
  lemma WalletlessIsOneUtxo(f: Float, cliNet: byte, bare: State, one: State, calls: seq<Call>)
    requires Mirrors(bare, one)
    ensures Mirrors(RunCalls(f, cliNet, bare, calls), RunCalls(f, cliNet, one, calls))
            <==> AllKeep(f, cliNet, bare, calls)
  {
    MirrorOrEmpty(f, cliNet, bare, one, calls);
  }

  /** And as long as no save fails every call gives both the same result. */
  lemma WalletlessSameResults(f: Float, cliNet: byte, bare: State, one: State, calls: seq<Call>, c: Call)
    requires Mirrors(bare, one)
    requires forall d | d in calls + [c] :: d.o.next.Saved? && d.o.add.Saved?
    ensures Register(f, cliNet, RunCalls(f, cliNet, one, calls), c.a, c.o).txid
            == Register(f, cliNet, RunCalls(f, cliNet, bare, calls), c.a, c.o).txid
  {
    assert forall i: nat | i < |calls| :: calls[i] in calls + [c];
    assert forall i: nat | i < |calls| :: KeepsAt(f, cliNet, bare, calls, i);
    MirrorOrEmpty(f, cliNet, bare, one, calls);
    MirrorStep(f, cliNet, RunCalls(f, cliNet, bare, calls), RunCalls(f, cliNet, one, calls), c);
  }

  /** What a call leaves in every place, and what it returns, for every outcome of PutAnchor and the saves. */
  lemma RegisterExactly(f: Float, cliNet: byte, s: State, a: Anchor, o: RegisterOracle)
    ensures var r := Register(f, cliNet, s, a, o);
            && (s.wallet.None? ==> var p := Put(f, cliNet, s.node, s.x, a, o.put);
                                   r.s == State(p.node, p.x, None) && r.txid == p.txid)
            && (s.wallet.Some? && s.wallet.value.q == [] ==> r.s == s && r.txid == None)
    ensures s.wallet.Some? && s.wallet.value.q != [] ==>
              var q, doc := s.wallet.value.q, s.wallet.value.doc;
              var p, r := Put(f, cliNet, s.node, q[0], a, o.put), Register(f, cliNet, s, a, o);
              && r.s.node == p.node && r.s.x == p.x && r.s.wallet.Some?
              && r.txid == (if o.next.Saved? && o.add.Saved? then p.txid else None)
              && (p.txid.None? ==> r.s.wallet == s.wallet)
              && (p.txid.Some? ==>
                    && r.s.wallet.value.q == (if o.next.Saved? then q[1..] + [p.x] else q[1..])
                    && r.s.wallet.value.doc == (if o.next.NotSaved? then doc
                                                else if o.next.Saved? && !o.add.NotSaved? then Some(q[1..] + [p.x])
                                                else Some(q[1..])))
  {
  }
}
