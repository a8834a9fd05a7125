/** Package api: the anchor handlers of GatewayService, from path parameters to the reply. */
module Service {
  import opened Base
  import opened OpReturn
  import opened Satoshi
  import opened Ledger
  import opened BitcoinCli
  import opened Store
  import opened BigEndian
  import G = Gateway
  import Hex

  /** BTCNet.String. */
  function NetName(net: byte): string {
    match net
    case 255 => "Mainnet"
    case 3 => "Testnet3"
    case 4 => "Testnet4"
    case _ => ""
  }

  /** The JSON record of a reply. */
  datatype View = View(domain: string, digest: string, chain: string, time: int64, version: byte,
                       bbc1name: Option<string>, btctx: string, confirmations: nat, note: Option<string>, txTime: int64)

  function Present(s: string): Option<string> {
    if s == "" then None else Some(s)
  }

  /** convertAnchorRecord. */
  function Show(r: AnchorRecord): View {
    View(Hex.Encode(r.anchor.dom), Hex.Encode(r.anchor.tx), NetName(r.anchor.net), r.anchor.time.sec, r.anchor.version,
         Present(r.domName), Hex.Encode(r.btctx), r.confs, Present(r.note), r.txTime.sec)
  }

  /** The reply loses nothing of a record read from the ledger: valid network, times in whole seconds. */
  lemma ShowIsFaithful(a: AnchorRecord, b: AnchorRecord)
    requires ValidNet(a.anchor.net) && ValidNet(b.anchor.net)
    requires a.anchor.time.nsec == b.anchor.time.nsec == a.txTime.nsec == b.txTime.nsec
    ensures Show(a) == Show(b) <==> a == b
  {
    Hex.EncodeInjective(a.anchor.dom, b.anchor.dom);
    Hex.EncodeInjective(a.anchor.tx, b.anchor.tx);
    Hex.EncodeInjective(a.btctx, b.btctx);
  }

  datatype Fault = InvalidParam | DigestNotFound | DigestAlreadyExists | RegisterFailed

  datatype Body = Record(v: View) | Empty | Problem(f: Fault)

  /** An HTTP status and what is written with it. */
  datatype Reply = Reply(status: nat, body: Body)

  function Success(v: View): Reply {
    Reply(200, Body.Record(v))
  }

  const NO_CONTENT := Reply(204, Empty)

  function Failure(f: Fault): Reply {
    Reply(if f.InvalidParam? then 400 else if f.DigestNotFound? then 404 else 500, Problem(f))
  }

  /** How the foreign parts of one POST turn out; check and reply say whether the two reads of the store work. */
  datatype PostOracle = PostOracle(check: bool, now: Time, register: G.RegisterOracle, get: GetOracle, put: Save,
    reply: bool)

  /** The gateway and its store. */
  datatype World = World(g: G.State, coll: Coll)

  datatype Config = Config(f: Float, cliNet: byte, net: byte, version: byte)

  /** What the POST handler registers. */
  function Registration(cfg: Config, w: World, dom: bytes, tx: bytes, o: PostOracle): G.Registered {
    G.Register(cfg.f, cfg.cliNet, w.g, Anchor(cfg.version, cfg.net, o.now, Pad32(dom), Pad32(tx)), o.register)
  }

  /** Check, register, store, read back. */
  function Post(cfg: Config, w: World, dom: bytes, tx: bytes, o: PostOracle): (World, Reply) {
    if o.check && Cid(dom, tx) in w.coll then (w, Failure(DigestAlreadyExists)) else PostAbsent(cfg, w, dom, tx, o)
  }

  function PostAbsent(cfg: Config, w: World, dom: bytes, tx: bytes, o: PostOracle): (World, Reply) {
    var r := Registration(cfg, w, dom, tx, o);
    if r.txid.None? then (World(r.s, w.coll), Failure(RegisterFailed))
    else
      var k := KeepRecord(r.s.node.chain, w.coll, dom, tx, r.txid.value, o);
      (World(r.s, k.0), k.1)
  }

  /** The handler once the anchor is broadcast under id: what the store becomes, and the reply. */
  function KeepRecord(chain: Chain, coll: Coll, dom: bytes, tx: bytes, id: bytes, o: PostOracle): (Coll, Reply) {
    if !G.GotRecord(chain, id, o.get) then (coll, Failure(RegisterFailed))
    else
      var coll' := PutAt(coll, RecordOf(chain, id).value, o.put);
      (coll', if o.put.Saved? && o.reply && Cid(dom, tx) in coll' then Success(Show(Store.Record(coll'[Cid(dom, tx)])))
              else Failure(RegisterFailed))
  }

  /** Each field of a reply, read back. */
  lemma ShowFields(r: AnchorRecord)
    ensures var v := Show(r);
            && Hex.Decode(v.domain) == Some(r.anchor.dom) && Hex.Decode(v.digest) == Some(r.anchor.tx)
            && Hex.Decode(v.btctx) == Some(r.btctx)
            && v.domain == Hex.Encode(r.anchor.dom) && v.digest == Hex.Encode(r.anchor.tx)
            && v.btctx == Hex.Encode(r.btctx)
            && v.time == r.anchor.time.sec && v.version == r.anchor.version && v.txTime == r.txTime.sec
            && v.confirmations == r.confs
            && v.bbc1name == (if r.domName == "" then None else Some(r.domName))
            && v.note == (if r.note == "" then None else Some(r.note))
    ensures r.anchor.net == 255 ==> Show(r).chain == "Mainnet"
    ensures r.anchor.net == 3 ==> Show(r).chain == "Testnet3"
    ensures r.anchor.net == 4 ==> Show(r).chain == "Testnet4"
    ensures r.anchor.net !in {3, 4, 255} ==> Show(r).chain == ""
  {
    Hex.DecodeEncode(r.anchor.dom);
    Hex.DecodeEncode(r.anchor.tx);
    Hex.DecodeEncode(r.btctx);
  }

  /** v names the ids that the path parameters name. */
  ghost predicate Names(v: View, dom: string, dig: string) {
    && v.domain + v.digest == Hex.Lower(dom) + Hex.Lower(dig)
    && (|dom| == 64 ==> v.domain == Hex.Lower(dom) && v.digest == Hex.Lower(dig))
  }

  /** What is found under path parameters is shown under these parameters, in lower case. */
  lemma ShowsItsParameters(coll: Coll, dom: string, dig: string)
    requires Indexed(coll) && Hex.Decode(dom).Some? && Hex.Decode(dig).Some?
    requires Cid(Hex.Decode(dom).value, Hex.Decode(dig).value) in coll
    ensures Names(Show(Store.Record(coll[Cid(Hex.Decode(dom).value, Hex.Decode(dig).value)])), dom, dig)
  {
    var d, t := Hex.Decode(dom).value, Hex.Decode(dig).value;
    var r := Store.Record(coll[Cid(d, t)]);
    LookupFindsSameBytes(coll, d, t);
    ShowFields(r);
    Hex.EncodeDecode(dom);
    Hex.EncodeDecode(dig);
    Hex.EncodeConcat(r.anchor.dom, r.anchor.tx);
    Hex.EncodeConcat(d, t);
    if |dom| == 64 {
      Hex.DecodeLength(dom);
      assert (r.anchor.dom + r.anchor.tx)[..32] == r.anchor.dom && (d + t)[..32] == d;
      assert (r.anchor.dom + r.anchor.tx)[32..] == r.anchor.tx && (d + t)[32..] == t;
    }
  }

  class GatewayService {
    const gw: G.GatewayImpl

    constructor (gw: G.GatewayImpl)
      ensures this.gw == gw
    {
      this.gw := gw;
    }

    function Cfg(): Config {
      Config(gw.cli.f, gw.cli.btcNet, gw.net, gw.version)
    }

    ghost function Abs(): World
      requires gw.Valid()
      reads gw, gw.cli, gw.cli.node, gw.wallet, if gw.wallet != null then {gw.wallet.backing} else {}, gw.store
    {
      World(gw.Abs(), gw.store.coll)
    }

    method GetAnchors(dom: string, dig: string, works: bool) returns (r: Reply)
      ensures r == match (Hex.Decode(dom), Hex.Decode(dig))
                   case (Some(d), Some(t)) =>
                     if works && Cid(d, t) in gw.store.coll then Success(Show(Store.Record(gw.store.coll[Cid(d, t)])))
                     else Failure(DigestNotFound)
                   case _ => Failure(InvalidParam)
      ensures Indexed(gw.store.coll) && r.status == 200 ==> r.body.Record? && Names(r.body.v, dom, dig)
    {
      var bdom, bdig := Hex.Decode(dom), Hex.Decode(dig);
      if bdom.None? || bdig.None? {
        return Failure(InvalidParam);
      }
      var ar := gw.GetRecord(bdom.value, bdig.value, works);
      if ar.Err? {
        return Failure(DigestNotFound);
      }
      if Indexed(gw.store.coll) {
        ShowsItsParameters(gw.store.coll, dom, dig);
      }
      return Success(Show(ar.value));
    }

    /** A PATCH sets the note and the ledger's confirmations, and a failure part of the way may leave just these. */
    method PatchAnchors(dom: string, dig: string, note: string, o: G.RefreshOracle) returns (r: Reply)
      requires gw.Valid()
      modifies gw.store
      ensures Hex.Decode(dom).None? || Hex.Decode(dig).None?
              ==> r == Failure(InvalidParam) && gw.store.coll == old(gw.store.coll)
      ensures Hex.Decode(dom).Some? && Hex.Decode(dig).Some? ==>
                var key := Cid(Hex.Decode(dom).value, Hex.Decode(dig).value);
                && gw.store.coll.Keys == old(gw.store.coll).Keys
                && (forall k | k in gw.store.coll && k != key :: gw.store.coll[k] == old(gw.store.coll)[k])
                && (key !in gw.store.coll ==> r == Failure(DigestNotFound))
                && (key in gw.store.coll ==>
                      var e, e' := old(gw.store.coll)[key], gw.store.coll[key];
                      var read := o.read && G.GotRecord(gw.cli.node.chain, e.btctx, o.get);
                      && e' == e.(confs := e'.confs, note := e'.note)
                      && e'.confs == (if read && !o.confs.NotSaved? then gw.cli.node.chain[e.btctx].confs else e.confs)
                      && e'.note == (if read && o.confs.Saved? && !o.note.NotSaved? then note else e.note)
                      && r == if read && o.confs.Saved? && o.note.Saved? then NO_CONTENT else Failure(DigestNotFound))
    {
      var bdom, bdig := Hex.Decode(dom), Hex.Decode(dig);
      if bdom.None? || bdig.None? {
        return Failure(InvalidParam);
      }
      G.RefreshedFields(gw.cli.node.chain, gw.store.coll, Cid(bdom.value, bdig.value), None, Some(note), o);
      var refreshed := gw.RefreshRecord(bdom.value, bdig.value, None, Some(note), o);
      if refreshed.Err? {
        return Failure(DigestNotFound);
      }
      return NO_CONTENT;
    }

    method PostAnchors(dom: string, dig: string, o: PostOracle) returns (r: Reply)
      requires gw.Valid()
      modifies gw.cli, gw.cli.node, gw.wallet, if gw.wallet != null then {gw.wallet.backing} else {}, gw.store
      ensures gw.Valid()
      ensures match (Hex.Decode(dom), Hex.Decode(dig))
              case (Some(d), Some(t)) => (Abs(), r) == Post(Cfg(), old(Abs()), d, t, o)
              case _ => Abs() == old(Abs()) && r == Failure(InvalidParam)
    {
      var bdom, bdig := Hex.Decode(dom), Hex.Decode(dig);
      if bdom.None? || bdig.None? {
        return Failure(InvalidParam);
      }
      var found := gw.GetRecord(bdom.value, bdig.value, o.check);
      if found.Ok? {
        return Failure(DigestAlreadyExists);
      }
      r := RegisterAndStore(bdom.value, bdig.value, o);
    }

    /** The handler from the registration on. */
    method RegisterAndStore(bdom: bytes, bdig: bytes, o: PostOracle) returns (r: Reply)
      requires gw.Valid()
      modifies gw.cli, gw.cli.node, gw.wallet, if gw.wallet != null then {gw.wallet.backing} else {}, gw.store
      ensures gw.Valid()
      ensures (Abs(), r) == PostAbsent(Cfg(), old(Abs()), bdom, bdig, o)
    {
      var btctx := gw.RegisterTransaction(bdom, bdig, o.now, o.register);
      if btctx.Err? {
        return Failure(RegisterFailed);
      }
      r := StoreAndReply(bdom, bdig, btctx.value, o);
    }

    /** The handler from the store on. */
    method StoreAndReply(bdom: bytes, bdig: bytes, btctx: bytes, o: PostOracle) returns (r: Reply)
      requires gw.Valid()
      modifies gw.store
      ensures (gw.store.coll, r) == KeepRecord(gw.cli.node.chain, old(gw.store.coll), bdom, bdig, btctx, o)
    {
      var stored := gw.StoreRecord(btctx, o.get, o.put);
      if stored.Err? {
        return Failure(RegisterFailed);
      }
      var ar := gw.GetRecord(bdom, bdig, o.reply);
      if ar.Err? {
        return Failure(RegisterFailed);
      }
      return Success(Show(ar.value));
    }
  }

  // What a POST answers, and what a repeated one does.

  ghost predicate ValidWorld(cfg: Config, w: World) {
    Ieee(cfg.f) && ValidNode(w.g.node)
  }

  /** Everything but the registration works. */
  predicate Works(o: PostOracle) {
    o.check && o.get.up && o.get.got && o.get.decoded && o.put.Saved? && o.reply
  }

  lemma RegistrationIsPut(cfg: Config, w: World, dom: bytes, tx: bytes, o: PostOracle) returns (x: Utxo)
    requires Registration(cfg, w, dom, tx, o).txid.Some?
    ensures var r := Registration(cfg, w, dom, tx, o);
            var p := Put(cfg.f, cfg.cliNet, w.g.node, x, Anchor(cfg.version, cfg.net, o.now, Pad32(dom), Pad32(tx)),
                o.register.put);
            r.s.node == p.node && r.txid == p.txid
  {
    x := if w.g.wallet.Some? then w.g.wallet.value.q[0] else w.g.x;
  }

  /** The record of a registration that succeeded, as the ledger then holds it. */
  lemma RegistrationRecord(cfg: Config, w: World, dom: bytes, tx: bytes, o: PostOracle)
    requires ValidWorld(cfg, w) && Registration(cfg, w, dom, tx, o).txid.Some?
    ensures var r := Registration(cfg, w, dom, tx, o);
            var rec := RecordOf(r.s.node.chain, r.txid.value);
            && ValidNode(r.s.node) && r.txid.value !in w.g.node.chain && r.txid.value in r.s.node.chain
            && (rec.Some? <==> ValidVersion(cfg.version) && ValidNet(cfg.net))
            && (rec.Some? ==> && rec.value.btctx == r.txid.value
                              && rec.value.anchor == Anchor(cfg.version, cfg.net, Floor(o.now), Pad32(dom), Pad32(tx)))
  {
    var x := RegistrationIsPut(cfg, w, dom, tx, o);
    var a := Anchor(cfg.version, cfg.net, o.now, Pad32(dom), Pad32(tx));
    var p := Put(cfg.f, cfg.cliNet, w.g.node, x, a, o.register.put);
    PutKeepsNode(cfg.f, cfg.cliNet, w.g.node, x, a, o.register.put);
    PutSuccess(cfg.f, cfg.cliNet, w.g.node, x, a, o.register.put);
    EndToEnd(cfg.f, cfg.cliNet, w.g.node, x, a, o.register.put, p.node.chain);
  }

  /**
    A POST for an absent pair whose registration and store calls all work is answered with the record
    of its own transaction exactly when the pair is findable; otherwise it reports a failed
    registration although the anchor is on the ledger and its record is stored.
   */
  lemma FreshPostAnswers(cfg: Config, w: World, dom: bytes, tx: bytes, o: PostOracle)
    requires ValidWorld(cfg, w) && ValidVersion(cfg.version) && ValidNet(cfg.net)
    requires Works(o) && Cid(dom, tx) !in w.coll && Registration(cfg, w, dom, tx, o).txid.Some?
    ensures var (w', r) := Post(cfg, w, dom, tx, o);
            var id := Registration(cfg, w, dom, tx, o).txid.value;
            && id in w'.g.node.chain && RecordOf(w'.g.node.chain, id).Some?
            && Cid(Pad32(dom), Pad32(tx)) in w'.coll && w'.coll[Cid(Pad32(dom), Pad32(tx))].btctx == id
            && r == if Findable(dom, tx) then Success(Show(RecordOf(w'.g.node.chain, id).value))
                else Failure(RegisterFailed)
  {
    RegistrationRecord(cfg, w, dom, tx, o);
    FoundUnderRawKey(dom, tx);
    var r := Registration(cfg, w, dom, tx, o);
    EntityRoundTrip(RecordOf(r.s.node.chain, r.txid.value).value);
  }

  /** A POST is answered with 200 only when its key is then stored. */
  lemma SuccessIsStored(cfg: Config, w: World, dom: bytes, tx: bytes, o: PostOracle)
    requires Post(cfg, w, dom, tx, o).1.status == 200
    ensures Cid(dom, tx) in Post(cfg, w, dom, tx, o).0.coll
  {
  }

  /** After a success a repeated POST is refused and changes nothing, as long as its check works. */
  lemma RepeatIsRefused(cfg: Config, w: World, dom: bytes, tx: bytes, o: PostOracle, again: PostOracle)
    requires Post(cfg, w, dom, tx, o).1.status == 200 && again.check
    ensures var w' := Post(cfg, w, dom, tx, o).0; Post(cfg, w', dom, tx, again) == (w', Failure(DigestAlreadyExists))
  {
    SuccessIsStored(cfg, w, dom, tx, o);
    PresentIsRefused(cfg, Post(cfg, w, dom, tx, o).0, dom, tx, again);
  }

  lemma PresentIsRefused(cfg: Config, w: World, dom: bytes, tx: bytes, o: PostOracle)
    requires o.check && Cid(dom, tx) in w.coll
    ensures Post(cfg, w, dom, tx, o) == (w, Failure(DigestAlreadyExists))
  {
  }

  lemma PostKeepsWorld(cfg: Config, w: World, dom: bytes, tx: bytes, o: PostOracle)
    requires ValidWorld(cfg, w)
    ensures ValidWorld(cfg, Post(cfg, w, dom, tx, o).0)
  {
    var x := if w.g.wallet.Some? && w.g.wallet.value.q != [] then w.g.wallet.value.q[0] else w.g.x;
    PutKeepsNode(cfg.f, cfg.cliNet, w.g.node, x, Anchor(cfg.version, cfg.net, o.now, Pad32(dom), Pad32(tx)),
        o.register.put);
  }

  /** A POST stores nothing under a raw key that is not findable. */
  lemma UnfindableStaysAbsent(cfg: Config, w: World, dom: bytes, tx: bytes, o: PostOracle)
    requires ValidWorld(cfg, w) && !Findable(dom, tx) && Cid(dom, tx) !in w.coll
    ensures Cid(dom, tx) !in Post(cfg, w, dom, tx, o).0.coll
  {
    FoundUnderRawKey(dom, tx);
    if Registration(cfg, w, dom, tx, o).txid.Some? {
      RegistrationRecord(cfg, w, dom, tx, o);
    }
  }

  function PostAll(cfg: Config, w: World, dom: bytes, tx: bytes, os: seq<PostOracle>): World {
    if os == [] then w else Post(cfg, PostAll(cfg, w, dom, tx, os[..|os| - 1]), dom, tx, os[|os| - 1]).0
  }

  /**
    The existence check never stops POSTs of a pair that is not findable: however many have been made,
    and however they went, the next one registers again.
   */
  lemma {:induction false} UnfindableRegistersAgain(cfg: Config, w: World, dom: bytes, tx: bytes,
    os: seq<PostOracle>, next: PostOracle)
    requires ValidWorld(cfg, w) && !Findable(dom, tx) && Cid(dom, tx) !in w.coll
    ensures var w' := PostAll(cfg, w, dom, tx, os);
            && ValidWorld(cfg, w') && Cid(dom, tx) !in w'.coll
            && Post(cfg, w', dom, tx, next).0.g == Registration(cfg, w', dom, tx, next).s
            && Post(cfg, w', dom, tx, next).1 == Failure(RegisterFailed)
    decreases |os|
  {
    if os == [] {
    } else {
      var init, o := os[..|os| - 1], os[|os| - 1];
      UnfindableRegistersAgain(cfg, w, dom, tx, init, next);
      PostKeepsWorld(cfg, PostAll(cfg, w, dom, tx, init), dom, tx, o);
      UnfindableStaysAbsent(cfg, PostAll(cfg, w, dom, tx, init), dom, tx, o);
    }
    UnfindableStaysAbsent(cfg, PostAll(cfg, w, dom, tx, os), dom, tx, next);
  }

  // What a reply says.

  /** The status of every reply. */
  lemma Statuses(v: View)
    ensures Success(v).status == 200 && Success(v).body == Body.Record(v) && NO_CONTENT == Reply(204, Empty)
    ensures Failure(InvalidParam).status == 400 && Failure(DigestNotFound).status == 404
    ensures Failure(DigestAlreadyExists).status == 500 && Failure(RegisterFailed).status == 500
    ensures forall f: Fault :: Failure(f).body == Problem(f)
  {
  }

  /** What is stored and answered once the anchor is broadcast under id. */
  lemma KeepsExactly(chain: Chain, coll: Coll, dom: bytes, tx: bytes, id: bytes, o: PostOracle)
    ensures var (coll', reply) := KeepRecord(chain, coll, dom, tx, id, o);
            var rec := RecordOf(chain, id);
            var got := o.get.up && o.get.got && o.get.decoded && rec.Some?;
            && coll' == (if got && !o.put.NotSaved?
                         then coll[Cid(rec.value.anchor.dom, rec.value.anchor.tx) := NewAnchorEntity(rec.value)]
                         else coll)
            && (reply.status == 200 <==> got && o.put.Saved? && o.reply && Cid(dom, tx) in coll')
            && (reply.status == 200 ==> reply == Success(Show(Store.Record(coll'[Cid(dom, tx)]))))
            && (reply.status != 200 ==> reply == Failure(RegisterFailed))
  {
  }

  /** Exactly what a POST leaves and answers, for every outcome of its calls; KeepsExactly has the rest. */
  lemma PostExactly(cfg: Config, w: World, dom: bytes, tx: bytes, o: PostOracle)
    ensures o.check && Cid(dom, tx) in w.coll ==> Post(cfg, w, dom, tx, o) == (w, Failure(DigestAlreadyExists))
    ensures !(o.check && Cid(dom, tx) in w.coll) ==>
              var r := Registration(cfg, w, dom, tx, o);
              && Post(cfg, w, dom, tx, o).0.g == r.s
              && (r.txid.None? ==> && Post(cfg, w, dom, tx, o).0.coll == w.coll
                                   && Post(cfg, w, dom, tx, o).1 == Failure(RegisterFailed))
              && (r.txid.Some? ==> (Post(cfg, w, dom, tx, o).0.coll, Post(cfg, w, dom, tx, o).1)
                                   == KeepRecord(r.s.node.chain, w.coll, dom, tx, r.txid.value, o))
  {
  }

  lemma KeepShowsItsParameters(chain: Chain, coll: Coll, dom: string, dig: string, id: bytes, o: PostOracle)
    requires Indexed(coll) && Hex.Decode(dom).Some? && Hex.Decode(dig).Some?
    ensures var reply := KeepRecord(chain, coll, Hex.Decode(dom).value, Hex.Decode(dig).value, id, o).1;
            reply.status == 200 ==> reply.body.Record? && Names(reply.body.v, dom, dig)
  {
    var d, t := Hex.Decode(dom).value, Hex.Decode(dig).value;
    var k := KeepRecord(chain, coll, d, t, id, o);
    if k.1.status == 200 {
      KeepsExactly(chain, coll, d, t, id, o);
      PutKeepsIndexed(coll, RecordOf(chain, id).value, o.put);
      ShowsItsParameters(k.0, dom, dig);
    }
  }

  /** And so a POST that is answered with 200 is answered for its own parameters. */
  lemma PostShowsItsParameters(cfg: Config, w: World, dom: string, dig: string, o: PostOracle)
    requires Indexed(w.coll) && Hex.Decode(dom).Some? && Hex.Decode(dig).Some?
    ensures var reply := Post(cfg, w, Hex.Decode(dom).value, Hex.Decode(dig).value, o).1;
            reply.status == 200 ==> reply.body.Record? && Names(reply.body.v, dom, dig)
  {
    var d, t := Hex.Decode(dom).value, Hex.Decode(dig).value;
    var r := Registration(cfg, w, d, t, o);
    PostExactly(cfg, w, d, t, o);
    if r.txid.Some? {
      KeepShowsItsParameters(r.s.node.chain, w.coll, dom, dig, r.txid.value, o);
    }
  }
}
