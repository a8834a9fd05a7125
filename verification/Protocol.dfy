/**
  The gateway as a state machine: any number of requests interleave one step at a time, the mutex of
  GatewayImpl is taken and released where the code does, and saves, sends and crashes may go wrong.
  A run is a sequence of steps; a step that is not enabled changes nothing.
 */
module Protocol {
  import opened Base
  import opened OpReturn
  import opened Ledger
  import opened BitcoinCli
  import opened Store

  /** The network and version embedded in anchors, the network of the adapter, and the wallet address. */
  datatype Config = Config(net: byte, cliNet: byte, version: byte, addr: string)

  /** Gateway methods called directly, and the POST handler; PATCH is a Refresh with a note. */
  datatype Request =
    | Register(dom: bytes, tx: bytes)
    | StoreRecord(id: bytes)
    | Refresh(dom: bytes, tx: bytes, domName: Option<string>, note: Option<string>)
    | Post(dom: bytes, tx: bytes)

  datatype Outcome =
    | Registered(id: bytes) | Stored | Refreshed | AlreadyExists | Answered(rec: AnchorRecord) | Failed | Crashed

  /** Where a thread stands, with its local variables. */
  datatype Pc =
    | Start
    // RegisterTransaction
    | RegLock(a: Anchor)
    | RegPeek(a: Anchor)
    | RegSet(a: Anchor, head: Utxo)
    | RegRead(a: Anchor)
    | RegSend(a: Anchor, body: RawTx)
    | RegSent(from: Utxo, id: bytes)
    | RegDequeue(from: Utxo, id: bytes)
    | RegSaveNext(from: Utxo, id: bytes)
    | RegEnqueue(from: Utxo, id: bytes)
    | RegSaveAdd(from: Utxo, id: bytes)
    // StoreRecord
    | StoLock(btctx: bytes)
    | StoRead(btctx: bytes)
    | StoPut(rec: AnchorRecord)
    // RefreshRecord
    | RefGet
    | RefLock(btctx: bytes)
    | RefRead(btctx: bytes)
    | RefConfs(confs: nat)
    | RefName
    | RefNote
    // the POST handler's final GetRecord
    | Reply
    | Done(r: Outcome)

  /** What a thread has broadcast, kept as history. */
  datatype Sent = Sent(id: bytes, a: Anchor)

  /** missing records that a POST passed its existence check while the key was absent. */
  datatype Thread = Thread(req: Request, pc: Pc, sent: Option<Sent>, missing: bool)

  /**
    What RegisterTransaction works on: the adapter's calcFee, the wallet address, the ledger, the
    queue in memory and the saved one, and the adapter's current UTXO. The last three are history:
    registrations
    that broadcast and were then cut short, broadcasts, and fees paid.
   */
  datatype Purse = Purse(left: Calc, addr: string, chain: Chain, mem: seq<Utxo>, doc: seq<Utxo>, x: Utxo,
                         lost: nat, sends: nat, fees: nat)

  datatype State = State(cfg: Config, w: Purse, lock: Option<nat>, threads: map<nat, Thread>, coll: Coll)

  /** How the foreign part of one step turns out. */
  datatype Choice = Choice(ok: bool, now: Time, send: SendOutcome, raw: bytes, save: Save)

  /** Mine raises the confirmations of one transaction; Crash restarts the process from the saved queue. */
  datatype Step = Spawn(t: nat, req: Request) | Act(t: nat, c: Choice) | Crash | Mine(id: bytes, more: nat)

  // RegisterTransaction, under the mutex.

  /** The purse and program counter after a step, and what the step broadcast. */
  datatype Moved = Moved(w: Purse, pc: Pc, sent: Option<Sent>)

  function Peek(w: Purse, a: Anchor): Moved {
    Moved(w, if w.mem == [] then Done(Failed) else RegSet(a, w.mem[0]), None)
  }

  /** What PutAnchor creates. */
  function Body(w: Purse, a: Anchor): Option<RawTx> {
    AnchorBody(w.left, w.chain, w.x, a)
  }

  /** PutAnchor up to sendrawtransaction: what it would send, if nothing stops it before. */
  predicate Buildable(w: Purse, cliNet: byte, a: Anchor, c: Choice) {
    c.ok && a.net == cliNet && Body(w, a).Some?
  }

  function Read(w: Purse, cliNet: byte, a: Anchor, c: Choice): Moved {
    if Buildable(w, cliNet, a, c) then
      Moved(w, RegSend(a, Body(w, a).value), None)
    else Moved(w, Done(Failed), None)
  }

  predicate Accepts(w: Purse, body: RawTx, c: Choice) {
    !c.send.Refused? && Fresh(w.chain, c.send.id) && Unseen(w.chain, c.raw) && Acceptable(w.chain, body)
  }

  function Sending(w: Purse, body: RawTx, c: Choice): Purse
    requires Accepts(w, body, c)
  {
    w.(chain := w.chain[c.send.id := Tx(body, c.raw, true, 0, 0, c.send.time)], sends := w.sends + 1,
       fees := w.fees + (w.chain[body.spends].body.value - body.value))
  }

  /** sendrawtransaction; a broadcast that is reported as an error ends the registration. */
  function Send(w: Purse, a: Anchor, body: RawTx, c: Choice): Moved {
    if !Accepts(w, body, c) then Moved(w, Done(Failed), None)
    else if c.send.Unreported? then
      Moved(Sending(w, body, c).(lost := w.lost + 1), Done(Failed), Some(Sent(c.send.id, a)))
    else Moved(Sending(w, body, c), RegSent(w.x, c.send.id), Some(Sent(c.send.id, a)))
  }

  function Dequeue(w: Purse, from: Utxo, id: bytes): Moved {
    if w.mem == [] then GiveUp(w) else Moved(w.(mem := w.mem[1..]), RegSaveNext(from, id), None)
  }

  /** A registration that ends after its broadcast without finishing the wallet update. */
  function GiveUp(w: Purse): Moved {
    Moved(w.(lost := w.lost + 1), Done(Failed), None)
  }

  function Saving(w: Purse, save: Save, next: Pc): Moved {
    var w' := if save.NotSaved? then w else w.(doc := w.mem);
    if save.Saved? then Moved(w', next, None) else GiveUp(w')
  }

  function RegisterStep(w: Purse, cliNet: byte, post: bool, pc: Pc, c: Choice): Moved
    requires InRegister(pc)
  {
    match pc
    case RegPeek(a) => Peek(w, a)
    case RegSet(a, head) => Moved(w.(x := head), RegRead(a), None)
    case RegRead(a) => Read(w, cliNet, a, c)
    case RegSend(a, body) => Send(w, a, body, c)
    case RegSent(from, id) => Moved(w.(x := Utxo(id, w.x.addr)), RegDequeue(from, id), None)
    case RegDequeue(from, id) => Dequeue(w, from, id)
    case RegSaveNext(from, id) => Saving(w, c.save, RegEnqueue(from, id))
    case RegEnqueue(from, id) => Moved(w.(mem := w.mem + [w.x]), RegSaveAdd(from, id), None)
    case RegSaveAdd(from, id) => Saving(w, c.save, if post then StoLock(id) else Done(Registered(id)))
  }

  // Everything else a thread does.

  function AnchorFor(cfg: Config, req: Request, now: Time): Anchor
    requires req.Register? || req.Post?
  {
    Anchor(cfg.version, cfg.net, now, Pad32(req.dom), Pad32(req.tx))
  }

  /** The first step of a request; for a POST this is the existence check, which any read error passes. */
  function Begin(cfg: Config, coll: Coll, th: Thread, c: Choice): Thread {
    match th.req
    case Register(_, _) => th.(pc := RegLock(AnchorFor(cfg, th.req, c.now)))
    case StoreRecord(id) => th.(pc := StoLock(id))
    case Refresh(_, _, _, _) => th.(pc := RefGet)
    case Post(dom, tx) =>
      if c.ok && Cid(dom, tx) in coll then th.(pc := Done(AlreadyExists))
      else th.(pc := RegLock(AnchorFor(cfg, th.req, c.now)), missing := Cid(dom, tx) !in coll)
  }

  /** The collection and program counter after a step of StoreRecord, RefreshRecord or a final read. */
  datatype Kept = Kept(coll: Coll, pc: Pc)

  /** GetAnchor under the mutex, for StoreRecord and for RefreshRecord. */
  function Fetch(chain: Chain, id: bytes, refresh: bool, c: Choice): Pc {
    var rec := RecordOf(chain, id);
    if !c.ok || rec.None? then Done(Failed) else if refresh then RefConfs(rec.value.confs) else StoPut(rec.value)
  }

  function Update(coll: Coll, req: Request, m: Mods, c: Choice, next: Pc): Kept
    requires req.Refresh?
  {
    var key := Cid(req.dom, req.tx);
    Kept(UpdateAt(coll, key, m, c.save), if key in coll && c.save.Saved? then next else Done(Failed))
  }

  function RefreshStep(coll: Coll, req: Request, pc: Pc, c: Choice): Kept
    requires req.Refresh?
  {
    match pc
    case RefGet =>
      var key := Cid(req.dom, req.tx);
      Kept(coll, if c.ok && key in coll then RefLock(coll[key].btctx) else Done(Failed))
    case RefConfs(confs) => Update(coll, req, Mods(Some(confs), None, None), c, RefName)
    case RefName =>
      if req.domName.Some? then Update(coll, req, Mods(None, req.domName, None), c, RefNote) else Kept(coll, RefNote)
    case RefNote =>
      if req.note.Some? then Update(coll, req, Mods(None, None, req.note), c, Done(Refreshed))
      else Kept(coll, Done(Refreshed))
    case _ => Kept(coll, pc)
  }

  function StoreStep(chain: Chain, coll: Coll, req: Request, pc: Pc, c: Choice): Kept {
    match pc
    case StoLock(id) => Kept(coll, StoRead(id))
    case StoRead(id) => Kept(coll, Fetch(chain, id, false, c))
    case StoPut(rec) =>
      Kept(PutAt(coll, rec, c.save), if !c.save.Saved? then Done(Failed) else if req.Post? then Reply else Done(Stored))
    case Reply =>
      Kept(coll, if req.Post? && c.ok
          && Cid(req.dom, req.tx) in coll then Done(Answered(Record(coll[Cid(req.dom, req.tx)])))
                 else Done(Failed))
    case RefLock(id) => Kept(coll, RefRead(id))
    case RefRead(id) => Kept(coll, Fetch(chain, id, true, c))
    case _ => if req.Refresh? then RefreshStep(coll, req, pc, c) else Kept(coll, pc)
  }

  // Threads and the mutex.

  predicate InRegister(pc: Pc) {
    pc.RegPeek? || pc.RegSet? || pc.RegRead? || pc.RegSend? || BroadcastDone(pc)
  }

  /** Between the broadcast and the end of the wallet update. */
  predicate BroadcastDone(pc: Pc) {
    pc.RegSent? || pc.RegDequeue? || pc.RegSaveNext? || pc.RegEnqueue? || pc.RegSaveAdd?
  }

  /** The regions between mu.Lock and mu.Unlock. */
  predicate Holds(pc: Pc) {
    InRegister(pc) || pc.StoRead? || pc.RefRead?
  }

  /** One step of a thread, without the mutex. */
  datatype Local = Local(w: Purse, coll: Coll, th: Thread)

  function LocalStep(cfg: Config, l: Local, c: Choice): Local {
    if InRegister(l.th.pc) then
      var m := RegisterStep(l.w, cfg.cliNet, l.th.req.Post?, l.th.pc, c);
      l.(w := m.w, th := l.th.(pc := m.pc, sent := if m.sent.Some? then m.sent else l.th.sent))
    else if l.th.pc.Start? then l.(th := Begin(cfg, l.coll, l.th, c))
    else if l.th.pc.RegLock? then l.(th := l.th.(pc := RegPeek(l.th.pc.a)))
    else
      var k := StoreStep(l.w.chain, l.coll, l.th.req, l.th.pc, c);
      l.(coll := k.coll, th := l.th.(pc := k.pc))
  }

  /** A step into a locked region waits for the mutex and takes it; a step out of one gives it back. */
  function ThreadStep(s: State, t: nat, c: Choice): State
    requires t in s.threads
  {
    var before := s.threads[t].pc;
    var l := LocalStep(s.cfg, Local(s.w, s.coll, s.threads[t]), c);
    var enters := Holds(l.th.pc) && !Holds(before);
    if enters && s.lock.Some? then s
    else
      var lock := if Holds(l.th.pc) then Some(t) else if Holds(before) then None else s.lock;
      State(s.cfg, l.w, lock, s.threads[t := l.th], l.coll)
  }

  /** Where the thread that holds the mutex stands; Start when it is free. */
  function Owner(s: State): Pc {
    if s.lock.Some? && s.lock.value in s.threads then s.threads[s.lock.value].pc else Start
  }

  function Reload(w: Purse, pc: Pc): Purse {
    w.(mem := w.doc, x := Utxo([], ""), lost := w.lost + (if BroadcastDone(pc) then 1 else 0))
  }

  function Restart(s: State): State {
    State(s.cfg, Reload(s.w, Owner(s)), None,
          map t | t in s.threads :: if s.threads[t].pc.Done? then s.threads[t] else s.threads[t].(pc := Done(Crashed)),
          s.coll)
  }

  function Confirm(w: Purse, id: bytes, more: nat): Purse {
    if id in w.chain then w.(chain := w.chain[id := w.chain[id].(confs := w.chain[id].confs + more)]) else w
  }

  function Next(s: State, st: Step): State {
    match st
    case Spawn(t, req) => if t in s.threads then s else s.(threads := s.threads[t := Thread(req, Start, None, false)])
    case Act(t, c) => if t in s.threads then ThreadStep(s, t, c) else s
    case Crash => Restart(s)
    case Mine(id, more) => s.(w := Confirm(s.w, id, more))
  }

  function Run(s: State, steps: seq<Step>): State {
    if steps == [] then s else Next(Run(s, steps[..|steps| - 1]), steps[|steps| - 1])
  }

  ghost predicate NoDup(q: seq<Utxo>) {
    forall i, j | 0 <= i < j < |q| :: q[i] != q[j]
  }

  function Elems(q: seq<Utxo>): set<Utxo> {
    set u | u in q
  }

  /** A funded wallet whose queue, in memory and saved, lists exactly its unspent outputs. */
  ghost predicate Funded(w: Purse) {
    && w.lost == w.sends == w.fees == 0 && w.doc == w.mem && Bounded(w.chain) && FeeRule(w.left)
    && (forall id | id in w.chain ::
          !w.chain[id].own && w.chain[id].body.addr == w.addr && !Spent(w.chain, id) && id != [])
    && NoDup(w.mem) && Elems(w.mem) == Unspent(w.chain, w.addr)
  }

  ghost predicate Init(s: State) {
    s.lock.None? && s.threads == map[] && s.coll == map[] && s.cfg.addr == s.w.addr && Funded(s.w)
  }
}
