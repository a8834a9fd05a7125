/** Package store: anchor entities in one collection, keyed by the hex text of both ids. */
module Store {
  import opened Base
  import opened OpReturn
  import opened Ledger
  import Hex

  datatype Entity = Entity(cid: string, dom: bytes, tx: bytes, version: byte, net: byte, anchorTime: Time,
                           btctx: bytes, txTime: Time, confs: nat, domName: string, note: string)

  type Coll = map<string, Entity>

  function Cid(dom: bytes, tx: bytes): string {
    Hex.Encode(dom) + Hex.Encode(tx)
  }

  function NewAnchorEntity(r: AnchorRecord): Entity {
    Entity(Cid(r.anchor.dom, r.anchor.tx), r.anchor.dom, r.anchor.tx, r.anchor.version, r.anchor.net, r.anchor.time,
           r.btctx, r.txTime, r.confs, r.domName, r.note)
  }

  /** AnchorEntity.AnchorRecord: the ids are copied into [32]byte values. */
  function Record(e: Entity): AnchorRecord {
    AnchorRecord(Anchor(e.version, e.net, e.anchorTime, Pad32(e.dom), Pad32(e.tx)), e.btctx, e.txTime, e.confs,
        e.domName, e.note)
  }

  lemma EntityRoundTrip(r: AnchorRecord)
    ensures Record(NewAnchorEntity(r)) == r
  {
    PadIdentity(r.anchor.dom);
    PadIdentity(r.anchor.tx);
  }

  function PutAt(coll: Coll, r: AnchorRecord, save: Save): Coll {
    var e := NewAnchorEntity(r);
    if save.NotSaved? then coll else coll[e.cid := e]
  }

  /** The three fields an update may change; None leaves a field alone. */
  datatype Mods = Mods(confs: Option<nat>, domName: Option<string>, note: Option<string>)

  function Modified(e: Entity, m: Mods): Entity {
    var e1 := if m.confs.Some? then e.(confs := m.confs.value) else e;
    var e2 := if m.domName.Some? then e1.(domName := m.domName.value) else e1;
    if m.note.Some? then e2.(note := m.note.value) else e2
  }

  function UpdateAt(coll: Coll, key: string, m: Mods, save: Save): Coll {
    if key in coll && !save.NotSaved? then coll[key := Modified(coll[key], m)] else coll
  }

  /** Every entity sits under the key formed from its own 32-byte ids. */
  ghost predicate Indexed(coll: Coll) {
    forall k | k in coll ::
      |coll[k].dom| == 32 && |coll[k].tx| == 32 && k == coll[k].cid == Cid(coll[k].dom, coll[k].tx)
  }

  lemma PutKeepsIndexed(coll: Coll, r: AnchorRecord, save: Save)
    requires Indexed(coll)
    ensures Indexed(PutAt(coll, r, save)) && coll.Keys <= PutAt(coll, r, save).Keys
  {
  }

  lemma UpdateKeepsIndexed(coll: Coll, key: string, m: Mods, save: Save)
    requires Indexed(coll)
    ensures Indexed(UpdateAt(coll, key, m, save)) && UpdateAt(coll, key, m, save).Keys == coll.Keys
  {
    if key in coll && !save.NotSaved? {
      ModifiedFields(coll[key], m);
      var e := Modified(coll[key], m);
      assert UpdateAt(coll, key, m, save) == coll[key := e];
    }
  }

  /** An update touches confirmations, domain name and note only. */
  lemma ModifiedFields(e: Entity, m: Mods)
    ensures var e' := Modified(e, m);
            && e' == e.(confs := e'.confs, domName := e'.domName, note := e'.note)
            && e'.confs == (if m.confs.Some? then m.confs.value else e.confs)
            && e'.domName == (if m.domName.Some? then m.domName.value else e.domName)
            && e'.note == (if m.note.Some? then m.note.value else e.note)
  {
  }

  /** Two pairs share a key exactly when their concatenations agree: the key forgets the boundary. */
  lemma CidConcat(dom: bytes, tx: bytes, dom': bytes, tx': bytes)
    ensures Cid(dom, tx) == Cid(dom', tx') <==> dom + tx == dom' + tx'
  {
    Hex.EncodeConcat(dom, tx);
    Hex.EncodeConcat(dom', tx');
    Hex.EncodeInjective(dom + tx, dom' + tx');
  }

  lemma CidInjective(dom: bytes, tx: bytes, dom': bytes, tx': bytes)
    requires |dom| == |dom'|
    ensures Cid(dom, tx) == Cid(dom', tx') <==> dom == dom' && tx == tx'
  {
    CidConcat(dom, tx, dom', tx');
    if dom + tx == dom' + tx' {
      assert dom == (dom + tx)[..|dom|] && tx == (dom + tx)[|dom|..];
      assert dom' == (dom' + tx')[..|dom'|] && tx' == (dom' + tx')[|dom'|..];
    }
  }

  predicate Zeros(s: bytes) {
    forall i | 0 <= i < |s| :: s[i] == 0
  }

  /**
    When a pair is looked up under the key its own record is stored under: both ids are 32 bytes, or
    their lengths total 64 and the bytes that padding and truncation shift across are all zero.
   */
  predicate Findable(dom: bytes, tx: bytes) {
    || (|dom| == 32 && |tx| == 32)
    || (|dom| + |tx| == 64 && |dom| < 32 && Zeros(tx))
    || (|dom| + |tx| == 64 && |dom| > 32 && Zeros(dom[32..]) && Zeros(tx))
  }

  lemma FoundUnderRawKey(dom: bytes, tx: bytes)
    ensures Cid(dom, tx) == Cid(Pad32(dom), Pad32(tx)) <==> Findable(dom, tx)
  {
    CidConcat(dom, tx, Pad32(dom), Pad32(tx));
    if |dom| + |tx| != 64 {
      assert |Pad32(dom) + Pad32(tx)| == 64;
    } else if |dom| < 32 {
      ShortDomain(dom, tx);
    } else if |dom| > 32 {
      LongDomain(dom, tx);
    }
  }

  lemma ShortDomain(dom: bytes, tx: bytes)
    requires |dom| < 32 && |dom| + |tx| == 64
    ensures dom + tx == Pad32(dom) + Pad32(tx) <==> Zeros(tx)
  {
    var raw, padded := dom + tx, Pad32(dom) + Pad32(tx);
    if raw == padded {
      assert forall i | 0 <= i < |tx| :: tx[i] == raw[|dom| + i] == padded[|dom| + i];
      forall i | 0 <= i < |tx|
        ensures tx[i] == 0
      {
        ShiftedUp(tx, 32 - |dom|, i);
      }
    }
  }

  lemma LongDomain(dom: bytes, tx: bytes)
    requires |dom| > 32 && |dom| + |tx| == 64
    ensures dom + tx == Pad32(dom) + Pad32(tx) <==> Zeros(dom[32..]) && Zeros(tx)
  {
    var raw, padded := dom + tx, Pad32(dom) + Pad32(tx);
    var s := dom[32..] + tx;
    if raw == padded {
      assert forall i | 0 <= i < 32 :: s[i] == raw[32 + i] == padded[32 + i];
      forall i | 0 <= i < 32
        ensures s[i] == 0
      {
        ShiftedDown(s, |dom| - 32, i);
      }
      assert forall i | 0 <= i < |tx| :: tx[i] == s[|dom| - 32 + i];
      assert forall i | 0 <= i < |dom| - 32 :: dom[32..][i] == s[i];
    }
  }

  lemma {:induction false} ShiftedUp(s: bytes, k: nat, i: nat)
    requires k > 0 && i < |s|
    requires forall j | 0 <= j < k && j < |s| :: s[j] == 0
    requires forall j | k <= j < |s| :: s[j] == s[j - k]
    ensures s[i] == 0
  {
    if i >= k {
      ShiftedUp(s, k, i - k);
    }
  }

  lemma {:induction false} ShiftedDown(s: bytes, k: nat, i: nat)
    requires k > 0 && i < |s|
    requires forall j | |s| - k <= j < |s| && 0 <= j :: s[j] == 0
    requires forall j | 0 <= j < |s| - k :: s[j] == s[j + k]
    ensures s[i] == 0
    decreases |s| - i
  {
    if i < |s| - k {
      ShiftedDown(s, k, i + k);
    }
  }

  /** A successful lookup, with ids of any length, finds a record of the same concatenated ids. */
  lemma LookupFindsSameBytes(coll: Coll, dom: bytes, tx: bytes)
    requires Indexed(coll) && Cid(dom, tx) in coll
    ensures var r := Record(coll[Cid(dom, tx)]); r.anchor.dom + r.anchor.tx == dom + tx
  {
    var e := coll[Cid(dom, tx)];
    CidConcat(dom, tx, e.dom, e.tx);
    PadIdentity(e.dom);
    PadIdentity(e.tx);
  }

  datatype FieldValue = Number(n: nat) | Text(s: string)

  /** Class Docstore over an opened collection. */
  class Docstore {
    var coll: Coll

    method PutEntity(e: Entity, save: Save) returns (r: Result<()>)
      modifies this
      ensures coll == if save.NotSaved? then old(coll) else old(coll)[e.cid := e]
      ensures r == if save.Saved? then Ok(()) else Err(FailedToPut)
    {
      if !save.NotSaved? {
        coll := coll[e.cid := e];
      }
      return if save.Saved? then Ok(()) else Err(FailedToPut);
    }

    method GetEntity(cid: string, works: bool) returns (r: Result<Entity>)
      ensures r == if works && cid in coll then Ok(coll[cid]) else Err(FailedToGet)
    {
      if works && cid in coll {
        return Ok(coll[cid]);
      }
      return Err(FailedToGet);
    }

    /** UpdateEntity collects the chosen fields in mod and updates the existing document only. */
    method UpdateEntity(e: Entity, confs: bool, dom: bool, note: bool, save: Save) returns (r: Result<()>)
      modifies this
      ensures coll == UpdateAt(old(coll), e.cid, Mods(if confs then Some(e.confs) else None,
                        if dom then Some(e.domName) else None, if note then Some(e.note) else None), save)
      ensures r == if e.cid in old(coll) && save.Saved? then Ok(()) else Err(FailedToUpdate)
    {
      var mod: map<string, FieldValue> := map[];
      if confs {
        mod := mod["confirmations" := Number(e.confs)];
      }
      if dom {
        mod := mod["bbc1dom" := Text(e.domName)];
      }
      if note {
        mod := mod["note" := Text(e.note)];
      }
      if e.cid !in coll {
        return Err(FailedToUpdate);
      }
      if !save.NotSaved? {
        var d := coll[e.cid];
        if "confirmations" in mod && mod["confirmations"].Number? {
          d := d.(confs := mod["confirmations"].n);
        }
        if "bbc1dom" in mod && mod["bbc1dom"].Text? {
          d := d.(domName := mod["bbc1dom"].s);
        }
        if "note" in mod && mod["note"].Text? {
          d := d.(note := mod["note"].s);
        }
        coll := coll[e.cid := d];
      }
      return if save.Saved? then Ok(()) else Err(FailedToUpdate);
    }

    method Put(rec: AnchorRecord, save: Save) returns (r: Result<()>)
      modifies this
      ensures coll == PutAt(old(coll), rec, save)
      ensures !save.NotSaved? ==> var key := Cid(rec.anchor.dom, rec.anchor.tx);
                                  && key in coll && Record(coll[key]) == rec
                                  && forall k | k in old(coll) && k != key :: k in coll && coll[k] == old(coll)[k]
      ensures r == if save.Saved? then Ok(()) else Err(FailedToPut)
    {
      PutIsReadBack(coll, rec, save);
      r := PutEntity(NewAnchorEntity(rec), save);
    }

    method Get(bbc1dom: bytes, bbc1tx: bytes, works: bool) returns (r: Result<AnchorRecord>)
      ensures r == if works && Cid(bbc1dom, bbc1tx) in coll then Ok(Record(coll[Cid(bbc1dom, bbc1tx)]))
              else Err(FailedToGet)
    {
      var e := GetEntity(Hex.Encode(bbc1dom) + Hex.Encode(bbc1tx), works);
      if e.Err? {
        return Err(e.error);
      }
      return Ok(Record(e.value));
    }

    method UpdateConfirmations(bbc1dom: bytes, bbc1tx: bytes, confs: nat, save: Save) returns (r: Result<()>)
      modifies this
      ensures coll == UpdateAt(old(coll), Cid(bbc1dom, bbc1tx), Mods(Some(confs), None, None), save)
      ensures r == if Cid(bbc1dom, bbc1tx) in old(coll) && save.Saved? then Ok(()) else Err(FailedToUpdate)
    {
      r := UpdateEntity(Blank(bbc1dom, bbc1tx).(confs := confs), true, false, false, save);
    }

    method UpdateBBc1DomainName(bbc1dom: bytes, bbc1tx: bytes, domName: string, save: Save) returns (r: Result<()>)
      modifies this
      ensures coll == UpdateAt(old(coll), Cid(bbc1dom, bbc1tx), Mods(None, Some(domName), None), save)
      ensures r == if Cid(bbc1dom, bbc1tx) in old(coll) && save.Saved? then Ok(()) else Err(FailedToUpdate)
    {
      r := UpdateEntity(Blank(bbc1dom, bbc1tx).(domName := domName), false, true, false, save);
    }

    method UpdateNote(bbc1dom: bytes, bbc1tx: bytes, note: string, save: Save) returns (r: Result<()>)
      modifies this
      ensures coll == UpdateAt(old(coll), Cid(bbc1dom, bbc1tx), Mods(None, None, Some(note)), save)
      ensures r == if Cid(bbc1dom, bbc1tx) in old(coll) && save.Saved? then Ok(()) else Err(FailedToUpdate)
    {
      r := UpdateEntity(Blank(bbc1dom, bbc1tx).(note := note), false, false, true, save);
    }
  }

  /** &AnchorEntity{CID: ...}: every other field has its zero value. */
  function Blank(dom: bytes, tx: bytes): Entity {
    Entity(Cid(dom, tx), [], [], 0, 0, Time(0, 0), [], Time(0, 0), 0, "", "")
  }

  /** The key is the printed text of both ids, one after the other. */
  lemma CidText(dom: bytes, tx: bytes)
    ensures Cid(dom, tx) == Hex.Encode(dom + tx)
    ensures Hex.Decode(Cid(dom, tx)) == Some(dom + tx)
  {
    Hex.EncodeConcat(dom, tx);
    Hex.DecodeEncode(dom + tx);
  }

  /** The columns of an entity. */
  lemma EntityColumns(r: AnchorRecord)
    ensures var e := NewAnchorEntity(r);
            && e.cid == Hex.Encode(r.anchor.dom + r.anchor.tx) && e.dom == r.anchor.dom && e.tx == r.anchor.tx
            && e.version == r.anchor.version && e.net == r.anchor.net && e.anchorTime == r.anchor.time
            && e.btctx == r.btctx && e.txTime == r.txTime && e.confs == r.confs
            && e.domName == r.domName && e.note == r.note
  {
    CidText(r.anchor.dom, r.anchor.tx);
  }

  /**
    A Put that happens is read back as it was put, whatever was stored under its key before, and leaves
    every other key alone; one that does not happen changes nothing.
   */
  lemma PutIsReadBack(coll: Coll, r: AnchorRecord, save: Save)
    ensures var coll', key := PutAt(coll, r, save), Cid(r.anchor.dom, r.anchor.tx);
            && (save.NotSaved? ==> coll' == coll)
            && (!save.NotSaved? ==> && coll'.Keys == coll.Keys + {key} && Record(coll'[key]) == r
                                    && forall k | k in coll && k != key :: coll'[k] == coll[k])
  {
    EntityRoundTrip(r);
  }

  /** An update that happens changes the chosen fields of the one entity, and creates none. */
  lemma UpdateExactly(coll: Coll, key: string, m: Mods, save: Save)
    ensures var coll' := UpdateAt(coll, key, m, save);
            && coll'.Keys == coll.Keys && (forall k | k in coll && k != key :: coll'[k] == coll[k])
            && (save.NotSaved? ==> coll' == coll)
            && (key in coll && !save.NotSaved? ==>
                  coll'[key] == coll[key].(confs := if m.confs.Some? then m.confs.value else coll[key].confs,
                                           domName := if m.domName.Some? then m.domName.value else coll[key].domName,
                                           note := if m.note.Some? then m.note.value else coll[key].note))
  {
    if key in coll {
      ModifiedFields(coll[key], m);
    }
  }
}
