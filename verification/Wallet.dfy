/** Package btc: DocstoreWallet, a queue of UTXOs held in a Go slice and saved as one document. */
module Wallet {
  import opened Base
  import opened Ledger

  /** The queue in memory and the stored document; None when the address has no document. */
  datatype State = State(q: seq<Utxo>, doc: Option<seq<Utxo>>)

  function AfterSave(w: State, save: Save): State {
    if save.NotSaved? then w else w.(doc := Some(w.q))
  }

  datatype Op = Add(u: Utxo, save: Save) | Peek | Next(save: Save)

  function Apply(w: State, op: Op): State {
    match op
    case Add(u, save) => AfterSave(w.(q := w.q + [u]), save)
    case Peek => w
    case Next(save) => if w.q == [] then w else AfterSave(w.(q := w.q[1..]), save)
  }

  function Run(w: State, ops: seq<Op>): State {
    if ops == [] then w else Apply(Run(w, ops[..|ops| - 1]), ops[|ops| - 1])
  }

  /** The elements a run takes out and puts in, in order, also where the save fails. */
  function Removed(w: State, ops: seq<Op>): seq<Utxo> {
    if ops == [] then []
    else
      var init := ops[..|ops| - 1];
      var before := Run(w, init);
      Removed(w, init) + if ops[|ops| - 1].Next? && before.q != [] then [before.q[0]] else []
  }

  function Added(ops: seq<Op>): seq<Utxo> {
    if ops == [] then []
    else Added(ops[..|ops| - 1]) + if ops[|ops| - 1].Add? then [ops[|ops| - 1].u] else []
  }

  /** One operation: what leaves and what comes. */
  lemma FifoStep(w: State, op: Op)
    ensures var out := if op.Next? && w.q != [] then [w.q[0]] else [];
            out + Apply(w, op).q == w.q + if op.Add? then [op.u] else []
  {
  }

  lemma Splice(a: seq<Utxo>, out: seq<Utxo>, q: seq<Utxo>, b: seq<Utxo>, c: seq<Utxo>, d: seq<Utxo>, p: seq<Utxo>)
    requires out + q == p + d && a + p == b + c
    ensures (a + out) + q == b + (c + d)
  {
    assert (a + out) + q == a + (out + q) == a + (p + d) == (a + p) + d == (b + c) + d;
  }

  /** First in, first out, over every run and every pattern of failed saves. */
  lemma {:induction false} Fifo(w: State, ops: seq<Op>)
    ensures Removed(w, ops) + Run(w, ops).q == w.q + Added(ops)
  {
    if ops == [] {
    } else {
      var init, op := ops[..|ops| - 1], ops[|ops| - 1];
      var before := Run(w, init);
      Fifo(w, init);
      FifoStep(before, op);
      Splice(Removed(w, init), if op.Next? && before.q != [] then [before.q[0]] else [], Run(w, ops).q,
             w.q, Added(init), if op.Add? then [op.u] else [], before.q);
    }
  }

  /** Whether an operation stored the queue. */
  predicate Stores(w: State, op: Op) {
    match op
    case Add(_, save) => !save.NotSaved?
    case Peek => false
    case Next(save) => w.q != [] && !save.NotSaved?
  }

  /** Step i of a run is the last one that stored the queue. */
  ghost predicate LastStore(w: State, ops: seq<Op>, i: int) {
    && 0 <= i < |ops| && Stores(Run(w, ops[..i]), ops[i])
    && forall j | i < j < |ops| :: !Stores(Run(w, ops[..j]), ops[j])
  }

  /** The document is the queue as the last storing operation left it, and that is what a reload gives. */
  lemma {:induction false} DocumentIsSnapshot(w: State, ops: seq<Op>, i: int)
    requires LastStore(w, ops, i)
    ensures Run(w, ops).doc == Some(Run(w, ops[..i + 1]).q)
  {
    var n := |ops| - 1;
    var init := ops[..n];
    if i == n {
      assert ops[..n + 1] == ops;
    } else {
      assert forall j | 0 <= j <= n :: init[..j] == ops[..j];
      DocumentIsSnapshot(w, init, i);
      assert !Stores(Run(w, ops[..n]), ops[n]);
    }
  }

  class DocstoreWallet {
    /** The slice w.q: len elements of backing from off; its capacity is backing.Length - off. */
    var backing: array<Utxo>
    var off: nat
    var len: nat
    const addr: string
    /** The document of addr in the collection. */
    var doc: Option<seq<Utxo>>

    ghost predicate Valid()
      reads this
    {
      off + len <= backing.Length
    }

    function Queue(): seq<Utxo>
      requires Valid()
      reads this, backing
    {
      backing[off..off + len]
    }

    function Abs(): State
      requires Valid()
      reads this, backing
    {
      State(Queue(), doc)
    }

    /** MustNewDocstoreWallet: a failed load leaves the queue nil and is only logged. */
    constructor (addr: string, doc: Option<seq<Utxo>>, loads: bool)
      ensures Valid() && fresh(backing) && this.addr == addr && this.doc == doc
      ensures Queue() == if loads && doc.Some? then doc.value else []
    {
      this.addr, this.doc := addr, doc;
      backing := new Utxo[0];
      off, len := 0, 0;
      new;
      var err := Load(loads);
    }

    method Load(works: bool) returns (r: Result<()>)
      requires Valid()
      modifies this
      ensures Valid() && doc == old(doc)
      ensures r.Ok? <==> works && doc.Some?
      ensures if r.Ok? then fresh(backing) && Queue() == doc.value
              else backing == old(backing) && off == old(off) && len == old(len)
    {
      if !works || doc.None? {
        return Err(CouldNotLoadWallet);
      }
      var utxos := doc.value;
      backing := new Utxo[|utxos|](i requires 0 <= i < |utxos| => utxos[i]);
      off, len := 0, |utxos|;
      assert Queue() == utxos;
      return Ok(());
    }

    method Save(o: Save) returns (r: Result<()>)
      requires Valid()
      modifies this`doc
      ensures Abs() == AfterSave(old(Abs()), o)
      ensures r.Ok? <==> o.Saved?
    {
      if !o.NotSaved? {
        doc := Some(Queue());
      }
      return if o.Saved? then Ok(()) else Err(CouldNotSaveWallet);
    }

    /** append: in place while the capacity lasts, else into a larger copy with spare room. */
    method Enqueue(v: Utxo, spare: nat)
      requires Valid()
      modifies this, backing
      ensures Valid() && (backing == old(backing) || fresh(backing))
      ensures Queue() == old(Queue()) + [v] && doc == old(doc)
    {
      if off + len == backing.Length {
        var larger := new Utxo[len + 1 + spare];
        forall i | 0 <= i < len {
          larger[i] := backing[off + i];
        }
        assert larger[..len] == Queue();
        backing, off := larger, 0;
      }
      backing[off + len] := v;
      len := len + 1;
    }

    method Dequeue() returns (r: Result<Utxo>)
      requires Valid()
      modifies this
      ensures Valid() && backing == old(backing) && doc == old(doc)
      ensures if old(Queue()) == [] then r == Err(CouldNotGetNextUTXO) else r.Ok?
      ensures if r.Ok? then [r.value] + Queue() == old(Queue()) else Queue() == old(Queue())
    {
      if len == 0 {
        return Err(CouldNotGetNextUTXO);
      }
      r := Ok(backing[off]);
      off, len := off + 1, len - 1;
    }

    method PeekNextUTXO() returns (r: Result<Utxo>)
      requires Valid()
      ensures r == if Queue() == [] then Err(CouldNotGetNextUTXO) else Ok(Queue()[0])
    {
      if len == 0 {
        return Err(CouldNotGetNextUTXO);
      }
      return Ok(backing[off]);
    }

    /** A failed save loses the element for the caller: it has already left the queue. */
    method NextUTXO(o: Save) returns (r: Result<Utxo>)
      requires Valid()
      modifies this
      ensures Valid() && backing == old(backing)
      ensures Abs() == Apply(old(Abs()), Next(o))
      ensures r == if old(Queue()) != [] && o.Saved? then Ok(old(Queue())[0]) else Err(CouldNotGetNextUTXO)
    {
      var v := Dequeue();
      if v.Err? {
        return v;
      }
      assert Queue() == old(Queue())[1..];
      var err := Save(o);
      if err.Err? {
        return Err(CouldNotGetNextUTXO);
      }
      return v;
    }

    method AddUTXO(txid: bytes, addr: string, spare: nat, o: Save) returns (r: Result<()>)
      requires Valid()
      modifies this, backing
      ensures Valid() && (backing == old(backing) || fresh(backing))
      ensures Abs() == Apply(old(Abs()), Add(Utxo(txid, addr), o))
      ensures r == if o.Saved? then Ok(()) else Err(CouldNotAddUTXO)
    {
      Enqueue(Utxo(txid, addr), spare);
      var err := Save(o);
      if err.Err? {
        return Err(CouldNotAddUTXO);
      }
      return Ok(());
    }
  }

  /** What each operation leaves in memory and in the document, for each outcome of its save. */
  lemma ApplyExactly(w: State, u: Utxo, save: Save)
    ensures Apply(w, Peek) == w
    ensures var a := Apply(w, Add(u, save));
            a.q == w.q + [u] && a.doc == if save.NotSaved? then w.doc else Some(w.q + [u])
    ensures w.q == [] ==> Apply(w, Next(save)) == w
    ensures w.q != [] ==> var n := Apply(w, Next(save));
                          && [w.q[0]] + n.q == w.q && n.doc == if save.NotSaved? then w.doc else Some(n.q)
  {
  }
}
