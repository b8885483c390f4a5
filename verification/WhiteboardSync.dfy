/**
 The workers around the whiteboard documents: the shared store that gives every
 caller the same document, the snapshot persister, the web worker that applies
 browser operations, and the subscriber that applies published updates.
 */
module WhiteboardSync {
  import opened Wrappers
  import opened Loro
  import opened Whiteboard

  class DocStore {
    var docs: map<string, SharedDoc>
    var nextPeer: nat

    ghost predicate Valid()
      reads this, docs.Values
    {
      && (forall id :: id in docs ==> docs[id].Valid())
      && (forall a, b :: a in docs && b in docs && docs[a] == docs[b] ==> a == b)
    }

    constructor ()
      ensures Valid() && docs == map[]
    {
      docs, nextPeer := map[], 0;
    }

    /** One shared document per id. */
    method GetOrCreate(id: string) returns (d: SharedDoc)
      requires Valid()
      modifies this
      ensures Valid() && id in docs && docs[id] == d
      ensures id in old(docs) ==> docs == old(docs)
      ensures id !in old(docs) ==> fresh(d) && d.loro.log == [] && docs == old(docs)[id := d]
    {
      if id in docs { return docs[id]; }
      d := new SharedDoc(nextPeer);
      docs, nextPeer := docs[id := d], nextPeer + 1;
    }

    /** The operations of a document; none before it is first asked for. */
    ghost function OpsOf(id: string): set<Op>
      reads this, docs.Values
    {
      if id in docs then Ops(docs[id].loro.log) else {}
    }

    ghost function ShapesOf(id: string): map<string, Shape>
      reads this, docs.Values
    {
      if id in docs then Shapes(docs[id].loro.log) else map[]
    }
  }

  lemma EmptyLogShowsNothing()
    ensures Ops([]) == {} && Shapes([]) == map[]
  {
    ShapesAre([], map[]);
  }

  class MemoryPersister {
    var store: map<string, seq<Op>>

    constructor ()
      ensures store == map[]
    {
      store := map[];
    }

    method SaveSnapshot(id: string, snapshot: seq<Op>)
      modifies this
      ensures store == old(store)[id := snapshot]
    {
      store := store[id := snapshot];
    }

    /** A persister whose save may fail, as the one on PocketBase does. */
    method TrySave(id: string, snapshot: seq<Op>, saves: bool)
      modifies this
      ensures store == if saves then old(store)[id := snapshot] else old(store)
    {
      if saves { SaveSnapshot(id, snapshot); }
    }

    method LoadSnapshot(id: string) returns (r: Option<seq<Op>>)
      ensures r == if id in store then Some(store[id]) else None
    {
      r := if id in store then Some(store[id]) else None;
    }
  }

  datatype Update = Update(doc: string, ops: seq<Op>)

  /** What the other browsers of this instance are sent. */
  datatype Event =
    | ShapesEvent(doc: string, from: string, shapes: map<string, Shape>)
    | UpdateEvent(doc: string, from: string, ops: seq<Op>)

  class WebSyncWorker {
    const docs: DocStore
    const persister: MemoryPersister
    const nats: bool
    var published: seq<Update>
    var broadcast: seq<Event>

    constructor (docs: DocStore, persister: MemoryPersister, nats: bool)
      ensures this.docs == docs && this.persister == persister && this.nats == nats && published == [] && broadcast == []
    {
      this.docs, this.persister, this.nats, published, broadcast := docs, persister, nats, [], [];
    }

    /** A browser's add or clear: change the document, save it, send it to the other
        browsers, publish it. A save that fails is logged and stops nothing. A refused
        operation leaves everything as it was, but for the empty document that the
        lookup may have made. */
    method ApplyOp(id: string, from: string, op: ShapeOp, saves: bool) returns (r: Result<map<string, Shape>, string>)
      requires docs.Valid()
      modifies this, docs, docs.docs.Values, persister
      ensures docs.Valid() && id in docs.docs
      ensures docs.ShapesOf(id) == NextShapes(old(docs.ShapesOf(id)), op)
      ensures op.Add? ==> docs.ShapesOf(id) == old(docs.ShapesOf(id))[op.id := op.shape]
      ensures op.Clear? ==> docs.ShapesOf(id) == map[]
      ensures old(docs.OpsOf(id)) <= docs.OpsOf(id)
      ensures op.Unknown? <==> r.Err?
      ensures r.Ok? ==> r.value == docs.ShapesOf(id)
      ensures r.Ok? ==> Handed(old(persister.store), old(broadcast), old(published), id, docs.docs[id].loro.log, saves,
                               ShapesEvent(id, from, docs.ShapesOf(id)), docs.docs[id].loro.log)
      ensures r.Err? ==> persister.store == old(persister.store) && published == old(published) && broadcast == old(broadcast)
      ensures forall other :: other in old(docs.docs) && other != id ==>
                other in docs.docs && docs.docs[other] == old(docs.docs[other]) && docs.docs[other].loro == old(docs.docs[other].loro)
    {
      hide Wf, Ops, Shapes, NextShapes, Handed;
      EmptyLogShowsNothing();
      var d := docs.GetOrCreate(id);
      r := d.ApplyShapeOp(op);
      if r.Err? { return; }
      var snapshot := d.EncodeSnapshot();
      HandOn(id, snapshot, saves, ShapesEvent(id, from, r.value), snapshot);
    }

    /** The document was saved if it could be, sent to the others, and published if there is NATS. */
    ghost predicate Handed(store: map<string, seq<Op>>, sent: seq<Event>, shipped: seq<Update>,
                           id: string, snapshot: seq<Op>, saves: bool, event: Event, update: seq<Op>)
      reads this, persister
    {
      && persister.store == (if saves then store[id := snapshot] else store)
      && broadcast == sent + [event]
      && published == if nats then shipped + [Update(id, update)] else shipped
    }

    method HandOn(id: string, snapshot: seq<Op>, saves: bool, event: Event, update: seq<Op>)
      modifies this, persister
      ensures Handed(old(persister.store), old(broadcast), old(published), id, snapshot, saves, event, update)
    {
      persister.TrySave(id, snapshot, saves);
      broadcast := broadcast + [event];
      if nats { published := published + [Update(id, update)]; }
    }

    /** A client's own Loro update: merge it, save the result, send and publish the
        update itself. One that does not decode changes nothing. */
    method ApplyUpdate(id: string, from: string, update: Option<seq<Op>>, saves: bool) returns (r: Result<nat, string>)
      requires docs.Valid()
      requires update.Some? ==> Wf(update.value) && Consistent(docs.OpsOf(id) + Ops(update.value))
      modifies this, docs, docs.docs.Values, persister
      ensures docs.Valid() && id in docs.docs
      ensures docs.OpsOf(id) == old(docs.OpsOf(id)) + if update.Some? then Ops(update.value) else {}
      ensures update.Some? ==> r == Ok(|docs.docs[id].loro.log|)
      ensures update.Some? ==> Handed(old(persister.store), old(broadcast), old(published), id, docs.docs[id].loro.log, saves,
                                      UpdateEvent(id, from, update.value), update.value)
      ensures update.None? ==> r.Err? && persister.store == old(persister.store) && published == old(published) && broadcast == old(broadcast)
      ensures forall other :: other in old(docs.docs) && other != id ==>
                other in docs.docs && docs.docs[other] == old(docs.docs[other]) && docs.docs[other].loro == old(docs.docs[other].loro)
    {
      hide Wf, Consistent, Ops, Shapes, Handed;
      EmptyLogShowsNothing();
      var d := docs.GetOrCreate(id);
      if update.None? { return Err("decode update"); }
      d.ApplyUpdate(update.value);
      var snapshot := d.EncodeSnapshot();
      HandOn(id, snapshot, saves, UpdateEvent(id, from, update.value), update.value);
      return Ok(|snapshot|);
    }

    /** Opening a board: merge what was saved into the shared document. */
    method LoadSnapshot(id: string) returns (r: Option<seq<Op>>)
      requires docs.Valid()
      requires id in persister.store ==> Wf(persister.store[id]) && Consistent(docs.OpsOf(id) + Ops(persister.store[id]))
      modifies docs, docs.docs.Values
      ensures docs.Valid()
      ensures r == if id in persister.store then Some(persister.store[id]) else None
      ensures forall other :: other in old(docs.docs) && other != id ==>
                other in docs.docs && docs.docs[other] == old(docs.docs[other]) && docs.docs[other].loro == old(docs.docs[other].loro)
      ensures r.Some? ==> docs.OpsOf(id) == old(docs.OpsOf(id)) + Ops(persister.store[id])
      ensures r.None? ==> docs.docs == old(docs.docs) && docs.OpsOf(id) == old(docs.OpsOf(id))
    {
      r := persister.LoadSnapshot(id);
      if r.None? { return; }
      EmptyLogShowsNothing();
      var d := docs.GetOrCreate(id);
      d.ApplyUpdate(r.value);
    }
  }

  class SyncWorker {
    const docs: DocStore
    const persister: MemoryPersister

    constructor (docs: DocStore, persister: MemoryPersister)
      ensures this.docs == docs && this.persister == persister
    {
      this.docs, this.persister := docs, persister;
    }

    /** The subscription callback: merge the update, save the result. */
    method OnMessage(id: string, update: Option<seq<Op>>, saves: bool)
      requires docs.Valid()
      requires update.Some? ==> Wf(update.value) && Consistent(docs.OpsOf(id) + Ops(update.value))
      modifies docs, docs.docs.Values, persister
      ensures docs.Valid()
      ensures id != "" ==> id in docs.docs
      ensures id != "" ==> docs.OpsOf(id) == old(docs.OpsOf(id)) + if update.Some? then Ops(update.value) else {}
      ensures id != "" ==>
                persister.store == if update.Some? && saves then old(persister.store)[id := docs.docs[id].loro.log] else old(persister.store)
      ensures id == "" ==> docs.docs == old(docs.docs) && persister.store == old(persister.store)
      ensures forall other :: other in old(docs.docs) && other != id ==>
                other in docs.docs && docs.docs[other] == old(docs.docs[other]) && docs.docs[other].loro == old(docs.docs[other].loro)
    {
      hide Wf, Consistent, Ops, Shapes;
      if id == "" { return; }
      EmptyLogShowsNothing();
      var d := docs.GetOrCreate(id);
      if update.None? { return; }
      d.ApplyUpdate(update.value);
      var snapshot := d.EncodeSnapshot();
      persister.TrySave(id, snapshot, saves);
    }
  }
}
