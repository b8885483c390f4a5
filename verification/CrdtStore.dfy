/**
 The CRDT-backed todo store: one Loro document per owner in memory, projected
 into the `todos` table after every change and rebuilt from it on first access.
 */
module CrdtStore {
  import opened Wrappers
  import opened Loro
  import opened TodoItems
  import opened TodosTable
  import opened TodoSpec

  /** What a mutation ships to peer instances: the whole log, from an empty version vector. */
  datatype Shipped = Shipped(owner: string, opId: string, update: seq<Op>)

  class CRDTStore {
    const app: Table
    const transport: bool
    var docs: map<string, Doc>
    var versions: map<string, nat>
    var published: seq<(string, nat)>
    var sent: seq<Shipped>
    var nextPeer: nat

    ghost predicate Valid()
      reads this, app
    {
      && app.Valid()
      && forall o :: o in docs ==> Wf(docs[o].log)
    }

    ghost function Now(): State
      reads this, app
    {
      State(docs, app.rows)
    }

    function Version(owner: string): nat
      reads this
    {
      if owner in versions then versions[owner] else 0
    }

    constructor (app: Table, transport: bool, firstPeer: nat)
      requires app.Valid()
      ensures Valid() && Now() == State(map[], app.rows) && sent == [] && published == []
      ensures this.app == app
    {
      this.app, this.transport := app, transport;
      docs, versions, published, sent, nextPeer := map[], map[], [], [], firstPeer;
    }

    // ---- loading ----

    /** The owner's document, rebuilt from the table on first access. */
    method LoadDoc(owner: string) returns (r: Option<Doc>)
      requires Valid()
      modifies this`docs, this`nextPeer
      ensures Valid()
      ensures owner in old(docs) ==> docs == old(docs) && r == Some(docs[owner])
      ensures r.None? ==> docs == old(docs)
      ensures r.Some? ==> docs == old(docs)[owner := r.value]
      ensures r.Some? ==> Wf(r.value.log)
      ensures r.Some? && owner !in old(docs) ==> r.value.peer == old(nextPeer) && nextPeer > old(nextPeer)
      ensures nextPeer >= old(nextPeer)
      ensures r.Some? && old(Loadable(Now(), owner)) ==> Items(r.value.log) == old(View(Now(), owner))
      ensures r.Some? && owner !in old(docs) ==> forall o :: o in r.value.log ==> o.tag.peer == old(nextPeer)
      ensures r.Some? && owner !in old(docs) ==>
                exists page :: IsPage(app.rows, owner, page) && Items(r.value.log) == Projection(Restrict(app.rows, page), owner)
    {
      if owner in docs { return Some(docs[owner]); }
      var d := Doc(nextPeer, []);
      nextPeer := nextPeer + 1;
      var page := app.FindByOwner(owner);
      if page.None? { return None; }
      d := Rebuild(d, owner, page.value);
      docs := docs[owner := d];
      if Fits(app.rows, owner) { RestrictToOwner(app.rows, owner, page.value); }
      return Some(d);
    }

    method Rebuild(empty: Doc, owner: string, page: set<nat>) returns (d: Doc)
      requires Valid() && page <= RowsOf(app.rows, owner) && empty.log == []
      ensures Rebuilt(d, app.rows, owner, page) && d.peer == empty.peer
    {
      hide Rebuilt, PutItem, NoDup;
      d := empty;
      var left, done: set<nat> := page, {};
      RebuildStart(d, app.rows, owner);
      while left != {}
        invariant left <= page && done == page - left
        invariant Rebuilt(d, app.rows, owner, done) && d.peer == empty.peer
      {
        var i :| i in left;
        var row := app.rows[i];
        RebuildNext(d, app.rows, owner, done, i);
        d := PutItem(d, row.idemKey, RowRef(i), row.item);
        left, done := left - {i}, done + {i};
      }
      assert done == page;
    }

    // ---- projecting ----

    method BumpVersion(owner: string)
      modifies this`versions, this`published
      ensures versions == old(versions)[owner := old(Version(owner)) + 1]
      ensures published == old(published) + [(owner, old(Version(owner)) + 1)]
    {
      var v := Version(owner) + 1;
      versions := versions[owner := v];
      published := published + [(owner, v)];
    }

    /** Projects the document into the table: bump, upsert every todo, delete the
        stale rows of one page. Ids are visited in any order. */
    method PersistRecords(owner: string, d: Doc) returns (ok: bool)
      requires Valid()
      modifies this`versions, this`published, app
      ensures Valid()
      ensures versions == old(versions)[owner := old(Version(owner)) + 1]
      ensures published == old(published) + [(owner, old(Version(owner)) + 1)]
      ensures Others(app.rows, owner) == old(Others(app.rows, owner))
      ensures ok ==>
                exists up, page ::
                  && NoDup(up) && Projection(up, owner) == old(Projection(app.rows, owner)) + Items(d.log)
                  && IsPage(up, owner, page)
                  && app.rows == Swept(up, owner, Items(d.log), page)
      ensures ok && WithinPage(old(app.rows), owner, Items(d.log)) ==> Projection(app.rows, owner) == Items(d.log)
      ensures Between(old(Projection(app.rows, owner)), Projection(app.rows, owner), Items(d.log))
    {
      hide Projection, Items, WithinPage, Others, Swept, Between;
      BumpVersion(owner);
      var want := CollectItems(d);
      ghost var was := Projection(app.rows, owner);
      ok := UpsertAll(owner, want);
      if !ok { return; }
      ghost var up := app.rows;
      var page := app.FindByOwner(owner);
      if page.None? { return false; }
      ghost var gone;
      ok, gone := DeleteStale(owner, want, page.value);
      assert Between(was, Projection(app.rows, owner), want) by {
        SweepShrinks(up, owner, want, gone);
        StillBetween(was, Projection(up, owner), Projection(app.rows, owner), want);
      }
      if ok && WithinPage(old(app.rows), owner, want) {
        PageReaches(old(app.rows), up, owner, want, page.value);
        ProjectionKeys(up, owner);
        SweptExactly(up, owner, want, page.value);
      }
    }

    method CollectItems(d: Doc) returns (want: map<string, Item>)
      ensures want == Items(d.log)
    {
      want := map[];
      var left := LiveIds(d.log);
      while left != {}
        invariant left <= LiveIds(d.log)
        invariant want == map id | id in LiveIds(d.log) - left :: Decode(d.log, ItemMap(d.log, id))
      {
        var id :| id in left;
        want := want[id := Decode(d.log, ItemMap(d.log, id))];
        left := left - {id};
      }
    }

    method UpsertAll(owner: string, want: map<string, Item>) returns (ok: bool)
      requires Valid()
      modifies app
      ensures Valid()
      ensures Others(app.rows, owner) == old(Others(app.rows, owner))
      ensures ok ==> Projection(app.rows, owner) == old(Projection(app.rows, owner)) + want
      ensures Between(old(Projection(app.rows, owner)), Projection(app.rows, owner), want)
    {
      hide Projection, Others;
      ghost var was: map<string, Item>, done: map<string, Item> := Projection(app.rows, owner), map[];
      var left := want.Keys;
      while left != {}
        invariant Valid()
        invariant left <= want.Keys && done.Keys == want.Keys - left
        invariant forall id :: id in done ==> done[id] == want[id]
        invariant Others(app.rows, owner) == old(Others(app.rows, owner))
        invariant Projection(app.rows, owner) == was + done
      {
        var id :| id in left;
        ok := UpsertTodoRecord(owner, id, want[id]);
        if !ok {
          PartlyWanted(was, done, want);
          return;
        }
        PutLast(was, done, id, want[id]);
        done, left := done[id := want[id]], left - {id};
      }
      assert done == want;
      PartlyWanted(was, done, want);
      return true;
    }

    /** Writes one todo under the row that carries its id as idem_key, or a new row. */
    method UpsertTodoRecord(owner: string, id: string, item: Item) returns (ok: bool)
      requires Valid()
      modifies app
      ensures Valid()
      ensures Others(app.rows, owner) == old(Others(app.rows, owner))
      ensures Projection(app.rows, owner)
              == if ok then old(Projection(app.rows, owner))[id := item] else old(Projection(app.rows, owner))
    {
      var at := app.FindFirst(owner, id);
      ok := app.Save(at, Row(owner, id, item));
    }

    method DeleteStale(owner: string, want: map<string, Item>, page: set<nat>) returns (ok: bool, ghost done: set<nat>)
      requires Valid() && page <= RowsOf(app.rows, owner)
      modifies app
      ensures Valid()
      ensures Others(app.rows, owner) == old(Others(app.rows, owner))
      ensures done <= page && (ok ==> done == page)
      ensures app.rows == Swept(old(app.rows), owner, want, done)
    {
      hide NoDup;
      var left: set<nat> := page;
      done := {};
      ghost var was := app.rows;
      while left != {}
        invariant Valid()
        invariant left <= page && done == page - left
        invariant app.rows == Swept(was, owner, want, done)
      {
        var i :| i in left;
        if app.rows[i].idemKey !in want {
          ok := app.Delete(i);
          if !ok { return; }
        }
        left, done := left - {i}, done + {i};
      }
      ok := true;
    }

    method PublishOpFromDoc(owner: string, opId: string, d: Doc)
      modifies this`sent
      ensures sent == if transport then old(sent) + [Shipped(owner, opId, d.log)] else old(sent)
    {
      if transport { sent := sent + [Shipped(owner, opId, d.log)]; }
    }

    /** The tail of every mutation: the document is already changed, project it, ship it. */
    method Commit(owner: string, opId: string, d: Doc) returns (ok: bool)
      requires Valid() && Wf(d.log)
      modifies this, app
      ensures Valid() && docs == old(docs)[owner := d]
      ensures versions == old(versions)[owner := old(Version(owner)) + 1]
      ensures published == old(published) + [(owner, old(Version(owner)) + 1)]
      ensures sent == if ok && transport then old(sent) + [Shipped(owner, opId, d.log)] else old(sent)
      ensures ok ==> Announced(old(published), old(Version(owner)) + 1, old(sent), owner, opId)
      ensures Others(app.rows, owner) == old(Others(app.rows, owner))
      ensures ok && WithinPage(old(app.rows), owner, Items(d.log)) ==> Projection(app.rows, owner) == Items(d.log)
      ensures Between(old(Projection(app.rows, owner)), Projection(app.rows, owner), Items(d.log))
    {
      hide Items, Projection, Others, WithinPage, Between;
      docs := docs[owner := d];
      ok := PersistRecords(owner, d);
      if ok { PublishOpFromDoc(owner, opId, d); }
    }

    /** One version was announced and the whole document shipped. */
    ghost predicate Announced(was: seq<(string, nat)>, v: nat, shipped: seq<Shipped>, owner: string, opId: string)
      reads this
    {
      && published == was + [(owner, v)]
      && owner in docs
      && sent == if transport then shipped + [Shipped(owner, opId, docs[owner].log)] else shipped
    }

    // ---- the EntityStore calls ----

    method Create(e: Todo, owner: string, writes: nat) returns (r: Result<Todo, Error>)
      requires Valid()
      modifies this, app
      ensures Valid()
      ensures KeepsOthers(old(Now()), Now(), owner)
      ensures old(Loadable(Now(), owner)) ==>
                if r == Err(Failed) then Missed(old(Now()), Call.Create(owner, e), Now())
                else Served(old(Now()), Call.Create(owner, e), Reply(r), Now())
      ensures old(Loadable(Now(), owner)) && r.Ok? && e.id in old(View(Now(), owner)) ==>
                published == old(published) && sent == old(sent) && app.rows == old(app.rows)
      ensures old(Loadable(Now(), owner)) && r.Ok? && e.id !in old(View(Now(), owner)) ==>
                Announced(old(published), old(Version(owner)) + 1, old(sent), owner, "create-" + e.id)
    {
      hide Announced, KeepsOthers, NoDup, Wf, Winner, Served, Missed, Kept, Loadable, InStep, Items, Projection, View, Others, WithinPage, Between;
      ghost var s, c := Now(), Call.Create(owner, e);
      if owner == "" || e.id == "" {
        r := Err(if owner == "" then EmptyOwner else EmptyId);
        NothingMoved(s, owner);
        if Loadable(s, owner) { NothingServes(s, c, Reply(r)); }
        return;
      }
      var loaded := LoadDoc(owner);
      if loaded.None? {
        NothingDone(s, c);
        return Err(Failed);
      }
      var d := loaded.value;
      Committed(s, Now(), owner, d);
      ItemsAt(d.log, e.id);
      if Live(d.log, e.id) {
        r := Ok(Todo(e.id, Decode(d.log, ItemMap(d.log, e.id))));
        if Loadable(s, owner) { LoadServes(s, Now(), d, c, Reply(r)); }
        return;
      }
      var d', whole := InsertTodo(d, e.id, e.item, writes);
      if !whole {
        docs := docs[owner := d'];
        Committed(s, Now(), owner, d');
        BrokenOff(s, Now(), d, d', c, writes);
        return Err(Failed);
      }
      var ok := Commit(owner, "create-" + e.id, d');
      Committed(s, Now(), owner, d');
      if !ok {
        if Loadable(s, owner) { CommitMisses(s, Now(), d, d', c); }
        return Err(Failed);
      }
      r := FindItem(d', e.id);
      if Loadable(s, owner) { CommitServes(s, Now(), d, d', c, Reply(r)); }
    }

    method Get(owner: string, id: string) returns (r: Result<Todo, Error>)
      requires Valid()
      modifies this`docs, this`nextPeer
      ensures Valid()
      ensures KeepsOthers(old(Now()), Now(), owner)
      ensures old(Loadable(Now(), owner)) ==>
                if r == Err(Failed) then Missed(old(Now()), Call.Get(owner, id), Now())
                else Served(old(Now()), Call.Get(owner, id), Reply(r), Now())
    {
      hide Served, Missed, Kept, Loadable, InStep, Items, Projection, View, Others, WithinPage, Between;
      ghost var s, c := Now(), Call.Get(owner, id);
      if owner == "" || id == "" {
        NothingMoved(s, owner);
        if Loadable(s, owner) { NothingServes(s, c, Refused(NotFound)); }
        return Err(NotFound);
      }
      var loaded := LoadDoc(owner);
      if loaded.None? {
        NothingDone(s, c);
        return Err(Failed);
      }
      Committed(s, Now(), owner, loaded.value);
      r := FindItem(loaded.value, id);
      if Loadable(s, owner) { LoadServes(s, Now(), loaded.value, c, Reply(r)); }
    }

    method FindItem(d: Doc, id: string) returns (r: Result<Todo, Error>)
      ensures r == if id in Items(d.log) then Ok(Todo(id, Items(d.log)[id])) else Err(NotFound)
    {
      ItemsAt(d.log, id);
      if !Live(d.log, id) { return Err(NotFound); }
      return Ok(Todo(id, Decode(d.log, ItemMap(d.log, id))));
    }

    /** The child map, its id, its title and its flag, then two timestamps; the first
        `writes` of these writes work. */
    method InsertTodo(d: Doc, id: string, item: Item, writes: nat) returns (d': Doc, whole: bool)
      requires Wf(d.log)
      ensures Wf(d'.log) && Items(d'.log) == if writes == 0 then Items(d.log) else Items(d.log)[id := Begun(item, writes)]
      ensures whole == (writes >= 6) && (whole ==> Begun(item, writes) == item)
    {
      hide Items, Wf, Ops, Shows, Write, Live, ItemMap, Patched;
      whole := writes >= 6;
      d' := d;
      if writes == 0 { return; }
      var m, ops, was := Child(NextTag(d)), Ops(d.log), Items(d.log);
      NewMapItems(d, id);
      d' := Write(d, Root, id, SubMap);
      var fields: seq<(string, Value)> := [(ID, Text(id)), (TITLE, Text(item.title)), (COMPLETED, Flag(item.completed))];
      var n := 0;
      while n < 3 && n + 1 < writes
        invariant 0 <= n <= 3 && n < writes
        invariant Shows(ops, was, d', id, m, Begun(item, n + 1))
      {
        ShowsNext(ops, was, d', id, m, Begun(item, n + 1), fields[n].0, fields[n].1);
        NextBegun(id, item, n);
        d' := Write(d', m, fields[n].0, fields[n].1);
        n := n + 1;
      }
      assert Begun(item, n + 1) == Begun(item, writes);
      ShowsMeans(ops, was, d', id, m, Begun(item, writes));
    }

    method List(owner: string, filter: string) returns (r: Result<seq<Todo>, Error>)
      requires Valid()
      modifies this`docs, this`nextPeer
      ensures Valid()
      ensures KeepsOthers(old(Now()), Now(), owner)
      ensures r.Ok? || r == Err(Failed)
      ensures old(Loadable(Now(), owner)) ==>
                if r.Err? then Missed(old(Now()), Call.List(owner, filter), Now())
                else Served(old(Now()), Call.List(owner, filter), Many(r.value), Now())
      ensures old(Loadable(Now(), owner)) && r.Ok? && owner != "" ==>
                forall t :: t in r.value <==>
                  t.id in old(View(Now(), owner)) && t.item == old(View(Now(), owner))[t.id]
                  && (filter == "active" ==> !t.item.completed) && (filter == "completed" ==> t.item.completed)
      ensures r.Ok? ==> forall i, j :: 0 <= i < j < |r.value| ==> r.value[i].id != r.value[j].id
    {
      hide Served, Missed, Kept, Loadable, InStep, Items, Projection, View, Others, WithinPage, Between;
      ghost var s, c := Now(), Call.List(owner, filter);
      if owner == "" {
        NothingMoved(s, owner);
        if Loadable(s, owner) { NothingServes(s, c, Many([])); }
        return Ok([]);
      }
      var loaded := LoadDoc(owner);
      if loaded.None? {
        NothingDone(s, c);
        return Err(Failed);
      }
      Committed(s, Now(), owner, loaded.value);
      var view := CollectItems(loaded.value);
      var ts := ReadAll(view, filter);
      ListsExactly(ts, view, filter);
      if Loadable(s, owner) { LoadServes(s, Now(), loaded.value, c, Many(ts)); }
      r := Ok(ts);
    }

    method ReadAll(view: map<string, Item>, filter: string) returns (ts: seq<Todo>)
      ensures Lists(ts, view, filter)
    {
      ts := [];
      var left := view.Keys;
      hide Matches, Selected;
      ghost var done: set<string> := {};
      while left != {}
        invariant left <= view.Keys && done == view.Keys - left
        invariant |ts| == |Selected(view, filter) * done|
        invariant forall t :: t in ts <==> t.id in Selected(view, filter) * done && t.item == view[t.id]
      {
        var id :| id in left;
        SelectedNext(view, filter, done, id);
        if Matches(filter, view[id]) { ts := ts + [Todo(id, view[id])]; }
        left, done := left - {id}, done + {id};
      }
      SelectedAll(view, filter);
    }

    method Update(owner: string, id: string, patch: map<string, Value>, now: string, writes: nat) returns (r: Result<Todo, Error>)
      requires Valid() && forall k :: k in patch ==> FieldValue(patch[k])
      modifies this, app
      ensures Valid()
      ensures KeepsOthers(old(Now()), Now(), owner)
      ensures old(Loadable(Now(), owner)) ==>
                if r == Err(Failed) then Missed(old(Now()), Call.Update(owner, id, patch), Now())
                else Served(old(Now()), Call.Update(owner, id, patch), Reply(r), Now())
      ensures old(Loadable(Now(), owner)) && r.Ok? ==>
                Announced(old(published), old(Version(owner)) + 1, old(sent), owner, "update-" + id)
    {
      hide Announced, KeepsOthers, NoDup, Wf, Winner, Served, Missed, Kept, Loadable, InStep, Items, Projection, View, Others, WithinPage, Between;
      ghost var s, c := Now(), Call.Update(owner, id, patch);
      if owner == "" || id == "" {
        NothingMoved(s, owner);
        if Loadable(s, owner) { NothingServes(s, c, Refused(NotFound)); }
        return Err(NotFound);
      }
      var loaded := LoadDoc(owner);
      if loaded.None? {
        NothingDone(s, c);
        return Err(Failed);
      }
      var d := loaded.value;
      Committed(s, Now(), owner, d);
      ItemsAt(d.log, id);
      if !Live(d.log, id) {
        if Loadable(s, owner) { LoadServes(s, Now(), d, c, Refused(NotFound)); }
        return Err(NotFound);
      }
      var d', whole, part := PatchItem(d, id, patch, now, writes);
      if !whole {
        docs := docs[owner := d'];
        Committed(s, Now(), owner, d');
        PatchBrokenOff(s, Now(), d, d', owner, id, patch, part);
        return Err(Failed);
      }
      var ok := Commit(owner, "update-" + id, d');
      Committed(s, Now(), owner, d');
      if !ok {
        if Loadable(s, owner) { CommitMisses(s, Now(), d, d', c); }
        return Err(Failed);
      }
      r := FindItem(d', id);
      if Loadable(s, owner) { CommitServes(s, Now(), d, d', c, Reply(r)); }
    }

    /** The patch loop of Update, in any key order, then the `updated` stamp; the
        first `writes` of these writes work. */
    method PatchItem(d: Doc, id: string, patch: map<string, Value>, now: string, writes: nat)
      returns (d': Doc, whole: bool, ghost done: map<string, Value>)
      requires Wf(d.log) && Live(d.log, id) && forall k :: k in patch ==> FieldValue(patch[k])
      ensures id in Items(d.log) && Wf(d'.log)
      ensures Within(done, patch) && (whole ==> done == patch)
      ensures Items(d'.log) == Items(d.log)[id := PatchedBy(Items(d.log)[id], done)]
    {
      hide Items, Live, ItemMap, Wf, Ops, Shows, Write, Patched, PatchedBy, NextTag, Winner, Read, Decode;
      ShowsStart(d, id);
      var m, left, n := ItemMap(d.log, id), patch.Keys, 0;
      ghost var was := Items(d.log);
      d', done := d, map[];
      while left != {} && n < writes
        invariant left <= patch.Keys && done.Keys == patch.Keys - left && n <= writes
        invariant Within(done, patch)
        invariant Shows(Ops(d.log), was, d', id, m, PatchedBy(was[id], done))
      {
        var k :| k in left;
        ShowsNext(Ops(d.log), was, d', id, m, PatchedBy(was[id], done), k, patch[k]);
        PatchedNext(was[id], done, k, patch[k]);
        d' := Write(d', m, k, patch[k]);
        left, done, n := left - {k}, done[k := patch[k]], n + 1;
      }
      whole := left == {} && n < writes;
      if whole {
        assert done == patch;
        ShowsNext(Ops(d.log), was, d', id, m, PatchedBy(was[id], patch), "updated", Text(now));
        PatchedStamp(PatchedBy(was[id], patch), now);
        d' := Write(d', m, "updated", Text(now));
      }
      ShowsMeans(Ops(d.log), was, d', id, m, PatchedBy(was[id], done));
    }

    method Delete(owner: string, id: string, writes: nat) returns (r: Result<(), Error>)
      requires Valid()
      modifies this, app
      ensures Valid()
      ensures KeepsOthers(old(Now()), Now(), owner)
      ensures old(Loadable(Now(), owner)) ==>
                if r == Err(Failed) then Missed(old(Now()), Call.Delete(owner, id), Now())
                else Served(old(Now()), Call.Delete(owner, id), if r.Ok? then Done else Refused(r.error), Now())
      ensures old(Loadable(Now(), owner)) && r.Ok? ==>
                Announced(old(published), old(Version(owner)) + 1, old(sent), owner, "delete-" + id)
    {
      hide Announced, KeepsOthers, NoDup, Wf, Winner, Served, Missed, Kept, Loadable, InStep, Items, Projection, View, Others, WithinPage, Between;
      ghost var s, c := Now(), Call.Delete(owner, id);
      if owner == "" || id == "" {
        NothingMoved(s, owner);
        if Loadable(s, owner) { NothingServes(s, c, Refused(NotFound)); }
        return Err(NotFound);
      }
      var loaded := LoadDoc(owner);
      if loaded.None? {
        NothingDone(s, c);
        return Err(Failed);
      }
      var d := loaded.value;
      Committed(s, Now(), owner, d);
      ItemsAt(d.log, id);
      if !Live(d.log, id) {
        if Loadable(s, owner) { LoadServes(s, Now(), d, c, Refused(NotFound)); }
        return Err(NotFound);
      }
      if writes == 0 {
        NothingBrokenOff(s, Now(), d, c);
        return Err(Failed);
      }
      RemoveItemItems(d, id);
      var d' := RemoveItem(d, id);
      var ok := Commit(owner, "delete-" + id, d');
      Committed(s, Now(), owner, d');
      if !ok {
        if Loadable(s, owner) { CommitMisses(s, Now(), d, d', c); }
        return Err(Failed);
      }
      if Loadable(s, owner) { CommitServes(s, Now(), d, d', c, Done); }
      return Ok(());
    }

    method ClearCompleted(owner: string, writes: nat) returns (r: Result<nat, Error>)
      requires Valid()
      modifies this, app
      ensures Valid()
      ensures KeepsOthers(old(Now()), Now(), owner)
      ensures r.Ok? || r == Err(Failed)
      ensures old(Loadable(Now(), owner)) ==>
                if r.Err? then Missed(old(Now()), Call.ClearCompleted(owner), Now())
                else Served(old(Now()), Call.ClearCompleted(owner), Size(r.value), Now())
      ensures old(Loadable(Now(), owner)) && r.Ok? && owner != "" ==>
                var view := old(View(Now(), owner));
                && View(Now(), owner) == (map id | id in view && !view[id].completed :: view[id])
                && r.value == |set id | id in view && view[id].completed|
      ensures old(Loadable(Now(), owner)) && r.Ok? && r.value > 0 ==>
                Announced(old(published), old(Version(owner)) + 1, old(sent), owner, "clear-completed")
    {
      hide Announced, KeepsOthers, NoDup, Wf, Winner, Served, Missed, Kept, Loadable, InStep, Items, Projection, View, Others, WithinPage, Between;
      ghost var s, c := Now(), Call.ClearCompleted(owner);
      if owner == "" {
        NothingMoved(s, owner);
        if Loadable(s, owner) { NothingServes(s, c, Size(0)); }
        return Ok(0);
      }
      var loaded := LoadDoc(owner);
      if loaded.None? {
        NothingDone(s, c);
        return Err(Failed);
      }
      Committed(s, Now(), owner, loaded.value);
      var d := loaded.value;
      var view := CollectItems(d);
      var toDelete := Selected(view, "completed");
      var d', whole, gone := RemoveAll(d, toDelete, writes);
      if !whole {
        docs := docs[owner := d'];
        Committed(s, Now(), owner, d');
        ClearBrokenOff(s, Now(), d, d', owner, gone);
        return Err(Failed);
      }
      if toDelete != {} {
        var ok := Commit(owner, "clear-completed", d');
        Committed(s, Now(), owner, d');
        if !ok {
          if Loadable(s, owner) { CommitMisses(s, Now(), d, d', c); }
          return Err(Failed);
        }
        if Loadable(s, owner) { CommitServes(s, Now(), d, d', c, Size(|toDelete|)); }
      } else if Loadable(s, owner) {
        assert view - {} == view;
        LoadServes(s, Now(), d, c, Size(0));
      }
      if Loadable(s, owner) { ServedClear(s, Now(), owner, |toDelete|); }
      return Ok(|toDelete|);
    }

    /** The deletions one by one; the first `writes` of them work. */
    method RemoveAll(d: Doc, ids: set<string>, writes: nat) returns (d': Doc, whole: bool, ghost gone: set<string>)
      requires Wf(d.log)
      ensures Wf(d'.log) && gone <= ids && (whole ==> gone == ids) && Items(d'.log) == Items(d.log) - gone
    {
      hide Items;
      d', gone := d, {};
      var left, was, n := ids, Items(d.log), 0;
      assert was - {} == was;
      while left != {} && n < writes
        invariant left <= ids && Wf(d'.log) && gone == ids - left
        invariant Items(d'.log) == was - gone
        decreases left
      {
        var id :| id in left;
        RemoveItemItems(d', id);
        assert was - gone - {id} == was - (gone + {id});
        d', left, gone, n := RemoveItem(d', id), left - {id}, gone + {id}, n + 1;
      }
      whole := left == {};
      assert whole ==> ids - left == ids;
    }

    method Count(owner: string) returns (r: Result<nat, Error>)
      requires Valid()
      modifies this`docs, this`nextPeer
      ensures Valid()
      ensures KeepsOthers(old(Now()), Now(), owner)
      ensures r.Ok? || r == Err(Failed)
      ensures old(Loadable(Now(), owner)) ==>
                if r.Err? then Missed(old(Now()), Call.Count(owner), Now())
                else Served(old(Now()), Call.Count(owner), Size(r.value), Now())
    {
      hide Served, Missed, Kept, Loadable, InStep, Items, Projection, View, Others, WithinPage, Between;
      ghost var s, c := Now(), Call.Count(owner);
      if owner == "" {
        NothingMoved(s, owner);
        if Loadable(s, owner) { NothingServes(s, c, Size(0)); }
        return Ok(0);
      }
      var loaded := LoadDoc(owner);
      if loaded.None? {
        NothingDone(s, c);
        return Err(Failed);
      }
      Committed(s, Now(), owner, loaded.value);
      var view := CollectItems(loaded.value);
      if Loadable(s, owner) { LoadServes(s, Now(), loaded.value, c, Size(|view|)); }
      return Ok(|view|);
    }

    /** Drops every document; the table is all that is left. */
    method Close()
      requires Valid()
      modifies this
      ensures Valid() && Now() == State(map[], old(app.rows))
    {
      docs, versions := map[], map[];
    }

    /** Merges a peer's update: set union of operations, then project and bump twice.
        Bytes that do not import change nothing. */
    method ApplyRemoteOp(owner: string, update: Option<seq<Op>>) returns (r: Result<(), Error>)
      requires Valid() && (update.Some? ==> Wf(update.value))
      requires update.Some? && owner in docs ==> Consistent(Ops(docs[owner].log) + Ops(update.value))
      requires update.Some? && owner !in docs ==> forall o :: o in update.value ==> o.tag.peer != nextPeer
      modifies this, app
      ensures Valid() && sent == old(sent)
      ensures owner == "" ==> r == Err(EmptyOwner)
      ensures owner != "" && update == Some([]) ==> r == Ok(()) && Now() == old(Now())
      ensures update.None? ==>
                r.Err? && published == old(published) && app.rows == old(app.rows)
                && (old(Loadable(Now(), owner)) ==> View(Now(), owner) == old(View(Now(), owner)))
      ensures r.Ok? && owner in old(docs) && update != Some([]) ==>
                owner in docs && Ops(docs[owner].log) == Ops(old(docs)[owner].log) + Ops(update.value)
      ensures r.Ok? && update != Some([]) ==>
                && published == old(published) + [(owner, old(Version(owner)) + 1), (owner, old(Version(owner)) + 2)]
                && owner in docs && Ops(update.value) <= Ops(docs[owner].log)
                && (WithinPage(old(app.rows), owner, Items(docs[owner].log)) ==> Projection(app.rows, owner) == Items(docs[owner].log))
      ensures KeepsOthers(old(Now()), Now(), owner)
    {
      hide Items, Projection, Loadable, View, Ops, Wf, NoDup, WithinPage, Others, KeepsOthers, Consistent;
      ghost var s := Now();
      NothingMoved(s, owner);
      if owner == "" { return Err(EmptyOwner); }
      if update == Some([]) { return Ok(()); }
      var loaded := LoadDoc(owner);
      if loaded.None? { return Err(Failed); }
      Committed(s, Now(), owner, loaded.value);
      if update.None? { return Err(Failed); }
      FreshIsConsistent(loaded.value.log, update.value, old(nextPeer), owner in old(docs));
      r := Merge(owner, loaded.value, update.value);
      Committed(s, Now(), owner, docs[owner]);
    }

    method Merge(owner: string, d: Doc, update: seq<Op>) returns (r: Result<(), Error>)
      requires Valid() && Wf(d.log) && Wf(update) && Consistent(Ops(d.log) + Ops(update))
      modifies this, app
      ensures Valid() && sent == old(sent)
      ensures owner in docs && docs == old(docs)[owner := docs[owner]] && Ops(docs[owner].log) == Ops(d.log) + Ops(update)
      ensures Others(app.rows, owner) == old(Others(app.rows, owner))
      ensures r.Ok? ==>
                && published == old(published) + [(owner, old(Version(owner)) + 1), (owner, old(Version(owner)) + 2)]
                && (WithinPage(old(app.rows), owner, Items(docs[owner].log)) ==> Projection(app.rows, owner) == Items(docs[owner].log))
    {
      hide Items, Projection, Import, Ops, Wf, NoDup, WithinPage, Others, Between, Consistent;
      ImportWf(d, update);
      ImportIsUnion(d, update);
      docs := docs[owner := Import(d, update)];
      var ok := PersistRecords(owner, docs[owner]);
      if !ok { return Err(Failed); }
      BumpVersion(owner);
      return Ok(());
    }
  }

  lemma FreshIsConsistent(log: seq<Op>, update: seq<Op>, peer: nat, known: bool)
    requires Wf(log) && Wf(update)
    requires known ==> Consistent(Ops(log) + Ops(update))
    requires !known ==> (forall o :: o in log ==> o.tag.peer == peer) && (forall o :: o in update ==> o.tag.peer != peer)
    ensures Consistent(Ops(log) + Ops(update))
  {
  }

  lemma ShowsStart(d: Doc, id: string)
    requires Wf(d.log) && Live(d.log, id)
    ensures id in Items(d.log) && Shows(Ops(d.log), Items(d.log), d, id, ItemMap(d.log, id), PatchedBy(Items(d.log)[id], map[]))
  {
    ItemsAt(d.log, id);
    hide Items;
    assert Items(d.log) == Items(d.log)[id := Items(d.log)[id]];
  }

  lemma PatchedNext(item: Item, done: map<string, Value>, k: string, v: Value)
    ensures Patched(PatchedBy(item, done), k, v) == PatchedBy(item, done[k := v])
  {
  }

  lemma PatchedStamp(item: Item, now: string)
    ensures Patched(item, "updated", Text(now)) == item
  {
  }

  lemma ShowsMeans(ops: set<Op>, was: map<string, Item>, d: Doc, key: string, m: Container, item: Item)
    requires Shows(ops, was, d, key, m, item)
    ensures Wf(d.log) && Items(d.log) == was[key := item]
  {
  }

  lemma SelectedNext(view: map<string, Item>, filter: string, done: set<string>, id: string)
    requires id in view && id !in done
    ensures Selected(view, filter) * (done + {id})
            == if Matches(filter, view[id]) then Selected(view, filter) * done + {id} else Selected(view, filter) * done
  {
  }

  lemma SelectedAll(view: map<string, Item>, filter: string)
    ensures Selected(view, filter) * view.Keys == Selected(view, filter)
  {
  }

  function Reply(r: Result<Todo, Error>): Answer {
    match r
    case Ok(t) => One(t)
    case Err(e) => Refused(e)
  }

  lemma NothingServes(s: State, c: Call, a: Answer)
    requires Loadable(s, c.owner) && Answers(View(s, c.owner), c, a) && Next(View(s, c.owner), c) == View(s, c.owner)
    ensures Served(s, c, a, s)
  {
  }

  lemma NothingDone(s: State, c: Call)
    requires Inv(s)
    ensures KeepsOthers(s, s, c.owner) && (Loadable(s, c.owner) ==> Missed(s, c, s))
  {
    NothingMoved(s, c.owner);
  }

  /** Loading a document shows its owner nothing new. */
  lemma LoadServes(s: State, s': State, d: Doc, c: Call, a: Answer)
    requires Loadable(s, c.owner) && Inv(s') && Items(d.log) == View(s, c.owner)
    requires s' == State(s.docs[c.owner := d], s.rows) && (c.owner in s.docs ==> s.docs[c.owner] == d)
    requires Answers(Items(d.log), c, a) && Next(Items(d.log), c) == Items(d.log)
    ensures Served(s, c, a, s')
  {
    hide Items, Projection;
  }

  /** A committed change shows its owner the new document. */
  lemma CommitServes(s: State, s': State, d: Doc, d': Doc, c: Call, a: Answer)
    requires Loadable(s, c.owner) && Inv(s') && Items(d.log) == View(s, c.owner)
    requires s'.docs == s.docs[c.owner := d']
    requires WithinPage(s.rows, c.owner, Items(d'.log)) ==> Projection(s'.rows, c.owner) == Items(d'.log)
    requires Answers(Items(d.log), c, a) && Next(Items(d.log), c) == Items(d'.log)
    ensures Served(s, c, a, s')
  {
    hide Items, Projection, WithinPage;
  }

  /** A change that could not be projected is in the document all the same. */
  lemma CommitMisses(s: State, s': State, d: Doc, d': Doc, c: Call)
    requires Loadable(s, c.owner) && Inv(s') && Items(d.log) == View(s, c.owner)
    requires s'.docs == s.docs[c.owner := d'] && Next(Items(d.log), c) == Items(d'.log)
    requires Between(Projection(s.rows, c.owner), Projection(s'.rows, c.owner), Items(d'.log))
    ensures Missed(s, c, s')
  {
    hide Items, Projection, Between;
  }

  /** A change that broke off is in the document as far as it went, and nowhere else. */
  lemma PartlyMisses(s: State, s': State, d: Doc, d': Doc, c: Call)
    requires Loadable(s, c.owner) && Inv(s') && Items(d.log) == View(s, c.owner)
    requires s'.docs == s.docs[c.owner := d'] && s'.rows == s.rows && Partly(Items(d.log), c, Items(d'.log))
    ensures Missed(s, c, s')
  {
    hide Items, Projection, Partly;
  }

  lemma BrokenOff(s: State, s': State, d: Doc, d': Doc, c: Call, writes: nat)
    requires c.Create? && c.owner != "" && c.todo.id != "" && (Loadable(s, c.owner) ==> Items(d.log) == View(s, c.owner))
    requires Inv(s') && s'.docs == s.docs[c.owner := d'] && s'.rows == s.rows && c.todo.id !in Items(d.log)
    requires Items(d'.log) == if writes == 0 then Items(d.log) else Items(d.log)[c.todo.id := Begun(c.todo.item, writes)]
    ensures Loadable(s, c.owner) ==> Missed(s, c, s')
  {
    hide Items, View, Missed, Begun, Loadable;
    if Loadable(s, c.owner) { PartlyMisses(s, s', d, d', c); }
  }

  lemma PatchBrokenOff(s: State, s': State, d: Doc, d': Doc, owner: string, id: string,
                       patch: map<string, Value>, part: map<string, Value>)
    requires owner != "" && id != "" && id in Items(d.log) && (Loadable(s, owner) ==> Items(d.log) == View(s, owner))
    requires Inv(s') && s'.docs == s.docs[owner := d'] && s'.rows == s.rows && Within(part, patch)
    requires Items(d'.log) == Items(d.log)[id := PatchedBy(Items(d.log)[id], part)]
    ensures Loadable(s, owner) ==> Missed(s, Call.Update(owner, id, patch), s')
  {
    hide Items, View, Missed, PatchedBy, Loadable;
    if Loadable(s, owner) { PartlyMisses(s, s', d, d', Call.Update(owner, id, patch)); }
  }

  lemma NothingBrokenOff(s: State, s': State, d: Doc, c: Call)
    requires (Loadable(s, c.owner) ==> Items(d.log) == View(s, c.owner))
    requires Inv(s') && s'.docs == s.docs[c.owner := d] && s'.rows == s.rows
    ensures Loadable(s, c.owner) ==> Missed(s, c, s')
  {
    hide Items, View, Missed, Loadable;
    if Loadable(s, c.owner) { PartlyMisses(s, s', d, d, c); }
  }

  lemma ClearBrokenOff(s: State, s': State, d: Doc, d': Doc, owner: string, gone: set<string>)
    requires owner != "" && gone <= Selected(Items(d.log), "completed") && (Loadable(s, owner) ==> Items(d.log) == View(s, owner))
    requires Inv(s') && s'.docs == s.docs[owner := d'] && s'.rows == s.rows && Items(d'.log) == Items(d.log) - gone
    ensures Loadable(s, owner) ==> Missed(s, Call.ClearCompleted(owner), s')
  {
    hide Items, View, Missed, Loadable, Selected;
    if Loadable(s, owner) { PartlyMisses(s, s', d, d', Call.ClearCompleted(owner)); }
  }

  lemma NextBegun(id: string, item: Item, n: nat)
    requires n < 3
    ensures Patched(Begun(item, n + 1), if n == 0 then ID else if n == 1 then TITLE else COMPLETED,
                    if n == 0 then Text(id) else if n == 1 then Text(item.title) else Flag(item.completed)) == Begun(item, n + 2)
  {}

  lemma ServedClear(s: State, s': State, owner: string, n: nat)
    requires owner != "" && Served(s, Call.ClearCompleted(owner), Size(n), s')
    ensures var view := View(s, owner);
            View(s', owner) == (map id | id in view && !view[id].completed :: view[id]) && n == |set id | id in view && view[id].completed|
  {
    hide View, WithinPage;
    ClearsExactly(View(s, owner), owner, n);
  }

  lemma ProjectionKeys(rows: Rows, owner: string)
    ensures Projection(rows, owner).Keys == KeysOf(rows, owner)
  {}

  lemma PartlyWanted(was: map<string, Item>, done: map<string, Item>, want: map<string, Item>)
    requires forall id :: id in done ==> id in want && done[id] == want[id]
    ensures Between(was, was + done, want)
  {}

  /** Only todos that are not wanted may have gone. */
  ghost predicate Shrinks(was: map<string, Item>, now: map<string, Item>, want: map<string, Item>) {
    forall k :: At(now, k) == At(was, k) || (k !in want && At(now, k) == None)
  }

  lemma SweepShrinks(rows: Rows, owner: string, want: map<string, Item>, page: set<nat>)
    requires NoDup(rows) && page <= RowsOf(rows, owner)
    ensures Shrinks(Projection(rows, owner), Projection(Swept(rows, owner, want, page), owner), want)
  {
    forall k ensures var now := At(Projection(Swept(rows, owner, want, page), owner), k);
                     now == At(Projection(rows, owner), k) || (k !in want && now == None) {
      SweptAt(rows, owner, want, page, k);
    }
  }

  lemma StillBetween(was: map<string, Item>, up: map<string, Item>, now: map<string, Item>, want: map<string, Item>)
    requires Between(was, up, want) && Shrinks(up, now, want)
    ensures Between(was, now, want)
  {}

  lemma PutLast(a: map<string, Item>, b: map<string, Item>, k: string, v: Item)
    ensures a + b[k := v] == (a + b)[k := v]
  {
  }

  /** `d` holds the todos of the rows in `done`. */
  ghost predicate Rebuilt(d: Doc, rows: Rows, owner: string, done: set<nat>) {
    && Wf(d.log) && Items(d.log) == Projection(Restrict(rows, done), owner)
    && forall o :: o in d.log ==> o.tag.peer == d.peer
  }

  lemma RebuildStart(d: Doc, rows: Rows, owner: string)
    requires d.log == []
    ensures Rebuilt(d, rows, owner, {})
  {
    ItemsAre([], map[]);
    assert RowsOf(Restrict(rows, {}), owner) == {};
  }

  lemma PutItemPeer(d: Doc, key: string, idField: Value, item: Item)
    requires forall o :: o in d.log ==> o.tag.peer == d.peer
    ensures var d' := PutItem(d, key, idField, item);
            d'.peer == d.peer && forall o :: o in d'.log ==> o.tag.peer == d.peer
  {
  }

  lemma RebuildNext(d: Doc, rows: Rows, owner: string, done: set<nat>, i: nat)
    requires NoDup(rows) && i in rows && rows[i].owner == owner
    requires Rebuilt(d, rows, owner, done)
    ensures Rebuilt(PutItem(d, rows[i].idemKey, RowRef(i), rows[i].item), rows, owner, done + {i})
    ensures PutItem(d, rows[i].idemKey, RowRef(i), rows[i].item).peer == d.peer
  {
    hide PutItem, Items, Projection;
    PutItemPeer(d, rows[i].idemKey, RowRef(i), rows[i].item);
    var part := Restrict(rows, done);
    assert Restrict(rows, done + {i}) == part[i := rows[i]];
    SavedProjection(part, part[i := rows[i]], i, rows[i]);
    PutItemItems(d, rows[i].idemKey, RowRef(i), rows[i].item);
  }

  lemma PageReaches(was: Rows, up: Rows, owner: string, want: map<string, Item>, page: set<nat>)
    requires NoDup(up) && Projection(up, owner) == Projection(was, owner) + want
    requires IsPage(up, owner, page) && WithinPage(was, owner, want)
    ensures page == RowsOf(up, owner) || KeysOf(up, owner) <= want.Keys
    ensures KeysOf(up, owner) == KeysOf(was, owner) + want.Keys
  {
    assert KeysOf(up, owner) == Projection(up, owner).Keys == KeysOf(was, owner) + want.Keys;
    RowPerKey(up, owner);
    if |KeysOf(up, owner)| <= PAGE { FittingPage(up, owner, page); }
  }
}
