/**
 Todo mutations shipped between instances: the handlers write to their own
 `todos` table through PBStore and publish what they did; a consumer elsewhere
 applies the log to its table.
 */
module CrudLog {
  import opened Wrappers
  import opened TodoItems

  datatype Record = Record(owner: string, item: Item)

  type Table = map<string, Record>

  datatype Op = Create | Toggle | Delete | ClearCompleted | Unknown

  datatype Data = Data(id: string, title: string, completed: bool)

  datatype Payload = Payload(op: Op, user: string, data: Option<Data>)

  // ---- what the consumer does with a payload ----

  predicate MayTouch(r: Record, user: string) {
    r.owner == "" || r.owner == user
  }

  function Cleared(t: Table, user: string): Table {
    map id | id in t && !(t[id].item.completed && t[id].owner == user) :: t[id]
  }

  /** A payload without a user is dropped; a create under a taken id fails; a create
      without an id gets one from the database. */
  function Consume(t: Table, p: Payload, minted: string): Table {
    if p.user == "" then t
    else
      match p.op
      case Create =>
        if p.data.None? || p.data.value.title == "" then t
        else
          var id := if p.data.value.id == "" then minted else p.data.value.id;
          if id in t then t else t[id := Record(p.user, Item(p.data.value.title, p.data.value.completed))]
      case Toggle =>
        if p.data.None? || p.data.value.id == "" || p.data.value.id !in t || !MayTouch(t[p.data.value.id], p.user) then t
        else
          var r := t[p.data.value.id];
          t[p.data.value.id := r.(item := r.item.(completed := p.data.value.completed))]
      case Delete =>
        if p.data.None? || p.data.value.id == "" || p.data.value.id !in t || !MayTouch(t[p.data.value.id], p.user) then t
        else t - {p.data.value.id}
      case ClearCompleted => Cleared(t, p.user)
      case Unknown => t
  }

  function ToClear(t: Table, user: string): set<string> {
    set id | id in t && t[id].item.completed && t[id].owner == user
  }

  class CrudConsumer {
    var todos: Table

    constructor ()
      ensures todos == map[]
    {
      todos := map[];
    }

    /** A query or a save that fails is logged and the payload acknowledged all the
        same; records of `stuck` cannot be deleted. */
    method OnMessage(p: Payload, minted: string, saves: bool, stuck: set<string>)
      modifies this
      ensures p.op != ClearCompleted ==> todos == if saves then Consume(old(todos), p, minted) else old(todos)
      ensures p.op == ClearCompleted ==>
                todos == if p.user == "" || !saves then old(todos) else old(todos) - (ToClear(old(todos), p.user) - stuck)
    {
      if p.user == "" { return; }
      match p.op {
        case Create => HandleCreate(p, minted, saves);
        case Toggle => HandleToggle(p, saves);
        case Delete => HandleDelete(p, saves);
        case ClearCompleted => HandleClearCompleted(p, saves, stuck);
        case Unknown =>
      }
    }

    /** The record keeps the id of its origin, so that later operations find it. */
    method HandleCreate(p: Payload, minted: string, saves: bool)
      requires p.user != "" && p.op == Create
      modifies this
      ensures todos == if saves then Consume(old(todos), p, minted) else old(todos)
      ensures saves && p.data.Some? && p.data.value.title != "" ==>
                var id := if p.data.value.id == "" then minted else p.data.value.id;
                todos == if id in old(todos) then old(todos)
                         else old(todos)[id := Record(p.user, Item(p.data.value.title, p.data.value.completed))]
    {
      if p.data.None? || p.data.value.title == "" { return; }
      var id := minted;
      if p.data.value.id != "" { id := p.data.value.id; }
      if id in todos || !saves { return; }
      todos := todos[id := Record(p.user, Item(p.data.value.title, p.data.value.completed))];
    }

    method HandleToggle(p: Payload, saves: bool)
      requires p.user != "" && p.op == Toggle
      modifies this
      ensures todos == if saves then Consume(old(todos), p, "") else old(todos)
      ensures saves && p.data.Some? && p.data.value.id != "" && p.data.value.id in old(todos) ==>
                var d, was := p.data.value, old(todos)[p.data.value.id];
                todos == if was.owner in {"", p.user} then old(todos)[d.id := Record(was.owner, Item(was.item.title, d.completed))]
                         else old(todos)
    {
      if p.data.None? || p.data.value.id == "" { return; }
      if p.data.value.id !in todos { return; }
      var r := todos[p.data.value.id];
      if r.owner != "" && r.owner != p.user { return; }
      if saves { todos := todos[p.data.value.id := r.(item := r.item.(completed := p.data.value.completed))]; }
    }

    method HandleDelete(p: Payload, saves: bool)
      requires p.user != "" && p.op == Delete
      modifies this
      ensures todos == if saves then Consume(old(todos), p, "") else old(todos)
      ensures saves && p.data.Some? && p.data.value.id != "" && p.data.value.id in old(todos) ==>
                todos == if old(todos)[p.data.value.id].owner in {"", p.user} then old(todos) - {p.data.value.id} else old(todos)
    {
      if p.data.None? || p.data.value.id == "" { return; }
      if p.data.value.id !in todos { return; }
      var r := todos[p.data.value.id];
      if r.owner != "" && r.owner != p.user { return; }
      if saves { todos := todos - {p.data.value.id}; }
    }

    /** Finds the completed records of the user, then deletes them one by one; one
        that cannot be deleted does not stop the others. */
    method HandleClearCompleted(p: Payload, finds: bool, stuck: set<string>)
      requires p.user != "" && p.op == ClearCompleted
      modifies this
      ensures todos == if finds then old(todos) - (ToClear(old(todos), p.user) - stuck) else old(todos)
      ensures finds && stuck == {} ==> todos == Consume(old(todos), p, "")
    {
      if !finds { return; }
      var records := ToClear(todos, p.user);
      ghost var was, found := todos, records;
      while records != {}
        invariant records <= found && todos == was - ((found - records) - stuck)
        decreases records
      {
        var id :| id in records;
        if id !in stuck { todos := todos - {id}; }
        records := records - {id};
      }
      assert found - records == found;
    }
  }

  // ---- what a handler does and publishes ----

  datatype Request =
    | New(title: string)
    | Flip(id: string)
    | Remove(id: string)
    | Clear

  /** A request by a user, "" when not logged in; `replay` if the service worker
      sent it; `lists` if the listing that follows the write works. */
  datatype Call = Call(user: string, request: Request, replay: bool, lists: bool)

  /** The call returns between its write and its publish; a create publishes first. */
  predicate Quiet(c: Call) {
    !c.request.New? && (c.replay || !c.lists)
  }

  /** Someone else's todo is not found; an unowned one, or any by someone not logged in, is. */
  predicate Visible(t: Table, user: string, id: string) {
    id in t && (user == "" || t[id].owner == "" || t[id].owner == user)
  }

  predicate Sweeps(r: Record, user: string) {
    r.item.completed && (user == "" || r.owner == user)
  }

  function Swept(t: Table, user: string): Table {
    map id | id in t && !Sweeps(t[id], user) :: t[id]
  }

  function ToSweep(t: Table, user: string): set<string> {
    set id | id in t && Sweeps(t[id], user)
  }

  lemma SweptIs(t: Table, user: string)
    ensures ToSweep(t, user) <= t.Keys
    ensures Swept(t, user) == t - ToSweep(t, user) && |Swept(t, user)| == |t| - |ToSweep(t, user)|
  {
    SizeWithout(t, ToSweep(t, user));
  }

  /** A sweep takes the completed records of its owner, or of everyone if it has none, and nothing else. */
  lemma SweptExactly(t: Table, user: string)
    ensures Swept(t, user) == map id | id in t && !(t[id].item.completed && (user == "" || t[id].owner == user)) :: t[id]
    ensures ToSweep(t, user) == set id | id in t && t[id].item.completed && (user == "" || t[id].owner == user)
  {}

  function Flipped(r: Record): Record {
    r.(item := r.item.(completed := !r.item.completed))
  }

  /** The origin's table after the call. */
  function Written(t: Table, c: Call, minted: string): Table {
    match c.request
    case New(title) => if title == "" then t else t[minted := Record(c.user, Item(title, false))]
    case Flip(id) => if Visible(t, c.user, id) then t[id := Flipped(t[id])] else t
    case Remove(id) => if Visible(t, c.user, id) then t - {id} else t
    case Clear => Swept(t, c.user)
  }

  /** What reaches the log. Only a create still publishes when it is a replay. */
  function Published(t: Table, c: Call, minted: string): seq<Payload> {
    if Quiet(c) then []
    else
      match c.request
      case New(title) => if title == "" then [] else [Payload(Create, c.user, Some(Data(minted, title, false)))]
      case Flip(id) =>
        if !Visible(t, c.user, id) then [] else [Payload(Toggle, c.user, Some(Data(id, "", !t[id].item.completed)))]
      case Remove(id) =>
        if !Visible(t, c.user, id) then [] else [Payload(Delete, c.user, Some(Data(id, "", false)))]
      case Clear => [Payload(ClearCompleted, c.user, None)]
  }

  datatype StoreError = NotFound | Failed

  /** The fields an update sets. */
  datatype Patch = Patch(title: Option<string>, completed: Option<bool>)

  function WithPatch(r: Record, p: Patch): Record {
    r.(item := Item(if p.title.Some? then p.title.value else r.item.title,
                    if p.completed.Some? then p.completed.value else r.item.completed))
  }

  class PBStore {
    var todos: Table

    constructor ()
      ensures todos == map[]
    {
      todos := map[];
    }

    /** The database gives the record its id, and refuses one without a title. */
    method Create(item: Item, owner: string, minted: string, saves: bool) returns (ok: bool)
      requires minted !in todos
      modifies this
      ensures ok == (saves && item.title != "")
      ensures todos == if ok then old(todos)[minted := Record(owner, item)] else old(todos)
    {
      ok := saves && item.title != "";
      if ok { todos := todos[minted := Record(owner, item)]; }
    }

    method Get(owner: string, id: string) returns (r: Result<Record, StoreError>)
      ensures r == if Visible(todos, owner, id) then Ok(todos[id]) else Err(NotFound)
      ensures r.Ok? <==> id in todos && (owner == "" || todos[id].owner == "" || todos[id].owner == owner)
    {
      if id !in todos { return Err(NotFound); }
      var rec := todos[id];
      if owner != "" && rec.owner != "" && rec.owner != owner { return Err(NotFound); }
      return Ok(rec);
    }

    method Update(owner: string, id: string, patch: Patch, saves: bool) returns (r: Result<Record, StoreError>)
      modifies this
      ensures r == if !Visible(old(todos), owner, id) then Err(NotFound)
                   else if !saves then Err(Failed)
                   else Ok(WithPatch(old(todos)[id], patch))
      ensures r == Err(NotFound) <==> id !in old(todos) || !(owner == "" || old(todos)[id].owner in {"", owner})
      ensures r.Ok? ==>
                var was, now := old(todos)[id], r.value;
                && now.owner == was.owner
                && (patch.title.None? ==> now.item.title == was.item.title)
                && (patch.title.Some? ==> now.item.title == patch.title.value)
                && (patch.completed.None? ==> now.item.completed == was.item.completed)
                && (patch.completed.Some? ==> now.item.completed == patch.completed.value)
      ensures todos == if r.Ok? then old(todos)[id := r.value] else old(todos)
    {
      if id !in todos { return Err(NotFound); }
      var rec := todos[id];
      if owner != "" && rec.owner != "" && rec.owner != owner { return Err(NotFound); }
      if patch.title.Some? { rec := rec.(item := rec.item.(title := patch.title.value)); }
      if patch.completed.Some? { rec := rec.(item := rec.item.(completed := patch.completed.value)); }
      if !saves { return Err(Failed); }
      todos := todos[id := rec];
      return Ok(rec);
    }

    method Delete(owner: string, id: string, saves: bool) returns (r: Result<(), StoreError>)
      modifies this
      ensures r == if !Visible(old(todos), owner, id) then Err(NotFound) else if saves then Ok(()) else Err(Failed)
      ensures r == Err(NotFound) <==> id !in old(todos) || !(owner == "" || old(todos)[id].owner in {"", owner})
      ensures todos == if r.Ok? then old(todos) - {id} else old(todos)
    {
      if id !in todos { return Err(NotFound); }
      var rec := todos[id];
      if owner != "" && rec.owner != "" && rec.owner != owner { return Err(NotFound); }
      if !saves { return Err(Failed); }
      todos := todos - {id};
      return Ok(());
    }

    /** Without an owner it clears everyone's completed todos. A record that cannot
        be deleted ends the sweep, with those before it gone. */
    method ClearCompleted(owner: string, stuck: set<string>) returns (ok: bool, count: nat)
      modifies this
      ensures ok <==> ToSweep(old(todos), owner) !! stuck
      ensures ok ==> todos == Swept(old(todos), owner)
      ensures ok ==>
                todos == map id | id in old(todos) && !(old(todos)[id].item.completed && (owner == "" || old(todos)[id].owner == owner))
                           :: old(todos)[id]
      ensures exists gone :: todos == old(todos) - gone && gone <= ToSweep(old(todos), owner) - stuck && count == |gone|
    {
      hide Swept, ToSweep, Sweeping;
      SweptIs(todos, owner);
      var records := ToSweep(todos, owner);
      ghost var was, found := todos, records;
      count := 0;
      SweepStarts(was, found, stuck);
      while records != {}
        invariant Sweeping(was, todos, found, records, stuck, count)
        decreases records
      {
        var id :| id in records;
        if id in stuck {
          SweepStops(was, todos, found, records, stuck, count);
          return false, count;
        }
        SweepNext(was, todos, found, records, stuck, count, id);
        todos, records, count := todos - {id}, records - {id}, count + 1;
      }
      SweepStops(was, todos, found, {}, stuck, count);
      SweptExactly(was, owner);
      return true, count;
    }
  }

  /** What a sweep over `found` has done when `records` are left. */
  ghost predicate Sweeping(was: Table, now: Table, found: set<string>, records: set<string>, stuck: set<string>, count: nat) {
    records <= found && (found - records) !! stuck && now == was - (found - records) && count == |found - records|
  }

  lemma SweepStarts(t: Table, found: set<string>, stuck: set<string>)
    ensures Sweeping(t, t, found, found, stuck, 0)
  {
    assert found - found == {} && t - {} == t;
  }

  lemma SweepNext(was: Table, now: Table, found: set<string>, records: set<string>, stuck: set<string>, count: nat, id: string)
    requires Sweeping(was, now, found, records, stuck, count) && id in records && id !in stuck
    ensures Sweeping(was, now - {id}, found, records - {id}, stuck, count + 1)
  {
    assert found - (records - {id}) == (found - records) + {id};
    WithoutOneMore(was, found - records, id);
  }

  lemma SweepStops(was: Table, now: Table, found: set<string>, records: set<string>, stuck: set<string>, count: nat)
    requires Sweeping(was, now, found, records, stuck, count)
    ensures exists gone :: now == was - gone && gone <= found - stuck && count == |gone|
    ensures records == {} ==> found !! stuck && now == was - found
    ensures forall id :: id in records && id in stuck ==> !(found !! stuck)
  {
    if records == {} { assert found - records == found; }
    assert found - records <= found - stuck;
  }

  lemma SizeWithout(t: Table, gone: set<string>)
    requires gone <= t.Keys
    ensures |t - gone| == |t| - |gone|
  {
    assert (t - gone).Keys == t.Keys - gone;
    assert |t.Keys| == |t| && |(t - gone).Keys| == |t - gone|;
  }

  lemma WithoutOneMore(t: Table, gone: set<string>, id: string)
    requires id !in gone
    ensures (t - gone) - {id} == t - (gone + {id}) && |gone + {id}| == |gone| + 1
  {}

  /** The todo handlers with their publisher: write first, publish after. */
  class TodoHandler {
    const store: PBStore
    var log: seq<Payload>

    constructor (store: PBStore)
      ensures this.store == store && log == []
    {
      this.store, log := store, [];
    }

    method HandleCreate(user: string, title: string, replay: bool, minted: string, saves: bool)
      requires minted !in store.todos
      modifies this, store
      ensures var c := Call(user, New(title), replay, true);
              if saves
              then store.todos == Written(old(store.todos), c, minted) && log == old(log) + Published(old(store.todos), c, minted)
              else store.todos == old(store.todos) && log == old(log)
      ensures log == if saves && title != "" then old(log) + [Payload(Create, user, Some(Data(minted, title, false)))] else old(log)
    {
      if title == "" { return; }
      var ok := store.Create(Item(title, false), user, minted, saves);
      if !ok { return; }
      log := log + [Payload(Create, user, Some(Data(minted, title, false)))];
    }

    method HandleToggle(user: string, id: string, replay: bool, saves: bool, lists: bool)
      modifies this, store
      ensures var c := Call(user, Flip(id), replay, lists);
              if saves
              then store.todos == Written(old(store.todos), c, "") && log == old(log) + Published(old(store.todos), c, "")
              else store.todos == old(store.todos) && log == old(log)
      ensures var t := old(store.todos);
              log == if id in t && (user == "" || t[id].owner in {"", user}) && saves && !replay && lists
                     then old(log) + [Payload(Toggle, user, Some(Data(id, "", !t[id].item.completed)))] else old(log)
    {
      var current := store.Get(user, id);
      if current.Err? { return; }
      var toggled := store.Update(user, id, Patch(None, Some(!current.value.item.completed)), saves);
      if toggled.Err? { return; }
      if replay { return; }
      if !lists { return; }
      log := log + [Payload(Toggle, user, Some(Data(id, "", toggled.value.item.completed)))];
    }

    method HandleDelete(user: string, id: string, replay: bool, saves: bool, lists: bool)
      modifies this, store
      ensures var c := Call(user, Remove(id), replay, lists);
              if saves
              then store.todos == Written(old(store.todos), c, "") && log == old(log) + Published(old(store.todos), c, "")
              else store.todos == old(store.todos) && log == old(log)
      ensures var t := old(store.todos);
              log == if id in t && (user == "" || t[id].owner in {"", user}) && saves && !replay && lists
                     then old(log) + [Payload(Delete, user, Some(Data(id, "", false)))] else old(log)
    {
      var current := store.Get(user, id);
      if current.Err? { return; }
      var deleted := store.Delete(user, id, saves);
      if deleted.Err? && deleted.error != NotFound { return; }
      if replay { return; }
      if !lists { return; }
      log := log + [Payload(Delete, user, Some(Data(id, "", false)))];
    }

    /** A sweep that got stuck publishes nothing, although part of it is done. */
    method HandleClearCompleted(user: string, replay: bool, stuck: set<string>, lists: bool)
      modifies this, store
      ensures var c := Call(user, Clear, replay, lists);
              ToSweep(old(store.todos), user) !! stuck ==>
                store.todos == Written(old(store.todos), c, "") && log == old(log) + Published(old(store.todos), c, "")
      ensures !(ToSweep(old(store.todos), user) !! stuck) ==>
                log == old(log) && exists gone :: store.todos == old(store.todos) - gone && gone <= ToSweep(old(store.todos), user) - stuck
      ensures ToSweep(old(store.todos), user) !! stuck && !replay && lists ==> log == old(log) + [Payload(ClearCompleted, user, None)]
      ensures replay || !lists ==> log == old(log)
    {
      hide ToSweep, Swept;
      var ok, count := store.ClearCompleted(user, stuck);
      if !ok || replay { return; }
      if !lists { return; }
      log := log + [Payload(ClearCompleted, user, None)];
    }
  }
}
