/**
 What the todo store promises: its documents and its table together stand for a
 plain owner -> id -> todo map, and every call that does not fail is one step of
 that map. A call that fails takes a part of its step, in memory and in the table,
 and no call moves another owner's todos.
 */
module TodoSpec {
  import opened Wrappers
  import opened Loro
  import opened TodoItems
  import opened TodosTable

  datatype Todo = Todo(id: string, item: Item)

  datatype Error = EmptyOwner | EmptyId | NotFound | Failed

  // ---- the store as a value, and the plain map it stands for ----

  datatype State = State(docs: map<string, Doc>, rows: Rows)

  /** The todos an owner would be shown: from the document, or by the rebuild it would get. */
  ghost function View(s: State, owner: string): map<string, Item> {
    if owner in s.docs then Items(s.docs[owner].log) else Projection(s.rows, owner)
  }

  ghost predicate Inv(s: State) {
    NoDup(s.rows) && forall o :: o in s.docs ==> Wf(s.docs[o].log)
  }

  /** The table records what the owner's document holds. */
  ghost predicate InStep(s: State, owner: string) {
    owner in s.docs ==> Projection(s.rows, owner) == Items(s.docs[owner].log)
  }

  predicate Fits(rows: Rows, owner: string) {
    |RowsOf(rows, owner)| <= PAGE
  }

  /** The owner's todos are in memory, or one query brings them all. */
  ghost predicate Loadable(s: State, owner: string) {
    Inv(s) && (owner in s.docs || Fits(s.rows, owner))
  }

  predicate Matches(filter: string, item: Item) {
    if filter == "active" then !item.completed
    else if filter == "completed" then item.completed
    else true
  }

  function Selected(view: map<string, Item>, filter: string): set<string> {
    set id | id in view && Matches(filter, view[id])
  }

  /** `ts` lists each selected todo once, in some order. */
  ghost predicate Lists(ts: seq<Todo>, view: map<string, Item>, filter: string) {
    && |ts| == |Selected(view, filter)|
    && (forall t :: t in ts <==> t.id in Selected(view, filter) && t.item == view[t.id])
  }

  function PatchedBy(item: Item, patch: map<string, Value>): Item {
    Item(if TITLE in patch then TextOf(patch[TITLE]) else item.title,
         if COMPLETED in patch then FlagOf(patch[COMPLETED]) else item.completed)
  }

  datatype Call =
    | Create(owner: string, todo: Todo)
    | Get(owner: string, id: string)
    | List(owner: string, filter: string)
    | Update(owner: string, id: string, patch: map<string, Value>)
    | Delete(owner: string, id: string)
    | ClearCompleted(owner: string)
    | Count(owner: string)
    | Close(owner: string)

  datatype Answer =
    | One(todo: Todo)
    | Many(todos: seq<Todo>)
    | Size(n: nat)
    | Done
    | Refused(error: Error)

  function Known(view: map<string, Item>, owner: string, id: string): bool {
    owner != "" && id != "" && id in view
  }

  /** The plain map after a call. */
  function Next(view: map<string, Item>, c: Call): map<string, Item> {
    match c
    case Create(o, t) => if o == "" || t.id == "" || t.id in view then view else view[t.id := t.item]
    case Update(o, id, patch) => if Known(view, o, id) then view[id := PatchedBy(view[id], patch)] else view
    case Delete(o, id) => if Known(view, o, id) then view - {id} else view
    case ClearCompleted(o) => if o == "" then view else view - Selected(view, "completed")
    case _ => view
  }

  /** What the plain map answers to a call. */
  ghost predicate Answers(view: map<string, Item>, c: Call, a: Answer) {
    match c
    case Create(o, t) =>
      a == if o == "" then Refused(EmptyOwner)
           else if t.id == "" then Refused(EmptyId)
           else One(Todo(t.id, if t.id in view then view[t.id] else t.item))
    case Get(o, id) => a == if Known(view, o, id) then One(Todo(id, view[id])) else Refused(NotFound)
    case Update(o, id, patch) =>
      a == if Known(view, o, id) then One(Todo(id, PatchedBy(view[id], patch))) else Refused(NotFound)
    case Delete(o, id) => a == if Known(view, o, id) then Done else Refused(NotFound)
    case List(o, f) => a.Many? && if o == "" then a.todos == [] else Lists(a.todos, view, f)
    case ClearCompleted(o) => a == Size(if o == "" then 0 else |Selected(view, "completed")|)
    case Count(o) => a == Size(if o == "" then 0 else |view|)
    case Close(_) => a == Done
  }

  /** Nothing of this owner's changes: not what is shown, not the rows, not whether they agree. */
  ghost predicate Kept(s: State, s': State, o: string) {
    && View(s', o) == View(s, o) && RowsOf(s'.rows, o) == RowsOf(s.rows, o)
    && (InStep(s', o) <==> InStep(s, o)) && (o in s'.docs <==> o in s.docs)
  }

  ghost predicate KeepsOthers(s: State, s': State, owner: string) {
    Inv(s') && forall o :: o != owner ==> Kept(s, s', o)
  }

  /** A call that did not fail is a step of the plain map. Inside the page limit its
      change reaches the table, even if the table lagged behind before. */
  ghost predicate Served(s: State, c: Call, a: Answer, s': State) {
    && Answers(View(s, c.owner), c, a)
    && View(s', c.owner) == Next(View(s, c.owner), c)
    && Loadable(s', c.owner)
    && (WithinPage(s.rows, c.owner, View(s', c.owner)) && (InStep(s, c.owner) || View(s', c.owner) != View(s, c.owner)) ==>
          InStep(s', c.owner))
  }

  /** Every todo is as in one map or as in the other. */
  ghost predicate Between(was: map<string, Item>, now: map<string, Item>, want: map<string, Item>) {
    forall k :: At(now, k) == At(was, k) || At(now, k) == At(want, k)
  }

  /** A part of the patch. */
  predicate Within(part: map<string, Value>, patch: map<string, Value>) {
    forall k :: k in part ==> k in patch && part[k] == patch[k]
  }

  /** A todo with the first of its fields written: its map, its id, its title, its flag. */
  function Begun(item: Item, writes: nat): Item {
    Item(if writes >= 3 then item.title else "", writes >= 4 && item.completed)
  }

  /** What a call that failed may leave: nothing, all, or a part of its change. */
  ghost predicate Partly(view: map<string, Item>, c: Call, after: map<string, Item>) {
    || after == view
    || after == Next(view, c)
    || match c
       case Create(o, t) => o != "" && t.id != "" && t.id !in view && exists n: nat :: after == view[t.id := Begun(t.item, n)]
       case Update(o, id, patch) => Known(view, o, id) && exists part :: Within(part, patch) && after == view[id := PatchedBy(view[id], part)]
       case ClearCompleted(o) => o != "" && exists gone :: gone <= Selected(view, "completed") && after == view - gone
       case _ => false
  }

  /** A call that failed shows a part of its step; the table holds each todo as
      before or as shown. */
  ghost predicate Missed(s: State, c: Call, s': State) {
    && Partly(View(s, c.owner), c, View(s', c.owner))
    && Loadable(s', c.owner)
    && Between(Projection(s.rows, c.owner), Projection(s'.rows, c.owner), View(s', c.owner))
  }

  // ---- what lists and clears are, todo by todo ----

  lemma {:induction false} NoRepeats<T>(xs: seq<T>)
    ensures |set x | x in xs| <= |xs|
    ensures |set x | x in xs| == |xs| ==> forall i, j :: 0 <= i < j < |xs| ==> xs[i] != xs[j]
  {
    if xs != [] {
      var n := |xs| - 1;
      var front, all := set x | x in xs[..n], set x | x in xs;
      NoRepeats(xs[..n]);
      assert all == front + {xs[n]};
    }
  }

  lemma {:induction false} SameCount(ids: set<string>, view: map<string, Item>)
    requires ids <= view.Keys
    ensures |set id | id in ids :: Todo(id, view[id])| == |ids|
  {
    if ids != {} {
      var x :| x in ids;
      SameCount(ids - {x}, view);
      assert (set id | id in ids :: Todo(id, view[id])) == (set id | id in ids - {x} :: Todo(id, view[id])) + {Todo(x, view[x])};
    }
  }

  /** A list holds each todo that its filter asks for, once, and no other: "active"
      the open ones, "completed" the completed ones, any other filter all. */
  lemma ListsExactly(ts: seq<Todo>, view: map<string, Item>, filter: string)
    requires Lists(ts, view, filter)
    ensures forall t :: t in ts <==>
              t.id in view && t.item == view[t.id]
              && (filter == "active" ==> !t.item.completed) && (filter == "completed" ==> t.item.completed)
    ensures forall i, j :: 0 <= i < j < |ts| ==> ts[i].id != ts[j].id
  {
    var ids := Selected(view, filter);
    SameCount(ids, view);
    NoRepeats(ts);
    assert (set t | t in ts) == set id | id in ids :: Todo(id, view[id]);
  }

  /** A clear leaves the open todos, and counts the completed ones. */
  lemma ClearsExactly(view: map<string, Item>, owner: string, n: nat)
    requires owner != "" && Answers(view, ClearCompleted(owner), Size(n))
    ensures Next(view, ClearCompleted(owner)) == map id | id in view && !view[id].completed :: view[id]
    ensures n == |set id | id in view && view[id].completed|
  {
    assert Selected(view, "completed") == set id | id in view && view[id].completed;
  }

  // ---- lemmas on tables ----

  lemma OthersKept(rows: Rows, rows': Rows, owner: string, o: string)
    requires NoDup(rows) && NoDup(rows') && Others(rows, owner) == Others(rows', owner) && o != owner
    ensures RowsOf(rows, o) == RowsOf(rows', o)
    ensures Projection(rows, o) == Projection(rows', o)
  {
    assert forall i :: i in RowsOf(rows, o) <==> i in Others(rows, owner) && Others(rows, owner)[i].owner == o;
    assert forall i :: i in RowsOf(rows', o) <==> i in Others(rows', owner) && Others(rows', owner)[i].owner == o;
    forall k ensures At(Projection(rows, o), k) == At(Projection(rows', o), k) {
      if i :| Holds(rows, i, o, k) {
        assert i in Others(rows, owner) && Others(rows, owner)[i] == Others(rows', owner)[i];
        ProjectionAt(rows, o, k, i);
        ProjectionAt(rows', o, k, i);
      } else {
        ProjectionWithout(rows, o, k);
        forall i ensures !Holds(rows', i, o, k) {
          assert !Holds(rows, i, o, k);
          assert Holds(rows', i, o, k) ==> i in Others(rows', owner);
        }
        ProjectionWithout(rows', o, k);
      }
    }
    SameMap(Projection(rows, o), Projection(rows', o));
  }

  /** The table after the stale rows of one page were deleted. */
  function Swept(rows: Rows, owner: string, want: map<string, Item>, page: set<nat>): Rows {
    map i | i in rows && !(i in page && rows[i].idemKey !in want) :: rows[i]
  }

  lemma SweptAt(rows: Rows, owner: string, want: map<string, Item>, page: set<nat>, k: string)
    requires NoDup(rows) && page <= RowsOf(rows, owner)
    ensures NoDup(Swept(rows, owner, want, page))
    ensures k in want ==> At(Projection(Swept(rows, owner, want, page), owner), k) == At(Projection(rows, owner), k)
    ensures k !in want && page == RowsOf(rows, owner) ==> At(Projection(Swept(rows, owner, want, page), owner), k) == None
    ensures k !in Projection(rows, owner) ==> At(Projection(Swept(rows, owner, want, page), owner), k) == None
    ensures var now := At(Projection(Swept(rows, owner, want, page), owner), k); now == At(Projection(rows, owner), k) || now == None
  {
    var rows' := Swept(rows, owner, want, page);
    if i :| Holds(rows', i, owner, k) {
      assert Holds(rows, i, owner, k);
      ProjectionAt(rows', owner, k, i);
      ProjectionAt(rows, owner, k, i);
    } else {
      ProjectionWithout(rows', owner, k);
      if k in want {
        forall i ensures !Holds(rows, i, owner, k) {
          if Holds(rows, i, owner, k) { assert Holds(rows', i, owner, k); }
        }
        ProjectionWithout(rows, owner, k);
      }
    }
  }

  /** Sweeping a page that reaches every stale row leaves exactly the wanted todos. */
  lemma SweptExactly(rows: Rows, owner: string, want: map<string, Item>, page: set<nat>)
    requires NoDup(rows) && page <= RowsOf(rows, owner)
    requires forall k :: k in want ==> k in Projection(rows, owner) && Projection(rows, owner)[k] == want[k]
    requires page == RowsOf(rows, owner) || Projection(rows, owner).Keys <= want.Keys
    ensures Projection(Swept(rows, owner, want, page), owner) == want
  {
    var p := Projection(Swept(rows, owner, want, page), owner);
    forall k ensures At(p, k) == At(want, k) {
      SweptAt(rows, owner, want, page, k);
    }
    SameMap(p, want);
  }

  // ---- lemmas on states ----

  /** One owner's document and rows move, nobody else's. */
  lemma Committed(s: State, s': State, owner: string, d: Doc)
    requires Inv(s) && Wf(d.log) && NoDup(s'.rows)
    requires s'.docs == s.docs[owner := d] && Others(s'.rows, owner) == Others(s.rows, owner)
    ensures KeepsOthers(s, s', owner) && View(s', owner) == Items(d.log)
  {
    hide Projection, Items, Others, RowsOf;
    forall o | o != owner ensures Kept(s, s', o) {
      OthersKept(s.rows, s'.rows, owner, o);
    }
  }

  lemma NothingMoved(s: State, owner: string)
    requires Inv(s)
    ensures KeepsOthers(s, s, owner)
  {}

  lemma RowPerKey(rows: Rows, owner: string)
    requires NoDup(rows)
    ensures |RowsOf(rows, owner)| == |KeysOf(rows, owner)|
  {
    var all := RowsOf(rows, owner);
    ProjectedSize(rows, owner, all);
    assert RowsOf(Restrict(rows, all), owner) == all;
    assert KeysOf(Restrict(rows, all), owner) == KeysOf(rows, owner);
  }

  /** The projection's one limit: after the upserts the owner's rows fit one
      page, or none of them is stale. */
  ghost predicate WithinPage(rows: Rows, owner: string, want: map<string, Item>) {
    |KeysOf(rows, owner) + want.Keys| <= PAGE || KeysOf(rows, owner) <= want.Keys
  }

  lemma NextIsMonotone(view: map<string, Item>, c: Call)
    ensures view.Keys <= Next(view, c).Keys || Next(view, c).Keys <= view.Keys
  {}

  /** No call leaves the limit: it only adds todos, or only removes some. */
  lemma StaysWithinPage(s: State, c: Call)
    requires Inv(s) && InStep(s, c.owner) && Fits(s.rows, c.owner)
    ensures WithinPage(s.rows, c.owner, Next(View(s, c.owner), c))
  {
    var owner, want := c.owner, Next(View(s, c.owner), c);
    NextIsMonotone(View(s, owner), c);
    assert KeysOf(s.rows, owner) == Projection(s.rows, owner).Keys == View(s, owner).Keys;
    RowPerKey(s.rows, owner);
    if want.Keys <= View(s, owner).Keys {
      assert KeysOf(s.rows, owner) + want.Keys == KeysOf(s.rows, owner);
    }
  }

  lemma RestrictToOwner(rows: Rows, owner: string, page: set<nat>)
    requires NoDup(rows) && IsPage(rows, owner, page) && Fits(rows, owner)
    ensures Projection(Restrict(rows, page), owner) == Projection(rows, owner)
  {
    FittingPage(rows, owner, page);
    var part := Restrict(rows, page);
    forall k ensures At(Projection(part, owner), k) == At(Projection(rows, owner), k) {
      if i :| Holds(rows, i, owner, k) {
        ProjectionAt(rows, owner, k, i);
        ProjectionAt(part, owner, k, i);
      } else {
        ProjectionWithout(rows, owner, k);
        assert forall i :: Holds(part, i, owner, k) ==> Holds(rows, i, owner, k);
        ProjectionWithout(part, owner, k);
      }
    }
    SameMap(Projection(part, owner), Projection(rows, owner));
  }
}
