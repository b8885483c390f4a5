/**
 How the todo store lays an owner's todos out in a Loro document: the root map
 takes a todo id to a child map, and the child map holds the fields. A todo is
 live while its root entry is a child map; inserting it again makes a new child
 map, so nothing of the old one shows.
 */
module TodoItems {
  import opened Wrappers
  import opened Loro

  const TITLE := "title"
  const COMPLETED := "completed"
  const ID := "id"

  /** A todo without its id and its timestamps. */
  datatype Item = Item(title: string, completed: bool)

  function RootKeys(log: seq<Op>): set<string> {
    set o | o in log && o.into == Root :: o.key
  }

  predicate Live(log: seq<Op>, id: string) {
    Read(log, Root, id).SubMap?
  }

  /** Lookup: the child map that entry `id` names now. */
  function ItemMap(log: seq<Op>, id: string): Container
    requires Live(log, id)
  {
    Child(Winner(log, Root, id).value.tag)
  }

  /** A field of the wrong kind, or none, reads as the zero value. */
  function TextOf(v: Value): string {
    if v.Text? then v.text else ""
  }

  function FlagOf(v: Value): bool {
    v.Flag? && v.flag
  }

  function Decode(log: seq<Op>, m: Container): Item {
    Item(TextOf(Read(log, m, TITLE)), FlagOf(Read(log, m, COMPLETED)))
  }

  function LiveIds(log: seq<Op>): set<string> {
    set id | id in RootKeys(log) && Live(log, id)
  }

  /** The todos a reader of the document sees. */
  function Items(log: seq<Op>): map<string, Item> {
    map id | id in LiveIds(log) :: Decode(log, ItemMap(log, id))
  }

  /** The todo under `id`, as findItem returns it. */
  function ItemAt(log: seq<Op>, id: string): Option<Item> {
    if Live(log, id) then Some(Decode(log, ItemMap(log, id))) else None
  }

  function At<V>(m: map<string, V>, id: string): Option<V> {
    if id in m then Some(m[id]) else None
  }

  lemma ItemsAt(log: seq<Op>, id: string)
    ensures At(Items(log), id) == ItemAt(log, id)
  {
    WinnerIsGreatest(log, Root, id);
  }

  lemma ItemsAre(log: seq<Op>, m: map<string, Item>)
    requires forall id :: ItemAt(log, id) == At(m, id)
    ensures Items(log) == m
  {
    forall id ensures At(Items(log), id) == At(m, id) {
      ItemsAt(log, id);
    }
    assert forall id :: id in Items(log) <==> At(Items(log), id).Some?;
    assert forall id :: id in m <==> At(m, id).Some?;
  }

  /** Documents with the same operations show the same todos. */
  lemma SameOpsSameItems(a: seq<Op>, b: seq<Op>)
    requires Ops(a) == Ops(b) && Consistent(Ops(a))
    ensures Items(a) == Items(b)
  {
    SameOpsSameReads(a, b);
    forall id ensures ItemAt(a, id) == At(Items(b), id) {
      ItemsAt(b, id);
    }
    ItemsAre(a, Items(b));
  }

  // ---- mutations ----

  /** InsertMapContainer followed by writeItem. */
  function PutItem(d: Doc, key: string, idField: Value, item: Item): Doc {
    var m := Child(NextTag(d));
    var d1 := Write(d, Root, key, SubMap);
    var d2 := Write(d1, m, ID, idField);
    var d3 := Write(d2, m, TITLE, Text(item.title));
    Write(d3, m, COMPLETED, Flag(item.completed))
  }

  function SetField(d: Doc, key: string, field: string, v: Value): Doc
    requires Live(d.log, key)
  {
    Write(d, ItemMap(d.log, key), field, v)
  }

  function RemoveItem(d: Doc, key: string): Doc {
    Write(d, Root, key, Deleted)
  }

  predicate FieldValue(v: Value) {
    !v.SubMap?
  }

  /** What writing one field of a todo's child map does to the todo. */
  function Patched(item: Item, field: string, v: Value): Item {
    if field == TITLE then item.(title := TextOf(v))
    else if field == COMPLETED then item.(completed := FlagOf(v))
    else item
  }

  lemma DecodeAfterWrite(d: Doc, c: Container, field: string, v: Value, m: Container)
    ensures Decode(Write(d, c, field, v).log, m)
            == if m == c then Patched(Decode(d.log, m), field, v) else Decode(d.log, m)
  {
    WriteReads(d, c, field, v, m, TITLE);
    WriteReads(d, c, field, v, m, COMPLETED);
  }

  lemma DifferentIdsDifferentMaps(log: seq<Op>, a: string, b: string)
    requires Wf(log) && Live(log, a) && Live(log, b) && a != b
    ensures ItemMap(log, a) != ItemMap(log, b)
  {
    WinnerIsGreatest(log, Root, a);
    WinnerIsGreatest(log, Root, b);
    assert Winner(log, Root, a).value in Ops(log) && Winner(log, Root, b).value in Ops(log);
  }

  /** Entry `id` of the root map reads the same in both logs, field by field. */
  ghost predicate EntryKept(a: seq<Op>, b: seq<Op>, id: string) {
    && (Live(a, id) <==> Live(b, id))
    && (Live(b, id) ==> ItemMap(a, id) == ItemMap(b, id) && forall f :: Read(a, ItemMap(b, id), f) == Read(b, ItemMap(b, id), f))
  }

  /** A write to one entry of the root map leaves every other entry alone. */
  lemma RootWriteElsewhere(d: Doc, key: string, v: Value, id: string)
    requires id != key
    ensures EntryKept(Write(d, Root, key, v).log, d.log, id)
    ensures ItemAt(Write(d, Root, key, v).log, id) == ItemAt(d.log, id)
  {
    WriteReads(d, Root, key, v, Root, id);
    if Live(d.log, id) {
      forall f ensures Read(Write(d, Root, key, v).log, ItemMap(d.log, id), f) == Read(d.log, ItemMap(d.log, id), f) {
        WriteReads(d, Root, key, v, ItemMap(d.log, id), f);
      }
    }
  }

  lemma RemoveItemItems(d: Doc, key: string)
    requires Wf(d.log)
    ensures Wf(RemoveItem(d, key).log)
    ensures Ops(d.log) <= Ops(RemoveItem(d, key).log)
    ensures Items(RemoveItem(d, key).log) == Items(d.log) - {key}
  {
    var d' := RemoveItem(d, key);
    WriteWf(d, Root, key, Deleted);
    forall id ensures ItemAt(d'.log, id) == At(Items(d.log) - {key}, id) {
      ItemsAt(d.log, id);
      WriteReads(d, Root, key, Deleted, Root, id);
      if id != key { RootWriteElsewhere(d, key, Deleted, id); }
    }
    ItemsAre(d'.log, Items(d.log) - {key});
  }

  /** `d` shows the todos `was` with `item` put under `key`, in child map `m`, and kept the operations `ops`. */
  ghost predicate Shows(ops: set<Op>, was: map<string, Item>, d: Doc, key: string, m: Container, item: Item) {
    && Wf(d.log) && ops <= Ops(d.log)
    && Live(d.log, key) && ItemMap(d.log, key) == m
    && Items(d.log) == was[key := item]
  }

  /** A new child map starts empty: nothing was written into it before it was made. */
  lemma NewMapItems(d: Doc, key: string)
    requires Wf(d.log)
    ensures Shows(Ops(d.log), Items(d.log), Write(d, Root, key, SubMap), key, Child(NextTag(d)), Item("", false))
  {
    var d' := Write(d, Root, key, SubMap);
    var m := Child(NextTag(d));
    WriteWf(d, Root, key, SubMap);
    WinnerIsGreatest(d.log, m, TITLE);
    WinnerIsGreatest(d.log, m, COMPLETED);
    assert Decode(d.log, m) == Item("", false);
    DecodeAfterWrite(d, Root, key, SubMap, m);
    WriteReads(d, Root, key, SubMap, Root, key);
    forall id ensures ItemAt(d'.log, id) == At(Items(d.log)[key := Item("", false)], id) {
      ItemsAt(d.log, id);
      if id != key { RootWriteElsewhere(d, key, SubMap, id); }
    }
    ItemsAre(d'.log, Items(d.log)[key := Item("", false)]);
  }

  /** So does a write to a field of another entry. */
  lemma FieldWriteElsewhere(d: Doc, key: string, field: string, v: Value, id: string)
    requires Wf(d.log) && Live(d.log, key) && id != key
    ensures EntryKept(SetField(d, key, field, v).log, d.log, id)
    ensures ItemAt(SetField(d, key, field, v).log, id) == ItemAt(d.log, id)
  {
    var m := ItemMap(d.log, key);
    WriteReads(d, m, field, v, Root, id);
    if Live(d.log, id) {
      DifferentIdsDifferentMaps(d.log, id, key);
      forall f ensures Read(SetField(d, key, field, v).log, ItemMap(d.log, id), f) == Read(d.log, ItemMap(d.log, id), f) {
        WriteReads(d, m, field, v, ItemMap(d.log, id), f);
      }
    }
  }

  lemma SetFieldItems(d: Doc, key: string, field: string, v: Value)
    requires Wf(d.log) && Live(d.log, key) && FieldValue(v)
    ensures key in Items(d.log)
    ensures Shows(Ops(d.log), Items(d.log), SetField(d, key, field, v), key, ItemMap(d.log, key), Patched(Items(d.log)[key], field, v))
  {
    var m := ItemMap(d.log, key);
    var d' := SetField(d, key, field, v);
    WinnerIsGreatest(d.log, Root, key);
    WriteWf(d, m, field, v);
    WriteReads(d, m, field, v, Root, key);
    DecodeAfterWrite(d, m, field, v, m);
    ItemsAt(d.log, key);
    var item := Patched(Items(d.log)[key], field, v);
    forall id ensures ItemAt(d'.log, id) == At(Items(d.log)[key := item], id) {
      ItemsAt(d.log, id);
      if id != key { FieldWriteElsewhere(d, key, field, v, id); }
    }
    ItemsAre(d'.log, Items(d.log)[key := item]);
  }

  lemma ShowsNext(ops: set<Op>, was: map<string, Item>, d: Doc, key: string, m: Container, item: Item, field: string, v: Value)
    requires Shows(ops, was, d, key, m, item) && FieldValue(v)
    ensures Shows(ops, was, Write(d, m, field, v), key, m, Patched(item, field, v))
  {
    hide Items, Live, ItemMap, Wf, Ops, Write;
    var item' := Patched(item, field, v);
    SetFieldItems(d, key, field, v);
    assert was[key := item][key] == item;
    assert was[key := item][key := item'] == was[key := item'];
  }

  lemma PutItemItems(d: Doc, key: string, idField: Value, item: Item)
    requires Wf(d.log) && FieldValue(idField)
    ensures Shows(Ops(d.log), Items(d.log), PutItem(d, key, idField, item), key, Child(NextTag(d)), item)
  {
    var m, ops, was := Child(NextTag(d)), Ops(d.log), Items(d.log);
    var d1 := Write(d, Root, key, SubMap);
    NewMapItems(d, key);
    ShowsNext(ops, was, d1, key, m, Item("", false), ID, idField);
    var d2 := Write(d1, m, ID, idField);
    ShowsNext(ops, was, d2, key, m, Item("", false), TITLE, Text(item.title));
    var d3 := Write(d2, m, TITLE, Text(item.title));
    ShowsNext(ops, was, d3, key, m, Item(item.title, false), COMPLETED, Flag(item.completed));
  }
}
