/**
 The whiteboard document: shapes laid out in a Loro map, one child map per shape,
 with one critical section per method. Drawing under an id again makes a new
 child map, and clearing deletes every key; both are writes like any other, so
 no operation is ever lost.
 */
module Whiteboard {
  import opened Wrappers
  import opened Loro
  import opened TodoItems

  /** A shape without its id, which is its key in the map. */
  datatype Shape = Shape(kind: string, x: real, y: real, w: real, h: real, points: seq<real>, color: string, author: string)

  datatype ShapeOp = Add(id: string, shape: Shape) | Clear | Unknown(op: string)

  function NumOf(v: Value): real {
    if v.Num? then v.num else 0.0
  }

  function NumsOf(v: Value): seq<real> {
    if v.Nums? then v.nums else []
  }

  function ReadShape(log: seq<Op>, m: Container): Shape {
    Shape(TextOf(Read(log, m, "type")), NumOf(Read(log, m, "x")), NumOf(Read(log, m, "y")), NumOf(Read(log, m, "w")),
          NumOf(Read(log, m, "h")), NumsOf(Read(log, m, "points")), TextOf(Read(log, m, "color")), TextOf(Read(log, m, "author")))
  }

  function ShapeAt(log: seq<Op>, id: string): Option<Shape> {
    if Live(log, id) then Some(ReadShape(log, ItemMap(log, id))) else None
  }

  /** What everyone on the board sees. */
  function Shapes(log: seq<Op>): map<string, Shape> {
    map id | id in LiveIds(log) :: ReadShape(log, ItemMap(log, id))
  }

  function PatchShape(s: Shape, field: string, v: Value): Shape {
    if field == "type" then s.(kind := TextOf(v))
    else if field == "x" then s.(x := NumOf(v))
    else if field == "y" then s.(y := NumOf(v))
    else if field == "w" then s.(w := NumOf(v))
    else if field == "h" then s.(h := NumOf(v))
    else if field == "points" then s.(points := NumsOf(v))
    else if field == "color" then s.(color := TextOf(v))
    else if field == "author" then s.(author := TextOf(v))
    else s
  }

  // ---- lemmas on documents ----

  lemma ShapesAt(log: seq<Op>, id: string)
    ensures At(Shapes(log), id) == ShapeAt(log, id)
  {
    LiveHasKey(log, id);
  }

  lemma LiveHasKey(log: seq<Op>, id: string)
    ensures id in LiveIds(log) <==> Live(log, id)
  {
    WinnerIsGreatest(log, Root, id);
  }

  lemma ShapesAre(log: seq<Op>, m: map<string, Shape>)
    requires forall id :: ShapeAt(log, id) == At(m, id)
    ensures Shapes(log) == m
  {
    forall id ensures At(Shapes(log), id) == At(m, id) {
      ShapesAt(log, id);
    }
    assert forall id :: id in Shapes(log) <==> At(Shapes(log), id).Some?;
    assert forall id :: id in m <==> At(m, id).Some?;
  }

  lemma SameReadsSameShape(a: seq<Op>, b: seq<Op>, m: Container)
    requires forall c, k :: Read(a, c, k) == Read(b, c, k)
    ensures ReadShape(a, m) == ReadShape(b, m)
  {
    hide Read;
  }

  /** Boards with the same operations show the same shapes. */
  lemma SameOpsSameShapes(a: seq<Op>, b: seq<Op>)
    requires Ops(a) == Ops(b) && Consistent(Ops(a))
    ensures Shapes(a) == Shapes(b)
  {
    SameOpsSameReads(a, b);
    hide Shapes, ReadShape, Ops, Consistent;
    forall id ensures ShapeAt(a, id) == At(Shapes(b), id) {
      ShapesAt(b, id);
      assert Read(a, Root, id) == Read(b, Root, id) && Winner(a, Root, id) == Winner(b, Root, id);
      if Live(b, id) { SameReadsSameShape(a, b, ItemMap(b, id)); }
    }
    ShapesAre(a, Shapes(b));
  }

  lemma ReadShapeAfterWrite(d: Doc, c: Container, field: string, v: Value, m: Container)
    ensures ReadShape(Write(d, c, field, v).log, m)
            == if m == c then PatchShape(ReadShape(d.log, m), field, v) else ReadShape(d.log, m)
  {
    hide Winner, Write, Read;
    WriteReads(d, c, field, v, m, "type");
    WriteReads(d, c, field, v, m, "x");
    WriteReads(d, c, field, v, m, "y");
    WriteReads(d, c, field, v, m, "w");
    WriteReads(d, c, field, v, m, "h");
    WriteReads(d, c, field, v, m, "points");
    WriteReads(d, c, field, v, m, "color");
    WriteReads(d, c, field, v, m, "author");
  }

  lemma KeptShape(a: seq<Op>, b: seq<Op>, id: string)
    requires EntryKept(a, b, id)
    ensures ShapeAt(a, id) == ShapeAt(b, id)
  {
    hide Read;
  }

  /** `d` shows the shapes `was` with `s` drawn under `id`, in child map `m`. */
  ghost predicate Drawn(ops: set<Op>, was: map<string, Shape>, d: Doc, id: string, m: Container, s: Shape) {
    && Wf(d.log) && ops <= Ops(d.log)
    && Live(d.log, id) && ItemMap(d.log, id) == m
    && Shapes(d.log) == was[id := s]
  }

  lemma DrawnMeans(ops: set<Op>, was: map<string, Shape>, d: Doc, id: string, m: Container, s: Shape)
    requires Drawn(ops, was, d, id, m, s)
    ensures Wf(d.log) && ops <= Ops(d.log) && Shapes(d.log) == was[id := s]
  {
  }

  lemma DrawNext(ops: set<Op>, was: map<string, Shape>, d: Doc, id: string, m: Container, s: Shape, field: string, v: Value)
    requires Drawn(ops, was, d, id, m, s) && FieldValue(v)
    ensures Drawn(ops, was, Write(d, m, field, v), id, m, PatchShape(s, field, v))
  {
    hide ReadShape, PatchShape, Shapes;
    var d', s' := Write(d, m, field, v), PatchShape(s, field, v);
    WinnerIsGreatest(d.log, Root, id);
    WriteWf(d, m, field, v);
    WriteReads(d, m, field, v, Root, id);
    ReadShapeAfterWrite(d, m, field, v, m);
    ShapesAt(d.log, id);
    forall other ensures ShapeAt(d'.log, other) == At(was[id := s'], other) {
      ShapesAt(d.log, other);
      if other != id {
        FieldWriteElsewhere(d, id, field, v, other);
        KeptShape(d'.log, d.log, other);
      }
    }
    ShapesAre(d'.log, was[id := s']);
  }

  const BLANK := Shape("", 0.0, 0.0, 0.0, 0.0, [], "", "")

  lemma NewEntry(d: Doc, id: string)
    requires Wf(d.log)
    ensures Drawn(Ops(d.log), Shapes(d.log), Write(d, Root, id, SubMap), id, Child(NextTag(d)), BLANK)
  {
    var d', m := Write(d, Root, id, SubMap), Child(NextTag(d));
    WriteWf(d, Root, id, SubMap);
    NothingIn(d.log, m);
    ReadShapeAfterWrite(d, Root, id, SubMap, m);
    WriteReads(d, Root, id, SubMap, Root, id);
    hide ReadShape, Shapes;
    forall other ensures ShapeAt(d'.log, other) == At(Shapes(d.log)[id := BLANK], other) {
      ShapesAt(d.log, other);
      if other != id {
        RootWriteElsewhere(d, id, SubMap, other);
        KeptShape(d'.log, d.log, other);
      }
    }
    ShapesAre(d'.log, Shapes(d.log)[id := BLANK]);
  }

  /** Nothing was written into a child map before it was made. */
  lemma NothingIn(log: seq<Op>, m: Container)
    requires Wf(log) && m.Child? && m.of.lamport == Clock(log)
    ensures ReadShape(log, m) == BLANK
  {
    forall f ensures Read(log, m, f) == Deleted {
      WinnerIsGreatest(log, m, f);
    }
    hide Read;
  }

  lemma Erase(d: Doc, id: string)
    requires Wf(d.log)
    ensures Wf(RemoveItem(d, id).log) && Ops(d.log) <= Ops(RemoveItem(d, id).log)
    ensures Shapes(RemoveItem(d, id).log) == Shapes(d.log) - {id}
  {
    var d' := RemoveItem(d, id);
    WriteWf(d, Root, id, Deleted);
    hide ReadShape, Shapes;
    forall other ensures ShapeAt(d'.log, other) == At(Shapes(d.log) - {id}, other) {
      ShapesAt(d.log, other);
      WriteReads(d, Root, id, Deleted, Root, other);
      if other != id {
        RootWriteElsewhere(d, id, Deleted, other);
        KeptShape(d'.log, d.log, other);
      }
    }
    ShapesAre(d'.log, Shapes(d.log) - {id});
  }

  // ---- the document ----

  /** What an operation does to the shapes on the board. */
  function NextShapes(was: map<string, Shape>, op: ShapeOp): map<string, Shape> {
    match op
    case Add(id, s) => was[id := s]
    case Clear => map[]
    case Unknown(_) => was
  }

  /** One collaborative document; each method is one section under its lock. */
  class SharedDoc {
    var loro: Doc

    ghost predicate Valid()
      reads this
    {
      Wf(loro.log)
    }

    constructor (peer: nat)
      ensures Valid() && loro == Doc(peer, [])
    {
      loro := Doc(peer, []);
    }

    method ApplyUpdate(update: seq<Op>)
      requires Valid() && Wf(update) && Consistent(Ops(loro.log) + Ops(update))
      modifies this
      ensures Valid() && Ops(loro.log) == Ops(old(loro).log) + Ops(update)
    {
      ImportWf(loro, update);
      ImportIsUnion(loro, update);
      loro := Import(loro, update);
    }

    method EncodeSnapshot() returns (snap: seq<Op>)
      ensures snap == loro.log
    {
      snap := loro.log;
    }

    method ApplyShapeOp(op: ShapeOp) returns (r: Result<map<string, Shape>, string>)
      requires Valid()
      modifies this
      ensures Valid() && Ops(old(loro).log) <= Ops(loro.log)
      ensures Shapes(loro.log) == NextShapes(Shapes(old(loro).log), op)
      ensures op.Add? ==> Shapes(loro.log) == Shapes(old(loro).log)[op.id := op.shape]
      ensures op.Clear? ==> Shapes(loro.log) == map[]
      ensures op.Unknown? ==> r.Err? && loro == old(loro)
      ensures !op.Unknown? ==> r == Ok(Shapes(loro.log))
    {
      hide Shapes, Wf, Ops, Live, Drawn, Write;
      match op {
        case Add(id, s) => DrawShape(id, s);
        case Clear => EraseAll();
        case Unknown(o) => return Err(o);
      }
      var shapes := ReadShapes();
      r := Ok(shapes);
    }

    method DrawShape(id: string, s: Shape)
      requires Valid()
      modifies this
      ensures Valid() && Ops(old(loro).log) <= Ops(loro.log)
      ensures Shapes(loro.log) == Shapes(old(loro).log)[id := s]
    {
      var d, ops, was := loro, Ops(loro.log), Shapes(loro.log);
      var m, first := Child(NextTag(d)), BLANK;
      if Live(d.log, id) {
        m := ItemMap(d.log, id);
        ShapesAt(d.log, id);
        first := was[id];
        assert was == was[id := first];
      } else {
        NewEntry(d, id);
        d := Write(d, Root, id, SubMap);
      }
      assert Drawn(ops, was, d, id, m, first);
      loro := WriteShape(ops, was, d, id, m, first, s);
    }

    /** The field writes, in the order the code makes them. */
    method WriteShape(ghost ops: set<Op>, ghost was: map<string, Shape>, d: Doc, id: string, m: Container, ghost first: Shape, s: Shape)
      returns (d': Doc)
      requires Drawn(ops, was, d, id, m, first)
      ensures Wf(d'.log) && ops <= Ops(d'.log) && Shapes(d'.log) == was[id := s]
    {
      var fields := [("id", Text(id)), ("type", Text(s.kind)), ("x", Num(s.x)), ("y", Num(s.y)), ("w", Num(s.w)), ("h", Num(s.h)),
                     ("points", Nums(s.points)), ("color", Text(s.color)), ("author", Text(s.author))];
      hide Drawn, PatchShape, Write;
      d' := d;
      var i := 0;
      while i < |fields|
        invariant 0 <= i <= |fields|
        invariant Drawn(ops, was, d', id, m, PatchAll(first, fields[..i]))
      {
        DrawNext(ops, was, d', id, m, PatchAll(first, fields[..i]), fields[i].0, fields[i].1);
        PatchStep(first, fields, i);
        d' := Write(d', m, fields[i].0, fields[i].1);
        i := i + 1;
      }
      assert fields[..i] == fields;
      PatchedToShape(first, id, s, fields);
      DrawnMeans(ops, was, d', id, m, s);
    }

    method EraseAll()
      requires Valid()
      modifies this
      ensures Valid() && Ops(old(loro).log) <= Ops(loro.log)
      ensures Shapes(loro.log) == map[]
    {
      var d, left := loro, LiveIds(loro.log);
      ghost var was := Shapes(d.log);
      hide Shapes;
      assert was.Keys == left by { KeysAreLive(d.log); }
      while left != {}
        invariant Wf(d.log) && Ops(loro.log) <= Ops(d.log) && loro == old(loro)
        invariant Shapes(d.log) == map id | id in was && id in left :: was[id]
      {
        var id :| id in left;
        Erase(d, id);
        d, left := RemoveItem(d, id), left - {id};
      }
      loro := d;
    }

    method ReadShapes() returns (out: map<string, Shape>)
      ensures out == Shapes(loro.log)
    {
      out := map[];
      var left := LiveIds(loro.log);
      hide ReadShape;
      while left != {}
        invariant left <= LiveIds(loro.log)
        invariant out == map id | id in LiveIds(loro.log) - left :: ReadShape(loro.log, ItemMap(loro.log, id))
      {
        var id :| id in left;
        out := out[id := ReadShape(loro.log, ItemMap(loro.log, id))];
        left := left - {id};
      }
    }
  }

  lemma KeysAreLive(log: seq<Op>)
    ensures Shapes(log).Keys == LiveIds(log)
  {
  }

  function PatchAll(s: Shape, fields: seq<(string, Value)>): Shape {
    if fields == [] then s
    else PatchShape(PatchAll(s, fields[..|fields| - 1]), fields[|fields| - 1].0, fields[|fields| - 1].1)
  }

  lemma PatchedToShape(first: Shape, id: string, s: Shape, fields: seq<(string, Value)>)
    requires fields == [("id", Text(id)), ("type", Text(s.kind)), ("x", Num(s.x)), ("y", Num(s.y)), ("w", Num(s.w)), ("h", Num(s.h)),
                        ("points", Nums(s.points)), ("color", Text(s.color)), ("author", Text(s.author))]
    ensures PatchAll(first, fields) == s
  {
    hide PatchAll;
    assert PatchAll(first, fields[..0]) == first by { NothingPatched(first, fields[..0]); }
    PatchStep(first, fields, 0);
    PatchStep(first, fields, 1);
    PatchStep(first, fields, 2);
    PatchStep(first, fields, 3);
    PatchStep(first, fields, 4);
    PatchStep(first, fields, 5);
    PatchStep(first, fields, 6);
    PatchStep(first, fields, 7);
    PatchStep(first, fields, 8);
    assert fields[..9] == fields;
  }

  lemma NothingPatched(s: Shape, fields: seq<(string, Value)>)
    requires fields == []
    ensures PatchAll(s, fields) == s
  {
  }

  lemma PatchStep(s: Shape, fields: seq<(string, Value)>, i: nat)
    requires i < |fields|
    ensures PatchAll(s, fields[..i + 1]) == PatchShape(PatchAll(s, fields[..i]), fields[i].0, fields[i].1)
  {
    assert fields[..i + 1][..i] == fields[..i];
  }
}
