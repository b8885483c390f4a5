/**
 The contract of the Loro CRDT that both the todo store and the whiteboard
 build on: a document is a log of uniquely tagged operations on nested maps,
 import adds the operations that are missing, and a map entry reads as the
 operation with the greatest tag (Lamport time, then peer).
 */
module Loro {
  import opened Wrappers

  datatype Tag = Tag(lamport: nat, peer: nat)

  /** The root map of a document, or the child map made by the operation `of`. */
  datatype Container = Root | Child(of: Tag)

  datatype Value =
    | Text(text: string)
    | Flag(flag: bool)
    | Num(num: real)
    | Nums(nums: seq<real>)
    | RowRef(row: nat)
    | SubMap
    | Deleted

  datatype Op = Op(tag: Tag, into: Container, key: string, val: Value)

  datatype Doc = Doc(peer: nat, log: seq<Op>)

  predicate Less(a: Tag, b: Tag) {
    a.lamport < b.lamport || (a.lamport == b.lamport && a.peer < b.peer)
  }

  function Ops(log: seq<Op>): set<Op> {
    set o | o in log
  }

  /** What every operation satisfies on its own: the root map holds only child
      maps, and a child map is written after the operation that made it. */
  predicate WfOp(o: Op) {
    if o.into.Root? then o.val.SubMap? || o.val.Deleted?
    else o.into.of.lamport < o.tag.lamport && !o.val.SubMap?
  }

  /** A tag names one operation. */
  ghost predicate Consistent(ops: set<Op>) {
    forall a, b :: a in ops && b in ops && a.tag == b.tag ==> a == b
  }

  ghost predicate Wf(log: seq<Op>) {
    (forall o :: o in log ==> WfOp(o)) && Consistent(Ops(log))
  }

  /** The Lamport time of the next local operation. */
  function Clock(log: seq<Op>): (t: nat)
    ensures forall o :: o in log ==> o.tag.lamport < t
  {
    if log == [] then 0
    else
      var rest := Clock(log[..|log| - 1]);
      var last := log[|log| - 1].tag.lamport;
      assert log == log[..|log| - 1] + [log[|log| - 1]];
      if last < rest then rest else last + 1
  }

  // ---- reading ----

  predicate About(o: Op, c: Container, k: string) {
    o.into == c && o.key == k
  }

  /** The last writer of entry `k` of container `c`. */
  function Winner(log: seq<Op>, c: Container, k: string): Option<Op> {
    if log == [] then None
    else
      var o := log[|log| - 1];
      var w := Winner(log[..|log| - 1], c, k);
      if About(o, c, k) && (w.None? || Less(w.value.tag, o.tag)) then Some(o) else w
  }

  function Read(log: seq<Op>, c: Container, k: string): Value {
    match Winner(log, c, k)
    case None => Deleted
    case Some(o) => o.val
  }

  /** `w` is what the resolve rule asks for, whatever the order of the log. */
  ghost predicate IsWinner(log: seq<Op>, c: Container, k: string, w: Option<Op>) {
    match w
    case None => forall o :: o in log ==> !About(o, c, k)
    case Some(x) =>
      && x in log && About(x, c, k)
      && forall o :: o in log && About(o, c, k) ==>
           o.tag.lamport < x.tag.lamport || (o.tag.lamport == x.tag.lamport && o.tag.peer <= x.tag.peer)
  }

  lemma {:induction false} WinnerIsGreatest(log: seq<Op>, c: Container, k: string)
    ensures IsWinner(log, c, k, Winner(log, c, k))
  {
    if log != [] {
      WinnerIsGreatest(log[..|log| - 1], c, k);
      assert log == log[..|log| - 1] + [log[|log| - 1]];
    }
  }

  /** Two logs with the same operations read the same: the order in which
      updates arrived does not matter. */
  lemma SameOpsSameReads(a: seq<Op>, b: seq<Op>)
    requires Ops(a) == Ops(b) && Consistent(Ops(a))
    ensures forall c, k :: Winner(a, c, k) == Winner(b, c, k)
    ensures forall c, k :: Read(a, c, k) == Read(b, c, k)
  {
    forall c, k ensures Winner(a, c, k) == Winner(b, c, k) {
      WinnerIsGreatest(a, c, k);
      WinnerIsGreatest(b, c, k);
      assert forall o :: o in a <==> o in Ops(a);
      assert forall o :: o in b <==> o in Ops(b);
    }
  }

  // ---- writing ----

  function NextTag(d: Doc): Tag {
    Tag(Clock(d.log), d.peer)
  }

  function Write(d: Doc, c: Container, k: string, v: Value): Doc {
    d.(log := d.log + [Op(NextTag(d), c, k, v)])
  }

  /** A local write wins at once, and touches only its own entry. */
  lemma WriteReads(d: Doc, c: Container, k: string, v: Value, c': Container, k': string)
    ensures Winner(Write(d, c, k, v).log, c', k')
            == if c' == c && k' == k then Some(Op(NextTag(d), c, k, v)) else Winner(d.log, c', k')
    ensures Read(Write(d, c, k, v).log, c', k') == if c' == c && k' == k then v else Read(d.log, c', k')
  {
    var log' := Write(d, c, k, v).log;
    assert log'[..|log'| - 1] == d.log;
    WinnerIsGreatest(d.log, c', k');
  }

  lemma WriteWf(d: Doc, c: Container, k: string, v: Value)
    requires Wf(d.log) && WfOp(Op(NextTag(d), c, k, v))
    ensures Wf(Write(d, c, k, v).log)
    ensures Ops(Write(d, c, k, v).log) == Ops(d.log) + {Op(NextTag(d), c, k, v)}
  {
    var log' := Write(d, c, k, v).log;
    assert forall o :: o in log' <==> o in d.log || o == Op(NextTag(d), c, k, v);
  }

  // ---- exchanging ----

  function Missing(log: seq<Op>, update: seq<Op>): seq<Op> {
    if update == [] then []
    else
      var rest := Missing(log, update[..|update| - 1]);
      var o := update[|update| - 1];
      if o in log || o in rest then rest else rest + [o]
  }

  lemma {:induction false} MissingOps(log: seq<Op>, update: seq<Op>)
    ensures Ops(Missing(log, update)) == Ops(update) - Ops(log)
  {
    if update != [] {
      var front := update[..|update| - 1];
      MissingOps(log, front);
      assert update == front + [update[|update| - 1]];
      assert forall o :: o in Missing(log, front) <==> o in Ops(Missing(log, front));
    }
  }

  function Import(d: Doc, update: seq<Op>): Doc {
    d.(log := d.log + Missing(d.log, update))
  }

  /** Import is set union: commutative, associative and idempotent on operations. */
  lemma ImportIsUnion(d: Doc, update: seq<Op>)
    ensures Ops(Import(d, update).log) == Ops(d.log) + Ops(update)
  {
    MissingOps(d.log, update);
    assert forall o :: o in Import(d, update).log <==> o in d.log || o in Missing(d.log, update);
    assert forall o :: o in Missing(d.log, update) <==> o in Ops(Missing(d.log, update));
  }

  lemma ImportWf(d: Doc, update: seq<Op>)
    requires Wf(d.log) && Wf(update) && Consistent(Ops(d.log) + Ops(update))
    ensures Wf(Import(d, update).log)
  {
    ImportIsUnion(d, update);
    assert forall o :: o in Import(d, update).log <==> o in Ops(Import(d, update).log);
    assert forall o :: o in Ops(update) <==> o in update;
  }
}
