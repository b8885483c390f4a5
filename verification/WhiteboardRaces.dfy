/**
 One whiteboard document under concurrent requests. Applying an operation and
 encoding a snapshot are separate sections under the document's lock; saving the
 snapshot and publishing happen outside it, so saves land in any order. Every
 published update comes back through the NATS callback, one message at a time.
 Opening the board merges what was last saved, read some steps before.
 */
module WhiteboardRaces {
  import opened Wrappers
  import opened Loro

  /** A request: ApplyOp publishes a second snapshot, ApplyUpdate the update itself. */
  datatype Phase =
    | Arrived
    | Applied
    | Encoded(snap: set<Op>)
    | Saved
    | Publishing(payload: set<Op>)
    | Done

  datatype Request = Request(ops: set<Op>, raw: bool, phase: Phase)

  datatype Callback = Idle | Imported | Snapped(snap: set<Op>)

  /** `bus` is everything published on the document's subject; the callback has
      finished the first `next`. `opens` are the snapshots that openings of the board
      have read and not merged yet. */
  datatype Board = Board(nats: bool, doc: set<Op>, persisted: Option<set<Op>>, requests: map<nat, Request>,
                         bus: seq<set<Op>>, next: nat, callback: Callback, opens: map<nat, set<Op>>)

  datatype Step =
    | Arrive(r: nat, ops: set<Op>, raw: bool)
    | ApplyOps(r: nat)
    | Encode(r: nat)
    | Save(r: nat)
    | EncodeAgain(r: nat)
    | Publish(r: nat)
    | RemotePublish(ops: set<Op>)
    | Import
    | Snap
    | SaveSnap
    | OpenRead(r: nat)
    | OpenMerge(r: nat)

  predicate Enabled(s: Board, e: Step) {
    match e
    case Arrive(r, _, _) => r !in s.requests
    case ApplyOps(r) => r in s.requests && s.requests[r].phase.Arrived?
    case Encode(r) => r in s.requests && s.requests[r].phase.Applied?
    case Save(r) => r in s.requests && s.requests[r].phase.Encoded?
    case EncodeAgain(r) => r in s.requests && s.requests[r].phase.Saved? && s.nats
    case Publish(r) => r in s.requests && s.requests[r].phase.Publishing? && s.nats
    case RemotePublish(_) => s.nats
    case Import => s.callback.Idle? && s.next < |s.bus|
    case Snap => s.callback.Imported?
    case SaveSnap => s.callback.Snapped?
    case OpenRead(r) => r !in s.opens && s.persisted.Some?
    case OpenMerge(r) => r in s.opens
  }

  function To(s: Board, r: nat, p: Phase): Board
    requires r in s.requests
  {
    s.(requests := s.requests[r := s.requests[r].(phase := p)])
  }

  function Apply(s: Board, e: Step): Board
    requires Enabled(s, e) && s.next <= |s.bus| && (!s.callback.Idle? ==> s.next < |s.bus|)
  {
    match e
    case Arrive(r, ops, raw) => s.(requests := s.requests[r := Request(ops, raw, Arrived)])
    case ApplyOps(r) => To(s, r, Applied).(doc := s.doc + s.requests[r].ops)
    case Encode(r) => To(s, r, Encoded(s.doc))
    case Save(r) => To(s, r, if s.nats then Saved else Done).(persisted := Some(s.requests[r].phase.snap))
    case EncodeAgain(r) => To(s, r, Publishing(if s.requests[r].raw then s.requests[r].ops else s.doc))
    case Publish(r) => To(s, r, Done).(bus := s.bus + [s.requests[r].phase.payload])
    case RemotePublish(ops) => s.(bus := s.bus + [ops])
    case Import => s.(doc := s.doc + s.bus[s.next], callback := Imported)
    case Snap => s.(callback := Snapped(s.doc))
    case SaveSnap => s.(persisted := Some(s.callback.snap), callback := Idle, next := s.next + 1)
    case OpenRead(r) => s.(opens := s.opens[r := s.persisted.value])
    case OpenMerge(r) => s.(doc := s.doc + s.opens[r], opens := s.opens - {r})
  }

  /** A board just opened: the document holds what was saved, if anything was. */
  ghost predicate Rehydrated(s: Board) {
    && s.requests == map[] && s.bus == [] && s.next == 0 && s.callback.Idle? && s.opens == map[]
    && (s.persisted == Some(s.doc) || (s.persisted.None? && s.doc == {}))
  }

  /** A request that has changed the document and has yet to publish. */
  predicate Active(s: Board, r: nat) {
    r in s.requests && !s.requests[r].phase.Arrived? && !s.requests[r].phase.Done?
  }

  ghost predicate Busy(s: Board, seen: nat) {
    (exists r :: Active(s, r)) || seen < |s.bus|
  }

  ghost predicate UpToDate(s: Board) {
    s.persisted == Some(s.doc) || (s.persisted.None? && s.doc == {})
  }

  /** A stale snapshot, saved or about to be, has a publish or a callback still to come after it. */
  ghost predicate CatchingUp(s: Board) {
    && s.next <= |s.bus| && (!s.callback.Idle? ==> s.next < |s.bus|)
    && match s.callback
       case Idle => UpToDate(s) || Busy(s, s.next)
       case Imported => true
       case Snapped(snap) => snap == s.doc || Busy(s, s.next + 1)
  }

  /** Nothing that was ever applied, or opened with, is missing from the document. */
  ghost predicate Complete(s: Board, first: set<Op>) {
    && first <= s.doc
    && (forall r :: r in s.requests && !s.requests[r].phase.Arrived? ==> s.requests[r].ops <= s.doc)
    && (forall m :: 0 <= m < s.next && m < |s.bus| ==> s.bus[m] <= s.doc)
    && (!s.callback.Idle? && s.next < |s.bus| ==> s.bus[s.next] <= s.doc)
  }

  /** Every snapshot, saved or under way, is of this document. */
  ghost predicate Within(s: Board) {
    && (s.persisted.Some? ==> s.persisted.value <= s.doc)
    && (forall r :: r in s.requests && s.requests[r].phase.Encoded? ==> s.requests[r].phase.snap <= s.doc)
    && (s.callback.Snapped? ==> s.callback.snap <= s.doc)
    && (forall r :: r in s.opens ==> s.opens[r] <= s.doc)
  }

  /** Opening a board that nobody has used since a restart brings the saved snapshot back. */
  lemma OpeningRehydrates(s: Board, r: nat, saved: set<Op>)
    requires s == Board(s.nats, {}, Some(saved), map[], [], 0, Idle, map[])
    ensures Enabled(s, OpenRead(r)) && Enabled(Apply(s, OpenRead(r)), OpenMerge(r))
    ensures var s' := Apply(Apply(s, OpenRead(r)), OpenMerge(r)); Rehydrated(s') && s'.doc == saved && s'.persisted == Some(saved)
  {
    assert map[r := saved] - {r} == map[];
    assert {} + saved == saved;
  }

  lemma ApplyWithin(s: Board, e: Step)
    requires CatchingUp(s) && Within(s) && Enabled(s, e)
    ensures Within(Apply(s, e))
  {
    hide Busy, UpToDate;
  }

  lemma ApplyCatchingUp(s: Board, e: Step)
    requires s.nats && CatchingUp(s) && Within(s) && Enabled(s, e)
    ensures CatchingUp(Apply(s, e)) && Apply(s, e).nats
  {
    var s' := Apply(s, e);
    match e {
      case ApplyOps(r) => assert Active(s', r);
      case Encode(r) => assert Active(s', r);
      case Save(r) => assert Active(s', r);
      case EncodeAgain(r) => assert Active(s', r);
      case Publish(r) =>
      case RemotePublish(_) =>
      case Arrive(r, _, _) =>
        assert forall q :: Active(s, q) ==> Active(s', q);
      case Import =>
      case Snap =>
      case SaveSnap =>
        assert forall q :: Active(s, q) ==> Active(s', q);
      case OpenRead(_) =>
        assert forall q :: Active(s, q) ==> Active(s', q);
      case OpenMerge(r) =>
        assert s'.doc == s.doc;
        assert forall q :: Active(s, q) ==> Active(s', q);
    }
  }

  lemma ApplyComplete(s: Board, e: Step, first: set<Op>)
    requires CatchingUp(s) && Complete(s, first) && Enabled(s, e)
    ensures Complete(Apply(s, e), first)
  {
  }

  ghost predicate IsRun(states: seq<Board>, steps: seq<Step>) {
    && |states| == |steps| + 1
    && forall k :: 0 <= k < |steps| ==>
                     && Enabled(states[k], steps[k])
                     && states[k].next <= |states[k].bus| && (!states[k].callback.Idle? ==> states[k].next < |states[k].bus|)
                     && states[k + 1] == Apply(states[k], steps[k])
  }

  ghost predicate Quiet(s: Board) {
    && (forall r :: r in s.requests ==> s.requests[r].phase.Done?)
    && s.callback.Idle? && s.next == |s.bus|
  }

  lemma {:induction false} RunKeeps(states: seq<Board>, steps: seq<Step>)
    requires IsRun(states, steps) && states[0].nats && Rehydrated(states[0])
    ensures CatchingUp(states[|steps|]) && states[|steps|].nats && Complete(states[|steps|], states[0].doc)
    ensures Within(states[|steps|])
  {
    var n := |steps|;
    if n > 0 {
      hide CatchingUp, Complete, Within, Enabled, Apply, Rehydrated;
      assert IsRun(states[..n], steps[..n - 1]);
      RunKeeps(states[..n], steps[..n - 1]);
      ApplyWithin(states[n - 1], steps[n - 1]);
      ApplyCatchingUp(states[n - 1], steps[n - 1]);
      ApplyComplete(states[n - 1], steps[n - 1], states[0].doc);
    }
  }

  /** In every interleaving: once all requests and callbacks have finished, what is
      persisted is the document, with every operation anyone applied or published. */
  lemma PersistedCatchesUp(states: seq<Board>, steps: seq<Step>)
    requires IsRun(states, steps) && states[0].nats && Rehydrated(states[0]) && Quiet(states[|steps|])
    ensures UpToDate(states[|steps|])
    ensures states[0].doc <= states[|steps|].doc
    ensures forall r :: r in states[|steps|].requests ==> states[|steps|].requests[r].ops <= states[|steps|].doc
    ensures forall m :: 0 <= m < |states[|steps|].bus| ==> states[|steps|].bus[m] <= states[|steps|].doc
  {
    RunKeeps(states, steps);
    hide IsRun;
  }

  // ---- without NATS ----

  lemma StepAt(states: seq<Board>, steps: seq<Step>, k: nat)
    requires IsRun(states, steps) && k < |steps|
    ensures |states| == |steps| + 1 && InRange(states[k]) && Enabled(states[k], steps[k]) && states[k + 1] == Apply(states[k], steps[k])
  {}

  predicate InRange(s: Board) {
    s.next <= |s.bus| && (!s.callback.Idle? ==> s.next < |s.bus|)
  }

  /** What a step without NATS does to the document and to what is persisted. */
  lemma LocalStep(s: Board, e: Step)
    requires Enabled(s, e) && InRange(s) && !s.nats && s.bus == [] && s.callback.Idle?
    ensures var s' := Apply(s, e);
            && !s'.nats && s'.bus == [] && s'.callback.Idle? && s.doc <= s'.doc
            && s'.persisted == (if e.Save? then Some(s.requests[e.r].phase.snap) else s.persisted)
            && forall r :: r in s'.requests && s'.requests[r].phase.Encoded? ==>
                 if e == Encode(r) then s'.requests[r].phase.snap == s.doc else r in s.requests && s'.requests[r] == s.requests[r]
  {}

  lemma {:induction false} LocalRun(states: seq<Board>, steps: seq<Step>, k: nat)
    requires IsRun(states, steps) && k <= |steps| && !states[0].nats && Rehydrated(states[0])
    ensures |states| == |steps| + 1 && !states[k].nats && states[k].bus == [] && states[k].callback.Idle?
  {
    if k > 0 {
      LocalRun(states, steps, k - 1);
      StepAt(states, steps, k - 1);
      hide IsRun, Enabled, Apply, Rehydrated;
      LocalStep(states[k - 1], steps[k - 1]);
    }
  }

  lemma {:induction false} EncodedAt(states: seq<Board>, steps: seq<Step>, k: nat, r: nat) returns (i: nat)
    requires IsRun(states, steps) && k <= |steps| && !states[0].nats && Rehydrated(states[0])
    requires r in states[k].requests && states[k].requests[r].phase.Encoded?
    ensures i < k && steps[i] == Encode(r) && states[k].requests[r].phase.snap == states[i].doc
  {
    if k == 0 {
      assert false;
    } else {
      LocalRun(states, steps, k - 1);
      StepAt(states, steps, k - 1);
      hide IsRun, Enabled, Apply, Rehydrated;
      LocalStep(states[k - 1], steps[k - 1]);
      if steps[k - 1] == Encode(r) { i := k - 1; } else { i := EncodedAt(states, steps, k - 1, r); }
    }
  }

  /** What is persisted in state k was taken in state i: by the request whose save
      landed last, or at the start if there was no save. */
  ghost predicate TakenAt(steps: seq<Step>, i: nat, k: nat)
    requires k <= |steps|
  {
    || (i == 0 && forall j :: 0 <= j < k ==> !steps[j].Save?)
    || exists j :: i < j < k && SavedLast(steps, i, j, k)
  }

  ghost predicate SavedLast(steps: seq<Step>, i: nat, j: int, k: nat)
    requires i < j < k <= |steps|
  {
    steps[j].Save? && steps[i] == Encode(steps[j].r) && forall m :: j < m < k ==> !steps[m].Save?
  }

  lemma {:induction false} TakenFrom(states: seq<Board>, steps: seq<Step>, k: nat) returns (i: nat)
    requires IsRun(states, steps) && k <= |steps| && !states[0].nats && Rehydrated(states[0])
    ensures i <= k && TakenAt(steps, i, k)
    ensures states[k].persisted == Some(states[i].doc) || (states[k].persisted.None? && states[i].doc == {})
  {
    if k == 0 {
      i := 0;
    } else {
      hide IsRun, Apply, Rehydrated, TakenAt, Enabled;
      LocalRun(states, steps, k - 1);
      StepAt(states, steps, k - 1);
      LocalStep(states[k - 1], steps[k - 1]);
      if steps[k - 1].Save? {
        i := EncodedBefore(states, steps, k - 1);
      } else {
        i := TakenFrom(states, steps, k - 1);
        StillTaken(steps, i, k - 1);
      }
    }
  }

  lemma EncodedBefore(states: seq<Board>, steps: seq<Step>, k: nat) returns (i: nat)
    requires IsRun(states, steps) && k < |steps| && !states[0].nats && Rehydrated(states[0]) && steps[k].Save?
    ensures i < k && TakenAt(steps, i, k + 1) && steps[k].r in states[k].requests
    ensures states[k].requests[steps[k].r].phase.Encoded? && states[k].requests[steps[k].r].phase.snap == states[i].doc
  {
    StepAt(states, steps, k);
    hide IsRun, Apply, Rehydrated;
    i := EncodedAt(states, steps, k, steps[k].r);
    assert SavedLast(steps, i, k, k + 1);
  }

  lemma StillTaken(steps: seq<Step>, i: nat, k: nat)
    requires k < |steps| && !steps[k].Save? && TakenAt(steps, i, k)
    ensures TakenAt(steps, i, k + 1)
  {
    if j :| i < j < k && SavedLast(steps, i, j, k) {
      assert SavedLast(steps, i, j, k + 1);
    }
  }

  /** No step from state i to state k changed the document. */
  ghost predicate Unchanged(states: seq<Board>, i: nat, k: nat)
    requires k < |states|
  {
    forall m :: i <= m < k ==> states[m + 1].doc == states[m].doc
  }

  lemma UnchangedNext(states: seq<Board>, i: nat, k: nat)
    requires i <= k < |states| - 1
    ensures Unchanged(states, i, k + 1) <==> Unchanged(states, i, k) && states[k + 1].doc == states[k].doc
  {}

  /** The document only grows, so it is the same at both ends only if it never changed. */
  lemma {:induction false} SameIffUnchanged(states: seq<Board>, steps: seq<Step>, i: nat, k: nat)
    requires IsRun(states, steps) && i <= k <= |steps| && !states[0].nats && Rehydrated(states[0])
    ensures |states| == |steps| + 1 && states[i].doc <= states[k].doc
    ensures states[i].doc == states[k].doc <==> Unchanged(states, i, k)
  {
    hide IsRun, Enabled, Apply, Rehydrated, Unchanged, InRange;
    LocalRun(states, steps, k);
    if i < k {
      LocalRun(states, steps, k - 1);
      StepAt(states, steps, k - 1);
      SameIffUnchanged(states, steps, i, k - 1);
      LocalStep(states[k - 1], steps[k - 1]);
      UnchangedNext(states, i, k - 1);
    } else {
      NeverChanged(states, i);
    }
  }

  lemma NeverChanged(states: seq<Board>, i: nat)
    requires i < |states|
    ensures Unchanged(states, i, i)
  {}

  /** Without NATS, at every state of every run: what is persisted is the document if
      and only if the document has not changed since the request whose save landed
      last took its snapshot, or since the start if nothing was saved. */
  lemma UpToDateWithoutNatsIff(states: seq<Board>, steps: seq<Step>, k: nat) returns (i: nat)
    requires IsRun(states, steps) && k <= |steps| && !states[0].nats && Rehydrated(states[0])
    ensures |states| == |steps| + 1 && i <= k && TakenAt(steps, i, k)
    ensures UpToDate(states[k]) <==> Unchanged(states, i, k)
  {
    LocalRun(states, steps, k);
    i := TakenFrom(states, steps, k);
    SameIffUnchanged(states, steps, i, k);
    hide IsRun, TakenAt, Rehydrated;
  }

  // ---- the two conditions are needed ----

  /** Some run leads from `first` to `s`. */
  ghost predicate Leads(first: Board, s: Board) {
    exists states, steps :: IsRun(states, steps) && states[0] == first && states[|steps|] == s
  }

  /** One more step, with the callback where it should be. */
  lemma Then(first: Board, was: Board, e: Step) returns (s: Board)
    requires Leads(first, was) && Enabled(was, e) && InRange(was)
    ensures Leads(first, s) && s == Apply(was, e)
  {
    hide Enabled, Apply;
    var states, steps :| IsRun(states, steps) && states[0] == first && states[|steps|] == was;
    s := Apply(was, e);
    assert IsRun(states + [s], steps + [e]);
  }

  lemma FirstRun(s: Board)
    ensures Leads(s, s)
  {
    assert IsRun([s], []);
  }

  /** Without NATS nothing follows a save: an older snapshot saved last stays. */
  lemma StaleWithoutNats(x: Op, y: Op) returns (first: Board, s: Board)
    requires x != y
    ensures Leads(first, s) && Rehydrated(first) && !first.nats
    ensures Quiet(s) && s.doc == {x, y} && s.persisted == Some({x})
  {
    hide Leads;
    first, s := BothEncoded(x, y);
    s := Then(first, s, Save(1));
    s := Then(first, s, Save(0));
  }

  /** Two requests, each with its snapshot taken and not yet saved. */
  lemma BothEncoded(x: Op, y: Op) returns (first: Board, s: Board)
    requires x != y
    ensures Leads(first, s) && first == Board(false, {}, None, map[], [], 0, Idle, map[])
    ensures s == first.(doc := {x, y}, requests := s.requests)
    ensures s.requests == map[0 := Request({x}, false, Encoded({x})), 1 := Request({y}, false, Encoded({x, y}))]
  {
    hide Leads;
    first := Board(false, {}, None, map[], [], 0, Idle, map[]);
    FirstRun(first);
    s := Then(first, first, Arrive(0, {x}, false));
    s := Then(first, s, Arrive(1, {y}, false));
    s := Then(first, s, ApplyOps(0));
    assert s.doc == {x};
    s := Then(first, s, Encode(0));
    s := Then(first, s, ApplyOps(1));
    assert s.doc == {x, y};
    s := Then(first, s, Encode(1));
  }

  /** A request alone, up to its publish. */
  lemma SavedAndPublished(first: Board, y: Op) returns (s: Board)
    requires first.nats && first.doc == {} && first.requests == map[] && first.bus == [] && first.next == 0 && first.callback.Idle?
    ensures Leads(first, s)
    ensures s == first.(doc := {y}, persisted := Some({y}), requests := map[0 := Request({y}, false, Done)], bus := [{y}])
  {
    hide Leads;
    FirstRun(first);
    s := Then(first, first, Arrive(0, {y}, false));
    s := Then(first, s, ApplyOps(0));
    assert s.doc == {y};
    s := Then(first, s, Encode(0));
    s := Then(first, s, Save(0));
    s := Then(first, s, EncodeAgain(0));
    s := Then(first, s, Publish(0));
  }

  /** A board nobody reopened since a restart: its first update overwrites what was saved. */
  lemma UnloadedBoardIsOverwritten(x: Op, y: Op) returns (first: Board, s: Board)
    requires x != y
    ensures Leads(first, s) && first.nats && first.persisted == Some({x}) && first.doc == {}
    ensures Quiet(s) && s.persisted == Some({y})
  {
    hide Leads;
    first := Board(true, {}, Some({x}), map[], [], 0, Idle, map[]);
    s := SavedAndPublished(first, y);
    s := Then(first, s, Import);
    assert s.doc == {y};
    s := Then(first, s, Snap);
    s := Then(first, s, SaveSnap);
  }
}
