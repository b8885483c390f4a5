/**
 Versions and reads of the todo store under concurrency: each call holds the mutex
 throughout. A mutation writes, bumps the version, then projects into the table; a
 merge of a peer's update bumps again after projecting.
 */
module Notify {
  import opened Wrappers
  import opened Loro

  datatype Phase =
    | Waiting(since: nat)
    | Writing
    | Bumped
    | Projected
    | Reading(since: nat)
    | Finished

  datatype Thread = Thread(owner: string, phase: Phase)

  /** A finished List or Get: the owner, the newest version known when the call began, what it saw. */
  datatype Seen = Seen(owner: string, since: nat, ops: set<Op>)

  datatype State = State(
    holder: Option<nat>,
    threads: map<nat, Thread>,
    versions: map<string, nat>,
    docs: map<string, set<Op>>,
    table: map<string, set<Op>>,
    settled: map<string, set<Op>>,
    published: seq<(string, nat)>,
    docAt: map<(string, nat), set<Op>>,
    seen: seq<Seen>)

  datatype Step =
    | Arrive(t: nat, owner: string, since: nat)
    | LockToWrite(t: nat)
    | WriteOp(t: nat, op: Op)
    | Bump(t: nat)
    | Project(t: nat)
    | Unlock(t: nat)
    | LockToRead(t: nat)
    | ReadDoc(t: nat)

  function Get<V>(m: map<string, set<V>>, o: string): set<V> {
    if o in m then m[o] else {}
  }

  /** The owner's counter. */
  function Version(s: State, owner: string): nat {
    if owner in s.versions then s.versions[owner] else 0
  }

  /** How many events the owner had. */
  function Events(published: seq<(string, nat)>, owner: string): nat {
    if published == [] then 0
    else Events(published[..|published| - 1], owner) + if published[|published| - 1].0 == owner then 1 else 0
  }

  predicate Holds(s: State, t: nat) {
    t in s.threads && s.holder == Some(t)
  }

  predicate Enabled(s: State, e: Step) {
    match e
    case Arrive(t, o, since) => t !in s.threads && since <= Version(s, o)
    case LockToWrite(t) => t in s.threads && s.threads[t].phase.Waiting? && s.holder == None
    case LockToRead(t) => t in s.threads && s.threads[t].phase.Waiting? && s.holder == None
    case WriteOp(t, _) => Holds(s, t) && s.threads[t].phase.Writing?
    case Bump(t) => Holds(s, t) && (s.threads[t].phase.Writing? || s.threads[t].phase.Projected?)
    case Project(t) => Holds(s, t) && s.threads[t].phase.Bumped?
    case ReadDoc(t) => Holds(s, t) && s.threads[t].phase.Reading?
    case Unlock(t) => Holds(s, t)
  }

  function Apply(s: State, e: Step): State
    requires Enabled(s, e)
  {
    match e
    case Arrive(t, o, since) => s.(threads := s.threads[t := Thread(o, Waiting(since))])
    case LockToWrite(t) => s.(holder := Some(t), threads := s.threads[t := s.threads[t].(phase := Writing)])
    case LockToRead(t) =>
      s.(holder := Some(t), threads := s.threads[t := s.threads[t].(phase := Reading(s.threads[t].phase.since))])
    case WriteOp(t, op) =>
      var o := s.threads[t].owner;
      s.(docs := s.docs[o := Get(s.docs, o) + {op}])
    case Bump(t) =>
      var o := s.threads[t].owner;
      var v := Version(s, o) + 1;
      s.(versions := s.versions[o := v], published := s.published + [(o, v)],
         docAt := s.docAt[(o, v) := Get(s.docs, o)],
         threads := s.threads[t := s.threads[t].(phase := if s.threads[t].phase.Writing? then Bumped else Finished)])
    case Project(t) =>
      var o := s.threads[t].owner;
      s.(table := s.table[o := Get(s.docs, o)], threads := s.threads[t := s.threads[t].(phase := Projected)])
    case ReadDoc(t) =>
      var th := s.threads[t];
      s.(seen := s.seen + [Seen(th.owner, th.phase.since, Get(s.docs, th.owner))],
         threads := s.threads[t := th.(phase := Finished)])
    case Unlock(t) =>
      var o := s.threads[t].owner;
      s.(holder := None, settled := s.settled[o := Get(s.docs, o)],
         threads := s.threads[t := s.threads[t].(phase := Finished)])
  }

  /** Documents start as the table has them; nothing was announced yet. */
  ghost predicate Init(s: State) {
    && s.holder == None && s.threads == map[] && s.versions == map[] && s.published == [] && s.seen == []
    && s.table == s.docs && s.settled == s.docs
    && (forall x :: x in s.docAt <==> x.1 == 0 && x.0 in s.docs)
    && (forall x :: x in s.docAt ==> s.docAt[x] == s.docs[x.0])
  }

  /** The document as of the owner's current version. */
  function Announced(s: State, o: string): set<Op> {
    var x := (o, Version(s, o));
    if x in s.docAt then s.docAt[x] else {}
  }

  /** Events of one owner are numbered 1, 2, 3, ... in the order they were published. */
  ghost predicate Numbered(published: seq<(string, nat)>) {
    forall i :: 0 <= i < |published| ==> published[i].1 == Events(published[..i + 1], published[i].0)
  }

  /** Every version ever announced is still covered by the document. */
  ghost predicate Covered(s: State) {
    && (forall o, v: nat :: 0 < v <= Version(s, o) ==> (o, v) in s.docAt)
    && (forall x :: x in s.docAt ==> x.1 <= Version(s, x.0) && s.docAt[x] <= Get(s.docs, x.0))
  }

  predicate MayWrite(t: Thread, owner: string) {
    t.owner == owner && !t.phase.Reading?
  }

  /** The document moves only under the mutex. */
  ghost predicate Settled(s: State) {
    && (forall o :: s.holder.None? ==> Get(s.docs, o) == Get(s.settled, o))
    && (forall o :: s.holder.Some? && s.holder.value in s.threads && !MayWrite(s.threads[s.holder.value], o) ==>
                      Get(s.docs, o) == Get(s.settled, o))
    && (s.holder.Some? ==> s.holder.value in s.threads && !s.threads[s.holder.value].phase.Waiting?)
    && (forall t :: t in s.threads && (s.threads[t].phase.Waiting? || s.threads[t].phase.Reading?) ==>
          s.threads[t].phase.since <= Version(s, s.threads[t].owner))
  }

  ghost predicate ReadsCovered(s: State) {
    forall k, v: nat :: 0 <= k < |s.seen| && 0 < v <= s.seen[k].since ==>
                          (s.seen[k].owner, v) in s.docAt && s.docAt[(s.seen[k].owner, v)] <= s.seen[k].ops
  }

  ghost predicate Counted(s: State) {
    Numbered(s.published) && forall o :: Version(s, o) == Events(s.published, o)
  }

  ghost predicate Inv(s: State) {
    && Counted(s) && Covered(s) && Settled(s) && ReadsCovered(s)
    && forall k :: 0 <= k < |s.seen| ==> s.seen[k].since <= Version(s, s.seen[k].owner)
  }

  lemma EventsAppend(p: seq<(string, nat)>, x: (string, nat), o: string)
    ensures Events(p + [x], o) == Events(p, o) + if x.0 == o then 1 else 0
  {
    assert (p + [x])[..|p|] == p;
  }

  lemma BumpNumbered(p: seq<(string, nat)>, o: string)
    requires Numbered(p)
    ensures Numbered(p + [(o, Events(p, o) + 1)])
  {
    var q := p + [(o, Events(p, o) + 1)];
    forall i | 0 <= i < |q| ensures q[i].1 == Events(q[..i + 1], q[i].0) {
      if i < |p| {
        assert q[..i + 1] == p[..i + 1];
      } else {
        assert q[..i + 1] == q;
        EventsAppend(p, q[i], o);
      }
    }
  }

  /** The counter and the events it is published with never part. */
  lemma ApplyCounted(s: State, e: Step)
    requires Counted(s) && Enabled(s, e)
    ensures Counted(Apply(s, e))
  {
    var s' := Apply(s, e);
    if e.Bump? {
      var o := s.threads[e.t].owner;
      BumpNumbered(s.published, o);
      forall u ensures Version(s', u) == Events(s'.published, u) {
        EventsAppend(s.published, (o, Version(s, o) + 1), u);
      }
    } else {
      assert s'.published == s.published && s'.versions == s.versions;
    }
  }

  lemma ApplyCovered(s: State, e: Step)
    requires Covered(s) && Enabled(s, e)
    ensures Covered(Apply(s, e))
  {}

  /** No step forgets an announced version. */
  lemma VersionsGrow(s: State, e: Step, o: string)
    requires Enabled(s, e)
    ensures Version(s, o) <= Version(Apply(s, e), o)
  {}

  lemma ApplySettled(s: State, e: Step)
    requires Settled(s) && Enabled(s, e)
    ensures Settled(Apply(s, e))
  {
    forall o ensures Version(s, o) <= Version(Apply(s, e), o) {
      VersionsGrow(s, e, o);
    }
    hide Version;
  }

  lemma ApplyReads(s: State, e: Step)
    requires Inv(s) && Enabled(s, e)
    ensures ReadsCovered(Apply(s, e))
    ensures forall k :: 0 <= k < |Apply(s, e).seen| ==>
              Apply(s, e).seen[k].since <= Version(Apply(s, e), Apply(s, e).seen[k].owner)
  {
    hide Counted;
    forall o ensures Version(s, o) <= Version(Apply(s, e), o) {
      VersionsGrow(s, e, o);
    }
  }

  lemma ApplyInv(s: State, e: Step)
    requires Inv(s) && Enabled(s, e)
    ensures Inv(Apply(s, e))
  {
    ApplyCounted(s, e);
    ApplyCovered(s, e);
    ApplySettled(s, e);
    ApplyReads(s, e);
    hide Covered, Settled, ReadsCovered, Counted;
  }

  ghost predicate IsRun(states: seq<State>, steps: seq<Step>) {
    && |states| == |steps| + 1 && Init(states[0])
    && forall k :: 0 <= k < |steps| ==> Enabled(states[k], steps[k]) && states[k + 1] == Apply(states[k], steps[k])
  }

  lemma {:induction false} RunInv(states: seq<State>, steps: seq<Step>, k: nat)
    requires IsRun(states, steps) && k <= |steps|
    ensures Inv(states[k])
  {
    if k > 0 {
      hide Inv, Init, Apply, Enabled;
      RunInv(states, steps, k - 1);
      ApplyInv(states[k - 1], steps[k - 1]);
    }
  }

  /** In every interleaving: an owner's events carry versions 1, 2, 3, ...; a read
      that began knowing version v shows every operation the document had when v
      was announced; and it shows no mutation half done. */
  lemma ReadAfterNotify(states: seq<State>, steps: seq<Step>)
    requires IsRun(states, steps)
    ensures Numbered(states[|steps|].published)
    ensures ReadsCovered(states[|steps|])
    ensures forall k :: 0 <= k < |steps| && steps[k].ReadDoc? ==>
              var s := states[k]; Get(s.docs, s.threads[steps[k].t].owner) == Get(s.settled, s.threads[steps[k].t].owner)
  {
    RunInv(states, steps, |steps|);
    forall k | 0 <= k < |steps| && steps[k].ReadDoc?
      ensures var s := states[k]; Get(s.docs, s.threads[steps[k].t].owner) == Get(s.settled, s.threads[steps[k].t].owner)
    {
      RunInv(states, steps, k);
      assert Enabled(states[k], steps[k]);
    }
  }

  // ---- nothing unannounced is read ----

  /** A writer of `o` lets go of the mutex before it bumps, with something in the
      document that no version announced. */
  ghost predicate GaveUp(s: State, e: Step, o: string) {
    && e.Unlock? && Holds(s, e.t) && s.threads[e.t].owner == o && s.threads[e.t].phase.Writing?
    && Get(s.docs, o) != Announced(s, o)
  }

  predicate Writes(s: State, o: string) {
    s.holder.Some? && s.holder.value in s.threads && s.threads[s.holder.value].owner == o
    && s.threads[s.holder.value].phase.Writing?
  }

  /** Since version `Version(states[k], o)` was announced, before step k. */
  ghost predicate LeftBehind(states: seq<State>, steps: seq<Step>, k: nat, o: string)
    requires k <= |steps| < |states|
  {
    exists u: nat :: GaveUpSince(states, steps, u, k, o)
  }

  /** What one step does to the gap between document and announcement. */
  lemma GapStep(s: State, e: Step, o: string)
    requires Inv(s) && Enabled(s, e)
    ensures var s' := Apply(s, e);
            && Version(s, o) <= Version(s', o) && Get(s.docs, o) <= Get(s'.docs, o)
            && (Version(s', o) == Version(s, o) ==> Announced(s', o) == Announced(s, o))
            && (Version(s', o) != Version(s, o) ==> Announced(s', o) == Get(s'.docs, o))
            && (Get(s.docs, o) == Announced(s, o) && Get(s'.docs, o) != Announced(s', o) ==> Writes(s', o))
            && (Writes(s, o) && Get(s'.docs, o) != Announced(s', o) ==> Writes(s', o) || GaveUp(s, e, o))
  {
    hide Counted, ReadsCovered;
  }

  lemma AnnouncedWithin(s: State, o: string)
    requires Covered(s)
    ensures Announced(s, o) <= Get(s.docs, o)
  {}

  ghost predicate GaveUpSince(states: seq<State>, steps: seq<Step>, u: nat, k: nat, o: string)
    requires k <= |steps| < |states|
  {
    u < k && GaveUp(states[u], steps[u], o) && Version(states[u], o) == Version(states[k], o)
  }

  lemma {:induction false} GapHasCause(states: seq<State>, steps: seq<Step>, k: nat, o: string)
    requires IsRun(states, steps) && k <= |steps| && Get(states[k].docs, o) != Announced(states[k], o)
    ensures Writes(states[k], o) || LeftBehind(states, steps, k, o)
  {
    if k > 0 {
      RunInv(states, steps, k - 1);
      var s, e := states[k - 1], steps[k - 1];
      assert Enabled(s, e) && states[k] == Apply(s, e);
      GapStep(s, e, o);
      hide Inv, Apply, Enabled, Announced, Init, GaveUp, Writes, Version, Get;
      if Get(s.docs, o) != Announced(s, o) {
        GapHasCause(states, steps, k - 1, o);
        if Writes(s, o) {
          if GaveUp(s, e, o) { assert GaveUpSince(states, steps, k - 1, k, o); }
        } else {
          var u: nat :| GaveUpSince(states, steps, u, k - 1, o);
          assert GaveUpSince(states, steps, u, k, o);
        }
      }
    }
  }

  lemma StepOf(states: seq<State>, steps: seq<Step>, k: nat)
    requires IsRun(states, steps) && k < |steps|
    ensures |states| == |steps| + 1 && Enabled(states[k], steps[k]) && states[k + 1] == Apply(states[k], steps[k])
  {}

  lemma {:induction false} GapStays(states: seq<State>, steps: seq<Step>, u: nat, k: nat, o: string)
    requires IsRun(states, steps) && u <= k <= |steps| && Version(states[u], o) == Version(states[k], o)
    ensures Announced(states[k], o) == Announced(states[u], o) && Get(states[u].docs, o) <= Get(states[k].docs, o)
  {
    hide *;
    if u < k {
      VersionsClimb(states, steps, u, k - 1, o);
      RunInv(states, steps, k - 1);
      StepOf(states, steps, k - 1);
      GapStep(states[k - 1], steps[k - 1], o);
      GapStays(states, steps, u, k - 1, o);
    }
  }

  lemma LeftBehindIsGap(states: seq<State>, steps: seq<Step>, k: nat, o: string)
    requires IsRun(states, steps) && k <= |steps| && LeftBehind(states, steps, k, o)
    ensures Get(states[k].docs, o) != Announced(states[k], o)
  {
    var u: nat :| GaveUpSince(states, steps, u, k, o);
    RunInv(states, steps, u);
    GapStays(states, steps, u, k, o);
    AnnouncedWithin(states[u], o);
    hide IsRun, Inv, Announced;
  }

  lemma {:induction false} VersionsClimb(states: seq<State>, steps: seq<Step>, u: nat, k: nat, o: string)
    requires IsRun(states, steps) && u <= k <= |steps|
    ensures Version(states[u], o) <= Version(states[k], o)
  {
    hide *;
    if u < k {
      VersionsClimb(states, steps, u, k - 1, o);
      StepOf(states, steps, k - 1);
      VersionsGrow(states[k - 1], steps[k - 1], o);
    }
  }

  /** What the mutex buys: every read shows exactly what the owner's current version
      announced, if and only if no writer gave up on a change since that version. */
  lemma ReadShowsAnnouncedIff(states: seq<State>, steps: seq<Step>, k: nat)
    requires IsRun(states, steps) && k < |steps| && steps[k].ReadDoc?
    ensures steps[k].t in states[k].threads
    ensures var s, o := states[k], states[k].threads[steps[k].t].owner;
            Get(s.docs, o) == Announced(s, o) <==> !LeftBehind(states, steps, k, o)
  {
    RunInv(states, steps, k);
    assert Enabled(states[k], steps[k]);
    var o := states[k].threads[steps[k].t].owner;
    if Get(states[k].docs, o) != Announced(states[k], o) { GapHasCause(states, steps, k, o); }
    if LeftBehind(states, steps, k, o) { LeftBehindIsGap(states, steps, k, o); }
    hide Inv, Announced, Init, LeftBehind;
  }

  // ---- the table behind the announcements ----

  predicate Bumps(s: State, e: Step, o: string) {
    e.Bump? && e.t in s.threads && s.threads[e.t].owner == o
  }

  predicate Projects(s: State, e: Step, o: string) {
    e.Project? && e.t in s.threads && s.threads[e.t].owner == o
  }

  /** Step j announced something the table lacked, and before step k neither the
      table was written nor another version announced. */
  ghost predicate Lagging(states: seq<State>, steps: seq<Step>, j: nat, k: nat, o: string)
    requires k <= |steps| < |states|
  {
    && j < k && Bumps(states[j], steps[j], o) && !(Get(states[j].docs, o) <= Get(states[j].table, o))
    && forall i :: j < i < k ==> !Bumps(states[i], steps[i], o) && !Projects(states[i], steps[i], o)
  }

  ghost predicate Lags(states: seq<State>, steps: seq<Step>, k: nat, o: string)
    requires k <= |steps| < |states|
  {
    exists j: nat :: Lagging(states, steps, j, k, o)
  }

  /** What one step does to the table and to the announced version. */
  lemma TableStep(s: State, e: Step, o: string)
    requires Inv(s) && Enabled(s, e)
    ensures var s' := Apply(s, e);
            && Get(s'.table, o) == (if Projects(s, e, o) then Get(s.docs, o) else Get(s.table, o))
            && Announced(s', o) == (if Bumps(s, e, o) then Get(s.docs, o) else Announced(s, o))
  {
    hide Counted, ReadsCovered, Settled;
  }

  lemma TableAtStart(s: State, o: string)
    requires Init(s)
    ensures Announced(s, o) <= Get(s.table, o)
  {}

  /** At every state of every run: the table holds all that the owner's current
      version announced, if and only if that version did not announce something the
      table lacked, or the table was written since. */
  lemma {:induction false} TableHoldsAnnouncedIff(states: seq<State>, steps: seq<Step>, k: nat, o: string)
    requires IsRun(states, steps) && k <= |steps|
    ensures |states| == |steps| + 1
    ensures Announced(states[k], o) <= Get(states[k].table, o) <==> !Lags(states, steps, k, o)
  {
    if k == 0 {
      TableAtStart(states[0], o);
    } else {
      RunInv(states, steps, k - 1);
      StepOf(states, steps, k - 1);
      TableHoldsAnnouncedIff(states, steps, k - 1, o);
      TableStep(states[k - 1], steps[k - 1], o);
      AnnouncedWithin(states[k - 1], o);
      LaggingStep(states, steps, k, o);
    }
  }

  lemma LaggingStep(states: seq<State>, steps: seq<Step>, k: nat, o: string)
    requires 0 < k <= |steps| < |states|
    ensures var s, e := states[k - 1], steps[k - 1];
            Lags(states, steps, k, o)
            <==> if Bumps(s, e, o) then !(Get(s.docs, o) <= Get(s.table, o))
                 else !Projects(s, e, o) && Lags(states, steps, k - 1, o)
  {
    hide Bumps, Projects, Get;
    var s, e := states[k - 1], steps[k - 1];
    if Bumps(s, e, o) {
      assert !(Get(s.docs, o) <= Get(s.table, o)) ==> Lagging(states, steps, k - 1, k, o);
    } else if Lags(states, steps, k - 1, o) {
      var before := k - 1;
      var j: nat :| Lagging(states, steps, j, before, o);
      assert !Projects(s, e, o) ==> Lagging(states, steps, j, k, o);
    }
    if j: nat :| Lagging(states, steps, j, k, o) {
      assert j < k - 1 ==> Lagging(states, steps, j, k - 1, o);
    }
  }

  // ---- the limits ----

  /** Some run leads to `s`. */
  ghost predicate Reachable(s: State) {
    exists states, steps :: IsRun(states, steps) && states[|steps|] == s
  }

  lemma Then(was: State, e: Step) returns (s: State)
    requires Reachable(was) && Enabled(was, e)
    ensures Reachable(s) && s == Apply(was, e)
  {
    hide Apply, Enabled;
    var states, steps :| IsRun(states, steps) && states[|steps|] == was;
    s := Apply(was, e);
    assert IsRun(states + [s], steps + [e]);
  }

  const START := State(None, map[], map[], map[], map[], map[], [], map[], [])

  lemma FirstRun()
    ensures Reachable(START)
  {
    assert IsRun([START], []);
  }

  /** The version is announced before the table is written: a query of the
      `todos` table made on hearing of version 1 can miss the change. */
  lemma TableLagsBehindVersion(op: Op, owner: string) returns (s: State)
    ensures Reachable(s)
    ensures s.published == [(owner, 1)]
    ensures op in Get(s.docs, owner) && op !in Get(s.table, owner)
  {
    hide Reachable;
    FirstRun();
    s := Then(START, Arrive(0, owner, 0));
    s := Then(s, LockToWrite(0));
    s := Then(s, WriteOp(0, op));
    s := Then(s, Bump(0));
  }

  /** A mutation that fails halfway leaves its change in the document without a
      version: the next reader sees what nobody was told of. */
  lemma ReadOfAbandonedChange(op: Op, owner: string) returns (s: State)
    ensures Reachable(s)
    ensures s.published == [] && s.seen == [Seen(owner, 0, {op})]
  {
    hide Reachable;
    FirstRun();
    s := Then(START, Arrive(0, owner, 0));
    s := Then(s, LockToWrite(0));
    s := Then(s, WriteOp(0, op));
    s := Then(s, Unlock(0));
    s := Then(s, Arrive(1, owner, 0));
    s := Then(s, LockToRead(1));
    assert {} + {op} == {op};
    s := Then(s, ReadDoc(1));
  }
}
