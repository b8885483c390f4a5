/**
 Offline replay with everything moving at once: pages, triggers and replays, a network
 that loses requests or only responses, and a server that runs what reaches it, early
 or late, on the plain owner -> id -> todo map that the CRDT store refines.
 */
module OfflineSync {
  import opened Wrappers
  import opened OfflineQueue
  import opened Loro
  import opened TodoItems
  import T = TodosTable
  import S = TodoSpec

  type Views = map<string, map<string, Item>>

  type Key = (string, string)

  datatype Phase = Loading | Trying | Waiting(fetch: nat) | Deleting(fetch: nat) | Closing | Settled | Over

  datatype Replay = Replay(phase: Phase, snapshot: seq<Pending>, i: nat, remaining: nat, tried: seq<nat>)

  /** `wire` numbers every fetch ever made, `replies` those the server has answered;
      `created` and `removed` count each todo's insertions and removals. */
  datatype State = State(
    pending: seq<Pending>, nextId: nat,
    promise: Option<nat>, replays: map<nat, Replay>, ends: map<nat, bool>,
    online: set<nat>, wire: map<nat, Request>, replies: map<nat, nat>,
    views: Views, created: multiset<Key>, removed: multiset<Key>)

  datatype Step =
    | Submit(f: nat, request: Request)
    | GiveUp(f: nat)
    | Trigger(r: nat)
    | Load(r: nat)
    | LoadFails(r: nat)
    | Send(r: nat, f: nat, login: string)
    | Answer(r: nat)
    | Fail(r: nat)
    | Deleted(r: nat)
    | DeleteFails(r: nat)
    | PostEnd(r: nat)
    | ClearPromise(r: nat)
    | Execute(f: nat, minted: string)
    | Refuse(f: nat, code: nat)

  function ViewOf(views: Views, o: string): map<string, Item> {
    if o in views then views[o] else map[]
  }

  datatype Effect = Effect(views: Views, status: nat, made: multiset<Key>, lost: multiset<Key>)

  /** The id a create is stored under: its idempotency key, or a new one of the server's. */
  function IdFor(key: string, minted: string): string {
    if key == "" then minted else key
  }

  function Tagged(o: string, ids: set<string>): set<Key> {
    set id | id in ids :: (o, id)
  }

  /** One request at the server: the plain map's step, and the status the page sees. */
  function Handle(views: Views, request: Request, minted: string): Effect {
    match request
    case Create(o, key, title) =>
      var v, id := ViewOf(views, o), IdFor(key, minted);
      if title == "" then Effect(views, 400, multiset{}, multiset{})
      else if o == "" then Effect(views, 500, multiset{}, multiset{})
      else
        Effect(views[o := S.Next(v, S.Create(o, S.Todo(id, Item(title, false))))], 200,
               if id == "" || id in v then multiset{} else multiset{(o, id)}, multiset{})
    case Toggle(o, id) =>
      var v := ViewOf(views, o);
      if !S.Known(v, o, id) then Effect(views, 404, multiset{}, multiset{})
      else
        Effect(views[o := S.Next(v, S.Update(o, id, map[COMPLETED := Flag(!v[id].completed)]))], 200, multiset{}, multiset{})
    case Delete(o, id) =>
      var v := ViewOf(views, o);
      if !S.Known(v, o, id) then Effect(views, 404, multiset{}, multiset{})
      else Effect(views[o := S.Next(v, S.Delete(o, id))], 200, multiset{}, multiset{(o, id)})
    case Clear(o) =>
      var v := ViewOf(views, o);
      Effect(views[o := S.Next(v, S.ClearCompleted(o))], 200, multiset{},
             if o == "" then multiset{} else multiset(Tagged(o, S.Selected(v, "completed"))))
  }

  /** What the page sees when the server fails and changes nothing: a failure to look
      a todo up is answered like a missing one. */
  predicate Refuses(request: Request, code: nat) {
    500 <= code < 600 || (code == 404 && (request.Toggle? || request.Delete?))
  }

  /** The same request, for whoever is logged in when it is sent. */
  predicate Resends(q: Request, sent: Request) {
    sent == q.(owner := sent.owner)
  }

  predicate At(s: State, r: nat, p: Phase) {
    r in s.replays && s.replays[r].phase == p
  }

  predicate InFlight(s: State, r: nat) {
    r in s.replays && s.replays[r].phase.Waiting?
  }

  predicate Removing(s: State, r: nat) {
    r in s.replays && s.replays[r].phase.Deleting? && s.replays[r].i < |s.replays[r].snapshot|
  }

  ghost predicate Enabled(s: State, e: Step) {
    match e
    case Submit(f, _) => f !in s.wire
    case GiveUp(f) => f in s.online && f in s.wire
    case Trigger(r) => r !in s.replays
    case Load(r) => At(s, r, Loading)
    case LoadFails(r) => At(s, r, Loading)
    case Send(r, f, _) => At(s, r, Trying) && s.replays[r].i < |s.replays[r].snapshot| && f !in s.wire
    case Answer(r) => InFlight(s, r) && s.replays[r].phase.fetch in s.replies
    case Fail(r) => InFlight(s, r)
    case Deleted(r) => Removing(s, r)
    case DeleteFails(r) => Removing(s, r)
    case PostEnd(r) => At(s, r, Closing)
    case ClearPromise(r) => At(s, r, Settled)
    case Execute(f, minted) => f in s.wire && f !in s.replies && minted != "" && forall o :: s.created[(o, minted)] == 0
    case Refuse(f, code) => f in s.wire && f !in s.replies && Refuses(s.wire[f], code)
  }

  function Update(s: State, r: nat, p: Replay): State {
    s.(replays := s.replays[r := p])
  }

  function Onward(p: Replay): Replay {
    p.(i := p.i + 1, phase := if p.i + 1 >= |p.snapshot| then Closing else Trying)
  }

  function Broken(p: Replay): Replay {
    p.(remaining := p.remaining + 1, phase := Closing)
  }

  function Apply(s: State, e: Step): State
    requires Enabled(s, e)
  {
    match e
    case Submit(f, q) => s.(wire := s.wire[f := q], online := s.online + {f})
    case GiveUp(f) =>
      s.(online := s.online - {f}, pending := s.pending + [Pending(s.nextId, s.wire[f])], nextId := s.nextId + 1)
    case Trigger(r) =>
      if s.promise.Some? then s else Update(s, r, Replay(Loading, [], 0, 0, [])).(promise := Some(r))
    case Load(r) => Update(s, r, Replay(if s.pending == [] then Settled else Trying, s.pending, 0, 0, []))
    case LoadFails(r) => Update(s, r, s.replays[r].(phase := Settled))
    case Send(r, f, login) =>
      var p := s.replays[r];
      Update(s, r, p.(phase := Waiting(f), tried := p.tried + [p.snapshot[p.i].id]))
      .(wire := s.wire[f := p.snapshot[p.i].request.(owner := login)])
    case Answer(r) =>
      var p := s.replays[r];
      Update(s, r, if Safe(s.replies[p.phase.fetch]) then p.(phase := Deleting(p.phase.fetch))
                   else Onward(p.(remaining := p.remaining + 1)))
    case Fail(r) => Update(s, r, Broken(s.replays[r]))
    case Deleted(r) =>
      var p := s.replays[r];
      Update(s, r, Onward(p)).(pending := Without(s.pending, {p.snapshot[p.i].id}))
    case DeleteFails(r) => Update(s, r, Broken(s.replays[r]))
    case PostEnd(r) => Update(s, r, s.replays[r].(phase := Settled)).(ends := s.ends[r := s.replays[r].remaining == 0])
    case ClearPromise(r) => Update(s, r, s.replays[r].(phase := Over)).(promise := None)
    case Execute(f, minted) =>
      var w := Handle(s.views, s.wire[f], minted);
      s.(views := w.views, replies := s.replies[f := w.status], created := s.created + w.made, removed := s.removed + w.lost)
    case Refuse(f, code) => s.(replies := s.replies[f := code])
  }

  const START := State([], 0, None, map[], map[], {}, map[], map[], map[], multiset{}, multiset{})

  ghost predicate IsRun(states: seq<State>, steps: seq<Step>) {
    && |states| == |steps| + 1 && states[0] == START
    && forall k :: 0 <= k < |steps| ==> Enabled(states[k], steps[k]) && states[k + 1] == Apply(states[k], steps[k])
  }

  // ---- what each request does to its owner's todos, and what the page is told ----

  ghost predicate OthersSame(was: Views, now: Views, o: string) {
    forall u :: u != o ==> ViewOf(now, u) == ViewOf(was, u)
  }

  lemma CreateIs(views: Views, o: string, key: string, title: string, minted: string)
    ensures var w, v := Handle(views, Create(o, key, title), minted), ViewOf(views, o);
            var v', id := ViewOf(w.views, o), if key == "" then minted else key;
            && OthersSame(views, w.views, o)
            && w.status == (if title == "" then 400 else if o == "" then 500 else 200)
            && v' == if title != "" && o != "" && id != "" && id !in v then v[id := Item(title, false)] else v
  {}

  lemma ToggleIs(views: Views, o: string, id: string, minted: string)
    ensures var w, v := Handle(views, Toggle(o, id), minted), ViewOf(views, o);
            && OthersSame(views, w.views, o)
            && w.status == (if o != "" && id != "" && id in v then 200 else 404)
            && ViewOf(w.views, o) == if w.status == 200 then v[id := Item(v[id].title, !v[id].completed)] else v
  {}

  lemma DeleteIs(views: Views, o: string, id: string, minted: string)
    ensures var w, v := Handle(views, Delete(o, id), minted), ViewOf(views, o);
            && OthersSame(views, w.views, o)
            && w.status == (if o != "" && id != "" && id in v then 200 else 404)
            && ViewOf(w.views, o) == if w.status == 200 then v - {id} else v
  {}

  lemma ClearIs(views: Views, o: string, minted: string)
    ensures var w, v := Handle(views, Clear(o), minted), ViewOf(views, o);
            && OthersSame(views, w.views, o) && w.status == 200
            && (o != "" ==> ViewOf(w.views, o) == map id | id in v && !v[id].completed :: v[id])
  {}

  // ---- the queue ----
  // ---- the queue ----

  predicate Running(p: Phase) {
    p.Trying? || p.Waiting? || p.Deleting? || p.Closing?
  }

  /** One replay's place in its snapshot. */
  ghost predicate Progress(s: State, p: Replay) {
    && Ascending(p.snapshot, s.nextId) && p.i <= |p.snapshot| && p.tried <= Ids(p.snapshot)
    && (p.phase.Trying? ==> p.i < |p.snapshot| && |p.tried| == p.i)
    && (p.phase.Waiting? || p.phase.Deleting? ==>
          p.i < |p.snapshot| && |p.tried| == p.i + 1 && p.phase.fetch in s.wire && Resends(p.snapshot[p.i].request, s.wire[p.phase.fetch]))
    && (p.phase.Deleting? ==> p.phase.fetch in s.replies && Safe(s.replies[p.phase.fetch]))
  }

  function Seen(p: Replay): (n: nat)
    ensures n <= |p.snapshot|
  {
    if p.phase.Closing? || p.i > |p.snapshot| then |p.snapshot| else p.i
  }

  /** What a running replay knows of the queue, which only it takes from. */
  ghost predicate Accounted(s: State, p: Replay) {
    && (forall j :: p.i <= j < |p.snapshot| ==> p.snapshot[j] in s.pending)
    && (p.remaining == 0 ==> forall j :: 0 <= j < p.i && j < |p.snapshot| ==> !Listed(s.pending, p.snapshot[j].id))
    && (p.remaining > 0 ==> exists j :: 0 <= j < Seen(p) && p.snapshot[j] in s.pending)
    && (p.phase.Closing? && p.remaining == 0 ==> p.i == |p.snapshot|)
  }

  ghost predicate Cleared(s: State, p: Replay) {
    forall j :: 0 <= j < |p.snapshot| ==> !Listed(s.pending, p.snapshot[j].id)
  }

  ghost predicate ReplayOk(s: State, r: nat)
    requires r in s.replays
  {
    var p := s.replays[r];
    && (p.phase.Over? || s.promise == Some(r))
    && Progress(s, p)
    && (Running(p.phase) ==> Accounted(s, p) && r !in s.ends)
    && (p.phase.Loading? ==> r !in s.ends)
    && (r in s.ends && s.ends[r] ==> Cleared(s, p))
  }

  ghost predicate QueueOk(s: State) {
    && Ascending(s.pending, s.nextId)
    && (forall r :: r in s.replays ==> ReplayOk(s, r))
    && (forall r :: r in s.ends ==> r in s.replays)
    && (s.promise.Some? ==> s.promise.value in s.replays && !s.replays[s.promise.value].phase.Over?)
  }

  predicate Extends<V(==)>(m: map<nat, V>, m': map<nat, V>) {
    forall f :: f in m ==> f in m' && m'[f] == m[f]
  }

  predicate Acts(e: Step, r: nat) {
    match e
    case Trigger(a) => a == r
    case Load(a) => a == r
    case LoadFails(a) => a == r
    case Send(a, _, _) => a == r
    case Answer(a) => a == r
    case Fail(a) => a == r
    case Deleted(a) => a == r
    case DeleteFails(a) => a == r
    case PostEnd(a) => a == r
    case ClearPromise(a) => a == r
    case _ => false
  }

  /** What a step may do to everything a replay refers to but does not own. */
  ghost predicate Around(s: State, s': State) {
    && Extends(s.wire, s'.wire) && Extends(s.replies, s'.replies) && s.nextId <= s'.nextId
    && (forall id: nat :: id < s.nextId && !Listed(s.pending, id) ==> !Listed(s'.pending, id))
  }

  lemma GoneIsUnlisted(items: seq<Pending>, gone: set<nat>, id: nat)
    ensures Listed(Without(items, gone), id) <==> Listed(items, id) && id !in gone
  {
    if Listed(Without(items, gone), id) {
      var w := Without(items, gone);
      var k :| 0 <= k < |w| && w[k].id == id;
      WithoutHolds(items, gone, w[k]);
    }
    if Listed(items, id) && id !in gone {
      var k :| 0 <= k < |items| && items[k].id == id;
      WithoutHolds(items, gone, items[k]);
    }
  }

  lemma WireGrows(s: State, e: Step)
    requires Enabled(s, e)
    ensures Extends(s.wire, Apply(s, e).wire) && Extends(s.replies, Apply(s, e).replies)
  {
    hide Handle, Without, Safe;
  }

  lemma ApplyAround(s: State, e: Step)
    requires Enabled(s, e) && Ascending(s.pending, s.nextId)
    ensures Around(s, Apply(s, e)) && Ascending(Apply(s, e).pending, Apply(s, e).nextId)
    ensures e.GiveUp? ==> forall p :: p in s.pending ==> p in Apply(s, e).pending
    ensures !e.GiveUp? && !e.Deleted? ==> Apply(s, e).pending == s.pending
  {
    hide Handle, Without, Safe, Listed, Ascending, Extends;
    WireGrows(s, e);
    if e.Deleted? {
      var p := s.replays[e.r];
      TakenOut(s.pending, p.snapshot[p.i].id, s.nextId);
    } else if e.GiveUp? {
      PutIn(s.pending, Pending(s.nextId, s.wire[e.f]));
    }
  }

  lemma TakenOut(items: seq<Pending>, gone: nat, limit: nat)
    requires Ascending(items, limit)
    ensures Ascending(Without(items, {gone}), limit)
    ensures forall id: nat :: !Listed(items, id) ==> !Listed(Without(items, {gone}), id)
  {
    WithoutAscends(items, {gone}, limit);
    forall id: nat | !Listed(items, id) ensures !Listed(Without(items, {gone}), id) {
      GoneIsUnlisted(items, {gone}, id);
    }
  }

  lemma PutIn(items: seq<Pending>, p: Pending)
    requires Ascending(items, p.id)
    ensures Ascending(items + [p], p.id + 1) && forall q :: q in items ==> q in items + [p]
    ensures forall id: nat :: Listed(items + [p], id) <==> Listed(items, id) || id == p.id
  {
    forall id: nat ensures Listed(items + [p], id) <==> Listed(items, id) || id == p.id {
      OneMoreListed(items, p, id);
    }
  }

  lemma OneMoreListed(items: seq<Pending>, p: Pending, id: nat)
    ensures Listed(items + [p], id) <==> Listed(items, id) || id == p.id
  {
    var more := items + [p];
    assert more[|items|] == p;
    assert forall k :: 0 <= k < |items| ==> more[k] == items[k];
  }

  lemma OthersStay(s: State, e: Step, r: nat)
    requires Enabled(s, e) && r in s.replays && !Acts(e, r)
    ensures r in Apply(s, e).replays && Apply(s, e).replays[r] == s.replays[r]
    ensures (r in Apply(s, e).ends <==> r in s.ends) && (r in s.ends ==> Apply(s, e).ends[r] == s.ends[r])
  {
    hide Handle, Without, Safe, Onward, Broken;
  }

  /** While a replay is under way no other takes from the queue. */
  lemma OthersLeaveQueue(s: State, e: Step, r: nat)
    requires Enabled(s, e) && QueueOk(s) && r in s.replays && !Acts(e, r) && !s.replays[r].phase.Over?
    ensures Apply(s, e).promise == Some(r) && !e.Deleted?
  {
    hide Handle, Without, Safe, Onward, Broken, Progress, Accounted, Cleared, Ascending;
    assert ReplayOk(s, r);
    assert forall a :: a in s.replays ==> ReplayOk(s, a);
  }

  /** A replay the step is not about. */
  lemma OthersOk(s: State, e: Step, r: nat)
    requires Enabled(s, e) && QueueOk(s) && r in s.replays && !Acts(e, r)
    ensures r in Apply(s, e).replays && Apply(s, e).replays[r] == s.replays[r] && ReplayOk(Apply(s, e), r)
  {
    ApplyAround(s, e);
    OthersStay(s, e, r);
    if !s.replays[r].phase.Over? { OthersLeaveQueue(s, e, r); }
    assert ReplayOk(s, r);
    hide Apply, Enabled, Listed, Ascending, Seen, Safe;
    var p, s' := s.replays[r], Apply(s, e);
    AscendsFurther(p.snapshot, s.nextId, s'.nextId);
    BelowLimit(p.snapshot, s.nextId);
  }

  lemma AscendsFurther(items: seq<Pending>, limit: nat, limit': nat)
    requires Ascending(items, limit) && limit <= limit'
    ensures Ascending(items, limit')
  {}

  lemma BelowLimit(items: seq<Pending>, limit: nat)
    requires Ascending(items, limit)
    ensures forall j :: 0 <= j < |items| ==> items[j].id < limit
  {}

  lemma StillAccounted(s: State, s': State, p: Replay, p': Replay)
    requires Accounted(s, p) && s'.pending == s.pending
    requires p'.snapshot == p.snapshot && p'.i == p.i && p'.remaining == p.remaining && (p'.phase.Closing? ==> p.phase.Closing?)
    requires p.phase.Closing? ==> p'.phase.Closing? || p'.phase.Settled?
    ensures Running(p'.phase) ==> Accounted(s', p')
  {}

  /** One item deleted: the rest of the snapshot stays, what was counted stays. */
  lemma DeletedAccounted(s: State, s': State, p: Replay)
    requires Accounted(s, p) && Ascending(p.snapshot, s.nextId) && p.phase.Deleting? && p.i < |p.snapshot|
    requires s'.pending == Without(s.pending, {p.snapshot[p.i].id})
    ensures Accounted(s', Onward(p))
  {
    var id := p.snapshot[p.i].id;
    forall j | 0 <= j < |p.snapshot| && j != p.i && p.snapshot[j] in s.pending ensures p.snapshot[j] in s'.pending {
      WithoutHolds(s.pending, {id}, p.snapshot[j]);
    }
    forall j | 0 <= j <= p.i && p.remaining == 0 ensures !Listed(s'.pending, p.snapshot[j].id) {
      GoneIsUnlisted(s.pending, {id}, p.snapshot[j].id);
    }
    hide Without, Listed, Ascending;
    if p.remaining > 0 {
      var j :| 0 <= j < p.i && p.snapshot[j] in s.pending;
      assert p.snapshot[j] in s'.pending;
    }
  }

  lemma RefusedAccounted(s: State, s': State, p: Replay)
    requires Accounted(s, p) && p.phase.Waiting? && p.i < |p.snapshot| && s'.pending == s.pending
    ensures Accounted(s', Onward(p.(remaining := p.remaining + 1)))
    ensures Accounted(s', Broken(p))
  {
    assert p.snapshot[p.i] in s.pending;
  }

  lemma BrokenAccounted(s: State, s': State, p: Replay)
    requires Accounted(s, p) && p.phase.Deleting? && p.i < |p.snapshot| && s'.pending == s.pending
    ensures Accounted(s', Broken(p))
  {
    assert p.snapshot[p.i] in s.pending;
  }

  lemma LoadedOk(s: State, r: nat)
    requires Enabled(s, Load(r)) && QueueOk(s)
    ensures ReplayOk(Apply(s, Load(r)), r)
  {
    hide Ascending, Listed;
    assert ReplayOk(s, r);
  }

  /** At the end nothing of the snapshot is left if and only if nothing was counted as remaining. */
  lemma ClosingKnows(s: State, r: nat)
    requires QueueOk(s) && At(s, r, Closing)
    ensures s.replays[r].remaining == 0 <==> Cleared(s, s.replays[r])
  {
    hide Ascending, Progress;
    var p := s.replays[r];
    assert ReplayOk(s, r);
    if p.remaining > 0 {
      var j :| 0 <= j < |p.snapshot| && p.snapshot[j] in s.pending;
      var k :| 0 <= k < |s.pending| && s.pending[k] == p.snapshot[j];
      assert Listed(s.pending, p.snapshot[j].id);
    }
  }

  lemma ProgressMoves(s: State, e: Step, r: nat)
    requires Enabled(s, e) && Acts(e, r) && !e.Load? && r in s.replays && Progress(s, s.replays[r])
    requires Running(s.replays[r].phase) ==> s.replays[r].i <= |s.replays[r].snapshot|
    ensures Progress(Apply(s, e), Apply(s, e).replays[r])
  {
    hide Ascending, Listed, Without, Handle;
    var s', p := Apply(s, e), s.replays[r];
    assert Ascending(p.snapshot, s'.nextId);
    if e.Send? {
      assert p.tried + [p.snapshot[p.i].id] <= Ids(p.snapshot);
    }
  }

  lemma AccountMoves(s: State, e: Step, r: nat)
    requires Enabled(s, e) && QueueOk(s) && Acts(e, r) && !e.Load? && r in s.replays
    ensures Running(Apply(s, e).replays[r].phase) ==> Accounted(Apply(s, e), Apply(s, e).replays[r])
  {
    hide Ascending, Listed, Without, Handle, Safe, Accounted, Cleared;
    assert ReplayOk(s, r);
    var s', p := Apply(s, e), s.replays[r];
    assert (p.phase.Waiting? || p.phase.Deleting? ==> p.i < |p.snapshot|) && Ascending(p.snapshot, s.nextId);
    hide Progress, ReplayOk;
    if e.Deleted? { DeletedAccounted(s, s', p); }
    else if e.Answer? && !Safe(s.replies[p.phase.fetch]) { RefusedAccounted(s, s', p); }
    else if e.Fail? { RefusedAccounted(s, s', p); }
    else if e.DeleteFails? { BrokenAccounted(s, s', p); }
    else if Running(p.phase) { StillAccounted(s, s', p, s'.replays[r]); }
  }

  lemma ClearedMoves(s: State, e: Step, r: nat)
    requires Enabled(s, e) && QueueOk(s) && Acts(e, r) && !e.Load? && r in s.replays
    requires r in Apply(s, e).ends && Apply(s, e).ends[r]
    ensures Cleared(Apply(s, e), Apply(s, e).replays[r])
  {
    ApplyAround(s, e);
    assert ReplayOk(s, r);
    if e.PostEnd? { ClosingKnows(s, r); }
    hide Ascending, Listed, Without, Handle, Safe, Around;
  }

  lemma MovesOk(s: State, e: Step, r: nat)
    requires Enabled(s, e) && QueueOk(s) && Acts(e, r) && !e.Load? && r in Apply(s, e).replays
    ensures ReplayOk(Apply(s, e), r)
  {
    hide Ascending, Listed, Without, Handle, Safe, Around;
    var s' := Apply(s, e);
    if r in s.replays {
      assert ReplayOk(s, r);
      ProgressMoves(s, e, r);
      AccountMoves(s, e, r);
      if r in s'.ends && s'.ends[r] { ClearedMoves(s, e, r); }
      hide Progress, Accounted, Cleared;
    } else {
      NothingAscends(s'.nextId);
    }
  }

  lemma NothingAscends(limit: nat)
    ensures Ascending([], limit)
  {}

  lemma EndsOfReplays(s: State, e: Step)
    requires Enabled(s, e) && QueueOk(s)
    ensures forall r :: r in Apply(s, e).ends ==> r in Apply(s, e).replays
  {
    hide Ascending, Listed, Without, Handle, Safe, ReplayOk, Onward, Broken;
  }

  lemma PromiseMoves(s: State, e: Step)
    requires Enabled(s, e) && QueueOk(s)
    ensures var s' := Apply(s, e);
            s'.promise.Some? ==> s'.promise.value in s'.replays && !s'.replays[s'.promise.value].phase.Over?
  {
    hide Ascending, Listed, Without, Handle, Safe, Progress, Accounted, Cleared;
    assert forall r :: r in s.replays ==> ReplayOk(s, r);
  }

  lemma ApplyQueueOk(s: State, e: Step)
    requires Enabled(s, e) && QueueOk(s)
    ensures QueueOk(Apply(s, e))
  {
    var s' := Apply(s, e);
    ApplyAround(s, e);
    EndsOfReplays(s, e);
    PromiseMoves(s, e);
    hide Ascending, Enabled, Around, ReplayOk;
    forall r | r in s'.replays ensures ReplayOk(s', r) {
      if !Acts(e, r) {
        if r in s.replays { OthersOk(s, e, r); }
      } else if e.Load? { LoadedOk(s, r); }
      else { MovesOk(s, e, r); }
    }
  }

  lemma {:induction false} RunQueueOk(states: seq<State>, steps: seq<Step>, k: nat)
    requires IsRun(states, steps) && k <= |steps|
    ensures QueueOk(states[k])
  {
    if k > 0 {
      RunQueueOk(states, steps, k - 1);
      hide QueueOk, Enabled, Apply;
      ApplyQueueOk(states[k - 1], steps[k - 1]);
    }
  }

  /** In every interleaving: at most one replay is under way; each has sent a prefix
      of its snapshot, in id order; and a replay that announced the end of the sync
      left none of its snapshot in the queue, then or later. */
  lemma ReplaysAreSafe(states: seq<State>, steps: seq<Step>, k: nat)
    requires IsRun(states, steps) && k <= |steps|
    ensures var s := states[k];
            && (forall a, b :: a in s.replays && b in s.replays && !s.replays[a].phase.Over? && !s.replays[b].phase.Over? ==> a == b)
            && (forall r :: r in s.replays ==> s.replays[r].tried <= Ids(s.replays[r].snapshot))
            && (forall r, a, b :: r in s.replays && 0 <= a < b < |s.replays[r].tried| ==> s.replays[r].tried[a] < s.replays[r].tried[b])
            && (forall r :: r in s.ends && s.ends[r] ==> r in s.replays && Cleared(s, s.replays[r]))
  {
    RunQueueOk(states, steps, k);
    hide Accounted, Cleared, Enabled, Apply;
    var s := states[k];
    assert forall r :: r in s.replays ==> ReplayOk(s, r);
    forall r, a, b | r in s.replays && 0 <= a < b < |s.replays[r].tried| ensures s.replays[r].tried[a] < s.replays[r].tried[b] {
      var ids := Ids(s.replays[r].snapshot);
      assert s.replays[r].tried[a] == ids[a] && s.replays[r].tried[b] == ids[b];
    }
  }

  /** The end is announced exactly when the whole snapshot is gone. */
  lemma EndIffCleared(states: seq<State>, steps: seq<Step>, k: nat)
    requires IsRun(states, steps) && k < |steps| && steps[k].PostEnd?
    ensures steps[k].r in states[k].replays
    ensures states[k + 1].ends[steps[k].r] <==> Cleared(states[k + 1], states[k].replays[steps[k].r])
  {
    RunQueueOk(states, steps, k);
    assert Enabled(states[k], steps[k]) && states[k + 1] == Apply(states[k], steps[k]);
    ClosingKnows(states[k], steps[k].r);
    hide QueueOk, Handle;
  }

  lemma SameId(items: seq<Pending>, limit: nat, p: Pending, q: Pending)
    requires Ascending(items, limit) && p in items && q in items && p.id == q.id
    ensures p == q
  {
    var a :| 0 <= a < |items| && items[a] == p;
    var b :| 0 <= b < |items| && items[b] == q;
    assert a == b;
  }

  /** An item leaves only in the step after the answer to its own request, which was success or a 404. */
  lemma LeftByAnswer(states: seq<State>, steps: seq<Step>, k: nat, p: Pending) returns (f: nat)
    requires IsRun(states, steps) && k < |steps| && p in states[k].pending && p !in states[k + 1].pending
    ensures steps[k].Deleted? && At(states[k], steps[k].r, Phase.Deleting(f))
    ensures f in states[k].wire && Resends(p.request, states[k].wire[f]) && f in states[k].replies
    ensures 200 <= states[k].replies[f] < 300 || states[k].replies[f] == 404
  {
    RunQueueOk(states, steps, k);
    var s, e := states[k], steps[k];
    assert Enabled(s, e) && states[k + 1] == Apply(s, e);
    hide Handle, Safe, IsRun;
    ApplyAround(s, e);
    assert e.Deleted?;
    assert ReplayOk(s, e.r);
    var q := s.replays[e.r];
    f := q.phase.fetch;
    WithoutHolds(s.pending, {q.snapshot[q.i].id}, p);
    SameId(s.pending, s.nextId, p, q.snapshot[q.i]);
  }

  /** So in every interleaving an item leaves only when its own request was answered
      with a success or a 404. */
  lemma LeavesOnlyAnswered(states: seq<State>, steps: seq<Step>, k: nat, p: Pending)
    requires IsRun(states, steps) && k < |steps| && p in states[k].pending && p !in states[k + 1].pending
    ensures exists f :: f in states[k].wire && Resends(p.request, states[k].wire[f])
                        && f in states[k].replies && (200 <= states[k].replies[f] < 300 || states[k].replies[f] == 404)
  {
    hide *;
    var f := LeftByAnswer(states, steps, k, p);
  }

  /** What an answer decides, in every interleaving: the replay goes on to delete the
      item if and only if it was a success or a 404; otherwise the item stays, is
      counted as remaining, and the replay goes on to the next. */
  lemma AnswerDecides(states: seq<State>, steps: seq<Step>, k: nat)
    requires IsRun(states, steps) && k < |steps| && steps[k].Answer?
    ensures var s, s', r := states[k], states[k + 1], steps[k].r;
            && InFlight(s, r) && s.replays[r].i < |s.replays[r].snapshot| && s.replays[r].phase.fetch in s.replies && r in s'.replays
            && var p, p', code := s.replays[r], s'.replays[r], s.replies[s.replays[r].phase.fetch];
               && s'.pending == s.pending && p.snapshot[p.i] in s.pending
               && (p'.phase == Phase.Deleting(p.phase.fetch) <==> 200 <= code < 300 || code == 404)
               && (p'.phase != Phase.Deleting(p.phase.fetch) ==> p'.i == p.i + 1 && p'.remaining == p.remaining + 1)
  {
    RunQueueOk(states, steps, k);
    StepAt(states, steps, k);
    assert ReplayOk(states[k], steps[k].r);
    hide IsRun, Ascending, Listed, Without, Handle, Cleared;
  }

  /** The surviving items keep their order. */
  lemma SurvivorsKeepOrder(states: seq<State>, steps: seq<Step>, j: nat, k: nat, a: nat, b: nat, c: nat, d: nat)
    requires IsRun(states, steps) && j <= k <= |steps|
    requires a < |states[j].pending| && b < |states[j].pending| && c < |states[k].pending| && d < |states[k].pending|
    requires states[j].pending[a] == states[k].pending[c] && states[j].pending[b] == states[k].pending[d]
    ensures a < b <==> c < d
  {
    RunQueueOk(states, steps, j);
    RunQueueOk(states, steps, k);
    hide ReplayOk, IsRun;
  }

  // ---- the server ----

  /** A todo was inserted once for every time it was removed, and once more if it is there. */
  ghost predicate Conserved(s: State) {
    forall o, k :: s.created[(o, k)] == s.removed[(o, k)] + if k in ViewOf(s.views, o) then 1 else 0
  }

  /** Only a create that went through is answered with success, and none with a 404. */
  ghost predicate Truthful(s: State) {
    forall f: nat :: TruthfulAt(s, f)
  }

  lemma TaggedHolds(o: string, ids: set<string>, o': string, k: string)
    ensures multiset(Tagged(o, ids))[(o', k)] == if o' == o && k in ids then 1 else 0
  {
    assert (o', k) in Tagged(o, ids) <==> o' == o && k in ids;
  }

  ghost predicate Conserves(views: Views, w: Effect, o: string, k: string) {
    (if k in ViewOf(views, o) then 1 else 0) + w.made[(o, k)] == w.lost[(o, k)] + if k in ViewOf(w.views, o) then 1 else 0
  }

  lemma CreateConserves(views: Views, u: string, key: string, title: string, minted: string, o: string, k: string)
    requires minted != ""
    ensures Conserves(views, Handle(views, Create(u, key, title), minted), o, k)
  {}

  lemma ToggleConserves(views: Views, u: string, id: string, minted: string, o: string, k: string)
    ensures Conserves(views, Handle(views, Toggle(u, id), minted), o, k)
  {
    hide S.PatchedBy;
  }

  lemma DeleteConserves(views: Views, u: string, id: string, minted: string, o: string, k: string)
    ensures Conserves(views, Handle(views, Delete(u, id), minted), o, k)
  {}

  lemma ClearConserves(views: Views, u: string, minted: string, o: string, k: string)
    ensures Conserves(views, Handle(views, Clear(u), minted), o, k)
  {
    hide S.Matches;
    TaggedHolds(u, S.Selected(ViewOf(views, u), "completed"), o, k);
  }

  lemma HandleConserves(views: Views, q: Request, minted: string, o: string, k: string)
    requires minted != ""
    ensures Conserves(views, Handle(views, q, minted), o, k)
  {
    hide Handle, Conserves;
    match q {
      case Create(u, key, title) => CreateConserves(views, u, key, title, minted, o, k);
      case Toggle(u, id) => ToggleConserves(views, u, id, minted, o, k);
      case Delete(u, id) => DeleteConserves(views, u, id, minted, o, k);
      case Clear(u) => ClearConserves(views, u, minted, o, k);
    }
  }

  lemma HandleAnswers(views: Views, q: Request, minted: string)
    requires q.Create? && minted != "" && Safe(Handle(views, q, minted).status)
    ensures q.owner != "" && q.title != ""
    ensures IdFor(q.key, minted) in ViewOf(Handle(views, q, minted).views, q.owner)
  {}

  lemma OnlyExecuteMoves(s: State, e: Step)
    requires Enabled(s, e) && !e.Execute?
    ensures var s' := Apply(s, e); s'.created == s.created && s'.removed == s.removed && s'.views == s.views
  {
    hide Safe, Without, Onward, Broken;
  }

  lemma ApplyConserves(s: State, e: Step)
    requires Enabled(s, e) && Conserved(s)
    ensures Conserved(Apply(s, e))
  {
    hide Handle, Safe, Without, IdFor, ViewOf;
    var s' := Apply(s, e);
    if e.Execute? {
      forall o, k ensures s'.created[(o, k)] == s'.removed[(o, k)] + if k in ViewOf(s'.views, o) then 1 else 0 {
        HandleConserves(s.views, s.wire[e.f], e.minted, o, k);
      }
    } else {
      OnlyExecuteMoves(s, e);
    }
  }

  ghost predicate TruthfulAt(s: State, f: nat) {
    f in s.replies ==>
      && f in s.wire
      && (s.wire[f].Create? && Safe(s.replies[f]) ==>
            && s.wire[f].owner != "" && s.wire[f].title != ""
            && (s.wire[f].key != "" ==> s.created[(s.wire[f].owner, s.wire[f].key)] > 0))
  }

  lemma ApplyTruthful(s: State, e: Step, f: nat)
    requires Enabled(s, e) && TruthfulAt(s, f) && Conserved(Apply(s, e))
    ensures TruthfulAt(Apply(s, e), f)
  {
    var s' := Apply(s, e);
    if e.Execute? && e.f == f {
      var q := s.wire[f];
      if q.Create? && Safe(s'.replies[f]) { HandleAnswers(s.views, q, e.minted); }
    }
    hide Handle, Safe, Without, ViewOf;
  }

  lemma ApplyServer(s: State, e: Step)
    requires Enabled(s, e) && Conserved(s) && Truthful(s)
    ensures Conserved(Apply(s, e)) && Truthful(Apply(s, e))
  {
    ApplyConserves(s, e);
    hide Apply, Enabled, Conserved, TruthfulAt;
    forall f: nat ensures TruthfulAt(Apply(s, e), f) {
      assert TruthfulAt(s, f);
      ApplyTruthful(s, e, f);
    }
  }

  lemma {:induction false} RunServer(states: seq<State>, steps: seq<Step>, k: nat)
    requires IsRun(states, steps) && k <= |steps|
    ensures Conserved(states[k]) && Truthful(states[k])
  {
    if k > 0 {
      RunServer(states, steps, k - 1);
      hide Conserved, Truthful, Enabled, Apply;
      ApplyServer(states[k - 1], steps[k - 1]);
    }
  }

  /** At every state each key has at most one todo more than it has had removals:
      however often its create is replayed, it is inserted again only after a removal. */
  lemma CreatedOncePerRemoval(states: seq<State>, steps: seq<Step>, k: nat, owner: string, key: string)
    requires IsRun(states, steps) && k <= |steps|
    ensures states[k].created[(owner, key)] == states[k].removed[(owner, key)] + if key in ViewOf(states[k].views, owner) then 1 else 0
  {
    RunServer(states, steps, k);
  }

  lemma ExtendsAll<V>(a: map<nat, V>, b: map<nat, V>, c: map<nat, V>)
    requires Extends(a, b) && Extends(b, c)
    ensures Extends(a, c)
  {}

  lemma {:induction false} RepliesStay(states: seq<State>, steps: seq<Step>, j: nat, k: nat)
    requires IsRun(states, steps) && j <= k <= |steps|
    ensures Extends(states[j].wire, states[k].wire) && Extends(states[j].replies, states[k].replies)
  {
    if j < k {
      RepliesStay(states, steps, j, k - 1);
      assert Enabled(states[k - 1], steps[k - 1]) && states[k] == Apply(states[k - 1], steps[k - 1]);
      hide IsRun, Extends;
      WireGrows(states[k - 1], steps[k - 1]);
      ExtendsAll(states[j].wire, states[k - 1].wire, states[k].wire);
      ExtendsAll(states[j].replies, states[k - 1].replies, states[k].replies);
    }
  }

  /** The server settles fetch `f` in this step. */
  predicate Settles(e: Step, f: nat) {
    (e.Execute? || e.Refuse?) && e.f == f
  }

  function StatusBy(s: State, e: Step): nat
    requires (e.Execute? || e.Refuse?) && Enabled(s, e)
  {
    if e.Refuse? then e.code else Handle(s.views, s.wire[e.f], e.minted).status
  }

  lemma SettledStep(s: State, e: Step, f: nat)
    requires Enabled(s, e)
    ensures Settles(e, f) ==> f !in s.replies && f in s.wire && f in Apply(s, e).replies && Apply(s, e).replies[f] == StatusBy(s, e)
    ensures !Settles(e, f) && f in Apply(s, e).replies ==> f in s.replies
  {
    hide Handle, Without, Safe, Onward, Broken;
  }

  lemma StepAt(states: seq<State>, steps: seq<Step>, k: nat)
    requires IsRun(states, steps) && k < |steps|
    ensures |states| == |steps| + 1 && Enabled(states[k], steps[k]) && states[k + 1] == Apply(states[k], steps[k])
  {}

  /** Every reply comes from exactly one step of the server. */
  lemma {:induction false} ReplyHasOneCause(states: seq<State>, steps: seq<Step>, k: nat, f: nat) returns (a: nat)
    requires IsRun(states, steps) && k <= |steps| && f in states[k].replies
    ensures a < k && Settles(steps[a], f) && forall i :: 0 <= i < |steps| && Settles(steps[i], f) ==> i == a
    ensures f in states[a].wire && Enabled(states[a], steps[a]) && states[k].replies[f] == StatusBy(states[a], steps[a])
  {
    a := SettledBefore(states, steps, k, f);
    forall i | 0 <= i < |steps| && Settles(steps[i], f) ensures i == a {
      hide *;
      SettledOnce(states, steps, i, a, f);
    }
    StepAt(states, steps, a);
    SettledStep(states[a], steps[a], f);
    hide *;
    RepliesStay(states, steps, a + 1, k);
    Kept(states[a + 1].replies, states[k].replies, f);
  }

  lemma Kept(m: map<nat, nat>, m': map<nat, nat>, f: nat)
    requires Extends(m, m') && f in m
    ensures f in m' && m'[f] == m[f]
  {}

  lemma {:induction false} SettledBefore(states: seq<State>, steps: seq<Step>, k: nat, f: nat) returns (a: nat)
    requires IsRun(states, steps) && k <= |steps| && f in states[k].replies
    ensures a < k && Settles(steps[a], f)
  {
    if k == 0 {
      assert false;
    } else {
      hide Settles;
      StepAt(states, steps, k - 1);
      SettledStep(states[k - 1], steps[k - 1], f);
      if Settles(steps[k - 1], f) { a := k - 1; } else { a := SettledBefore(states, steps, k - 1, f); }
    }
  }

  lemma SettledOnce(states: seq<State>, steps: seq<Step>, i: nat, j: nat, f: nat)
    requires IsRun(states, steps) && i < |steps| && j < |steps| && Settles(steps[i], f) && Settles(steps[j], f)
    ensures i == j
  {
    hide *;
    var a, b := if i <= j then i else j, if i <= j then j else i;
    StepAt(states, steps, a);
    StepAt(states, steps, b);
    SettledStep(states[a], steps[a], f);
    SettledStep(states[b], steps[b], f);
    if a < b {
      RepliesStay(states, steps, a + 1, b);
      Kept(states[a + 1].replies, states[b].replies, f);
    }
  }

  /** The todos once a toggle or delete is done. */
  function DoneTo(v: map<string, Item>, q: Request): map<string, Item> {
    match q
    case Toggle(o, id) => if id in v then S.Next(v, S.Update(o, id, map[COMPLETED := Flag(!v[id].completed)])) else v
    case Delete(o, id) => S.Next(v, S.Delete(o, id))
    case _ => v
  }

  lemma ChangeHandled(views: Views, q: Request, minted: string)
    requires q.Toggle? || q.Delete?
    ensures var w, v := Handle(views, q, minted), ViewOf(views, q.owner);
            if S.Known(v, q.owner, q.id) then w.status == 200 && ViewOf(w.views, q.owner) == DoneTo(v, q) != v
            else w.status == 404 && w.views == views
  {}

  /** A queued toggle or delete that left the queue was settled by one step of the
      server: it was done there if and only if the todo was there and the look-up did
      not fail. Answered 404 by a failed look-up, it is undone, the todo there or not. */
  lemma QueuedChangeDoneIff(states: seq<State>, steps: seq<Step>, j: nat, k: nat, p: Pending) returns (f: nat, a: nat)
    requires IsRun(states, steps) && j <= k <= |steps|
    requires p in states[j].pending && p !in states[k].pending && (p.request.Toggle? || p.request.Delete?)
    ensures a < k && Settles(steps[a], f) && forall i :: 0 <= i < |steps| && Settles(steps[i], f) ==> i == a
    ensures f in states[a].wire && Resends(p.request, states[a].wire[f])
    ensures steps[a].Refuse? ==> steps[a].code == 404 && states[a + 1].views == states[a].views
    ensures var q := states[a].wire[f];
            var v, v' := ViewOf(states[a].views, q.owner), ViewOf(states[a + 1].views, q.owner);
            && (v' == DoneTo(v, q) != v <==> steps[a].Execute? && S.Known(v, q.owner, q.id))
            && (v' == v && S.Known(v, q.owner, q.id) <==> steps[a].Refuse? && S.Known(v, q.owner, q.id))
  {
    assert |states| == |steps| + 1;
    hide IsRun, Enabled, Apply, Extends, StatusBy, Refuses, DoneTo, ViewOf;
    var i := LastSeen(states, j, k, p);
    f := LeftByAnswer(states, steps, i, p);
    a := ReplyHasOneCause(states, steps, i, f);
    RepliesStay(states, steps, a, i);
    SameRequest(states[a].wire, states[i].wire, f);
    StepAt(states, steps, a);
    ChangeSettled(states[a], steps[a], states[a].wire[f]);
  }

  lemma SameRequest(m: map<nat, Request>, m': map<nat, Request>, f: nat)
    requires Extends(m, m') && f in m
    ensures f in m' && m'[f] == m[f]
  {}

  lemma ChangeSettled(s: State, e: Step, q: Request)
    requires Enabled(s, e) && (e.Execute? || e.Refuse?) && e.f in s.wire && s.wire[e.f] == q && (q.Toggle? || q.Delete?)
    requires 200 <= StatusBy(s, e) < 300 || StatusBy(s, e) == 404
    ensures e.Refuse? ==> e.code == 404 && Apply(s, e).views == s.views
    ensures var v, v' := ViewOf(s.views, q.owner), ViewOf(Apply(s, e).views, q.owner);
            && (v' == DoneTo(v, q) != v <==> e.Execute? && S.Known(v, q.owner, q.id))
            && (v' == v && S.Known(v, q.owner, q.id) <==> e.Refuse? && S.Known(v, q.owner, q.id))
  {
    if e.Execute? { ChangeHandled(s.views, q, e.minted); }
    hide Handle, DoneTo, ViewOf;
  }

  predicate Fetching(s: State, r: nat, f: nat) {
    At(s, r, Waiting(f)) || At(s, r, Phase.Deleting(f))
  }

  /** The step sends the request for this user. */
  predicate Sends(e: Step, q: Request, login: string, wire: map<nat, Request>) {
    e.Send? && e.login == login && e.f in wire && wire[e.f] == q.(owner := login)
  }

  lemma FetchStep(s: State, e: Step, r: nat, f: nat)
    requires Enabled(s, e) && Fetching(Apply(s, e), r, f)
    ensures Fetching(s, r, f) || (e.Send? && e.f == f && f in Apply(s, e).wire && Apply(s, e).wire[f].owner == e.login)
  {
    hide Handle, Without, Safe;
  }

  lemma StartsIdle(states: seq<State>, steps: seq<Step>, r: nat, f: nat)
    requires IsRun(states, steps)
    ensures !Fetching(states[0], r, f)
  {}

  lemma {:induction false} SentBefore(states: seq<State>, steps: seq<Step>, k: nat, r: nat, f: nat) returns (i: nat)
    requires IsRun(states, steps) && k <= |steps| && Fetching(states[k], r, f)
    ensures i < k && steps[i].Send? && steps[i].f == f && f in states[k].wire && states[k].wire[f].owner == steps[i].login
  {
    hide *;
    StartsIdle(states, steps, r, f);
    if k > 0 {
      StepAt(states, steps, k - 1);
      FetchStep(states[k - 1], steps[k - 1], r, f);
      if Fetching(states[k - 1], r, f) {
        i := SentBefore(states, steps, k - 1, r, f);
        RepliesStay(states, steps, k - 1, k);
        SameRequest(states[k - 1].wire, states[k].wire, f);
      } else {
        i := k - 1;
      }
    }
  }

  /** A queued create leaves the queue only after its todo was created, for `owner`, the
      user who was logged in when it was replayed; if nothing removed it, exactly once,
      and it is there. A create without a title never leaves, nor does any while nobody
      is logged in. */
  lemma {:induction false} QueuedCreateHappened(states: seq<State>, steps: seq<Step>, j: nat, k: nat, p: Pending) returns (owner: string)
    requires IsRun(states, steps) && j <= k <= |steps|
    requires p in states[j].pending && p !in states[k].pending && p.request.Create?
    ensures owner != "" && p.request.title != ""
    ensures exists i :: 0 <= i < k && Sends(steps[i], p.request, owner, states[k].wire)
    ensures p.request.key != "" ==>
              var it := (owner, p.request.key);
              && states[k].created[it] > 0
              && (states[k].removed[it] == 0 ==> states[k].created[it] == 1 && p.request.key in ViewOf(states[k].views, owner))
  {
    hide QueueOk, Apply, Enabled;
    var i := LastSeen(states, j, k, p);
    var f := LeftByAnswer(states, steps, i, p);
    var n := SentBefore(states, steps, i, steps[i].r, f);
    RepliesStay(states, steps, i, k);
    RunServer(states, steps, k);
    assert TruthfulAt(states[k], f);
    owner := states[i].wire[f].owner;
    SameRequest(states[i].wire, states[k].wire, f);
    assert Sends(steps[n], p.request, owner, states[k].wire);
  }

  lemma {:induction false} LastSeen(states: seq<State>, j: nat, k: nat, p: Pending) returns (i: nat)
    requires j <= k < |states| && p in states[j].pending && p !in states[k].pending
    ensures j <= i < k && p in states[i].pending && p !in states[i + 1].pending
  {
    if p in states[k - 1].pending { i := k - 1; } else { i := LastSeen(states, j, k - 1, p); }
  }

  /** In the store, too: a key that is shown has one row, a key that is not has none. */
  lemma OneRowPerKey(s: S.State, owner: string, key: string)
    requires S.Inv(s) && S.InStep(s, owner)
    ensures |set i | i in s.rows && T.Holds(s.rows, i, owner, key)| == if key in S.View(s, owner) then 1 else 0
  {
    var all := set i | i in s.rows && T.Holds(s.rows, i, owner, key);
    assert forall i :: i in all ==> i in T.RowsOf(s.rows, owner);
    if key in S.View(s, owner) {
      var i := T.TheRow(s.rows, owner, key);
      assert all == {i};
    } else {
      assert key !in T.KeysOf(s.rows, owner);
      assert all == {};
    }
  }

  // ---- the limits ----

  /** Some run leads to `s`. */
  ghost predicate Reachable(s: State) {
    exists states, steps :: IsRun(states, steps) && states[|steps|] == s
  }

  lemma Then(was: State, e: Step) returns (s: State)
    requires Reachable(was) && Enabled(was, e)
    ensures Reachable(s) && s == Apply(was, e)
  {
    hide Apply, Enabled;
    var states, steps :| IsRun(states, steps) && states[|steps|] == was;
    s := Apply(was, e);
    assert IsRun(states + [s], steps + [e]);
  }

  /** The page submits, the server runs the request, the response is lost and the request queued. */
  lemma SubmittedAndLost(q: Request, minted: string) returns (s: State)
    requires minted != "" && q.Create?
    ensures Reachable(s)
    ensures var w := Handle(map[], q, minted);
            s == START.(pending := [Pending(0, q)], nextId := 1, wire := map[0 := q], replies := map[0 := w.status],
                        views := w.views, created := w.made, removed := w.lost)
  {
    hide Reachable, Handle;
    FirstRun();
    s := Then(START, Submit(0, q));
    s := Then(s, Execute(0, minted));
    s := Then(s, GiveUp(0));
  }

  /** A replay sends the one queued request again and the server runs it. */
  lemma ReplayedOnce(was: State, q: Request, f: nat, login: string, minted: string) returns (s: State)
    requires Reachable(was) && was.pending == [Pending(0, q)] && was.replays == map[]
    requires was.promise == None && f !in was.wire && f !in was.replies
    requires minted != "" && forall o :: was.created[(o, minted)] == 0
    ensures Reachable(s)
    ensures var w := Handle(was.views, q.(owner := login), minted);
            s.views == w.views && s.created == was.created + w.made && s.pending == [Pending(0, q)]
  {
    hide Reachable, Handle, Without, Onward, Broken, Safe;
    s := Resent(was, q, f, login);
    s := Then(s, Execute(f, minted));
  }

  lemma Resent(was: State, q: Request, f: nat, login: string) returns (s: State)
    requires Reachable(was) && was.pending == [Pending(0, q)] && was.replays == map[] && was.promise == None && f !in was.wire
    ensures Reachable(s)
    ensures s == was.(promise := Some(0), wire := was.wire[f := q.(owner := login)], replays := s.replays)
  {
    hide Reachable, Handle, Without, Onward, Broken, Safe;
    s := Then(was, Trigger(0));
    s := Then(s, Load(0));
    s := Then(s, Send(0, f, login));
  }

  /** Replays do not know of removals: a create whose response was lost brings back a
      todo that was deleted meanwhile. */
  lemma ReplayAfterDeleteBringsBack(o: string, key: string, title: string) returns (s: State)
    requires o != "" && key != "" && title != ""
    ensures Reachable(s)
    ensures s.removed[(o, key)] == 1 && s.created[(o, key)] == 2
    ensures key in ViewOf(s.views, o)
  {
    hide Reachable;
    var q, minted := Create(o, key, title), key + "x";
    s := SubmittedAndLost(q, minted);
    s := Then(s, Submit(1, Delete(o, key)));
    assert s.created == multiset{(o, key)};
    s := Then(s, Execute(1, minted));
    s := ReplayedOnce(s, q, 2, o, minted);
    ReachableCounts(s, o, key);
  }

  lemma ReachableCounts(s: State, o: string, key: string)
    requires Reachable(s)
    ensures s.created[(o, key)] == s.removed[(o, key)] + if key in ViewOf(s.views, o) then 1 else 0
  {
    var states, steps :| IsRun(states, steps) && states[|steps|] == s;
    CreatedOncePerRemoval(states, steps, |steps|, o, key);
  }

  /** A create queued by one user and replayed when another is logged in becomes the other's. */
  lemma ReplayedForAnother(a: string, b: string, key: string, title: string) returns (s: State)
    requires b != "" && key != "" && title != ""
    ensures Reachable(s) && s.pending == [Pending(0, Create(a, key, title))]
    ensures s.views == map[b := map[key := Item(title, false)]]
  {
    hide Reachable, Handle;
    var q := Create(a, key, title);
    FirstRun();
    s := Then(START, Submit(0, q));
    s := Then(s, GiveUp(0));
    s := ReplayedOnce(s, q, 1, b, "x");
    CreateHandled(b, key, title, "x");
  }

  /** A toggle that the server failed to look up is answered as if its todo were gone,
      and leaves the queue undone: the todo is there, and open. */
  lemma RefusedToggleIsDropped(o: string, key: string, title: string) returns (s: State)
    requires o != "" && key != "" && title != ""
    ensures Reachable(s)
    ensures s.pending == [] && ViewOf(s.views, o) == map[key := Item(title, false)]
    ensures s.wire == map[0 := Create(o, key, title), 1 := Toggle(o, key), 2 := Toggle(o, key)]
    ensures s.replies == map[0 := 200, 2 := 404]
  {
    hide Reachable, Handle, Without;
    s := Queued(o, key, title);
    s := Then(s, Trigger(0));
    s := Then(s, Load(0));
    s := Then(s, Send(0, 2, o));
    assert [] + [0] == [0] && s.replays[0] == Replay(Waiting(2), [Pending(0, Toggle(o, key))], 0, 0, [0]);
    assert s.replays == map[0 := Replay(Waiting(2), [Pending(0, Toggle(o, key))], 0, 0, [0])];
    s := AnsweredGone(s, Toggle(o, key), 2);
  }

  /** The server answers a replay's one request as if its todo were gone. */
  lemma AnsweredGone(was: State, q: Request, f: nat) returns (s: State)
    requires Reachable(was) && Refuses(q, 404) && was.pending == [Pending(0, q)]
    requires was.replays == map[0 := Replay(Waiting(f), [Pending(0, q)], 0, 0, [0])]
    requires f !in was.replies && f in was.wire && was.wire[f] == q
    ensures Reachable(s)
    ensures s.pending == [] && s.views == was.views
    ensures s.wire == was.wire && s.replies == was.replies[f := 404]
  {
    hide Reachable, Handle;
    assert Without([Pending(0, q)], {0}) == [];
    s := Then(was, Refuse(f, 404));
    s := Then(s, Answer(0));
    s := Then(s, Step.Deleted(0));
  }

  /** A todo is made, and a toggle of it finds no network. */
  lemma Queued(o: string, key: string, title: string) returns (s: State)
    requires o != "" && key != "" && title != ""
    ensures Reachable(s)
    ensures var made := Create(o, key, title); var toggle := Toggle(o, key);
            s == START.(pending := [Pending(0, toggle)], nextId := 1, online := {0}, wire := map[0 := made, 1 := toggle], replies := map[0 := 200],
                        views := map[o := map[key := Item(title, false)]], created := multiset{(o, key)})
  {
    hide Reachable, Handle;
    FirstRun();
    CreateHandled(o, key, title, key + "x");
    s := Then(START, Submit(0, Create(o, key, title)));
    s := Then(s, Execute(0, key + "x"));
    s := Then(s, Submit(1, Toggle(o, key)));
    s := Then(s, GiveUp(1));
    assert s.wire == map[0 := Create(o, key, title), 1 := Toggle(o, key)] && s.replies == map[0 := 200] && s.online == {0};
  }

  lemma CreateHandled(o: string, key: string, title: string, minted: string)
    requires o != "" && key != "" && title != ""
    ensures Handle(map[], Create(o, key, title), minted)
            == Effect(map[o := map[key := Item(title, false)]], 200, multiset{(o, key)}, multiset{})
  {}

  lemma FirstRun()
    ensures Reachable(START)
  {
    assert IsRun([START], []);
  }

  /** A create without a key is given a new id each time: one queued request, two todos. */
  lemma KeylessCreateDuplicates(o: string, title: string, a: string, b: string) returns (s: State)
    requires o != "" && title != "" && a != "" && b != "" && a != b
    ensures Reachable(s) && s.pending == [Pending(0, Create(o, "", title))]
    ensures ViewOf(s.views, o) == map[a := Item(title, false), b := Item(title, false)]
  {
    hide Reachable;
    var q := Create(o, "", title);
    s := SubmittedAndLost(q, a);
    s := ReplayedOnce(s, q, 1, o, b);
  }
}
