/**
 The todo handlers as the server runs them: any number at once, under no lock. A
 handler looks, writes and publishes in separate steps, and a clear deletes what it
 found record by record, so the consumer's replica can end up different.
 */
module CrudRaces {
  import opened Wrappers
  import opened TodoItems
  import opened CrudLog
  import opened CrudRuns
  import TodosTable

  datatype Phase =
    | Arrived
    | Looked(completed: bool)
    | Sweeping(left: set<string>)
    | Stuck(left: set<string>)
    | Wrote(payload: Payload)
    | Done

  datatype Handler = Handler(call: Call, phase: Phase)

  datatype Entry = Entry(k: nat, payload: Payload)

  /** `owners` remembers who every record was made for. `writes` are the changes to
      the table, one record at a time, in the order they were made, each as the
      record's owner would ship it. `made` are the same changes as the handlers ship
      them: a clear by someone logged in is one entry, from the moment it has found
      its records. `log` is what was published, in that order. */
  datatype State = State(table: Table, owners: map<string, string>, handlers: map<nat, Handler>,
                         writes: seq<Entry>, made: seq<Entry>, log: seq<Entry>)

  datatype Step =
    | Arrive(k: nat, call: Call)
    | Look(k: nat)
    | Write(k: nat, minted: string)
    | Miss(k: nat)
    | Find(k: nat)
    | Drop(k: nat, id: string)
    | Finish(k: nat)
    | Refuse(k: nat)
    | Publish(k: nat)
    | Skip(k: nat)

  predicate At(s: State, k: nat, p: Phase) {
    k in s.handlers && s.handlers[k].phase == p
  }

  predicate HasLooked(s: State, k: nat) {
    k in s.handlers && s.handlers[k].phase.Looked? && (s.handlers[k].call.request.Flip? || s.handlers[k].call.request.Remove?)
  }

  predicate HasWritten(s: State, k: nat) {
    k in s.handlers && s.handlers[k].phase.Wrote?
  }

  /** The records a clear has found and not deleted. */
  function Left(h: Handler): set<string> {
    match h.phase
    case Sweeping(left) => left
    case Stuck(left) => left
    case _ => {}
  }

  predicate Sweeping(s: State, k: nat) {
    k in s.handlers && s.handlers[k].phase.Sweeping?
  }

  function RecordOf(r: Request): string {
    match r
    case Flip(id) => id
    case Remove(id) => id
    case _ => ""
  }

  /** `Miss` is a toggle whose record was deleted between the store's own look-up and
      its save. A look-up, a save or a deletion may also fail, and a sweep then stays
      half done. A handler that wrote skips its publish if it was replayed or cannot
      list, or if the bus fails. */
  ghost predicate Enabled(s: State, e: Step) {
    match e
    case Arrive(k, _) => k !in s.handlers
    case Look(k) => At(s, k, Arrived) && (s.handlers[k].call.request.Flip? || s.handlers[k].call.request.Remove?)
    case Write(k, minted) =>
      || (At(s, k, Arrived) && s.handlers[k].call.request.New? && minted != "" && minted !in s.owners)
      || HasLooked(s, k)
    case Miss(k) => HasLooked(s, k) && s.handlers[k].call.request.Flip? && s.handlers[k].call.request.id !in s.table
    case Find(k) => At(s, k, Arrived) && s.handlers[k].call.request.Clear?
    case Drop(k, id) => Sweeping(s, k) && id in s.handlers[k].phase.left
    case Finish(k) => At(s, k, Phase.Sweeping({}))
    case Refuse(k) => At(s, k, Arrived) || HasLooked(s, k) || (Sweeping(s, k) && s.handlers[k].phase.left != {})
    case Publish(k) => HasWritten(s, k) && !Quiet(s.handlers[k].call)
    case Skip(k) => HasWritten(s, k)
  }

  function CreateOf(user: string, id: string, title: string): Payload {
    Payload(Create, user, Some(Data(id, title, false)))
  }

  function ToggleOf(user: string, id: string, completed: bool): Payload {
    Payload(Toggle, user, Some(Data(id, "", completed)))
  }

  function DeleteOf(user: string, id: string): Payload {
    Payload(Delete, user, Some(Data(id, "", false)))
  }

  function ClearOf(user: string): Payload {
    Payload(ClearCompleted, user, None)
  }

  /** What a handler that has done its part publishes. */
  function PayloadOf(s: State, e: Step): Payload
    requires Enabled(s, e)
  {
    match e
    case Write(k, minted) =>
      var c := s.handlers[k].call;
      (match c.request
       case New(title) => CreateOf(c.user, minted, title)
       case Flip(id) => ToggleOf(c.user, id, !s.handlers[k].phase.completed)
       case Remove(id) => DeleteOf(c.user, id)
       case Clear => ClearOf(c.user))
    case Miss(k) => ToggleOf(s.handlers[k].call.user, s.handlers[k].call.request.id, !s.handlers[k].phase.completed)
    case Drop(_, id) => DeleteOf("", id)
    case Arrive(_, c) => ClearOf(c.user)
    case _ => ClearOf(s.handlers[e.k].call.user)
  }

  /** The change as the record's owner would ship it; nobody's records are not shipped. */
  function OnBehalf(k: nat, p: Payload, owner: string): seq<Entry> {
    if p.user != "" then [Entry(k, p)] else if owner != "" then [Entry(k, p.(user := owner))] else []
  }

  function OwnerOf(t: Table, id: string): string {
    if id in t then t[id].owner else ""
  }

  /** Nothing to write: no title, or the record is gone or someone else's. */
  predicate Rejected(s: State, e: Step)
    requires Enabled(s, e)
  {
    e.Write? &&
    match s.handlers[e.k].call.request
    case New(title) => title == ""
    case Flip(id) => !Visible(s.table, s.handlers[e.k].call.user, id)
    case _ => false
  }

  /** What the step does to the table, or to a part `v` of it. */
  function Changed(v: Table, s: State, e: Step): Table
    requires Enabled(s, e)
  {
    match e
    case Write(k, minted) =>
      var c := s.handlers[k].call;
      (match c.request
       case New(title) => if Rejected(s, e) then v else v[minted := Record(c.user, Item(title, false))]
       case Flip(id) =>
         if Rejected(s, e) || id !in v then v
         else v[id := v[id].(item := v[id].item.(completed := !s.handlers[k].phase.completed))]
       case Remove(id) => if Visible(s.table, c.user, id) then v - {id} else v
       case Clear => v)
    case Drop(_, id) => v - {id}
    case _ => v
  }

  /** The change of one record, if it is one. */
  function Entries(s: State, e: Step): (es: seq<Entry>)
    requires Enabled(s, e)
    ensures |es| <= 1
  {
    match e
    case Write(k, minted) =>
      var c := s.handlers[k].call;
      if Rejected(s, e) then []
      else
        OnBehalf(k, PayloadOf(s, e), if Visible(s.table, c.user, RecordOf(c.request)) then s.table[RecordOf(c.request)].owner else "")
    case Miss(k) => OnBehalf(k, PayloadOf(s, e), "")
    case Drop(k, id) => OnBehalf(k, PayloadOf(s, e), OwnerOf(s.table, id))
    case _ => []
  }

  /** The same as the handlers ship it. */
  function MadeEntries(s: State, e: Step): (es: seq<Entry>)
    requires Enabled(s, e)
    ensures |es| <= 1
  {
    match e
    case Find(k) => OnBehalf(k, PayloadOf(s, e), "")
    case Drop(k, _) => if s.handlers[k].call.user == "" then Entries(s, e) else []
    case _ => Entries(s, e)
  }

  function PhaseAfter(s: State, e: Step): Phase
    requires Enabled(s, e)
  {
    match e
    case Arrive(_, _) => Arrived
    case Look(k) =>
      var c := s.handlers[k].call;
      var id := RecordOf(c.request);
      if Visible(s.table, c.user, id) then Looked(s.table[id].item.completed) else Done
    case Write(_, _) => if Rejected(s, e) then Done else Wrote(PayloadOf(s, e))
    case Miss(_) => Wrote(PayloadOf(s, e))
    case Find(k) => Phase.Sweeping(ToSweep(s.table, s.handlers[k].call.user))
    case Drop(k, id) => Phase.Sweeping(s.handlers[k].phase.left - {id})
    case Finish(_) => Wrote(PayloadOf(s, e))
    case Refuse(k) => if Sweeping(s, k) then Stuck(s.handlers[k].phase.left) else Done
    case Publish(_) => Done
    case Skip(_) => Done
  }

  function CallOf(s: State, e: Step): Call
    requires Enabled(s, e)
  {
    if e.Arrive? then e.call else s.handlers[e.k].call
  }

  function Apply(s: State, e: Step): State
    requires Enabled(s, e)
  {
    State(
      Changed(s.table, s, e),
      if e.Write? && CallOf(s, e).request.New? && !Rejected(s, e) then s.owners[e.minted := CallOf(s, e).user] else s.owners,
      s.handlers[e.k := Handler(CallOf(s, e), PhaseAfter(s, e))],
      s.writes + Entries(s, e),
      s.made + MadeEntries(s, e),
      if e.Publish? then s.log + [Entry(e.k, s.handlers[e.k].phase.payload)] else s.log)
  }

  const START := State(map[], map[], map[], [], [], [])

  ghost predicate IsRun(states: seq<State>, steps: seq<Step>) {
    && |states| == |steps| + 1 && states[0] == START
    && forall k :: 0 <= k < |steps| ==> Enabled(states[k], steps[k]) && states[k + 1] == Apply(states[k], steps[k])
  }

  function Payloads(es: seq<Entry>): (ps: seq<Payload>)
    ensures |ps| == |es| && forall i :: 0 <= i < |es| ==> ps[i] == es[i].payload
  {
    seq(|es|, i requires 0 <= i < |es| => es[i].payload)
  }

  // ---- what every step keeps ----

  /** The records are their makers', and no id is empty. */
  ghost predicate Made(t: Table, makers: map<string, string>) {
    "" !in makers && forall id :: id in t ==> id in makers && t[id].owner == makers[id]
  }

  predicate Grows(makers: map<string, string>, more: map<string, string>) {
    forall id :: id in makers ==> id in more && more[id] == makers[id]
  }

  /** Nobody but its maker changes an owned record under a name. */
  predicate MayName(user: string, maker: string) {
    user == "" || maker == "" || maker == user
  }

  /** A complete payload about a record that was made; a create is its maker's, open and titled. */
  predicate Complete(p: Payload, makers: map<string, string>) {
    p.op == ClearCompleted
    || (p.op != Unknown && p.data.Some? && p.data.value.id in makers && MayName(p.user, makers[p.data.value.id])
        && (p.op == Create ==> makers[p.data.value.id] == p.user && p.data.value.title != "" && !p.data.value.completed))
  }

  ghost predicate AllComplete(es: seq<Entry>, makers: map<string, string>) {
    forall i :: 0 <= i < |es| ==> Complete(es[i].payload, makers)
  }

  /** A record's create comes before anything else about it. */
  ghost predicate CreatesFirst(es: seq<Entry>) {
    forall i, j | 0 <= i < j < |es| && es[j].payload.op == Create && es[i].payload.op != ClearCompleted ::
      IdOf(es[i].payload) != IdOf(es[j].payload)
  }

  ghost predicate Sound(es: seq<Entry>, makers: map<string, string>) {
    AllComplete(es, makers) && CreatesFirst(es)
  }

  /** Handlers hold records that were made, and clears by someone their own. */
  ghost predicate Known(s: State) {
    && (forall k :: HasLooked(s, k) ==>
          var id := RecordOf(s.handlers[k].call.request);
          id in s.owners && MayName(s.handlers[k].call.user, s.owners[id]))
    && (forall k, id :: Doomed(s, k, id) ==> id in s.owners && (s.handlers[k].call.user != "" ==> s.owners[id] == s.handlers[k].call.user))
  }

  /** Handler `k` is to delete the record, or was stopped before it could. */
  predicate Doomed(s: State, k: nat, id: string) {
    k in s.handlers && id in Left(s.handlers[k])
  }

  /** What the clears by someone have found and not deleted. */
  function Condemned(s: State): set<string> {
    set k, id | k in s.handlers && s.handlers[k].call.user != "" && id in Left(s.handlers[k]) :: id
  }

  /** The table with the clears done at once. */
  function Settled(s: State): Table {
    map id | id in s.table && id !in Condemned(s) :: s.table[id]
  }

  /** What was written is what the owned todos come from, and what was made is what
      they come from when the clears are done at once. */
  ghost predicate Explained(s: State) {
    && ConsumeAll(map[], Payloads(s.writes)) == Owned(s.table)
    && ConsumeAll(map[], Payloads(s.made)) == Owned(Settled(s))
  }

  predicate Begun(s: State, k: nat) {
    k in s.handlers && !s.handlers[k].phase.Arrived? && !s.handlers[k].phase.Looked?
  }

  predicate Distinct<T(==)>(xs: seq<T>) {
    forall i, j :: 0 <= i < j < |xs| ==> xs[i] != xs[j]
  }

  predicate Unfinished(s: State, k: nat) {
    k in s.handlers && s.handlers[k].call.user != "" && (s.handlers[k].phase.Sweeping? || s.handlers[k].phase.Stuck?)
  }

  predicate MadeOnce(s: State, e: Entry) {
    && Begun(s, e.k) && e.payload.user != ""
    && (IdOf(e.payload).Some? ==> IdOf(e.payload).value !in Left(s.handlers[e.k]))
    && (e in s.writes || e.payload.op == ClearCompleted)
  }

  /** Every entry is its handler's, and nothing is made or published twice. */
  ghost predicate EntriesBooked(s: State) {
    && Distinct(s.made) && Distinct(s.log)
    && (forall e :: e in s.made ==> MadeOnce(s, e))
    && (forall e :: e in s.log ==> LoggedOnce(s, e))
  }

  ghost predicate LoggedOnce(s: State, e: Entry) {
    At(s, e.k, Done) && (e.payload.user != "" ==> e in s.made)
  }

  /** What a handler has done under a name was made. */
  ghost predicate HandlersBooked(s: State) {
    && (forall k :: Unfinished(s, k) ==> Entry(k, ClearOf(s.handlers[k].call.user)) in s.made)
    && (forall k :: HasWritten(s, k) ==> Shippable(s, k))
  }

  ghost predicate Shippable(s: State, k: nat)
    requires HasWritten(s, k)
  {
    var p := s.handlers[k].phase.payload;
    p.user == s.handlers[k].call.user && Complete(p, s.owners) && (p.user != "" ==> Entry(k, p) in s.made)
  }

  ghost predicate Inv(s: State) {
    && Made(s.table, s.owners) && Known(s) && Explained(s) && EntriesBooked(s) && HandlersBooked(s)
    && Sound(s.writes, s.owners) && Sound(s.made, s.owners) && AllComplete(s.log, s.owners)
  }

  lemma TableMade(s: State, e: Step)
    requires Made(s.table, s.owners) && Enabled(s, e)
    ensures Made(Apply(s, e).table, Apply(s, e).owners) && Grows(s.owners, Apply(s, e).owners)
  {
    hide Entries, MadeEntries, PhaseAfter, OnBehalf, Quiet, ToSweep;
  }

  lemma ApplyKnown(s: State, e: Step)
    requires Made(s.table, s.owners) && Known(s) && Enabled(s, e)
    ensures Known(Apply(s, e))
  {
    hide Entries, MadeEntries, OnBehalf, Quiet, Changed, PayloadOf;
    TableMade(s, e);
    var s' := Apply(s, e);
    assert forall k :: k != e.k && k in s'.handlers ==> k in s.handlers && s'.handlers[k] == s.handlers[k];
    forall id | Doomed(s', e.k, id)
      ensures id in s'.owners && (s'.handlers[e.k].call.user != "" ==> s'.owners[id] == s'.handlers[e.k].call.user)
    {
      if !e.Find? { assert Doomed(s, e.k, id); }
    }
  }

  // ---- the changes explain the table ----

  lemma {:induction false} ConsumeAllMore(t: Table, es: seq<Entry>, news: seq<Entry>)
    ensures ConsumeAll(t, Payloads(es + news)) == ConsumeAll(ConsumeAll(t, Payloads(es)), Payloads(news))
  {
    assert Payloads(es + news) == Payloads(es) + Payloads(news);
    ConsumeAppend(t, Payloads(es), Payloads(news));
  }

  lemma NoEntries(t: Table)
    ensures ConsumeAll(t, Payloads([])) == t
  {
    assert Payloads([]) == [];
  }

  lemma OnBehalfConsumed(t: Table, k: nat, p: Payload, owner: string)
    ensures ConsumeAll(t, Payloads(OnBehalf(k, p, owner))) == Consume(t, if p.user != "" then p else p.(user := owner), "")
  {
    var es := OnBehalf(k, p, owner);
    if es == [] {
      NoEntries(t);
    } else {
      assert Payloads(es) == [es[0].payload];
      ConsumeOne(t, es[0].payload);
    }
  }

  predicate Part(v: Table, t: Table) {
    forall id :: id in v ==> id in t && v[id] == t[id]
  }

  lemma FlipOwned(v: Table, t: Table, user: string, id: string, on: bool)
    requires Part(v, t) && Visible(t, user, id) && id != ""
    ensures Consume(Owned(v), ToggleOf(if user != "" then user else t[id].owner, id, on), "")
            == Owned(if id in v then v[id := v[id].(item := v[id].item.(completed := on))] else v)
  {}

  lemma DeletionOwned(v: Table, id: string, user: string)
    requires id != "" && (id in v ==> v[id].owner == user || v[id].owner == "")
    ensures Consume(Owned(v), DeleteOf(user, id), "") == Owned(v - {id})
  {}

  lemma CreationOwned(v: Table, user: string, id: string, title: string)
    requires id != "" && id !in v && title != ""
    ensures Consume(Owned(v), CreateOf(user, id, title), "") == Owned(v[id := Record(user, Item(title, false))])
  {}

  lemma ClearOwned(v: Table, user: string)
    requires user != ""
    ensures Consume(Owned(v), ClearOf(user), "") == Owned(Swept(v, user))
  {}

  /** One step's entry takes any part of the table where the step takes it. */
  lemma EntriesExplain(v: Table, s: State, e: Step)
    requires Made(s.table, s.owners) && Known(s) && Enabled(s, e) && Part(v, s.table)
    ensures ConsumeAll(Owned(v), Payloads(Entries(s, e))) == Owned(Changed(v, s, e))
  {
    hide Consume, ConsumeAll, Owned, OnBehalf, Payloads;
    NoEntries(Owned(v));
    if e.Drop? {
      assert Doomed(s, e.k, e.id);
      var o := OwnerOf(s.table, e.id);
      OnBehalfConsumed(Owned(v), e.k, PayloadOf(s, e), o);
      DeletionOwned(v, e.id, o);
    } else if e.Miss? {
      MissExplains(v, s, e.k);
    } else if e.Write? && !Rejected(s, e) {
      WriteExplains(v, s, e.k, e.minted);
    }
  }

  lemma MissExplains(v: Table, s: State, k: nat)
    requires Enabled(s, Miss(k)) && Part(v, s.table)
    ensures ConsumeAll(Owned(v), Payloads(Entries(s, Miss(k)))) == Owned(v)
  {
    var p := PayloadOf(s, Miss(k));
    OnBehalfConsumed(Owned(v), k, p, "");
  }

  lemma WriteExplains(v: Table, s: State, k: nat, minted: string)
    requires Made(s.table, s.owners) && Known(s) && Enabled(s, Write(k, minted)) && !Rejected(s, Write(k, minted)) && Part(v, s.table)
    ensures ConsumeAll(Owned(v), Payloads(Entries(s, Write(k, minted)))) == Owned(Changed(v, s, Write(k, minted)))
  {
    hide Consume, ConsumeAll, Owned, OnBehalf, Payloads, Quiet;
    var c, p := s.handlers[k].call, PayloadOf(s, Write(k, minted));
    var id := RecordOf(c.request);
    var o := if Visible(s.table, c.user, id) then s.table[id].owner else "";
    OnBehalfConsumed(Owned(v), k, p, o);
    match c.request {
      case New(title) => CreationConsumed(v, c.user, minted, title, o);
      case Flip(_) => FlipOwned(v, s.table, c.user, id, !s.handlers[k].phase.completed);
      case Remove(_) => RemovalConsumed(v, s.table, c.user, id, s.owners);
      case Clear =>
    }
  }

  lemma CreationConsumed(v: Table, user: string, id: string, title: string, o: string)
    requires id != "" && id !in v && title != "" && (user == "" ==> o == "")
    ensures var p := CreateOf(user, id, title);
            Consume(Owned(v), if user != "" then p else p.(user := o), "") == Owned(v[id := Record(user, Item(title, false))])
  {
    CreationOwned(v, user, id, title);
  }

  lemma RemovalConsumed(v: Table, t: Table, user: string, id: string, makers: map<string, string>)
    requires Part(v, t) && Made(t, makers) && id in makers && MayName(user, makers[id])
    ensures var p, o := DeleteOf(user, id), if Visible(t, user, id) then t[id].owner else "";
            Consume(Owned(v), if user != "" then p else p.(user := o), "") == Owned(if Visible(t, user, id) then v - {id} else v)
  {
    var o := if user != "" then user else if id in t then t[id].owner else "";
    DeletionOwned(v, id, o);
  }

  lemma CondemnedIs(s: State, id: string)
    ensures id in Condemned(s) <==> exists k :: Doomed(s, k, id) && s.handlers[k].call.user != ""
  {
    if k :| Doomed(s, k, id) && s.handlers[k].call.user != "" {
      assert k in s.handlers && id in Left(s.handlers[k]);
    }
    if id in Condemned(s) {
      var k :| k in s.handlers && s.handlers[k].call.user != "" && id in Left(s.handlers[k]);
      assert Doomed(s, k, id);
    }
  }

  lemma CondemnedAfter(s: State, e: Step, id: string)
    requires Enabled(s, e) && (e.Drop? ==> id != e.id)
    ensures id in Condemned(Apply(s, e)) <==>
              id in Condemned(s) || (e.Find? && s.handlers[e.k].call.user != "" && id in ToSweep(s.table, s.handlers[e.k].call.user))
  {
    hide Entries, MadeEntries, OnBehalf, Quiet, Changed, PayloadOf, ToSweep, Rejected, Visible, Condemned;
    var s' := Apply(s, e);
    CondemnedIs(s, id);
    CondemnedIs(s', id);
    forall k | k != e.k ensures Doomed(s', k, id) <==> Doomed(s, k, id) {
      assert k in s'.handlers <==> k in s.handlers;
    }
    assert !e.Find? ==> (Doomed(s', e.k, id) <==> Doomed(s, e.k, id));
    assert e.k in s.handlers ==> s'.handlers[e.k].call == s.handlers[e.k].call;
    assert e.Find? ==> !Doomed(s, e.k, id);
    if e.Find? && s.handlers[e.k].call.user != "" && id in ToSweep(s.table, s.handlers[e.k].call.user) {
      assert Doomed(s', e.k, id);
    }
    assert forall k :: k in s.handlers && k != e.k ==> s'.handlers[k] == s.handlers[k];
  }

  /** What was made, done at once: a clear takes its records when it finds them. */
  lemma SettledAfter(s: State, e: Step)
    requires Made(s.table, s.owners) && Known(s) && Enabled(s, e)
    ensures var v, v' := Settled(s), Settled(Apply(s, e));
            v' == if e.Find? && s.handlers[e.k].call.user != "" then Swept(v, s.handlers[e.k].call.user)
                  else if e.Drop? && s.handlers[e.k].call.user != "" then v
                  else Changed(v, s, e)
  {
    hide Condemned, Entries, MadeEntries, OnBehalf, Quiet, PayloadOf, PhaseAfter;
    forall id | !e.Drop? || id != e.id
      ensures id in Condemned(Apply(s, e)) <==>
                id in Condemned(s) || (e.Find? && s.handlers[e.k].call.user != "" && id in ToSweep(s.table, s.handlers[e.k].call.user))
    {
      CondemnedAfter(s, e, id);
    }
    if e.Drop? && s.handlers[e.k].call.user != "" {
      CondemnedIs(s, e.id);
      assert Doomed(s, e.k, e.id);
    }
    forall id | e.Write? && CallOf(s, e).request.New? && id == e.minted ensures id !in Condemned(s) {
      CondemnedIs(s, id);
    }
  }

  lemma ApplyExplained(s: State, e: Step)
    requires Inv(s) && Enabled(s, e)
    ensures Explained(Apply(s, e))
  {
    hide EntriesBooked, HandlersBooked, Sound, AllComplete, Consume, ConsumeAll, Owned, Changed, Entries, Known, Made, Payloads, Settled, PayloadOf, PhaseAfter, Quiet;
    var v := Settled(s);
    assert Part(v, s.table) by { SettledPart(s); }
    EntriesExplain(s.table, s, e);
    ConsumeAllMore(map[], s.writes, Entries(s, e));
    EntriesExplain(v, s, e);
    SettledAfter(s, e);
    ConsumeAllMore(map[], s.made, MadeEntries(s, e));
    MadeExplains(v, s, e);
  }

  lemma SettledPart(s: State)
    ensures Part(Settled(s), s.table)
  {
    hide Condemned;
  }

  lemma MadeExplains(v: Table, s: State, e: Step)
    requires Enabled(s, e) && ConsumeAll(Owned(v), Payloads(Entries(s, e))) == Owned(Changed(v, s, e))
    ensures ConsumeAll(Owned(v), Payloads(MadeEntries(s, e)))
            == Owned(if e.Find? && s.handlers[e.k].call.user != "" then Swept(v, s.handlers[e.k].call.user)
                     else if e.Drop? && s.handlers[e.k].call.user != "" then v
                     else Changed(v, s, e))
  {
    hide Consume, ConsumeAll, Owned, OnBehalf, Payloads, Swept, Quiet;
    NoEntries(Owned(v));
    if e.Find? {
      var u := s.handlers[e.k].call.user;
      OnBehalfConsumed(Owned(v), e.k, PayloadOf(s, e), "");
      if u != "" { ClearOwned(v, u); } else { NamelessClear(Owned(v)); }
    }
  }

  lemma NamelessClear(t: Table)
    ensures Consume(t, ClearOf(""), "") == t
  {}

  // ---- the changes are sound and booked ----

  /** An entry is complete, under the handler's number, and a create only of a new record. */
  predicate Fits(s: State, s': State, k: nat, es: seq<Entry>) {
    |es| <= 1
    && (es != [] ==> es[0].k == k && es[0].payload.user != "" && Complete(es[0].payload, s'.owners)
                     && (es[0].payload.op == Create ==> es[0].payload.data.value.id !in s.owners))
  }

  lemma EntriesFit(s: State, e: Step)
    requires Made(s.table, s.owners) && Known(s) && Enabled(s, e)
    ensures Fits(s, Apply(s, e), e.k, Entries(s, e)) && Fits(s, Apply(s, e), e.k, MadeEntries(s, e))
  {
    hide PhaseAfter, Quiet, ToSweep;
    TableMade(s, e);
    if e.Drop? { assert Doomed(s, e.k, e.id); }
  }

  lemma SoundMore(s: State, s': State, k: nat, es: seq<Entry>, news: seq<Entry>)
    requires Sound(es, s.owners) && Grows(s.owners, s'.owners) && Fits(s, s', k, news)
    ensures Sound(es + news, s'.owners)
  {
    forall i, j | 0 <= i < j < |es + news| && (es + news)[j].payload.op == Create && (es + news)[i].payload.op != ClearCompleted
      ensures IdOf((es + news)[i].payload) != IdOf((es + news)[j].payload)
    {
      if j == |es| { assert Complete(es[i].payload, s.owners); }
    }
  }

  lemma ApplySound(s: State, e: Step)
    requires Inv(s) && Enabled(s, e)
    ensures var s' := Apply(s, e); Sound(s'.writes, s'.owners) && Sound(s'.made, s'.owners) && AllComplete(s'.log, s'.owners)
  {
    hide Sound, Known, Explained, Entries, MadeEntries, Changed, PhaseAfter, PayloadOf, Quiet, Fits, Made;
    TableMade(s, e);
    EntriesFit(s, e);
    SoundMore(s, Apply(s, e), e.k, s.writes, Entries(s, e));
    SoundMore(s, Apply(s, e), e.k, s.made, MadeEntries(s, e));
    if e.Publish? { assert Shippable(s, e.k); }
  }

  lemma DistinctMore(es: seq<Entry>, news: seq<Entry>)
    requires Distinct(es) && |news| <= 1 && forall e :: e in news ==> e !in es
    ensures Distinct(es + news)
  {
    forall i, j | 0 <= i < j < |es + news| ensures (es + news)[i] != (es + news)[j] {
      if j == |es| { assert news[0] in news; }
    }
  }

  lemma NewsIsNew(s: State, e: Step)
    requires Inv(s) && Enabled(s, e)
    ensures forall x :: x in MadeEntries(s, e) ==> x !in s.made
    ensures forall x :: x in MadeEntries(s, e) ==> x in Entries(s, e) || x.payload.op == ClearCompleted
    ensures e.Drop? ==> forall x :: x in MadeEntries(s, e) ==> IdOf(x.payload) == Some(e.id)
  {
    hide Sound, AllComplete, Explained, Known, Made, Changed, PhaseAfter, Quiet, Distinct, ToSweep;
    assert forall x :: x in s.made ==> MadeOnce(s, x);
  }

  lemma StaysMadeOnce(s: State, e: Step, x: Entry)
    requires Enabled(s, e) && MadeOnce(s, x)
    ensures MadeOnce(Apply(s, e), x)
  {
    hide Entries, MadeEntries, Changed, Quiet, PayloadOf, ToSweep, Rejected, Visible, IdOf;
  }

  lemma StaysLoggedOnce(s: State, e: Step, x: Entry)
    requires Enabled(s, e) && LoggedOnce(s, x)
    ensures LoggedOnce(Apply(s, e), x)
  {
    hide Entries, MadeEntries, Changed, Quiet, PayloadOf, ToSweep, Rejected, Visible;
  }

  lemma NewsMadeOnce(s: State, e: Step, x: Entry)
    requires Inv(s) && Enabled(s, e) && x in MadeEntries(s, e)
    ensures MadeOnce(Apply(s, e), x)
  {
    hide Explained, Known, Sound, AllComplete, EntriesBooked, HandlersBooked, Changed, Quiet, ToSweep;
    EntriesFit(s, e);
    NewsIsNew(s, e);
  }

  lemma ApplyEntriesBooked(s: State, e: Step)
    requires Inv(s) && Enabled(s, e)
    ensures EntriesBooked(Apply(s, e))
  {
    hide Explained, Known, Sound, AllComplete, Made, Changed, Entries, MadeEntries, PhaseAfter, PayloadOf, Quiet, MadeOnce, Distinct;
    var s' := Apply(s, e);
    NewsIsNew(s, e);
    DistinctMore(s.made, MadeEntries(s, e));
    forall x | x in s'.made ensures MadeOnce(s', x) {
      if x in s.made { StaysMadeOnce(s, e, x); } else { NewsMadeOnce(s, e, x); }
    }
    if e.Publish? {
      PublishedOnce(s, e.k);
    } else {
      forall x | x in s'.log ensures LoggedOnce(s', x) {
        StaysLoggedOnce(s, e, x);
      }
    }
  }

  lemma PublishedOnce(s: State, k: nat)
    requires EntriesBooked(s) && HandlersBooked(s) && Enabled(s, Publish(k))
    ensures var s' := Apply(s, Publish(k)); Distinct(s'.log) && forall x :: x in s'.log ==> LoggedOnce(s', x)
  {
    hide Distinct, Quiet, Complete, MadeOnce;
    var s', n := Apply(s, Publish(k)), Entry(k, s.handlers[k].phase.payload);
    assert Shippable(s, k);
    assert n in s.log ==> LoggedOnce(s, n);
    DistinctMore(s.log, [n]);
    forall x | x in s'.log ensures LoggedOnce(s', x) {
      if x in s.log { StaysLoggedOnce(s, Publish(k), x); }
    }
  }

  lemma ApplyHandlersBooked(s: State, e: Step)
    requires Inv(s) && Enabled(s, e)
    ensures HandlersBooked(Apply(s, e))
  {
    hide Explained, Sound, AllComplete, Made, EntriesBooked, Known, Quiet;
    var s' := Apply(s, e);
    forall k | Unfinished(s', k) ensures Entry(k, ClearOf(s'.handlers[k].call.user)) in s'.made {
      if k != e.k { assert Unfinished(s, k); } else { SweepBooked(s, e); }
    }
    forall k | HasWritten(s', k) ensures Shippable(s', k) {
      if k != e.k { StaysShippable(s, e, k); } else { NowShippable(s, e); }
    }
  }

  lemma SweepBooked(s: State, e: Step)
    requires HandlersBooked(s) && Enabled(s, e) && Unfinished(Apply(s, e), e.k)
    ensures Entry(e.k, ClearOf(Apply(s, e).handlers[e.k].call.user)) in Apply(s, e).made
  {
    hide Changed, Entries, ToSweep, Quiet, Visible, Shippable;
    if !e.Find? { assert Unfinished(s, e.k); }
  }

  lemma StaysShippable(s: State, e: Step, k: nat)
    requires Made(s.table, s.owners) && Enabled(s, e) && k != e.k && HasWritten(s, k) && Shippable(s, k)
    ensures HasWritten(Apply(s, e), k) && Shippable(Apply(s, e), k)
  {
    TableMade(s, e);
    hide Made, Changed, Entries, MadeEntries, PhaseAfter, Quiet, Enabled;
  }

  lemma NowShippable(s: State, e: Step)
    requires Made(s.table, s.owners) && Known(s) && HandlersBooked(s) && Enabled(s, e) && HasWritten(Apply(s, e), e.k)
    ensures Shippable(Apply(s, e), e.k)
  {
    hide Quiet, Changed, ToSweep;
    TableMade(s, e);
    if e.Finish? { assert Unfinished(s, e.k) || s.handlers[e.k].call.user == ""; }
  }

  lemma ApplyInv(s: State, e: Step)
    requires Inv(s) && Enabled(s, e)
    ensures Inv(Apply(s, e))
  {
    TableMade(s, e);
    ApplyKnown(s, e);
    ApplySound(s, e);
    ApplyExplained(s, e);
    ApplyEntriesBooked(s, e);
    ApplyHandlersBooked(s, e);
    hide Made, Known, Explained, EntriesBooked, HandlersBooked, Sound, AllComplete, Apply;
  }

  lemma StartInv()
    ensures Inv(START)
  {
    NoEntries(map[]);
    assert Settled(START) == map[];
  }

  lemma {:induction false} RunInv(states: seq<State>, steps: seq<Step>, k: nat)
    requires IsRun(states, steps) && k <= |steps|
    ensures Inv(states[k])
  {
    if k == 0 {
      StartInv();
    } else {
      hide Inv, Apply, Enabled;
      RunInv(states, steps, k - 1);
      ApplyInv(states[k - 1], steps[k - 1]);
    }
  }

  // ---- what the order of publishes decides ----

  /** Two payloads of one user that may not change places: a clear and a create or
      toggle, a record's create and anything about it, and two toggles of a record. */
  predicate Conflict(p: Payload, q: Payload) {
    && p.user == q.user != ""
    && ((p.op == ClearCompleted && q.op in {Create, Toggle}) || (p.op in {Create, Toggle} && q.op == ClearCompleted)
        || (p.op != ClearCompleted && q.op != ClearCompleted && IdOf(p) == IdOf(q) && (p.op == Create || q.op == Create || p.op == q.op == Toggle)))
  }

  /** The replica's records are their makers', all of them someone's. */
  ghost predicate Replicated(t: Table, makers: map<string, string>) {
    "" !in makers && forall id :: id in t ==> id in makers && t[id].owner == makers[id] && t[id].owner != ""
  }

  lemma ConsumeReplicated(t: Table, p: Payload, makers: map<string, string>)
    requires Replicated(t, makers) && Complete(p, makers)
    ensures Replicated(Consume(t, p, ""), makers)
  {}

  lemma CellsCommute(c: Option<Record>, p: Payload, q: Payload, x: string, makers: map<string, string>)
    requires Complete(p, makers) && Complete(q, makers) && !Conflict(p, q)
    requires c.Some? ==> x in makers && c.value.owner == makers[x] && c.value.owner != ""
    ensures CellStep(CellStep(c, p, x), q, x) == CellStep(CellStep(c, q, x), p, x)
  {
  }

  lemma PayloadsCommute(t: Table, p: Payload, q: Payload, makers: map<string, string>)
    requires Replicated(t, makers) && Complete(p, makers) && Complete(q, makers) && !Conflict(p, q)
    ensures Consume(Consume(t, p, ""), q, "") == Consume(Consume(t, q, ""), p, "")
  {
    ConsumeReplicated(t, p, makers);
    ConsumeReplicated(t, q, makers);
    var a, b := Consume(Consume(t, p, ""), q, ""), Consume(Consume(t, q, ""), p, "");
    ConsumeReplicated(Consume(t, p, ""), q, makers);
    ConsumeReplicated(Consume(t, q, ""), p, makers);
    forall x ensures TodoItems.At(a, x) == TodoItems.At(b, x) {
      if x != "" {
        ConsumeAt(t, p, x);
        ConsumeAt(t, q, x);
        ConsumeAt(Consume(t, p, ""), q, x);
        ConsumeAt(Consume(t, q, ""), p, x);
        CellsCommute(TodoItems.At(t, x), p, q, x, makers);
      }
    }
    hide Consume, CellStep;
    TodosTable.SameMap(a, b);
  }

  lemma {:induction false} ConsumeAllReplicated(t: Table, ps: seq<Payload>, makers: map<string, string>)
    requires Replicated(t, makers) && forall i :: 0 <= i < |ps| ==> Complete(ps[i], makers)
    ensures Replicated(ConsumeAll(t, ps), makers)
  {
    if ps != [] {
      hide Replicated, Complete, Consume;
      ConsumeAllReplicated(t, ps[..|ps| - 1], makers);
      ConsumeReplicated(ConsumeAll(t, ps[..|ps| - 1]), ps[|ps| - 1], makers);
    }
  }

  /** A payload passes everything it does not conflict with. */
  lemma {:induction false} MovesBack(t: Table, p: Payload, after: seq<Payload>, makers: map<string, string>)
    requires Replicated(t, makers) && Complete(p, makers)
    requires forall i :: 0 <= i < |after| ==> Complete(after[i], makers) && !Conflict(p, after[i])
    ensures ConsumeAll(Consume(t, p, ""), after) == Consume(ConsumeAll(t, after), p, "")
  {
    if after != [] {
      hide Replicated, Complete, Consume, Conflict;
      var n := |after| - 1;
      MovesBack(t, p, after[..n], makers);
      ConsumeAllReplicated(t, after[..n], makers);
      PayloadsCommute(ConsumeAll(t, after[..n]), p, after[n], makers);
    }
  }

  /** Writes that conflict were published in the order they were made. */
  ghost predicate InOrder(writes: seq<Entry>, log: seq<Entry>) {
    forall i, j, a, b | 0 <= i < j < |writes| && 0 <= a < |log| && 0 <= b < |log| && log[a] == writes[i] && log[b] == writes[j] ::
      Conflict(writes[i].payload, writes[j].payload) ==> a < b
  }

  ghost predicate AllPublished(writes: seq<Entry>, log: seq<Entry>) {
    forall e :: e in writes ==> e in log
  }

  /** The log holds the writes, and besides them only what nobody is named in. */
  ghost predicate Covers(writes: seq<Entry>, log: seq<Entry>) {
    AllPublished(writes, log) && forall e :: e in log && e.payload.user != "" ==> e in writes
  }

  lemma {:induction false} NamelessChangeNothing(t: Table, log: seq<Entry>)
    requires forall e :: e in log ==> e.payload.user == ""
    ensures ConsumeAll(t, Payloads(log)) == t
  {
    if log != [] {
      var n := |log| - 1;
      assert Payloads(log)[..n] == Payloads(log[..n]);
      assert log[n] in log;
      NamelessChangeNothing(t, log[..n]);
    }
  }

  lemma PublishedLast(writes: seq<Entry>, log: seq<Entry>, q: nat, makers: map<string, string>)
    requires writes != [] && Distinct(writes) && Distinct(log) && Covers(writes, log) && InOrder(writes, log)
    requires q < |log| && log[q] == writes[|writes| - 1] && AllComplete(log, makers)
    ensures forall i :: q < i < |log| ==> Complete(log[i].payload, makers) && !Conflict(log[q].payload, log[i].payload)
  {
    var n := |writes| - 1;
    forall i | q < i < |log| ensures !Conflict(log[q].payload, log[i].payload) {
      if log[i].payload.user != "" {
        assert log[i] in log;
        var j :| 0 <= j < |writes| && writes[j] == log[i];
        assert log[i] != log[q];
        assert Conflict(writes[j].payload, writes[n].payload) ==> i < q;
      }
    }
  }

  function Without(log: seq<Entry>, q: nat): (l: seq<Entry>)
    requires q < |log|
    ensures |l| == |log| - 1
  {
    log[..q] + log[q + 1..]
  }

  function Back(q: nat, i: nat): nat {
    if i < q then i else i + 1
  }

  lemma WithoutAt(log: seq<Entry>, q: nat, i: nat)
    requires q < |log| && i < |log| - 1
    ensures Without(log, q)[i] == log[Back(q, i)]
  {}

  lemma WithoutKeeps(log: seq<Entry>, q: nat, e: Entry)
    requires q < |log| && Distinct(log)
    ensures e in Without(log, q) <==> e in log && e != log[q]
  {
    hide Without, Back;
    if e in Without(log, q) {
      var i :| 0 <= i < |log| - 1 && Without(log, q)[i] == e;
      WithoutAt(log, q, i);
      assert Back(q, i) != q && Back(q, i) < |log| by { BackIs(log, q, i); }
    }
    if e in log && e != log[q] {
      var a :| 0 <= a < |log| && log[a] == e;
      var i := if a < q then a else a - 1;
      WithoutAt(log, q, i);
      BackIs(log, q, i);
    }
  }

  lemma BackIs(log: seq<Entry>, q: nat, i: nat)
    requires q < |log| && i < |log| - 1
    ensures Back(q, i) != q && Back(q, i) < |log| && (i < q ==> Back(q, i) == i) && (i >= q ==> Back(q, i) == i + 1)
  {}

  lemma PeelDistinct(writes: seq<Entry>, log: seq<Entry>, q: nat)
    requires writes != [] && Distinct(writes) && Distinct(log) && q < |log|
    ensures Distinct(writes[..|writes| - 1]) && Distinct(Without(log, q))
  {
    hide Without;
    forall i, j | 0 <= i < j < |log| - 1 ensures Without(log, q)[i] != Without(log, q)[j] {
      WithoutAt(log, q, i);
      WithoutAt(log, q, j);
    }
  }

  lemma PeelCovers(writes: seq<Entry>, log: seq<Entry>, q: nat)
    requires writes != [] && Distinct(writes) && Distinct(log) && Covers(writes, log)
    requires q < |log| && log[q] == writes[|writes| - 1]
    ensures Covers(writes[..|writes| - 1], Without(log, q))
  {
    hide Without;
    var n := |writes| - 1;
    forall e ensures e in Without(log, q) <==> e in log && e != log[q] {
      WithoutKeeps(log, q, e);
    }
    forall e ensures e in writes[..n] <==> e in writes && e != writes[n] {
      if e in writes && e != writes[n] {
        var j :| 0 <= j < |writes| && writes[j] == e;
        assert writes[..n][j] == e;
      }
    }
    hide Distinct;
  }

  lemma PeelOrder(writes: seq<Entry>, log: seq<Entry>, q: nat)
    requires writes != [] && InOrder(writes, log) && q < |log|
    ensures InOrder(writes[..|writes| - 1], Without(log, q))
  {
    hide Without, Conflict;
    var w, l := writes[..|writes| - 1], Without(log, q);
    forall i, j, a, b | 0 <= i < j < |w| && 0 <= a < |l| && 0 <= b < |l| && l[a] == w[i] && l[b] == w[j]
                        && Conflict(w[i].payload, w[j].payload)
      ensures a < b
    {
      WithoutAt(log, q, a);
      WithoutAt(log, q, b);
      assert w[i] == writes[i] && w[j] == writes[j];
    }
  }

  /** The heart of it: a log that keeps conflicting writes in order ends where the writes end. */
  lemma {:induction false} ReorderedEndsTheSame(t: Table, writes: seq<Entry>, log: seq<Entry>, makers: map<string, string>)
    requires Replicated(t, makers) && AllComplete(log, makers)
    requires Distinct(writes) && Distinct(log) && Covers(writes, log) && InOrder(writes, log)
    ensures ConsumeAll(t, Payloads(log)) == ConsumeAll(t, Payloads(writes))
  {
    if writes == [] {
      NamelessChangeNothing(t, log);
      assert Payloads(writes) == [];
    } else {
      hide *;
      var n := |writes| - 1;
      var q := PlaceOf(writes, log);
      PublishedLast(writes, log, q, makers);
      PeelDistinct(writes, log, q);
      PeelCovers(writes, log, q);
      PeelOrder(writes, log, q);
      WithoutComplete(log, q, makers);
      ReorderedEndsTheSame(t, writes[..n], Without(log, q), makers);
      MovedToEnd(t, log, q, makers);
      LastOf(t, writes);
    }
  }

  lemma PlaceOf(writes: seq<Entry>, log: seq<Entry>) returns (q: nat)
    requires writes != [] && Covers(writes, log)
    ensures q < |log| && log[q] == writes[|writes| - 1]
  {
    assert writes[|writes| - 1] in writes;
    q :| 0 <= q < |log| && log[q] == writes[|writes| - 1];
  }

  lemma WithoutComplete(log: seq<Entry>, q: nat, makers: map<string, string>)
    requires q < |log| && AllComplete(log, makers)
    ensures AllComplete(Without(log, q), makers) && Complete(log[q].payload, makers)
  {
    hide Without, Complete;
    forall i | 0 <= i < |log| - 1 ensures Complete(Without(log, q)[i].payload, makers) {
      WithoutAt(log, q, i);
    }
  }

  lemma LastOf(t: Table, es: seq<Entry>)
    requires es != []
    ensures ConsumeAll(t, Payloads(es)) == Consume(ConsumeAll(t, Payloads(es[..|es| - 1])), es[|es| - 1].payload, "")
  {
    hide Consume;
    assert Payloads(es)[..|es| - 1] == Payloads(es[..|es| - 1]);
  }

  lemma MovedToEnd(t: Table, log: seq<Entry>, q: nat, makers: map<string, string>)
    requires q < |log| && Replicated(t, makers) && AllComplete(log, makers)
    requires forall i :: q < i < |log| ==> Complete(log[i].payload, makers) && !Conflict(log[q].payload, log[i].payload)
    ensures ConsumeAll(t, Payloads(log)) == Consume(ConsumeAll(t, Payloads(Without(log, q))), log[q].payload, "")
  {
    hide Replicated, Conflict, Complete, Consume, ConsumeAll;
    var head, tail := log[..q], log[q + 1..];
    assert log == head + [log[q]] + tail;
    LastToEnd(t, head, log[q], tail, makers);
  }

  lemma LastToEnd(t: Table, head: seq<Entry>, e: Entry, tail: seq<Entry>, makers: map<string, string>)
    requires Replicated(t, makers) && AllComplete(head, makers) && Complete(e.payload, makers)
    requires forall i :: 0 <= i < |tail| ==> Complete(tail[i].payload, makers) && !Conflict(e.payload, tail[i].payload)
    ensures ConsumeAll(t, Payloads(head + [e] + tail)) == Consume(ConsumeAll(t, Payloads(head + tail)), e.payload, "")
  {
    hide Replicated, Conflict, Complete, Consume, ConsumeAll;
    ConsumeAllReplicated(t, Payloads(head), makers);
    var mid := ConsumeAll(t, Payloads(head));
    ConsumeAllMore(t, head, tail);
    ConsumeAllMore(t, head + [e], tail);
    ConsumeAllMore(t, head, [e]);
    assert Payloads([e]) == [e.payload];
    ConsumeOne(mid, e.payload);
    MovesBack(mid, e.payload, Payloads(tail), makers);
  }

  // ---- over all runs ----

  lemma PublishedHasEnded(s: State, k: nat)
    requires EntriesBooked(s) && HandlersBooked(s) && AllPublished(s.made, s.log)
    ensures !Unfinished(s, k)
  {
    hide MadeOnce, Distinct;
    assert forall e :: e in s.log ==> LoggedOnce(s, e);
  }

  lemma MadeIsCovered(s: State)
    requires EntriesBooked(s) && HandlersBooked(s) && AllPublished(s.made, s.log)
    ensures Covers(s.made, s.log) && Settled(s) == s.table
  {
    hide Condemned, MadeOnce, Distinct;
    forall x ensures x !in Condemned(s) {
      CondemnedIs(s, x);
      forall k ensures !Unfinished(s, k) {
        PublishedHasEnded(s, k);
      }
    }
    assert forall e :: e in s.log ==> LoggedOnce(s, e);
  }

  /** In every interleaving of any number of handlers: when everything made was
      published, and changes that conflict were published in the order they were
      made, a clear counting from when it found its records, the replica that applied
      the log equals the owned todos. */
  lemma OrderedPublishesMatch(states: seq<State>, steps: seq<Step>, k: nat)
    requires IsRun(states, steps) && k <= |steps|
    requires AllPublished(states[k].made, states[k].log) && InOrder(states[k].made, states[k].log)
    ensures ConsumeAll(map[], Payloads(states[k].log)) == Owned(states[k].table)
  {
    RunInv(states, steps, k);
    var s := states[k];
    MadeIsCovered(s);
    hide AllPublished, InOrder, Covers, Distinct, AllComplete, CreatesFirst, Known, MadeOnce, LoggedOnce, Settled;
    ReorderedEndsTheSame(map[], s.made, s.log, s.owners);
  }

  lemma CompleteIsNamed(es: seq<Entry>, makers: map<string, string>)
    requires AllComplete(es, makers) && "" !in makers
    ensures Named(Payloads(es))
  {}

  predicate AllNamed(es: seq<Entry>) {
    forall e :: e in es ==> e.payload.user != ""
  }

  /** Kept in order, and without anonymous calls, a log is as well formed as that of
      calls served one at a time. */
  lemma OrderedLogIsWellformed(states: seq<State>, steps: seq<Step>, k: nat)
    requires IsRun(states, steps) && k <= |steps|
    requires AllPublished(states[k].made, states[k].log) && InOrder(states[k].made, states[k].log) && AllNamed(states[k].log)
    ensures Wellformed(Payloads(states[k].log))
  {
    RunInv(states, steps, k);
    var s := states[k];
    hide AllPublished, Explained, Known, MadeOnce;
    forall i, j | 0 <= i < |s.log| && 0 <= j < |s.log| && s.log[j].payload.op == Create && s.log[i].payload.op != ClearCompleted
                  && IdOf(s.log[i].payload) == IdOf(s.log[j].payload)
      ensures j <= i
    {
      assert LoggedOnce(s, s.log[i]) && LoggedOnce(s, s.log[j]);
      CreateWasFirst(s, i, j);
    }
    hide InOrder, Distinct, CreatesFirst, EntriesBooked, HandlersBooked;
  }

  lemma CreateWasFirst(s: State, i: nat, j: nat)
    requires AllComplete(s.log, s.owners) && CreatesFirst(s.made) && InOrder(s.made, s.log) && Distinct(s.log)
    requires i < |s.log| && j < |s.log| && s.log[i] in s.made && s.log[j] in s.made
    requires s.log[i].payload.user != "" && s.log[j].payload.user != ""
    requires s.log[j].payload.op == Create && s.log[i].payload.op != ClearCompleted
    requires IdOf(s.log[i].payload) == IdOf(s.log[j].payload)
    ensures j <= i
  {
    var a :| 0 <= a < |s.made| && s.made[a] == s.log[i];
    var b :| 0 <= b < |s.made| && s.made[b] == s.log[j];
    assert Complete(s.log[i].payload, s.owners) && Complete(s.log[j].payload, s.owners);
    assert Conflict(s.log[j].payload, s.log[i].payload);
    assert b <= a;
    if b < a {
      assert j < i;
    } else {
      assert s.log[i] == s.log[j];
    }
  }

  /** And restarting the consumer on it, after any prefix, gets back to the owned
      todos if and only if nothing is lost to a clear. */
  lemma RestartedReplicaMatchesIff(states: seq<State>, steps: seq<Step>, k: nat, n: nat)
    requires IsRun(states, steps) && k <= |steps| && n <= |states[k].log|
    requires AllPublished(states[k].made, states[k].log) && InOrder(states[k].made, states[k].log) && AllNamed(states[k].log)
    ensures var log := Payloads(states[k].log);
            ConsumeAll(ConsumeAll(map[], log[..n]), log) == Owned(states[k].table) <==> forall x :: x != "" ==> !Loses(log, n, x)
  {
    assert |states| == |steps| + 1;
    hide *;
    OrderedPublishesMatch(states, steps, k);
    OrderedLogIsWellformed(states, steps, k);
    RestartRestoresIff(Payloads(states[k].log), n);
  }

  // ---- what becomes of one record ----

  /** Where the log makes record `x`. */
  function Birth(log: seq<Payload>, x: string): (b: Option<nat>)
    ensures b.Some? ==> b.value < |log| && Creates(log[b.value], x) && log[b.value].user != ""
    ensures b.None? ==> forall i :: 0 <= i < |log| ==> !(Creates(log[i], x) && log[i].user != "")
    ensures b.Some? ==> forall i :: 0 <= i < b.value ==> !(Creates(log[i], x) && log[i].user != "")
  {
    if log == [] then None
    else
      var n := |log| - 1;
      var b := Birth(log[..n], x);
      if b.Some? then b else if Creates(log[n], x) && log[n].user != "" then Some(n) else None
  }

  /** What the last of the user's toggles says; a record starts open. */
  function LastFlag(log: seq<Payload>, x: string, user: string): bool {
    if log == [] then false
    else
      var p := log[|log| - 1];
      if p.op == Toggle && Writes(p, x, user) then p.data.value.completed else LastFlag(log[..|log| - 1], x, user)
  }

  /** Its user deletes the record, or clears when the last toggle before completed it. */
  predicate Ends(log: seq<Payload>, d: nat, x: string, user: string)
    requires d < |log|
  {
    (log[d].op == Delete && Writes(log[d], x, user)) || (Clears(log[d], user) && LastFlag(log[..d], x, user))
  }

  /** What the log says of `x` after making it. */
  function Since(log: seq<Payload>, x: string): seq<Payload>
    requires Birth(log, x).Some?
  {
    log[Birth(log, x).value + 1..]
  }

  /** The log makes the record, and nothing after that ends it. */
  ghost predicate Keeps(log: seq<Payload>, x: string) {
    var b := Birth(log, x);
    b.Some? && forall d :: 0 <= d < |Since(log, x)| ==> !Ends(Since(log, x), d, x, log[b.value].user)
  }

  predicate KeptFlag(log: seq<Payload>, x: string)
    requires Birth(log, x).Some?
  {
    LastFlag(Since(log, x), x, log[Birth(log, x).value].user)
  }

  predicate NamedCreate(p: Payload) {
    p.op == Create && p.user != ""
  }

  /** Each record is made once. */
  ghost predicate MadeBefore(log: seq<Payload>) {
    && (forall i, j :: 0 <= i < j < |log| && NamedCreate(log[i]) && NamedCreate(log[j]) ==> IdOf(log[i]) != IdOf(log[j]))
    && (forall i :: 0 <= i < |log| && log[i].op != ClearCompleted ==> log[i].op != Unknown && log[i].data.Some? && log[i].data.value.id != "")
    && (forall i :: 0 <= i < |log| && log[i].op == Create ==> log[i].data.value.title != "" && !log[i].data.value.completed)
  }

  lemma {:induction false} FateSince(r: Record, rest: seq<Payload>, x: string)
    requires r.owner != "" && !r.item.completed
    requires forall i :: 0 <= i < |rest| ==> !(Creates(rest[i], x) && rest[i].user != "")
    ensures RunCell(Some(r), rest, x)
            == if forall d :: 0 <= d < |rest| ==> !Ends(rest, d, x, r.owner)
               then Some(r.(item := r.item.(completed := LastFlag(rest, x, r.owner)))) else None
  {
    if rest != [] {
      var n := |rest| - 1;
      FateSince(r, rest[..n], x);
      forall d | 0 <= d < n ensures Ends(rest, d, x, r.owner) <==> Ends(rest[..n], d, x, r.owner) {
        assert rest[..n][..d] == rest[..d];
      }
      var kept := forall d :: 0 <= d < n ==> !Ends(rest, d, x, r.owner);
      assert kept <==> forall d :: 0 <= d < n ==> !Ends(rest[..n], d, x, r.owner);
      assert (forall d :: 0 <= d < |rest| ==> !Ends(rest, d, x, r.owner)) <==> kept && !Ends(rest, n, x, r.owner);
      assert !(Creates(rest[n], x) && rest[n].user != "");
    }
  }

  /** A record comes out of a log as its schedule says. */
  lemma FateIs(log: seq<Payload>, x: string)
    requires MadeBefore(log) && x != ""
    ensures RunCell(None, log, x)
            == if !Keeps(log, x) then None
               else
                 var p := log[Birth(log, x).value];
                 Some(Record(p.user, Item(p.data.value.title, KeptFlag(log, x))))
  {
    hide RunCell, LastFlag, Ends;
    var b := Birth(log, x);
    if b.None? {
      NoneStays(log, x);
    } else {
      var c := b.value;
      var made := Record(log[c].user, Item(log[c].data.value.title, false));
      NoneStays(log[..c], x);
      assert log[..c + 1][..c] == log[..c];
      RunCellStep(None, log[..c + 1], x);
      assert log[..c + 1] + Since(log, x) == log;
      RunCellAppend(None, log[..c + 1], Since(log, x), x);
      FateSince(made, Since(log, x), x);
    }
  }

  /** The record is kept or not kept by both, and then with the same flag. */
  ghost predicate SameFate(a: seq<Payload>, b: seq<Payload>, x: string) {
    (Keeps(a, x) <==> Keeps(b, x)) && (Keeps(a, x) ==> KeptFlag(a, x) == KeptFlag(b, x))
  }

  ghost predicate SameBirth(a: seq<Payload>, b: seq<Payload>) {
    forall i, j :: 0 <= i < |a| && 0 <= j < |b| && NamedCreate(a[i]) && NamedCreate(b[j]) && IdOf(a[i]) == IdOf(b[j]) ==> a[i] == b[j]
  }

  lemma EqualIffSameFates(a: seq<Payload>, b: seq<Payload>)
    requires MadeBefore(a) && MadeBefore(b) && SameBirth(a, b)
    ensures ConsumeAll(map[], a) == ConsumeAll(map[], b) <==> forall x :: x != "" ==> SameFate(a, b, x)
  {
    NoEmptyId(map[], a);
    NoEmptyId(map[], b);
    var s, t := ConsumeAll(map[], a), ConsumeAll(map[], b);
    forall x | x != "" ensures CellSame(s, t, x) <==> SameFate(a, b, x) {
      ConsumeAllAt(map[], a, x);
      ConsumeAllAt(map[], b, x);
      FateIs(a, x);
      FateIs(b, x);
      hide RunCell, ConsumeAll, KeptFlag, Keeps;
      BirthsAgree(a, b, x);
    }
    SameIffCellsSame(s, t);
    hide CellSame, SameFate, MadeBefore, SameBirth;
  }

  lemma BirthsAgree(a: seq<Payload>, b: seq<Payload>, x: string)
    requires SameBirth(a, b)
    ensures Keeps(a, x) ==> Birth(a, x).Some?
    ensures Keeps(b, x) ==> Birth(b, x).Some?
    ensures Birth(a, x).Some? && Birth(b, x).Some? ==> a[Birth(a, x).value] == b[Birth(b, x).value]
  {}

  ghost predicate CellSame(s: Table, t: Table, x: string) {
    TodoItems.At(s, x) == TodoItems.At(t, x)
  }

  lemma SameIffCellsSame(s: Table, t: Table)
    requires "" !in s && "" !in t
    ensures s == t <==> forall x :: x != "" ==> CellSame(s, t, x)
  {
    if forall x :: x != "" ==> CellSame(s, t, x) {
      forall x ensures TodoItems.At(s, x) == TodoItems.At(t, x) {
        assert x != "" ==> CellSame(s, t, x);
      }
      TodosTable.SameMap(s, t);
    }
  }

  lemma SoundIsMadeBefore(es: seq<Entry>, makers: map<string, string>)
    requires Sound(es, makers) && "" !in makers
    ensures MadeBefore(Payloads(es))
  {
    hide CreatesFirst;
    assert forall i :: 0 <= i < |es| ==> Complete(es[i].payload, makers);
    forall i, j | 0 <= i < j < |es| && es[i].payload.op == Create && es[j].payload.op == Create
      ensures IdOf(es[i].payload) != IdOf(es[j].payload)
    {
      FirstCreate(es, i, j);
    }
  }

  lemma OneCreate(es: seq<Entry>, i: nat, j: nat)
    requires CreatesFirst(es) && i < |es| && j < |es| && es[i].payload.op == es[j].payload.op == Create
    requires IdOf(es[i].payload) == IdOf(es[j].payload)
    ensures i == j
  {}

  lemma FirstCreate(es: seq<Entry>, i: nat, j: nat)
    requires CreatesFirst(es) && i < j < |es| && es[j].payload.op == Create && es[i].payload.op != ClearCompleted
    ensures IdOf(es[i].payload) != IdOf(es[j].payload)
  {}

  /** A create in the log is the one that was written. */
  lemma LogCreatesWritten(s: State, i: nat, j: nat)
    requires EntriesBooked(s) && Sound(s.writes, s.owners)
    requires i < |s.log| && j < |s.writes| && s.log[i].payload.op == Create && s.writes[j].payload.op == Create
    requires s.log[i].payload.user != "" && IdOf(s.log[i].payload) == IdOf(s.writes[j].payload)
    ensures s.log[i] == s.writes[j]
  {
    hide Distinct, AllComplete;
    assert LoggedOnce(s, s.log[i]);
    assert MadeOnce(s, s.log[i]);
    var m :| 0 <= m < |s.writes| && s.writes[m] == s.log[i];
    OneCreate(s.writes, m, j);
  }

  lemma LogMadeBefore(s: State)
    requires Inv(s)
    ensures MadeBefore(Payloads(s.log)) && SameBirth(Payloads(s.log), Payloads(s.writes))
  {
    hide Explained, HandlersBooked, Known, CreatesFirst, Distinct;
    CompleteIsNamed(s.log, s.owners);
    forall i, j | 0 <= i < j < |s.log| && NamedCreate(s.log[i].payload) && NamedCreate(s.log[j].payload)
      ensures IdOf(s.log[i].payload) != IdOf(s.log[j].payload)
    {
      LogCreatesOnce(s, i, j);
    }
    forall i, j | 0 <= i < |s.log| && 0 <= j < |s.writes| && NamedCreate(s.log[i].payload) && NamedCreate(s.writes[j].payload)
                  && IdOf(s.log[i].payload) == IdOf(s.writes[j].payload)
      ensures s.log[i] == s.writes[j]
    {
      LogCreatesWritten(s, i, j);
    }
    assert forall i :: 0 <= i < |s.log| ==> Complete(s.log[i].payload, s.owners);
  }

  lemma LogCreatesOnce(s: State, i: nat, j: nat)
    requires EntriesBooked(s) && Sound(s.made, s.owners)
    requires i < j < |s.log| && NamedCreate(s.log[i].payload) && NamedCreate(s.log[j].payload)
    ensures IdOf(s.log[i].payload) != IdOf(s.log[j].payload)
  {
    hide AllComplete;
    assert LoggedOnce(s, s.log[i]) && LoggedOnce(s, s.log[j]);
    assert s.log[i] != s.log[j];
    var a :| 0 <= a < |s.made| && s.made[a] == s.log[i];
    var b :| 0 <= b < |s.made| && s.made[b] == s.log[j];
    if a < b { FirstCreate(s.made, a, b); } else { FirstCreate(s.made, b, a); }
  }

  /** Exactly, in every interleaving, at every state and for every log, in the order
      things were published: the replica equals the owned todos if and only if the log
      keeps each record that the changes to the table keep, and no other, and last
      says of its flag what they last say. The log keeps a record that it makes
      unless, after that, it deletes it or clears while the last toggle completed it. */
  lemma MatchesIffRecordsAgree(states: seq<State>, steps: seq<Step>, k: nat)
    requires IsRun(states, steps) && k <= |steps|
    ensures ConsumeAll(map[], Payloads(states[k].log)) == Owned(states[k].table)
            <==> forall x :: x != "" ==> SameFate(Payloads(states[k].log), Payloads(states[k].writes), x)
  {
    RunInv(states, steps, k);
    var s := states[k];
    LogMadeBefore(s);
    SoundIsMadeBefore(s.writes, s.owners);
    assert Explained(s);
    hide Inv, IsRun, SameFate, ConsumeAll, Owned, MadeBefore, SameBirth;
    EqualIffSameFates(Payloads(s.log), Payloads(s.writes));
  }

  // ---- the limits ----

  /** Some run leads to `s`. */
  ghost predicate Reachable(s: State) {
    exists states, steps :: IsRun(states, steps) && states[|steps|] == s
  }

  lemma Then(was: State, e: Step) returns (s: State)
    requires Reachable(was) && Enabled(was, e)
    ensures Reachable(s) && s == Apply(was, e)
  {
    hide Apply, Enabled;
    var states, steps :| IsRun(states, steps) && states[|steps|] == was;
    s := Apply(was, e);
    assert IsRun(states + [s], steps + [e]);
  }

  lemma FirstRun()
    ensures Reachable(START)
  {
    assert IsRun([START], []);
  }

  /** Handler 0 has made the record, and not published yet. */
  lemma RecordMade(user: string, id: string, title: string) returns (s: State)
    requires user != "" && id != "" && title != ""
    ensures Reachable(s)
    ensures var p := CreateOf(user, id, title);
            s == State(map[id := Record(user, Item(title, false))], map[id := user],
                       map[0 := Handler(Call(user, New(title), false, true), Wrote(p))], [Entry(0, p)], [Entry(0, p)], [])
  {
    hide Reachable;
    FirstRun();
    s := Then(START, Arrive(0, Call(user, New(title), false, true)));
    s := Then(s, Write(0, id));
  }

  /** Handler `k` has toggled the record, and not published yet. */
  lemma FlipMade(was: State, k: nat, user: string, id: string) returns (s: State)
    requires Reachable(was) && k !in was.handlers && user != ""
    requires id in was.table && was.table[id].owner == user
    ensures Reachable(s)
    ensures var v := !was.table[id].item.completed;
            s == was.(table := was.table[id := Flipped(was.table[id])],
                      handlers := was.handlers[k := Handler(Call(user, Flip(id), false, true), Wrote(ToggleOf(user, id, v)))],
                      writes := was.writes + [Entry(k, ToggleOf(user, id, v))], made := was.made + [Entry(k, ToggleOf(user, id, v))])
  {
    hide Reachable;
    s := Then(was, Arrive(k, Call(user, Flip(id), false, true)));
    s := Then(s, Look(k));
    s := Then(s, Write(k, ""));
  }

  lemma Ship(was: State, k: nat) returns (s: State)
    requires Reachable(was) && HasWritten(was, k) && !Quiet(was.handlers[k].call)
    ensures Reachable(s)
    ensures s == was.(handlers := was.handlers[k := was.handlers[k].(phase := Done)],
                      log := was.log + [Entry(k, was.handlers[k].phase.payload)])
  {
    hide Reachable;
    s := Then(was, Publish(k));
  }

  /** Two toggles of one open todo, written one after the other and published the
      other way round: every call publishes, and the replica ends with the todo
      completed that is open at the origin. */
  lemma TogglesPublishedSwapped(user: string, id: string, title: string) returns (s: State)
    requires user != "" && id != "" && title != ""
    ensures Reachable(s) && AllPublished(s.made, s.log)
    ensures forall k :: k in s.handlers ==> s.handlers[k].phase.Done? && s.handlers[k].call.user == user && !Quiet(s.handlers[k].call)
    ensures s.table == map[id := Record(user, Item(title, false))]
    ensures ConsumeAll(map[], Payloads(s.log)) == map[id := Record(user, Item(title, true))]
  {
    hide Reachable, ConsumeAll, Consume, Enabled, Apply;
    s := RecordMade(user, id, title);
    s := Ship(s, 0);
    s := FlipMade(s, 1, user, id);
    s := FlipMade(s, 2, user, id);
    s := Ship(s, 2);
    s := Ship(s, 1);
    var a, b, c := CreateOf(user, id, title), ToggleOf(user, id, false), ToggleOf(user, id, true);
    assert s.log == [Entry(0, a), Entry(2, b), Entry(1, c)];
    SwappedConsumed(user, id, title);
  }

  lemma SwappedConsumed(user: string, id: string, title: string)
    requires user != "" && id != "" && title != ""
    ensures var a, b, c := CreateOf(user, id, title), ToggleOf(user, id, false), ToggleOf(user, id, true);
            ConsumeAll(map[], Payloads([Entry(0, a), Entry(2, b), Entry(1, c)])) == map[id := Record(user, Item(title, true))]
  {
    var a, b, c := CreateOf(user, id, title), ToggleOf(user, id, false), ToggleOf(user, id, true);
    assert Payloads([Entry(0, a), Entry(2, b), Entry(1, c)]) == [a, b, c];
    assert [a, b, c][..2] == [a, b] && [a, b][..1] == [a];
    ConsumeOne(map[], a);
    assert ConsumeAll(map[], [a, b]) == Consume(Consume(map[], a, ""), b, "");
  }

  /** A toggle that overtakes its record's create is lost: the log is not well
      formed, and the replica ends open where the origin is completed. */
  lemma ToggleOvertakesCreate(user: string, id: string, title: string) returns (s: State)
    requires user != "" && id != "" && title != ""
    ensures Reachable(s) && AllPublished(s.made, s.log)
    ensures forall k :: k in s.handlers ==> s.handlers[k].phase.Done? && s.handlers[k].call.user == user && !Quiet(s.handlers[k].call)
    ensures !Wellformed(Payloads(s.log))
    ensures s.table == map[id := Record(user, Item(title, true))]
    ensures ConsumeAll(map[], Payloads(s.log)) == map[id := Record(user, Item(title, false))]
  {
    hide Reachable;
    s := RecordMade(user, id, title);
    s := FlipMade(s, 1, user, id);
    s := Ship(s, 1);
    s := Ship(s, 0);
    var a, c := CreateOf(user, id, title), ToggleOf(user, id, true);
    assert s.log == [Entry(1, c), Entry(0, a)];
    var ps := Payloads(s.log);
    assert ps == [c, a] && ps[..1] == [c];
    ConsumeOne(map[], c);
    assert IdOf(ps[0]) == IdOf(ps[1]);
  }

  /** A clear of the user has found these records. */
  lemma ClearFound(was: State, k: nat, user: string) returns (s: State)
    requires Reachable(was) && k !in was.handlers && user != ""
    ensures Reachable(s)
    ensures s == was.(handlers := was.handlers[k := Handler(Call(user, Clear, false, true), Phase.Sweeping(ToSweep(was.table, user)))],
                      made := was.made + [Entry(k, ClearOf(user))])
  {
    hide Reachable;
    s := Then(was, Arrive(k, Call(user, Clear, false, true)));
    s := Then(s, Find(k));
  }

  /** A record that a clear has found and someone reopens before the clear reaches it:
      everything is published as it was written, the origin deletes the open todo, and
      the replica keeps it. */
  lemma ReopenedDuringSweep(user: string, id: string, title: string) returns (s: State)
    requires user != "" && id != "" && title != ""
    ensures Reachable(s) && AllPublished(s.made, s.log)
    ensures forall k :: k in s.handlers ==> s.handlers[k].phase.Done? && s.handlers[k].call.user == user && !Quiet(s.handlers[k].call)
    ensures var a, b, c := CreateOf(user, id, title), ToggleOf(user, id, true), ToggleOf(user, id, false);
            && Payloads(s.writes) == [a, b, c, DeleteOf(user, id)]
            && Payloads(s.log) == [a, b, c, ClearOf(user)]
    ensures s.table == map[]
    ensures ConsumeAll(map[], Payloads(s.log)) == map[id := Record(user, Item(title, false))]
  {
    hide Reachable, ConsumeAll, Consume, ToSweep;
    s := FoundAndReopened(user, id, title);
    s := Then(s, Drop(2, id));
    assert {id} - {id} == {};
    s := Then(s, Finish(2));
    s := Ship(s, 2);
    ReopenedConsumed(user, id, title);
  }

  lemma FoundAndReopened(user: string, id: string, title: string) returns (s: State)
    requires user != "" && id != "" && title != ""
    ensures Reachable(s)
    ensures s.table == map[id := Record(user, Item(title, false))]
    ensures s.handlers.Keys == {0, 1, 2, 3} && s.handlers[2] == Handler(Call(user, Clear, false, true), Phase.Sweeping({id}))
    ensures forall k :: k in s.handlers ==>
              s.handlers[k].call.user == user && !Quiet(s.handlers[k].call) && (k != 2 ==> s.handlers[k].phase.Done?)
    ensures var a, b, c := Entry(0, CreateOf(user, id, title)), Entry(1, ToggleOf(user, id, true)), Entry(3, ToggleOf(user, id, false));
            s.writes == [a, b, c] && s.made == [a, b, Entry(2, ClearOf(user)), c] && s.log == [a, b, c]
  {
    hide Reachable, ToSweep;
    s := RecordMade(user, id, title);
    s := Ship(s, 0);
    s := FlipMade(s, 1, user, id);
    s := Ship(s, 1);
    assert s.table == map[id := Record(user, Item(title, true))];
    s := ClearFound(s, 2, user);
    OneToSweep(user, id, title);
    s := FlipMade(s, 3, user, id);
    s := Ship(s, 3);
  }

  lemma OneToSweep(user: string, id: string, title: string)
    ensures ToSweep(map[id := Record(user, Item(title, true))], user) == {id}
    ensures ToSweep(map[id := Record(user, Item(title, false))], user) == {}
  {}

  lemma ReopenedConsumed(user: string, id: string, title: string)
    requires user != "" && id != "" && title != ""
    ensures var a, b, c := CreateOf(user, id, title), ToggleOf(user, id, true), ToggleOf(user, id, false);
            ConsumeAll(map[], [a, b, c, ClearOf(user)]) == map[id := Record(user, Item(title, false))]
  {
    var a, b, c, d := CreateOf(user, id, title), ToggleOf(user, id, true), ToggleOf(user, id, false), ClearOf(user);
    assert [a, b, c, d][..3] == [a, b, c] && [a, b, c][..2] == [a, b] && [a, b][..1] == [a];
    ConsumeOne(map[], a);
    assert ConsumeAll(map[], [a, b]) == Consume(Consume(map[], a, ""), b, "") == map[id := Record(user, Item(title, true))];
    assert ConsumeAll(map[], [a, b, c]) == Consume(ConsumeAll(map[], [a, b]), c, "");
    assert ConsumeAll(map[], [a, b, c, d]) == Consume(ConsumeAll(map[], [a, b, c]), d, "");
  }

  /** And one that is completed when the clear has found its records: the origin keeps
      it, and the replica deletes it. */
  lemma CompletedDuringSweep(user: string, id: string, title: string) returns (s: State)
    requires user != "" && id != "" && title != ""
    ensures Reachable(s) && AllPublished(s.made, s.log)
    ensures forall k :: k in s.handlers ==> s.handlers[k].phase.Done? && s.handlers[k].call.user == user && !Quiet(s.handlers[k].call)
    ensures s.table == map[id := Record(user, Item(title, true))]
    ensures ConsumeAll(map[], Payloads(s.log)) == map[]
  {
    hide Reachable, ConsumeAll, Consume, ToSweep;
    s := RecordMade(user, id, title);
    s := Ship(s, 0);
    s := ClearFound(s, 1, user);
    OneToSweep(user, id, title);
    s := FlipMade(s, 2, user, id);
    s := Ship(s, 2);
    s := Then(s, Finish(1));
    s := Ship(s, 1);
    var a, b, c := CreateOf(user, id, title), ToggleOf(user, id, true), ClearOf(user);
    assert s.log == [Entry(0, a), Entry(2, b), Entry(1, c)];
    CompletedConsumed(user, id, title);
  }

  lemma CompletedConsumed(user: string, id: string, title: string)
    requires user != "" && id != "" && title != ""
    ensures var a, b, c := CreateOf(user, id, title), ToggleOf(user, id, true), ClearOf(user);
            ConsumeAll(map[], Payloads([Entry(0, a), Entry(2, b), Entry(1, c)])) == map[]
  {
    var a, b, c := CreateOf(user, id, title), ToggleOf(user, id, true), ClearOf(user);
    assert Payloads([Entry(0, a), Entry(2, b), Entry(1, c)]) == [a, b, c];
    assert [a, b, c][..2] == [a, b] && [a, b][..1] == [a];
    ConsumeOne(map[], a);
    assert ConsumeAll(map[], [a, b, c]) == Consume(Consume(Consume(map[], a, ""), b, ""), c, "");
  }
}
