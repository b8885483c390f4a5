/**
 A separate replica that applies another instance's log: when it matches the
 origin's owned todos, what redelivery does, and what restarting it does.
 */
module CrudRuns {
  import opened Wrappers
  import opened TodoItems
  import opened CrudLog
  import TodosTable

  /** The todos that belong to someone; nobody's are never shipped. */
  function Owned(t: Table): Table {
    map id | id in t && t[id].owner != "" :: t[id]
  }

  // ---- one call ----

  /** Some owned todo changes under the call. */
  predicate TouchesOwned(t: Table, c: Call) {
    match c.request
    case New(_) => false
    case Flip(id) => Visible(t, c.user, id) && t[id].owner != ""
    case Remove(id) => Visible(t, c.user, id) && t[id].owner != ""
    case Clear => exists id :: id in t && t[id].owner != "" && Sweeps(t[id], c.user)
  }

  /** The call changes an owned todo and nothing usable is published: a replay or a
      failed listing publishes nothing, and the consumer drops what carries no user. */
  predicate Diverges(t: Table, c: Call) {
    (c.user == "" || Quiet(c)) && TouchesOwned(t, c)
  }

  function ConsumeAll(t: Table, log: seq<Payload>): Table {
    if log == [] then t else Consume(ConsumeAll(t, log[..|log| - 1]), log[|log| - 1], "")
  }

  lemma ConsumeOne(t: Table, p: Payload)
    ensures ConsumeAll(t, [p]) == Consume(t, p, "") && ConsumeAll(t, []) == t
  {
    assert [p][..0] == [];
    assert ConsumeAll(t, [p]) == Consume(ConsumeAll(t, []), p, "");
  }

  lemma MatchesIffNew(t: Table, c: Call, minted: string)
    requires c.request.New? && minted != "" && minted !in t
    ensures ConsumeAll(Owned(t), Published(t, c, minted)) == Owned(Written(t, c, minted))
  {
    if c.request.title != "" {
      ConsumeOne(Owned(t), Published(t, c, minted)[0]);
    }
  }

  lemma MatchesIffFlip(t: Table, c: Call, minted: string)
    requires c.request.Flip? && c.request.id != ""
    ensures ConsumeAll(Owned(t), Published(t, c, minted)) == Owned(Written(t, c, minted)) <==> !Diverges(t, c)
  {
    var id := c.request.id;
    var after := Owned(Written(t, c, minted));
    if Published(t, c, minted) != [] {
      ConsumeOne(Owned(t), Published(t, c, minted)[0]);
    }
    if TouchesOwned(t, c) {
      assert after[id] == Flipped(t[id]) != Owned(t)[id];
    }
  }

  lemma MatchesIffRemove(t: Table, c: Call, minted: string)
    requires c.request.Remove? && c.request.id != ""
    ensures ConsumeAll(Owned(t), Published(t, c, minted)) == Owned(Written(t, c, minted)) <==> !Diverges(t, c)
  {
    var id := c.request.id;
    if Published(t, c, minted) != [] {
      ConsumeOne(Owned(t), Published(t, c, minted)[0]);
    }
    if TouchesOwned(t, c) {
      assert id in Owned(t) && id !in Owned(Written(t, c, minted));
    }
  }

  lemma MatchesIffClear(t: Table, c: Call, minted: string)
    requires c.request.Clear?
    ensures ConsumeAll(Owned(t), Published(t, c, minted)) == Owned(Written(t, c, minted)) <==> !Diverges(t, c)
  {
    if Published(t, c, minted) != [] {
      ConsumeOne(Owned(t), Published(t, c, minted)[0]);
    }
    if TouchesOwned(t, c) {
      var id :| id in t && t[id].owner != "" && Sweeps(t[id], c.user);
      assert id in Owned(t) && id !in Owned(Written(t, c, minted));
    }
  }

  /** One call: a replica that matched the origin's owned todos still does, after
      what the call published, exactly when the call does not diverge. */
  lemma CallMatchesIff(t: Table, c: Call, minted: string)
    requires minted != "" && minted !in t && "" !in t
    ensures ConsumeAll(Owned(t), Published(t, c, minted)) == Owned(Written(t, c, minted)) <==> !Diverges(t, c)
  {
    match c.request
    case New(_) => MatchesIffNew(t, c, minted);
    case Flip(id) => if id != "" { MatchesIffFlip(t, c, minted); }
    case Remove(id) => if id != "" { MatchesIffRemove(t, c, minted); }
    case Clear => MatchesIffClear(t, c, minted);
  }

  // ---- redelivery ----

  /** A payload with an id may be applied any number of times in a row. */
  lemma RedeliveryChangesNothing(t: Table, p: Payload, minted: string, again: string)
    requires p.op == Create && p.data.Some? ==> p.data.value.id != ""
    ensures Consume(Consume(t, p, minted), p, again) == Consume(t, p, minted)
  {
    if p.op == ClearCompleted { assert Cleared(Cleared(t, p.user), p.user) == Cleared(t, p.user); }
  }

  /** `delivered` is `log` with payloads repeated right after themselves. */
  ghost predicate Stutters(delivered: seq<Payload>, log: seq<Payload>)
    decreases |delivered|
  {
    if delivered == [] then log == []
    else
      var n := |delivered| - 1;
      && log != [] && delivered[n] == log[|log| - 1]
      && (Stutters(delivered[..n], log[..|log| - 1]) || Stutters(delivered[..n], log))
  }

  predicate Named(log: seq<Payload>) {
    forall i :: 0 <= i < |log| && log[i].op == Create && log[i].data.Some? ==> log[i].data.value.id != ""
  }

  lemma {:induction false} StutteringChangesNothing(t: Table, delivered: seq<Payload>, log: seq<Payload>)
    requires Stutters(delivered, log) && Named(log)
    ensures ConsumeAll(t, delivered) == ConsumeAll(t, log)
    decreases |delivered|
  {
    if delivered != [] {
      hide Consume;
      var n, m := |delivered| - 1, |log| - 1;
      if Stutters(delivered[..n], log[..m]) {
        StutteringChangesNothing(t, delivered[..n], log[..m]);
      } else {
        StutteringChangesNothing(t, delivered[..n], log);
        RedeliveryChangesNothing(ConsumeAll(t, log[..m]), log[m], "", "");
      }
    }
  }

  // ---- whole runs of the origin ----

  /** The calls served, the ids the database gave, the tables and the log after each. */
  datatype Run = Run(calls: seq<Call>, minted: seq<string>, tables: seq<Table>, logs: seq<seq<Payload>>)

  /** Each id is new: the database never gives one twice. */
  ghost predicate IsRun(r: Run) {
    && |r.minted| == |r.calls| && |r.tables| == |r.logs| == |r.calls| + 1
    && r.tables[0] == map[] && r.logs[0] == []
    && (forall i, j :: 0 <= i < j < |r.minted| ==> r.minted[i] != r.minted[j])
    && (forall i :: 0 <= i < |r.minted| ==> r.minted[i] != "")
    && (forall k :: 0 <= k < |r.calls| ==>
          && r.tables[k + 1] == Written(r.tables[k], r.calls[k], r.minted[k])
          && r.logs[k + 1] == r.logs[k] + Published(r.tables[k], r.calls[k], r.minted[k]))
  }

  lemma {:induction false} IdsWereMinted(r: Run, k: nat, id: string)
    requires IsRun(r) && k <= |r.calls| && id in r.tables[k]
    ensures exists i :: 0 <= i < k && r.minted[i] == id
  {
    if k > 0 && id in r.tables[k - 1] { IdsWereMinted(r, k - 1, id); }
  }

  lemma MintedIsNew(r: Run, k: nat)
    requires IsRun(r) && k < |r.calls|
    ensures r.minted[k] != "" && r.minted[k] !in r.tables[k] && "" !in r.tables[k]
  {
    if r.minted[k] in r.tables[k] { IdsWereMinted(r, k, r.minted[k]); }
    if "" in r.tables[k] { IdsWereMinted(r, k, ""); }
  }

  lemma {:induction false} ConsumeAppend(t: Table, a: seq<Payload>, b: seq<Payload>)
    ensures ConsumeAll(t, a + b) == ConsumeAll(ConsumeAll(t, a), b)
  {
    if b == [] {
      assert a + b == a;
    } else {
      hide Consume;
      var n := |b| - 1;
      ConsumeAppend(t, a, b[..n]);
      assert (a + b)[..|a + b| - 1] == a + b[..n];
    }
  }

  ghost predicate MatchesAt(r: Run, k: nat)
    requires k < |r.tables| && k < |r.logs|
  {
    ConsumeAll(map[], r.logs[k]) == Owned(r.tables[k])
  }

  /** Over whole runs: the replica that applied the log matches the origin's owned
      todos after every prefix of calls if and only if none of the calls diverges. */
  lemma {:induction false} EveryPrefixMatchesIff(r: Run, n: nat)
    requires IsRun(r) && n <= |r.calls|
    ensures (forall k :: 0 <= k <= n ==> MatchesAt(r, k)) <==> (forall k :: 0 <= k < n ==> !Diverges(r.tables[k], r.calls[k]))
  {
    hide Consume, Published, Written, Diverges, Owned;
    if n == 0 {
      NothingOwned();
    } else {
      EveryPrefixMatchesIff(r, n - 1);
      var t, c := r.tables[n - 1], r.calls[n - 1];
      MintedIsNew(r, n - 1);
      CallMatchesIff(t, c, r.minted[n - 1]);
      ConsumeAppend(map[], r.logs[n - 1], Published(t, c, r.minted[n - 1]));
      assert MatchesAt(r, n - 1) ==> (MatchesAt(r, n) <==> !Diverges(t, c));
      assert (forall k :: 0 <= k <= n ==> MatchesAt(r, k)) <==> (forall k :: 0 <= k <= n - 1 ==> MatchesAt(r, k)) && MatchesAt(r, n);
    }
  }

  lemma NothingOwned()
    ensures Owned(map[]) == map[] && ConsumeAll(map[], []) == map[]
  {}

  // ---- restarting the consumer from the start of the log ----

  function IdOf(p: Payload): Option<string> {
    if p.op == ClearCompleted || p.data.None? then None else Some(p.data.value.id)
  }

  /** A payload that brings record `x` into being. */
  predicate Creates(p: Payload, x: string) {
    p.op == Create && IdOf(p) == Some(x)
  }

  predicate Clears(p: Payload, user: string) {
    p.op == ClearCompleted && p.user == user
  }

  /** A payload that sets or removes record `x` of `user`. */
  predicate Writes(p: Payload, x: string, user: string) {
    (p.op == Toggle || p.op == Delete) && p.user == user && IdOf(p) == Some(x)
  }

  /** One record's part in a payload. */
  function CellStep(c: Option<Record>, p: Payload, x: string): Option<Record> {
    if p.user == "" then c
    else if c.None? then
      if !Creates(p, x) || p.data.value.title == "" then c
      else Some(Record(p.user, Item(p.data.value.title, p.data.value.completed)))
    else if c.value.owner != "" && c.value.owner != p.user then c
    else
      match p.op
      case Toggle =>
        if IdOf(p) == Some(x) then Some(c.value.(item := c.value.item.(completed := p.data.value.completed))) else c
      case Delete => if IdOf(p) == Some(x) then None else c
      case ClearCompleted => if c.value.item.completed && c.value.owner == p.user then None else c
      case _ => c
  }

  function RunCell(c: Option<Record>, log: seq<Payload>, x: string): Option<Record> {
    if log == [] then c else CellStep(RunCell(c, log[..|log| - 1], x), log[|log| - 1], x)
  }

  lemma {:induction false} ConsumeAt(t: Table, p: Payload, x: string)
    requires x != "" && (p.op == Create && p.data.Some? ==> p.data.value.id != "")
    ensures At(Consume(t, p, ""), x) == CellStep(At(t, x), p, x)
  {}

  lemma {:induction false} ConsumeAllAt(t: Table, log: seq<Payload>, x: string)
    requires x != "" && Named(log)
    ensures At(ConsumeAll(t, log), x) == RunCell(At(t, x), log, x)
  {
    if log != [] {
      hide Consume, CellStep, At;
      ConsumeAllAt(t, log[..|log| - 1], x);
      ConsumeAt(ConsumeAll(t, log[..|log| - 1]), log[|log| - 1], x);
    }
  }

  lemma {:induction false} RunCellAppend(c: Option<Record>, a: seq<Payload>, b: seq<Payload>, x: string)
    ensures RunCell(c, a + b, x) == RunCell(RunCell(c, a, x), b, x)
  {
    if b == [] {
      assert a + b == a;
    } else {
      hide CellStep;
      RunCellAppend(c, a, b[..|b| - 1], x);
      assert (a + b)[..|a + b| - 1] == a + b[..|b| - 1];
    }
  }

  /** A log as an origin writes it: complete payloads, each record created once, open,
      before anything else is said of it. */
  ghost predicate Wellformed(log: seq<Payload>) {
    && (forall i :: 0 <= i < |log| && log[i].op != ClearCompleted ==>
          && log[i].op != Unknown && log[i].data.Some? && log[i].data.value.id != ""
          && (log[i].op == Create ==> log[i].data.value.title != "" && !log[i].data.value.completed))
    && (forall i, j | 0 <= i < |log| && 0 <= j < |log| && log[j].op == Create && log[i].op != ClearCompleted ::
          IdOf(log[i]) == IdOf(log[j]) ==> j <= i)
  }

  lemma {:induction false} NoneStays(log: seq<Payload>, x: string)
    requires forall i :: 0 <= i < |log| ==> !(Creates(log[i], x) && log[i].user != "")
    ensures RunCell(None, log, x) == None
  {
    if log != [] { NoneStays(log[..|log| - 1], x); }
  }

  /** Without a write of its own a record only waits for a clear, and an open one not even that. */
  lemma {:induction false} Untouched(r: Record, log: seq<Payload>, x: string)
    requires r.owner != "" && forall i :: 0 <= i < |log| ==> !Writes(log[i], x, r.owner) && !Creates(log[i], x)
    ensures RunCell(Some(r), log, x) in {Some(r), None}
    ensures !r.item.completed || (forall i :: 0 <= i < |log| ==> !Clears(log[i], r.owner)) ==> RunCell(Some(r), log, x) == Some(r)
  {
    if log != [] {
      var n := |log| - 1;
      Untouched(r, log[..n], x);
      assert !Writes(log[n], x, r.owner) && !Creates(log[n], x);
    }
  }

  lemma {:induction false} ClearedAway(r: Record, log: seq<Payload>, x: string, d: nat)
    requires r.owner != "" && r.item.completed && d < |log| && Clears(log[d], r.owner)
    requires (forall i :: 0 <= i < d ==> !Writes(log[i], x, r.owner)) && forall i :: 0 <= i < |log| ==> !Creates(log[i], x)
    ensures RunCell(Some(r), log, x) == None
  {
    hide RunCell;
    var upTo := log[..d + 1];
    Untouched(r, log[..d], x);
    assert upTo[..d] == log[..d];
    RunCellStep(Some(r), upTo, x);
    assert upTo + log[d + 1..] == log;
    RunCellAppend(Some(r), upTo, log[d + 1..], x);
    NoneStays(log[d + 1..], x);
  }

  lemma {:induction false} RunCellStep(c: Option<Record>, log: seq<Payload>, x: string)
    requires log != []
    ensures RunCell(c, log, x) == CellStep(RunCell(c, log[..|log| - 1], x), log[|log| - 1], x)
  {}

  /** Two records that differ in the flag only are the same after a write, if no clear came first. */
  lemma {:induction false} WriteEvens(a: Record, b: Record, log: seq<Payload>, x: string, e: nat)
    requires a.owner == b.owner != "" && a.item.title == b.item.title
    requires e < |log| && Writes(log[e], x, a.owner) && forall i :: 0 <= i < |log| ==> !Creates(log[i], x)
    requires forall i :: 0 <= i < e ==> !Writes(log[i], x, a.owner) && !Clears(log[i], a.owner)
    ensures RunCell(Some(a), log, x) == RunCell(Some(b), log, x)
  {
    hide RunCell;
    var upTo := log[..e + 1];
    Untouched(a, log[..e], x);
    Untouched(b, log[..e], x);
    assert upTo[..e] == log[..e];
    RunCellStep(Some(a), upTo, x);
    RunCellStep(Some(b), upTo, x);
    assert upTo + log[e + 1..] == log;
    RunCellAppend(Some(a), upTo, log[e + 1..], x);
    RunCellAppend(Some(b), upTo, log[e + 1..], x);
  }

  /** Between the create and `d`, a clear, the owner wrote nothing to the record. */
  predicate ClearedBeforeWritten(log: seq<Payload>, x: string, c: int, d: int) {
    && 0 <= c < d < |log| && Creates(log[c], x) && Clears(log[d], log[c].user)
    && forall i :: c < i < d ==> !Writes(log[i], x, log[c].user)
  }

  predicate ClearedEarlier(log: seq<Payload>, c: int, user: string) {
    exists i :: 0 <= i < c && i < |log| && Clears(log[i], user)
  }

  /** A restart after `n` payloads loses record `x`: the replica holds it completed
      and the log holds a clear that once found it open. */
  ghost predicate Loses(log: seq<Payload>, n: nat, x: string)
    requires n <= |log|
  {
    var now := RunCell(None, log[..n], x);
    && now.Some? && now.value.item.completed && RunCell(None, log, x).Some?
    && exists c, d :: ClearedBeforeWritten(log, x, c, d) && !ClearedEarlier(log, c, log[c].user)
  }

  /** The log cut at the record's create. */
  lemma {:induction false} AtCreate(log: seq<Payload>, x: string, c: nat)
    requires Wellformed(log) && c < |log| && Creates(log[c], x) && log[c].user != ""
    ensures var first := Record(log[c].user, Item(log[c].data.value.title, false));
            && first.owner == log[c].user && !first.item.completed
            && RunCell(None, log[..c + 1], x) == Some(first)
            && (forall i :: 0 <= i < |log| && Creates(log[i], x) ==> i == c)
            && (forall i, u :: 0 <= i < c ==> !Writes(log[i], x, u))
  {
    assert forall i :: 0 <= i < |log| && Creates(log[i], x) ==> IdOf(log[i]) == IdOf(log[c]);
    NoneStays(log[..c], x);
    assert log[..c + 1][..c] == log[..c];
  }

  /** From the create on: `now` is what the first pass left after `n` payloads. */
  lemma {:induction false} FirstPass(log: seq<Payload>, n: nat, x: string, c: nat)
    requires Wellformed(log) && n <= |log| && c < |log| && Creates(log[c], x) && log[c].user != ""
    requires RunCell(None, log[..n], x).Some?
    ensures var now := RunCell(None, log[..n], x).value;
            && c < n && now.owner == log[c].user && now.item.title == log[c].data.value.title
            && (now.item.completed ==> exists i :: c < i < |log| && Writes(log[i], x, log[c].user))
  {
    AtCreate(log, x, c);
    var first := Record(log[c].user, Item(log[c].data.value.title, false));
    if n <= c {
      NoneStays(log[..n], x);
    } else {
      var rest := log[c + 1..n];
      assert log[..n] == log[..c + 1] + rest;
      RunCellAppend(None, log[..c + 1], rest, x);
      KeepsIdentity(first, rest, x);
      if forall i :: c < i < |log| ==> !Writes(log[i], x, log[c].user) {
        Untouched(first, rest, x);
      }
    }
    hide RunCell;
  }

  lemma {:induction false} KeepsIdentity(r: Record, log: seq<Payload>, x: string)
    requires forall i :: 0 <= i < |log| ==> !Creates(log[i], x)
    ensures var after := RunCell(Some(r), log, x);
            after.Some? ==> after.value.owner == r.owner && after.value.item.title == r.item.title
  {
    if log != [] { KeepsIdentity(r, log[..|log| - 1], x); }
  }

  /** The second pass over a record the replica still holds completed. */
  lemma {:induction false} SecondPass(log: seq<Payload>, x: string, c: nat, now: Record)
    requires Wellformed(log) && c < |log| && Creates(log[c], x) && log[c].user != ""
    requires now == Record(log[c].user, Item(log[c].data.value.title, true))
    requires exists i :: c < i < |log| && Writes(log[i], x, log[c].user)
    ensures RunCell(Some(now), log, x) == RunCell(None, log, x)
            <==> RunCell(None, log, x).None? || ClearedEarlier(log, c, now.owner) || !exists d :: ClearedBeforeWritten(log, x, c, d)
  {
    hide RunCell, Wellformed;
    AtCreate(log, x, c);
    var first := Record(log[c].user, Item(log[c].data.value.title, false));
    var head, rest := log[..c + 1], log[c + 1..];
    assert log == head + rest;
    RunCellAppend(None, head, rest, x);
    RunCellAppend(Some(now), head, rest, x);
    HeadPass(log, x, c, now);
    if !ClearedEarlier(log, c, now.owner) {
      if d :| ClearedBeforeWritten(log, x, c, d) {
        ClearedAway(now, rest, x, d - c - 1);
      } else {
        var e := FirstWrite(rest, x, now.owner);
        forall i | 0 <= i < e ensures !Clears(rest[i], now.owner) {
          assert log[c + 1 + i] == rest[i];
          forall k | c < k < c + 1 + i ensures !Writes(log[k], x, log[c].user) {
            assert log[k] == rest[k - c - 1];
          }
          assert !ClearedBeforeWritten(log, x, c, c + 1 + i);
        }
        WriteEvens(now, first, rest, x, e);
      }
    }
  }

  lemma {:induction false} FirstWrite(log: seq<Payload>, x: string, u: string) returns (e: nat)
    requires exists i :: 0 <= i < |log| && Writes(log[i], x, u)
    ensures e < |log| && Writes(log[e], x, u) && forall i :: 0 <= i < e ==> !Writes(log[i], x, u)
  {
    e := 0;
    while !Writes(log[e], x, u)
      invariant e < |log| && forall i :: 0 <= i < e ==> !Writes(log[i], x, u)
      decreases |log| - e
    {
      e := e + 1;
    }
  }

  /** Up to the create: an earlier clear takes a completed record away and it is created anew. */
  lemma {:induction false} HeadPass(log: seq<Payload>, x: string, c: nat, now: Record)
    requires Wellformed(log) && c < |log| && Creates(log[c], x) && log[c].user != ""
    requires now.owner == log[c].user && now.item.completed
    ensures var first := Record(log[c].user, Item(log[c].data.value.title, false));
            RunCell(Some(now), log[..c + 1], x) == if ClearedEarlier(log, c, now.owner) then Some(first) else Some(now)
  {
    AtCreate(log, x, c);
    var before := log[..c];
    assert log[..c + 1][..c] == before;
    RunCellStep(Some(now), log[..c + 1], x);
    hide RunCell;
    if ClearedEarlier(log, c, now.owner) {
      var d :| 0 <= d < c && d < |log| && Clears(log[d], now.owner);
      ClearedAway(now, before, x, d);
    } else {
      Untouched(now, before, x);
    }
  }

  lemma {:induction false} CellRestoresIff(log: seq<Payload>, n: nat, x: string)
    requires Wellformed(log) && n <= |log|
    ensures RunCell(RunCell(None, log[..n], x), log, x) == RunCell(None, log, x) <==> !Loses(log, n, x)
  {
    hide RunCell;
    var now := RunCell(None, log[..n], x);
    if now.Some? {
      if c :| 0 <= c < |log| && Creates(log[c], x) && log[c].user != "" {
        AtCreate(log, x, c);
        FirstPass(log, n, x, c);
        if now.value.item.completed {
          SecondPass(log, x, c, now.value);
          assert forall c', d :: ClearedBeforeWritten(log, x, c', d) ==> c' == c;
        } else {
          var head, rest := log[..c + 1], log[c + 1..];
          assert log == head + rest;
          RunCellAppend(None, head, rest, x);
          RunCellAppend(now, head, rest, x);
          assert head[..c] == log[..c];
          Untouched(now.value, log[..c], x);
          RunCellStep(now, head, x);
        }
      } else {
        NoneStays(log[..n], x);
      }
    }
  }

  /** Restarting the consumer from the start of an origin's log, after any prefix of
      it, ends in the state it would have reached anyway if and only if no record is
      lost to a clear that once found it open. */
  lemma {:induction false} RestartRestoresIff(log: seq<Payload>, n: nat)
    requires Wellformed(log) && n <= |log|
    ensures ConsumeAll(ConsumeAll(map[], log[..n]), log) == ConsumeAll(map[], log)
            <==> forall x :: x != "" ==> !Loses(log, n, x)
  {
    var a, b := ConsumeAll(ConsumeAll(map[], log[..n]), log), ConsumeAll(map[], log);
    forall x | x != "" ensures At(a, x) == At(b, x) <==> !Loses(log, n, x) {
      ConsumeAllAt(map[], log[..n], x);
      ConsumeAllAt(ConsumeAll(map[], log[..n]), log, x);
      ConsumeAllAt(map[], log, x);
      CellRestoresIff(log, n, x);
    }
    hide Loses, ConsumeAll;
    NoEmptyId(map[], log[..n]);
    NoEmptyId(ConsumeAll(map[], log[..n]), log);
    NoEmptyId(map[], log);
    assert At(a, "") == At(b, "");
    if forall x :: x != "" ==> !Loses(log, n, x) {
      assert forall x :: At(a, x) == At(b, x);
      TodosTable.SameMap(a, b);
    }
  }

  lemma {:induction false} NoEmptyId(t: Table, log: seq<Payload>)
    requires Named(log) && "" !in t
    ensures "" !in ConsumeAll(t, log)
  {
    if log != [] { NoEmptyId(t, log[..|log| - 1]); }
  }

  /** Without clears nothing is ever lost. */
  lemma {:induction false} RestartWithoutClears(log: seq<Payload>, n: nat)
    requires Wellformed(log) && n <= |log| && forall i :: 0 <= i < |log| ==> log[i].op != ClearCompleted
    ensures ConsumeAll(ConsumeAll(map[], log[..n]), log) == ConsumeAll(map[], log)
  {
    RestartRestoresIff(log, n);
  }

  // ---- the logs an origin writes ----

  /** Every id a log mentions was given by the database before. */
  ghost predicate KnownIds(r: Run, k: nat)
    requires k < |r.logs| && k <= |r.minted|
  {
    forall i :: 0 <= i < |r.logs[k]| && r.logs[k][i].op != ClearCompleted ==>
                  exists m :: 0 <= m < k && IdOf(r.logs[k][i]) == Some(r.minted[m])
  }

  /** What one call publishes is complete, and mentions a new id only to create it. */
  lemma PublishedIs(r: Run, k: nat, p: Payload)
    requires IsRun(r) && k < |r.calls| && Published(r.tables[k], r.calls[k], r.minted[k]) == [p] && p.op != ClearCompleted
    ensures p.op != Unknown && p.data.Some? && p.data.value.id != ""
    ensures p.op == Create ==> p.data.value.title != "" && !p.data.value.completed && p.data.value.id == r.minted[k]
    ensures p.op != Create ==> exists m :: 0 <= m < k && p.data.value.id == r.minted[m]
  {
    MintedIsNew(r, k);
    if p.op != Create { IdsWereMinted(r, k, p.data.value.id); }
  }

  lemma {:induction false} OriginLogsAreWellformed(r: Run, k: nat)
    requires IsRun(r) && k <= |r.calls|
    ensures Wellformed(r.logs[k]) && KnownIds(r, k)
  {
    if k > 0 {
      OriginLogsAreWellformed(r, k - 1);
      var was, news, log := r.logs[k - 1], Published(r.tables[k - 1], r.calls[k - 1], r.minted[k - 1]), r.logs[k];
      assert log == was + news && |news| <= 1;
      if |news| == 1 {
        assert news == [news[0]] && log[|was|] == news[0];
        if news[0].op != ClearCompleted { PublishedIs(r, k - 1, news[0]); }
      }
      hide Published, Written;
      assert forall i :: 0 <= i < |was| ==> log[i] == was[i];
    }
  }

  /** So a consumer restarted on an origin's log, after any prefix, gets back to the
      origin's owned todos if nothing diverged and nothing is lost to a clear. */
  lemma RestartedReplicaMatches(r: Run, k: nat, n: nat)
    requires IsRun(r) && k <= |r.calls| && n <= |r.logs[k]|
    requires forall i :: 0 <= i < k ==> !Diverges(r.tables[i], r.calls[i])
    ensures ConsumeAll(ConsumeAll(map[], r.logs[k][..n]), r.logs[k]) == Owned(r.tables[k])
            <==> forall x :: x != "" ==> !Loses(r.logs[k], n, x)
  {
    EveryPrefixMatchesIff(r, k);
    assert MatchesAt(r, k);
    OriginLogsAreWellformed(r, k);
    RestartRestoresIff(r.logs[k], n);
    hide Loses, Diverges, Owned;
  }

  /** A todo created, a clear with nothing to clear, then the todo completed: after a
      restart the clear finds it completed and the replica ends up without it. */
  lemma RestartCanLose(user: string, id: string, title: string) returns (log: seq<Payload>)
    requires user != "" && id != "" && title != ""
    ensures Wellformed(log)
    ensures ConsumeAll(map[], log) == map[id := Record(user, Item(title, true))]
    ensures ConsumeAll(ConsumeAll(map[], log), log) == map[]
  {
    var a, b, c := Payload(Create, user, Some(Data(id, title, false))), Payload(ClearCompleted, user, None),
                   Payload(Toggle, user, Some(Data(id, "", true)));
    log := [a, b, c];
    assert log[..2] == [a, b] && [a, b][..1] == [a];
    var open, done := map[id := Record(user, Item(title, false))], map[id := Record(user, Item(title, true))];
    ConsumeOne(map[], a);
    ConsumeOne(done, a);
    assert ConsumeAll(map[], [a, b]) == Consume(open, b, "") == open;
    assert ConsumeAll(done, [a, b]) == Consume(done, b, "") == map[];
  }
}
