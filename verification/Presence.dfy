/**
 Ephemeral presence: who is on a document, kept from heartbeats and expiry ticks.
 Instants and durations are whole nanoseconds; messages carry whole milliseconds.
 */
module Presence {

  const MS := 1_000_000

  datatype Kind = Join | Cursor | Leave | Unknown

  datatype Msg = Msg(kind: Kind, doc: string, user: string, x: real, y: real, ts: int)

  type Roster = map<string, Msg>

  function UnixMilli(now: int): int {
    now / MS
  }

  /** A message merged into the roster. */
  function Applied(roster: Roster, m: Msg): Roster {
    match m.kind
    case Leave => roster - {m.user}
    case Join => roster[m.user := m]
    case Cursor => roster[m.user := m]
    case Unknown => roster
  }

  predicate Stale(m: Msg, now: int, ttl: int) {
    UnixMilli(now) - m.ts > UnixMilli(ttl)
  }

  predicate Kept(roster: Roster, u: string, self: string, now: int, ttl: int)
    requires u in roster
  {
    u == self || !Stale(roster[u], now, ttl)
  }

  function Fresh(roster: Roster, self: string, now: int, ttl: int): Roster {
    map u | u in roster && Kept(roster, u, self, now, ttl) :: roster[u]
  }

  /** One leave for each of the users, in some order. */
  ghost predicate OneLeaveEach(leaves: seq<Msg>, users: set<string>, doc: string, now: int) {
    && |leaves| == |users|
    && forall m :: m in leaves <==> m.user in users && m == Msg(Leave, doc, m.user, 0.0, 0.0, UnixMilli(now))
  }

  lemma OneMoreLeave(leaves: seq<Msg>, users: set<string>, doc: string, now: int, u: string)
    requires OneLeaveEach(leaves, users, doc, now) && u !in users
    ensures OneLeaveEach(leaves + [Msg(Leave, doc, u, 0.0, 0.0, UnixMilli(now))], users + {u}, doc, now)
  {}

  lemma NoLeaves(doc: string, now: int)
    ensures OneLeaveEach([], {}, doc, now)
  {}

  /** Who is there for someone who follows the callbacks. */
  function Followed(told: seq<Msg>): Roster {
    if told == [] then map[] else Applied(Followed(told[..|told| - 1]), told[|told| - 1])
  }

  /** Following the callbacks shows the roster, but for the local entry, which moves without one. */
  ghost predicate Mirrors(told: seq<Msg>, roster: Roster, self: string) {
    Followed(told) - {self} == roster - {self}
  }

  lemma OneMoreFollowed(told: seq<Msg>, m: Msg)
    ensures Followed(told + [m]) == Applied(Followed(told), m)
  {
    assert (told + [m])[..|told|] == told;
  }

  lemma {:induction false} LeavesFollowed(told: seq<Msg>, leaves: seq<Msg>)
    requires forall m :: m in leaves ==> m.kind == Leave
    ensures Followed(told + leaves) == Followed(told) - set m | m in leaves :: m.user
  {
    if leaves == [] {
      assert told + leaves == told;
      assert Followed(told) - {} == Followed(told);
    } else {
      var n := |leaves| - 1;
      LeavesFollowed(told, leaves[..n]);
      OneMoreFollowed(told + leaves[..n], leaves[n]);
      assert told + leaves[..n] + [leaves[n]] == told + leaves;
      assert forall m :: m in leaves <==> m in leaves[..n] || m == leaves[n];
      assert (set m | m in leaves :: m.user) == (set m | m in leaves[..n] :: m.user) + {leaves[n].user};
    }
  }

  lemma AppliedMirrors(a: Roster, b: Roster, self: string, m: Msg)
    requires a - {self} == b - {self}
    ensures Applied(a, m) - {self} == Applied(b, m) - {self}
  {
    assert a - {self} - {m.user} == (a - {m.user}) - {self} && b - {self} - {m.user} == (b - {m.user}) - {self};
    assert m.user != self ==> (a - {self})[m.user := m] == a[m.user := m] - {self} && (b - {self})[m.user := m] == b[m.user := m] - {self};
    assert m.user == self ==> a[m.user := m] - {self} == a - {self} && b[m.user := m] - {self} == b - {self};
  }

  lemma HearingMirrors(told: seq<Msg>, was: Roster, self: string, m: Msg)
    ensures Mirrors(told, was, self) ==> Mirrors(told + [m], Applied(was, m), self)
  {
    OneMoreFollowed(told, m);
    hide Applied, Followed;
    if Mirrors(told, was, self) { AppliedMirrors(Followed(told), was, self, m); }
  }

  lemma LeaversAre(leaves: seq<Msg>, users: set<string>, doc: string, at: int)
    requires OneLeaveEach(leaves, users, doc, at)
    ensures (forall m :: m in leaves ==> m.kind == Leave) && (set m | m in leaves :: m.user) == users
  {
    forall u | u in users ensures u in (set m | m in leaves :: m.user) {
      assert Msg(Leave, doc, u, 0.0, 0.0, UnixMilli(at)) in leaves;
    }
  }

  lemma ExpiryMirrors(told: seq<Msg>, was: Roster, now: Roster, gone: set<string>, self: string, leaves: seq<Msg>, doc: string, at: int)
    requires Mirrors(told, was, self) && now == was - gone && OneLeaveEach(leaves, gone, doc, at)
    ensures Mirrors(told + leaves, now, self)
  {
    LeaversAre(leaves, gone, doc, at);
    LeavesFollowed(told, leaves);
    hide Followed, OneLeaveEach;
    WithoutBoth(Followed(told), was, gone, self);
  }

  lemma WithoutBoth(a: Roster, b: Roster, gone: set<string>, self: string)
    requires a - {self} == b - {self}
    ensures a - gone - {self} == b - gone - {self}
  {
    assert a - gone - {self} == (a - {self}) - gone;
    assert b - gone - {self} == (b - {self}) - gone;
  }

  class Presence {
    const doc: string
    const user: string
    const hb: int
    const ttl: int
    const heartbeat: Msg
    var roster: Roster
    var sent: seq<Msg>
    var told: seq<Msg>

    /** Three seconds and eight seconds unless given; the first join is made, and stamped, here. */
    constructor (doc: string, user: string, hb: int, ttl: int, now: int)
      ensures this.doc == doc && this.user == user && roster == map[] && sent == [] && told == [] && Mirrors(told, roster, user)
      ensures heartbeat == Msg(Join, doc, user, 0.0, 0.0, now / 1_000_000)
      ensures this.hb == (if hb <= 0 then 3_000_000_000 else hb) && this.ttl == (if ttl <= 0 then 8_000_000_000 else ttl)
    {
      this.doc, this.user, roster, sent, told := doc, user, map[], [], [];
      this.hb := if hb <= 0 then 3000 * MS else hb;
      this.ttl := if ttl <= 0 then 8000 * MS else ttl;
      heartbeat := Msg(Join, doc, user, 0.0, 0.0, UnixMilli(now));
    }

    /** Subscribing publishes the join made with the session, under the timestamp of that moment. */
    method Announce()
      modifies this`sent
      ensures sent == old(sent) + [heartbeat]
    {
      sent := sent + [heartbeat];
    }

    /** Every event heard reaches the callbacks, whatever its kind. */
    method Apply(msg: Msg)
      modifies this`roster, this`told
      ensures roster == Applied(old(roster), msg) && told == old(told) + [msg]
      ensures msg.kind == Leave ==> msg.user !in roster
      ensures msg.kind in {Join, Cursor} ==> msg.user in roster && roster[msg.user] == msg
      ensures msg.kind == Unknown ==> roster == old(roster)
      ensures forall u :: u != msg.user ==> (u in roster <==> u in old(roster)) && (u in roster ==> roster[u] == old(roster)[u])
      ensures old(Mirrors(told, roster, user)) ==> Mirrors(told, roster, user)
    {
      hide Mirrors;
      HearingMirrors(told, roster, user, msg);
      match msg.kind {
        case Leave => roster := roster - {msg.user};
        case Join => roster := roster[msg.user := msg];
        case Cursor => roster := roster[msg.user := msg];
        case Unknown =>
      }
      told := told + [msg];
    }

    /** The local cursor refreshes the local entry and is broadcast. */
    method PublishCursor(x: real, y: real, now: int)
      modifies this`roster, this`sent
      ensures var m := Msg(Cursor, doc, user, x, y, UnixMilli(now));
              roster == old(roster)[user := m] && sent == old(sent) + [m]
      ensures old(Mirrors(told, roster, user)) ==> Mirrors(told, roster, user)
    {
      var msg := Msg(Cursor, doc, user, x, y, UnixMilli(now));
      assert roster[user := msg] - {user} == roster - {user};
      roster := roster[user := msg];
      sent := sent + [msg];
    }

    /** One heartbeat: a join again, without touching the local roster. */
    method Beat(now: int)
      modifies this`sent
      ensures sent == old(sent) + [Msg(Join, doc, user, 0.0, 0.0, UnixMilli(now))]
    {
      sent := sent + [Msg(Join, doc, user, 0.0, 0.0, UnixMilli(now))];
    }

    /** The farewell of a session that ends. */
    method Depart(now: int)
      modifies this`sent
      ensures sent == old(sent) + [Msg(Leave, doc, user, 0.0, 0.0, UnixMilli(now))]
    {
      sent := sent + [Msg(Leave, doc, user, 0.0, 0.0, UnixMilli(now))];
    }

    /** Drops the stale entries, never the local one, and tells one leave for each. */
    method ExpireStale(now: int)
      modifies this`roster, this`told
      ensures roster == Fresh(old(roster), user, now, ttl)
      ensures exists leaves :: told == old(told) + leaves && OneLeaveEach(leaves, old(roster).Keys - roster.Keys, doc, now)
      ensures old(Mirrors(told, roster, user)) ==> Mirrors(told, roster, user)
    {
      hide OneLeaveEach, Mirrors;
      var expired: seq<Msg> := [];
      var left := roster.Keys;
      ghost var was, gone: set<string> := roster, {};
      assert OneLeaveEach(expired, gone, doc, now) by { NoLeaves(doc, now); }
      while left != {}
        invariant left <= was.Keys && gone !! left && gone <= was.Keys
        invariant roster == was - gone && told == old(told)
        invariant forall u :: u in was && u !in left ==> (u in gone <==> !Kept(was, u, user, now, ttl))
        invariant OneLeaveEach(expired, gone, doc, now)
        decreases left
      {
        var u :| u in left;
        left := left - {u};
        if u == user { continue; }
        if UnixMilli(now) - roster[u].ts > UnixMilli(ttl) {
          roster := roster - {u};
          OneMoreLeave(expired, gone, doc, now, u);
          expired := expired + [Msg(Leave, doc, u, 0.0, 0.0, UnixMilli(now))];
          gone := gone + {u};
        }
      }
      assert roster == Fresh(was, user, now, ttl);
      assert was.Keys - roster.Keys == gone;
      if Mirrors(told, was, user) { ExpiryMirrors(told, was, roster, gone, user, expired, doc, now); }
      told := told + expired;
    }

    /** A snapshot of everyone else. */
    method Others() returns (out: set<Msg>)
      ensures forall m :: m in out <==> exists u :: u in roster && u != user && roster[u] == m
    {
      out := set u | u in roster && u != user :: roster[u];
    }
  }

  // ---- one session over time ----

  /** `due` is when the next expiry tick comes: half a lifetime after the one before. */
  datatype Session = Session(self: string, ttl: int, now: int, due: int, roster: Roster)

  datatype Step =
    | Hear(at: int, msg: Msg)
    | MoveCursor(at: int, msg: Msg)
    | Tick(at: int)

  /** Time passes no tick by. */
  predicate Enabled(s: Session, e: Step) {
    && s.now <= e.at <= s.due
    && (e.Tick? ==> e.at == s.due)
    && (e.MoveCursor? ==> e.msg.kind == Cursor && e.msg.user == s.self && e.msg.ts == UnixMilli(e.at))
  }

  function Next(s: Session, e: Step): Session
    requires Enabled(s, e)
  {
    match e
    case Hear(at, m) => s.(now := at, roster := Applied(s.roster, m))
    case MoveCursor(at, m) => s.(now := at, roster := s.roster[s.self := m])
    case Tick(at) => s.(now := at, due := s.due + s.ttl / 2, roster := Fresh(s.roster, s.self, at, s.ttl))
  }

  predicate Begin(s: Session) {
    s.ttl >= 2 && s.roster == map[] && s.due == s.now + s.ttl / 2
  }

  ghost predicate IsRun(states: seq<Session>, steps: seq<Step>) {
    && |states| == |steps| + 1 && Begin(states[0])
    && forall k :: 0 <= k < |steps| ==> Enabled(states[k], steps[k]) && states[k + 1] == Next(states[k], steps[k])
  }

  /** The local entry, once there, goes only if someone announces a leave in that name. */
  lemma {:induction false} SelfNeverExpires(states: seq<Session>, steps: seq<Step>, j: nat, k: nat)
    requires IsRun(states, steps) && j <= k <= |steps|
    requires states[j].self in states[j].roster
    requires forall i :: j <= i < k ==> !(steps[i].Hear? && steps[i].msg.kind == Leave && steps[i].msg.user == states[j].self)
    ensures states[k].self == states[j].self && states[k].self in states[k].roster
  {
    if j < k {
      SelfNeverExpires(states, steps, j, k - 1);
      assert Enabled(states[k - 1], steps[k - 1]) && states[k] == Next(states[k - 1], steps[k - 1]);
    }
  }

  predicate Names(e: Step, peer: string) {
    (e.Hear? || e.MoveCursor?) && e.msg.user == peer
  }

  predicate Enters(e: Step, peer: string) {
    Names(e, peer) && (e.msg.kind == Join || e.msg.kind == Cursor)
  }

  /** A step puts nobody on the roster whom it does not name in a join or a cursor,
      and apart from ticks changes nobody's entry whom it does not name. */
  lemma StepFor(s: Session, e: Step, peer: string)
    requires Enabled(s, e)
    ensures !Enters(e, peer) && peer in Next(s, e).roster ==> peer in s.roster && Next(s, e).roster[peer] == s.roster[peer]
    ensures Enters(e, peer) ==> peer in Next(s, e).roster && Next(s, e).roster[peer] == e.msg
    ensures e.Hear? && e.msg.kind == Leave && e.msg.user == peer ==> peer !in Next(s, e).roster
    ensures !e.Tick? && !Names(e, peer) && peer in s.roster ==> peer in Next(s, e).roster
    ensures e.Hear? && e.msg.kind == Unknown ==> Next(s, e).roster == s.roster
  {}

  lemma StepAt(states: seq<Session>, steps: seq<Step>, k: nat)
    requires IsRun(states, steps) && k < |steps|
    ensures |states| == |steps| + 1 && Enabled(states[k], steps[k]) && states[k + 1] == Next(states[k], steps[k])
  {}

  /** Over all runs: whoever leaves is out at once, and stays out until a join or a cursor in that name. */
  lemma {:induction false} LeaverIsOut(states: seq<Session>, steps: seq<Step>, peer: string, j: nat, k: nat)
    requires IsRun(states, steps) && j < k <= |steps|
    requires steps[j].Hear? && steps[j].msg.kind == Leave && steps[j].msg.user == peer
    requires forall i :: j < i < k ==> !Enters(steps[i], peer)
    ensures |states| == |steps| + 1 && peer !in states[k].roster
  {
    StepAt(states, steps, k - 1);
    hide IsRun, Enabled, Next, Enters;
    StepFor(states[k - 1], steps[k - 1], peer);
    if j < k - 1 { LeaverIsOut(states, steps, peer, j, k - 1); }
  }

  /** And whoever is listed was last put there by a message of that name, kept since as it came. */
  lemma {:induction false} ListedAsHeard(states: seq<Session>, steps: seq<Step>, peer: string, k: nat) returns (j: nat)
    requires IsRun(states, steps) && k <= |steps| && |states| == |steps| + 1 && peer in states[k].roster
    ensures j < k && Enters(steps[j], peer) && states[k].roster[peer] == steps[j].msg
    ensures forall i :: j < i < k ==> !Enters(steps[i], peer) && !(steps[i].Hear? && steps[i].msg.kind == Leave && steps[i].msg.user == peer)
  {
    StartsEmpty(states, steps);
    hide IsRun, Enabled, Next, Enters;
    if k > 0 {
      StepAt(states, steps, k - 1);
      StepFor(states[k - 1], steps[k - 1], peer);
      if Enters(steps[k - 1], peer) { j := k - 1; } else { j := ListedAsHeard(states, steps, peer, k - 1); }
    }
  }

  lemma StartsEmpty(states: seq<Session>, steps: seq<Step>)
    requires IsRun(states, steps)
    ensures states[0].roster == map[]
  {}

  /** The first instant at which an entry last stamped `last` counts as stale. */
  function StaleFrom(last: int, ttl: int): int {
    (last + UnixMilli(ttl) + 1) * MS
  }

  /** Nothing newer than `last` comes from the peer, and nothing so late that it would be stale on arrival. */
  predicate Silent(e: Step, peer: string, last: int, ttl: int) {
    e.Hear? && e.msg.user == peer ==> e.msg.ts <= last && e.at < StaleFrom(last, ttl)
  }

  ghost predicate Gone(s: Session, peer: string, last: int) {
    && s.now <= s.due <= s.now + s.ttl / 2 && s.ttl >= 2
    && (peer in s.roster ==> s.roster[peer].ts <= last)
    && (s.due - s.ttl / 2 >= StaleFrom(last, s.ttl) ==> peer !in s.roster)
  }

  lemma StepGone(s: Session, e: Step, peer: string, last: int)
    requires Enabled(s, e) && Gone(s, peer, last) && Silent(e, peer, last, s.ttl) && peer != s.self
    ensures Gone(Next(s, e), peer, last)
  {
    if e.Tick? && e.at >= StaleFrom(last, s.ttl) && peer in s.roster {
      assert UnixMilli(e.at) >= last + UnixMilli(s.ttl) + 1;
    }
  }

  lemma {:induction false} StaysGone(states: seq<Session>, steps: seq<Step>, peer: string, last: int, k: nat)
    requires IsRun(states, steps) && k <= |steps| && peer != states[0].self
    requires forall i :: 0 <= i < k ==> Silent(steps[i], peer, last, states[0].ttl)
    ensures Gone(states[k], peer, last) && states[k].self == states[0].self && states[k].ttl == states[0].ttl
  {
    if k > 0 {
      hide Gone, Silent;
      StaysGone(states, steps, peer, last, k - 1);
      StepGone(states[k - 1], steps[k - 1], peer, last);
    }
  }

  /** A silent peer is out of the roster one lifetime, half a lifetime and the
      clock's millisecond after its last timestamp, and stays out. */
  lemma SilentPeerIsOut(states: seq<Session>, steps: seq<Step>, peer: string, last: int, k: nat)
    requires IsRun(states, steps) && k <= |steps| && peer != states[0].self
    requires forall i :: 0 <= i < k ==> Silent(steps[i], peer, last, states[0].ttl)
    requires states[k].now >= StaleFrom(last, states[0].ttl) + states[0].ttl / 2
    ensures peer !in states[k].roster
  {
    StaysGone(states, steps, peer, last, k);
  }

  /** The message puts `peer` on the roster and nothing after it is in that name. */
  ghost predicate LastHeard(steps: seq<Step>, j: nat, k: nat, peer: string) {
    && j < k <= |steps| && steps[j].Hear? && steps[j].msg.user == peer && steps[j].msg.kind in {Join, Cursor}
    && forall i :: j < i < k ==> !(steps[i].Hear? && steps[i].msg.user == peer)
  }

  lemma {:induction false} SilentStep(states: seq<Session>, steps: seq<Step>, peer: string, j: nat, k: nat)
    requires IsRun(states, steps) && LastHeard(steps, j, k, peer) && peer != states[0].self
    ensures var s, m, first := states[k], steps[j].msg, states[j + 1];
            && s.self == states[0].self && s.ttl == states[0].ttl >= 2 && s.now <= s.due && first.due <= s.due
            && (peer in s.roster ==> s.roster[peer] == m)
            && (peer in s.roster <==> s.due == first.due || s.due - s.ttl / 2 < StaleFrom(m.ts, s.ttl))
  {
    SameSession(states, steps, k);
    if k == j + 1 {
      SameSession(states, steps, j);
      assert Enabled(states[j], steps[j]) && states[k] == Next(states[j], steps[j]);
    } else {
      SilentStep(states, steps, peer, j, k - 1);
      var was, e := states[k - 1], steps[k - 1];
      assert Enabled(was, e) && states[k] == Next(was, e);
      if e.Tick? {
        assert Stale(steps[j].msg, e.at, was.ttl) <==> e.at >= StaleFrom(steps[j].msg.ts, was.ttl);
      }
    }
  }

  lemma {:induction false} SameSession(states: seq<Session>, steps: seq<Step>, k: nat)
    requires IsRun(states, steps) && k <= |steps|
    ensures states[k].self == states[0].self && states[k].ttl == states[0].ttl >= 2 && states[k].now <= states[k].due
  {
    if k > 0 {
      SameSession(states, steps, k - 1);
      assert Enabled(states[k - 1], steps[k - 1]) && states[k] == Next(states[k - 1], steps[k - 1]);
    }
  }

  /** Over all runs, exactly: a peer that fell silent is listed if and only if no
      tick came since it was heard, or the last one came before its entry went stale. */
  lemma SilentPeerListedIff(states: seq<Session>, steps: seq<Step>, peer: string, j: nat, k: nat)
    requires IsRun(states, steps) && LastHeard(steps, j, k, peer) && peer != states[0].self
    ensures var s := states[k];
            peer in s.roster <==> s.due == states[j + 1].due || s.due - s.ttl / 2 < StaleFrom(steps[j].msg.ts, s.ttl)
  {
    SilentStep(states, steps, peer, j, k);
  }

  lemma {:induction false} DueIsNear(states: seq<Session>, steps: seq<Step>, k: nat)
    requires IsRun(states, steps) && k <= |steps|
    ensures states[k].due <= states[k].now + states[k].ttl / 2
  {
    if k > 0 {
      DueIsNear(states, steps, k - 1);
      assert Enabled(states[k - 1], steps[k - 1]) && states[k] == Next(states[k - 1], steps[k - 1]);
    }
  }

  /** At the instant one lifetime and a half after its last timestamp, a peer heard
      within its lifetime is out, unless the last tick fell into the gap between the
      end of the lifetime and the moment the millisecond clock calls it over. */
  lemma OutByLifetimeAndAHalfIff(states: seq<Session>, steps: seq<Step>, peer: string, j: nat, k: nat)
    requires IsRun(states, steps) && LastHeard(steps, j, k, peer) && peer != states[0].self
    requires steps[j].at <= steps[j].msg.ts * MS + states[0].ttl
    requires var s, bound := states[k], steps[j].msg.ts * MS + states[0].ttl + states[0].ttl / 2; s.due - s.ttl / 2 <= bound < s.due
    ensures var s, end := states[k], steps[j].msg.ts * MS + states[0].ttl;
            peer !in s.roster <==> !(end < s.due - s.ttl / 2 < StaleFrom(steps[j].msg.ts, s.ttl))
  {
    SilentStep(states, steps, peer, j, k);
    SameSession(states, steps, j + 1);
    DueIsNear(states, steps, j + 1);
    assert Enabled(states[j], steps[j]) && states[j + 1] == Next(states[j], steps[j]);
  }

  /** And the bound of `SilentPeerIsOut` cannot be lowered: at every instant before it
      some run, for every lifetime and timestamp, still lists a peer that fell silent. */
  lemma SilentPeerOverstays(self: string, peer: string, ttl: int, last: int, at: int)
    returns (states: seq<Session>, steps: seq<Step>, j: nat)
    requires self != peer && ttl >= 2 && last * MS <= at < StaleFrom(last, ttl) + ttl / 2
    ensures IsRun(states, steps) && states[0].ttl == ttl && LastHeard(steps, j, |steps|, peer)
    ensures steps[j].msg.ts == last && last * MS <= steps[j].at < StaleFrom(last, ttl)
    ensures states[|steps|].now == at && peer in states[|steps|].roster
  {
    var half, tick, m := ttl / 2, StaleFrom(last, ttl) - 1, Msg(Join, "", peer, 0.0, 0.0, last);
    if at < tick {
      var s0 := Session(self, ttl, at, at + half, map[]);
      states, steps, j := [s0, Next(s0, Hear(at, m))], [Hear(at, m)], 0;
    } else {
      var s0 := Session(self, ttl, tick - half, tick, map[]);
      var e0 := Hear(tick - half, m);
      var s1 := Next(s0, e0);
      var s2 := Next(s1, Tick(tick));
      var e2 := MoveCursor(at, Msg(Cursor, "", self, 0.0, 0.0, UnixMilli(at)));
      states, steps, j := [s0, s1, s2, Next(s2, e2)], [e0, Tick(tick), e2], 0;
    }
  }

  // ---- a peer that keeps announcing itself ----

  /** An announcement sent at one instant and stamped with another. */
  datatype Sent = Sent(at: int, stamp: int)

  /** `inFlight` holds the announcements not yet delivered, oldest first. The first
      join is stamped when the session was built, `gap` before it was sent. */
  datatype Link = Link(session: Session, peer: string, gap: int, hb: int, delay: int, lastSend: int, inFlight: seq<Sent>)

  datatype Move =
    | Own(step: Step)
    | Announce(at: int)
    | Deliver(at: int, kind: Kind, x: real, y: real)

  function Time(m: Move): int {
    if m.Own? then m.step.at else m.at
  }

  function Announcement(l: Link, m: Move): Step
    requires m.Deliver? && l.inFlight != []
  {
    Hear(m.at, Msg(m.kind, "", l.peer, m.x, m.y, UnixMilli(l.inFlight[0].stamp)))
  }

  /** The peer is never late by more than `hb`, the network by more than `delay`; delivery keeps the order. */
  predicate Allowed(l: Link, m: Move) {
    && l.session.now <= Time(m) <= l.lastSend + l.hb
    && (l.inFlight != [] ==> Time(m) <= l.inFlight[0].at + l.delay)
    && match m
       case Own(e) => Enabled(l.session, e) && (e.Hear? ==> e.msg.user != l.peer)
       case Announce(at) => at <= l.session.due
       case Deliver(at, kind, _, _) =>
         l.inFlight != [] && kind in {Join, Cursor} && Enabled(l.session, Announcement(l, m))
  }

  function Moved(l: Link, m: Move): Link
    requires Allowed(l, m)
  {
    match m
    case Own(e) => l.(session := Next(l.session, e))
    case Announce(at) => l.(session := l.session.(now := at), lastSend := at, inFlight := l.inFlight + [Sent(at, at)])
    case Deliver(_, _, _, _) => l.(session := Next(l.session, Announcement(l, m)), inFlight := l.inFlight[1..])
  }

  /** The peer has just sent its first join, at any moment of the session. */
  predicate Connected(l: Link) {
    && l.session.ttl >= 2 && l.session.now <= l.session.due <= l.session.now + l.session.ttl / 2
    && l.peer != l.session.self && l.hb > 0 && l.delay >= 0 && l.gap >= 0
    && l.lastSend == l.session.now && l.inFlight == [Sent(l.lastSend, l.lastSend - l.gap)]
  }

  ghost predicate IsLinkRun(states: seq<Link>, moves: seq<Move>) {
    && |states| == |moves| + 1 && Connected(states[0])
    && forall k :: 0 <= k < |moves| ==> Allowed(states[k], moves[k]) && states[k + 1] == Moved(states[k], moves[k])
  }

  /** Consecutive sends lie within `hb`, and none is stamped more than `slack` early. */
  ghost predicate Spaced(sends: seq<Sent>, hb: int, last: int, slack: int) {
    && (forall i :: 0 <= i < |sends| - 1 ==> sends[i + 1].at <= sends[i].at + hb)
    && (sends != [] ==> sends[|sends| - 1].at == last)
    && (forall i :: 0 <= i < |sends| ==> sends[i].at - slack <= sends[i].stamp)
  }

  /** The roster holds the announcement right before the oldest one still in flight. */
  ghost predicate Heard(l: Link, before: Sent, slack: int) {
    && l.peer in l.session.roster && l.session.roster[l.peer].ts == UnixMilli(before.stamp)
    && before.at - slack <= before.stamp
    && (if l.inFlight == [] then before.at == l.lastSend else l.inFlight[0].at <= before.at + l.hb)
  }

  ghost predicate Lively(l: Link, slack: int, heard: bool) {
    && l.peer != l.session.self && l.delay >= 0 && l.hb > 0 && slack >= 0
    && slack + l.hb + l.delay <= UnixMilli(l.session.ttl) * MS
    && Spaced(l.inFlight, l.hb, l.lastSend, slack)
    && (heard ==> exists before :: Heard(l, before, slack))
  }

  lemma MoveLively(l: Link, m: Move, slack: int, heard: bool)
    requires Lively(l, slack, heard) && Allowed(l, m)
    ensures Lively(Moved(l, m), slack, heard || m.Deliver?)
  {
    var l' := Moved(l, m);
    if m.Deliver? {
      assert Heard(l', l.inFlight[0], slack);
    } else if heard {
      var before :| Heard(l, before, slack);
      if m.Own? && m.step.Tick? {
        assert m.step.at <= before.stamp + slack + l.hb + l.delay;
        assert !Stale(l.session.roster[l.peer], m.step.at, l.session.ttl);
      }
      assert Heard(l', before, slack);
    }
  }

  lemma {:induction false} RunLively(states: seq<Link>, moves: seq<Move>, slack: int, i: nat, k: nat)
    requires IsLinkRun(states, moves) && i <= k <= |moves| && Lively(states[i], slack, false)
    ensures Lively(states[k], slack, exists j :: i <= j < k && moves[j].Deliver?)
  {
    if k > i {
      RunLively(states, moves, slack, i, k - 1);
      hide Lively, Moved, Allowed, Connected;
      MoveLively(states[k - 1], moves[k - 1], slack, exists j :: i <= j < k - 1 && moves[j].Deliver?);
    }
  }

  /** A peer that announces itself every `hb`, over a network that takes at most
      `delay`, is never dropped after its first join arrived, if the time that join
      spent unsent fits the lifetime's whole milliseconds as well. */
  lemma LivePeerStays(states: seq<Link>, moves: seq<Move>, j: nat, k: nat)
    requires IsLinkRun(states, moves) && j < k <= |moves| && moves[j].Deliver?
    requires states[0].gap + states[0].hb + states[0].delay <= UnixMilli(states[0].session.ttl) * MS
    ensures states[k].peer in states[k].session.roster
  {
    RunLively(states, moves, states[0].gap, 0, k);
  }

  /** Only the first join is stamped early, and it is the first to arrive. */
  ghost predicate Honest(l: Link, first: Link, heard: bool) {
    && l.hb == first.hb && l.delay == first.delay && l.peer == first.peer
    && l.session.ttl == first.session.ttl && l.session.self == first.session.self
    && (l.inFlight == [] ==> heard)
    && (forall i :: (if heard then 0 else 1) <= i < |l.inFlight| ==> l.inFlight[i].stamp == l.inFlight[i].at)
    && (forall i :: 0 <= i < |l.inFlight| - 1 ==> l.inFlight[i + 1].at <= l.inFlight[i].at + l.hb)
    && (l.inFlight != [] ==> l.inFlight[|l.inFlight| - 1].at == l.lastSend)
  }

  lemma {:induction false} RunHonest(states: seq<Link>, moves: seq<Move>, k: nat)
    requires IsLinkRun(states, moves) && k <= |moves|
    ensures Honest(states[k], states[0], exists j :: 0 <= j < k && moves[j].Deliver?)
  {
    if k > 0 {
      RunHonest(states, moves, k - 1);
      hide Honest, Moved, Allowed, Connected;
      MoveHonest(states[k - 1], moves[k - 1], states[0], exists j :: 0 <= j < k - 1 && moves[j].Deliver?);
    }
  }

  lemma MoveHonest(l: Link, m: Move, first: Link, heard: bool)
    requires Honest(l, first, heard) && Allowed(l, m)
    ensures Honest(Moved(l, m), first, heard || m.Deliver?)
  {
    hide Applied, Fresh;
  }

  /** From the second arrival on, interval and delay alone decide. */
  lemma LivePeerStaysOnceRepeated(states: seq<Link>, moves: seq<Move>, i: nat, j: nat, k: nat)
    requires IsLinkRun(states, moves) && i < j < k <= |moves| && moves[i].Deliver? && moves[j].Deliver?
    requires states[0].hb + states[0].delay <= UnixMilli(states[0].session.ttl) * MS
    ensures states[k].peer in states[k].session.roster
  {
    RunHonest(states, moves, i + 1);
    RunLively(states, moves, 0, i + 1, k);
  }

  lemma AndThen(states: seq<Link>, moves: seq<Move>, m: Move) returns (states': seq<Link>, moves': seq<Move>, l: Link)
    requires IsLinkRun(states, moves) && Allowed(states[|moves|], m)
    ensures IsLinkRun(states', moves') && l == states'[|moves'|] == Moved(states[|moves|], m)
    ensures moves' == moves + [m] && states'[0] == states[0]
  {
    hide Allowed, Moved, Connected;
    l := Moved(states[|moves|], m);
    states', moves' := states + [l], moves + [m];
  }

  /** Nothing sent after the join of `sent` has arrived, and none of it is overdue before `limit`. */
  ghost predicate Withheld(l: Link, sent: int, limit: int) {
    && l.hb > 0 && l.delay >= 0 && l.session.ttl >= 2 && limit <= sent + l.hb + l.delay
    && l.session.now <= l.session.due && l.session.now <= l.lastSend + l.hb
    && (if l.inFlight == [] then l.lastSend == sent else l.inFlight[0].at == sent + l.hb)
    && (l.peer in l.session.roster ==> l.session.roster[l.peer].ts == UnixMilli(sent - l.gap))
  }

  /** The peer keeps announcing until the next tick, and nothing arrives. */
  lemma {:induction false} AnnounceUntilDue(states: seq<Link>, moves: seq<Move>, sent: int, limit: int)
    returns (states': seq<Link>, moves': seq<Move>, l: Link)
    requires IsLinkRun(states, moves) && Withheld(states[|moves|], sent, limit) && states[|moves|].session.due <= limit
    ensures IsLinkRun(states', moves') && l == states'[|moves'|] && Withheld(l, sent, limit)
    ensures l.session.due == states[|moves|].session.due <= l.lastSend + l.hb
    ensures l == states[|moves|].(session := states[|moves|].session.(now := l.session.now), lastSend := l.lastSend, inFlight := l.inFlight)
    ensures moves <= moves' && states'[0] == states[0]
    decreases states[|moves|].session.due - states[|moves|].lastSend
  {
    states', moves', l := states, moves, states[|moves|];
    if l.lastSend + l.hb < l.session.due {
      var s1, m1, l1 := AndThen(states, moves, Announce(l.lastSend + l.hb));
      states', moves', l := AnnounceUntilDue(s1, m1, sent, limit);
    }
  }

  lemma TickWithheld(states: seq<Link>, moves: seq<Move>, sent: int, limit: int)
    returns (states': seq<Link>, moves': seq<Move>, l: Link)
    requires IsLinkRun(states, moves) && Withheld(states[|moves|], sent, limit) && states[|moves|].session.due <= limit
    ensures IsLinkRun(states', moves') && l == states'[|moves'|] && Withheld(l, sent, limit)
    ensures l.session.now == states[|moves|].session.due && l.session.due == l.session.now + l.session.ttl / 2
    ensures l.peer == states[|moves|].peer && l.session.ttl == states[|moves|].session.ttl
    ensures l.session.self == states[|moves|].session.self && l.gap == states[|moves|].gap
    ensures l.session.roster == Fresh(states[|moves|].session.roster, states[|moves|].session.self, l.session.now, l.session.ttl)
    ensures moves <= moves' && states'[0] == states[0]
  {
    var s1, m1, l1 := AnnounceUntilDue(states, moves, sent, limit);
    states', moves', l := AndThen(s1, m1, Own(Tick(l1.session.due)));
  }

  lemma HeardAtOnce(first: Link) returns (states: seq<Link>, moves: seq<Move>, l: Link)
    requires Connected(first)
    ensures IsLinkRun(states, moves) && states[0] == first && l == states[|moves|]
    ensures |moves| == 1 && moves[0].Deliver?
    ensures l.inFlight == [] && l.(session := first.session, inFlight := first.inFlight) == first
    ensures l.session.(roster := first.session.roster) == first.session
    ensures l.peer in l.session.roster && l.session.roster[l.peer].ts == UnixMilli(first.lastSend - first.gap)
  {
    states, moves, l := AndThen([first], [], Deliver(first.session.now, Join, 0.0, 0.0));
  }

  /** The condition is exact: with a longer gap, interval or delay than the
      lifetime's whole milliseconds, some run drops a peer that never stopped announcing. */
  lemma SlowPeerCanBeDropped(self: string, peer: string, ttl: int, gap: int, hb: int, delay: int)
    returns (states: seq<Link>, moves: seq<Move>)
    requires self != peer && ttl >= 2 && gap >= 0 && hb > 0 && delay >= 0 && gap + hb + delay > UnixMilli(ttl) * MS
    ensures IsLinkRun(states, moves)
    ensures var l := states[0]; l.gap == gap && l.hb == hb && l.delay == delay && l.session.ttl == ttl
    ensures moves != [] && moves[0].Deliver? && states[|moves|].peer !in states[|moves|].session.roster
  {
    var built, half := MS - 1, ttl / 2;
    var sent, over := built + gap, built + UnixMilli(ttl) * MS + 1;
    var limit := if over < sent then sent else over;
    var due := if limit - 2 * half >= sent then limit - 2 * half else if limit - half >= sent then limit - half else limit;
    var l := Link(Session(self, ttl, sent, due, map[]), peer, gap, hb, delay, sent, [Sent(sent, built)]);
    states, moves, l := HeardAtOnce(l);
    hide IsLinkRun, Allowed, Moved, Connected;
    while l.session.due < limit
      invariant IsLinkRun(states, moves) && l == states[|moves|] && Withheld(l, sent, limit)
      invariant l.session.due in {limit, limit - half, limit - 2 * half}
      invariant l.peer == peer != l.session.self && l.session.ttl == ttl && l.gap == gap
      invariant moves != [] && moves[0].Deliver?
      invariant var l := states[0]; l.gap == gap && l.hb == hb && l.delay == delay && l.session.ttl == ttl
      decreases limit - l.session.due
    {
      states, moves, l := TickWithheld(states, moves, sent, limit);
    }
    states, moves, l := TickWithheld(states, moves, sent, limit);
    assert UnixMilli(over) == UnixMilli(ttl) + 1 && UnixMilli(built) == 0;
  }
}
