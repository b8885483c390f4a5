/**
 Whiteboard peer tracking. A stream handler registers with the hub, joins the
 document's peer set, and on the way out unregisters if current, asks whether the
 client is registered again, and only if not deletes it from the set. Any number
 of handlers do so at once.
 */
module Peers {
  import opened HubSpec
  import SseHub

  type PeerSets = map<string, set<string>>

  function PeersOf(peers: PeerSets, doc: string): set<string> {
    if doc in peers then peers[doc] else {}
  }

  function Join(peers: PeerSets, doc: string, client: string): PeerSets {
    peers[doc := PeersOf(peers, doc) + {client}]
  }

  function Leave(peers: PeerSets, doc: string, client: string): PeerSets {
    if doc !in peers then peers
    else if peers[doc] - {client} == {} then peers - {doc}
    else peers[doc := peers[doc] - {client}]
  }

  /** The handler's own part: the peer sets, each method one section under its lock. */
  class Handler {
    const hub: SseHub.SSEHub
    var peers: PeerSets

    constructor (hub: SseHub.SSEHub)
      ensures peers == map[] && this.hub == hub
    {
      this.hub, peers := hub, map[];
    }

    /** Adds the client; answers who else was on the document. */
    method PeerJoin(doc: string, client: string) returns (others: set<string>)
      modifies this`peers
      ensures peers == Join(old(peers), doc, client)
      ensures others == PeersOf(old(peers), doc) - {client}
    {
      var members := if doc in peers then peers[doc] else {};
      others := members - {client};
      peers := peers[doc := members + {client}];
    }

    /** Skips a client that is registered again; otherwise removes it, and the set when it empties. */
    method PeerLeave(doc: string, client: string) returns (left: bool)
      modifies this`peers
      ensures left <==> client !in hub.clients
      ensures peers == if left then Leave(old(peers), doc, client) else old(peers)
    {
      if hub.IsRegistered(client) { return false; }
      if doc in peers {
        var members := peers[doc] - {client};
        peers := if members == {} then peers - {doc} else peers[doc := members];
      }
      return true;
    }

    method PeerList(doc: string) returns (ids: set<string>)
      ensures ids == PeersOf(peers, doc)
    {
      ids := if doc in peers then peers[doc] else {};
    }
  }

  // ---- handlers racing ----

  datatype Phase = Registered | Joined | Unregistered | Clearing | Gone

  datatype Stream = Stream(client: string, doc: string, phase: Phase)

  datatype Sys = Sys(hub: Hub, streams: map<nat, Stream>, peers: PeerSets)

  datatype Step =
    | Open(ch: nat, client: string, doc: string)
    | JoinDoc(ch: nat)
    | UnregisterSelf(ch: nat)
    | CheckRegistered(ch: nat)
    | DeletePeer(ch: nat)

  predicate At(s: Sys, ch: nat, p: Phase) {
    ch in s.streams && s.streams[ch].phase == p
  }

  predicate Enabled(s: Sys, e: Step) {
    match e
    case Open(ch, _, _) => ch !in s.streams && ch !in s.hub.chans
    case JoinDoc(ch) => At(s, ch, Registered)
    case UnregisterSelf(ch) => At(s, ch, Joined)
    case CheckRegistered(ch) => At(s, ch, Unregistered)
    case DeletePeer(ch) => At(s, ch, Clearing)
  }

  function Move(s: Sys, ch: nat, p: Phase): Sys
    requires ch in s.streams
  {
    s.(streams := s.streams[ch := s.streams[ch].(phase := p)])
  }

  const QUEUE := 64

  function Apply(s: Sys, e: Step): Sys
    requires Enabled(s, e)
  {
    match e
    case Open(ch, c, doc) =>
      var h := s.hub.(chans := s.hub.chans[ch := Chan(QUEUE, [])]);
      s.(hub := Register(h, c, "", ch), streams := s.streams[ch := Stream(c, doc, Registered)])
    case JoinDoc(ch) => Move(s, ch, Joined).(peers := Join(s.peers, s.streams[ch].doc, s.streams[ch].client))
    case UnregisterSelf(ch) => Move(s, ch, Unregistered).(hub := UnregisterIfCurrent(s.hub, s.streams[ch].client, ch))
    case CheckRegistered(ch) => Move(s, ch, if s.streams[ch].client in s.hub.clients then Gone else Clearing)
    case DeletePeer(ch) => Move(s, ch, Gone).(peers := Leave(s.peers, s.streams[ch].doc, s.streams[ch].client))
  }

  ghost predicate Init(s: Sys) {
    s.hub.clients == map[] && s.streams == map[] && s.peers == map[]
  }

  /** Each client id is used on one document. */
  ghost predicate OneDocPerClient(s: Sys) {
    forall a, b :: a in s.streams && b in s.streams && s.streams[a].client == s.streams[b].client ==>
                     s.streams[a].doc == s.streams[b].doc
  }

  /** A registration belongs to a handler that has not unregistered yet. */
  ghost predicate RegisteredIsLive(s: Sys) {
    forall id :: id in s.hub.clients ==>
                   && s.hub.clients[id] in s.streams && s.streams[s.hub.clients[id]].client == id
                   && (s.streams[s.hub.clients[id]].phase.Registered? || s.streams[s.hub.clients[id]].phase.Joined?)
  }

  predicate Responsible(s: Sys, ch: nat, doc: string, id: string) {
    ch in s.streams && s.streams[ch].client == id && s.streams[ch].doc == doc && !s.streams[ch].phase.Gone?
  }

  /** Every listed peer has a handler on the document still to come to its own check. */
  ghost predicate NoGhost(s: Sys) {
    forall doc, id :: id in PeersOf(s.peers, doc) ==> exists ch :: Responsible(s, ch, doc, id)
  }

  ghost predicate NoEmptySet(s: Sys) {
    forall doc :: doc in s.peers ==> s.peers[doc] != {}
  }

  ghost predicate Inv(s: Sys) {
    RegisteredIsLive(s) && NoGhost(s) && NoEmptySet(s)
  }

  lemma ApplyLive(s: Sys, e: Step)
    requires RegisteredIsLive(s) && Enabled(s, e)
    ensures RegisteredIsLive(Apply(s, e))
  {
    hide Replay;
  }

  lemma ApplyNoGhost(s: Sys, e: Step, doc: string, id: string)
    requires Inv(s) && Enabled(s, e) && OneDocPerClient(Apply(s, e)) && id in PeersOf(Apply(s, e).peers, doc)
    ensures exists ch :: Responsible(Apply(s, e), ch, doc, id)
  {
    hide Replay;
    var s' := Apply(s, e);
    if e.JoinDoc? && id == s.streams[e.ch].client && doc == s.streams[e.ch].doc {
      assert Responsible(s', e.ch, doc, id);
    } else {
      assert id in PeersOf(s.peers, doc);
      var ch :| Responsible(s, ch, doc, id);
      if !Responsible(s', ch, doc, id) {
        var live := s.hub.clients[id];
        assert live in s'.streams && ch in s'.streams && s'.streams[live].client == s'.streams[ch].client;
        assert Responsible(s', live, doc, id);
      }
    }
  }

  lemma ApplyInv(s: Sys, e: Step)
    requires Inv(s) && Enabled(s, e) && OneDocPerClient(Apply(s, e))
    ensures Inv(Apply(s, e))
  {
    ApplyLive(s, e);
    forall doc, id | id in PeersOf(Apply(s, e).peers, doc) ensures exists ch :: Responsible(Apply(s, e), ch, doc, id) {
      ApplyNoGhost(s, e, doc, id);
    }
    hide Replay, RegisteredIsLive;
  }

  ghost predicate IsRun(states: seq<Sys>, steps: seq<Step>) {
    && |states| == |steps| + 1 && Init(states[0])
    && forall k :: 0 <= k < |steps| ==> Enabled(states[k], steps[k]) && states[k + 1] == Apply(states[k], steps[k])
  }

  lemma {:induction false} StreamsStay(states: seq<Sys>, steps: seq<Step>, k: nat)
    requires IsRun(states, steps) && k <= |steps| && OneDocPerClient(states[|steps|])
    ensures OneDocPerClient(states[k])
    decreases |steps| - k
  {
    hide Replay;
    if k < |steps| {
      StreamsStay(states, steps, k + 1);
      var s, e := states[k], steps[k];
      assert Enabled(s, e) && states[k + 1] == Apply(s, e);
      hide Apply, Enabled, IsRun;
      StreamsKept(s, e);
    }
  }

  lemma StreamsKept(s: Sys, e: Step)
    requires Enabled(s, e)
    ensures forall ch :: ch in s.streams ==> ch in Apply(s, e).streams
                                             && Apply(s, e).streams[ch].client == s.streams[ch].client
                                             && Apply(s, e).streams[ch].doc == s.streams[ch].doc
  {
    hide Replay;
  }

  lemma {:induction false} RunInv(states: seq<Sys>, steps: seq<Step>, k: nat)
    requires IsRun(states, steps) && k <= |steps| && OneDocPerClient(states[|steps|])
    ensures Inv(states[k])
  {
    if k > 0 {
      hide Inv, Init, Apply, Enabled, OneDocPerClient;
      RunInv(states, steps, k - 1);
      StreamsStay(states, steps, k);
      ApplyInv(states[k - 1], steps[k - 1]);
    }
  }

  /** In every interleaving of any number of reconnects: a client all of whose
      handlers have finished is listed nowhere, and no empty set is kept. */
  lemma NoGhostPeers(states: seq<Sys>, steps: seq<Step>, id: string)
    requires IsRun(states, steps) && OneDocPerClient(states[|steps|])
    requires forall ch :: ch in states[|steps|].streams && states[|steps|].streams[ch].client == id ==> At(states[|steps|], ch, Gone)
    ensures forall doc :: id !in PeersOf(states[|steps|].peers, doc)
    ensures NoEmptySet(states[|steps|])
  {
    hide Apply, Init, Enabled, OneDocPerClient;
    RunInv(states, steps, |steps|);
  }

  // ---- who is listed ----

  predicate Joins(s: Sys, e: Step, client: string, doc: string) {
    e.JoinDoc? && e.ch in s.streams && s.streams[e.ch].client == client && s.streams[e.ch].doc == doc
  }

  predicate Deletes(s: Sys, e: Step, client: string, doc: string) {
    e.DeletePeer? && e.ch in s.streams && s.streams[e.ch].client == client && s.streams[e.ch].doc == doc
  }

  /** The client joined the document in step i and no handler deleted it before step k. */
  ghost predicate JoinStands(states: seq<Sys>, steps: seq<Step>, i: nat, k: nat, client: string, doc: string)
    requires k <= |steps| < |states|
  {
    i < k && Joins(states[i], steps[i], client, doc) && forall j :: i < j < k ==> !Deletes(states[j], steps[j], client, doc)
  }

  ghost predicate SomeJoinStands(states: seq<Sys>, steps: seq<Step>, k: nat, client: string, doc: string)
    requires k <= |steps| < |states|
  {
    exists i: nat :: JoinStands(states, steps, i, k, client, doc)
  }

  lemma ListedStep(s: Sys, e: Step, client: string, doc: string)
    requires Enabled(s, e)
    ensures client in PeersOf(Apply(s, e).peers, doc) <==>
              Joins(s, e, client, doc) || (client in PeersOf(s.peers, doc) && !Deletes(s, e, client, doc))
  {
    hide Register, UnregisterIfCurrent;
  }

  lemma JoinStandsStep(states: seq<Sys>, steps: seq<Step>, k: nat, client: string, doc: string)
    requires 0 < k <= |steps| < |states|
    ensures var s, e := states[k - 1], steps[k - 1];
            SomeJoinStands(states, steps, k, client, doc)
            <==> Joins(s, e, client, doc) || (!Deletes(s, e, client, doc) && SomeJoinStands(states, steps, k - 1, client, doc))
  {
    var before := k - 1;
    var s, e := states[before], steps[before];
    if Joins(s, e, client, doc) {
      assert JoinStands(states, steps, before, k, client, doc);
    } else if !Deletes(s, e, client, doc) && SomeJoinStands(states, steps, before, client, doc) {
      var i: nat :| JoinStands(states, steps, i, before, client, doc);
      assert JoinStands(states, steps, i, k, client, doc);
    }
    if i: nat :| JoinStands(states, steps, i, k, client, doc) {
      assert i < before ==> JoinStands(states, steps, i, before, client, doc);
    }
  }

  lemma StepAt(states: seq<Sys>, steps: seq<Step>, k: nat)
    requires IsRun(states, steps) && k < |steps|
    ensures |states| == |steps| + 1 && Enabled(states[k], steps[k]) && states[k + 1] == Apply(states[k], steps[k])
  {}

  /** In every interleaving, registered or not: a client is listed on a document if
      and only if it joined it and no handler deleted it from it since. */
  lemma {:induction false} ListedIff(states: seq<Sys>, steps: seq<Step>, k: nat, client: string, doc: string)
    requires IsRun(states, steps) && k <= |steps|
    ensures |states| == |steps| + 1
    ensures client in PeersOf(states[k].peers, doc) <==> SomeJoinStands(states, steps, k, client, doc)
  {
    if k > 0 {
      hide *;
      StepAt(states, steps, k - 1);
      ListedIff(states, steps, k - 1, client, doc);
      ListedStep(states[k - 1], steps[k - 1], client, doc);
      JoinStandsStep(states, steps, k, client, doc);
    }
  }

  // ---- connect and disconnect each in one piece ----

  function Connect(s: Sys, ch: nat, client: string, doc: string): Sys
    requires Enabled(s, Open(ch, client, doc))
  {
    Apply(Apply(s, Open(ch, client, doc)), JoinDoc(ch))
  }

  function Disconnect(s: Sys, ch: nat): Sys
    requires At(s, ch, Joined)
  {
    var checked := Apply(Apply(s, UnregisterSelf(ch)), CheckRegistered(ch));
    if At(checked, ch, Clearing) then Apply(checked, DeletePeer(ch)) else checked
  }

  predicate RegisteredOn(s: Sys, id: string, doc: string) {
    id in s.hub.clients && s.hub.clients[id] in s.streams && s.streams[s.hub.clients[id]].doc == doc
  }

  /** A document's peer set is the set of its registered clients. */
  ghost predicate PeersAreRegistered(s: Sys) {
    forall doc, id :: id in PeersOf(s.peers, doc) <==> RegisteredOn(s, id, doc)
  }

  lemma ConnectKeepsEqual(s: Sys, ch: nat, client: string, doc: string)
    requires PeersAreRegistered(s) && RegisteredIsLive(s) && Enabled(s, Open(ch, client, doc))
    requires OneDocPerClient(Connect(s, ch, client, doc))
    ensures PeersAreRegistered(Connect(s, ch, client, doc)) && RegisteredIsLive(Connect(s, ch, client, doc))
  {
    hide Replay;
    var s' := Connect(s, ch, client, doc);
    ApplyLive(s, Open(ch, client, doc));
    ApplyLive(Apply(s, Open(ch, client, doc)), JoinDoc(ch));
    forall d, id ensures id in PeersOf(s'.peers, d) <==> RegisteredOn(s', id, d) {
      assert id in PeersOf(s.peers, d) <==> RegisteredOn(s, id, d);
      if id == client && RegisteredOn(s, id, d) {
        assert s'.streams[s.hub.clients[id]].client == s'.streams[ch].client;
      }
    }
  }

  lemma DisconnectKeepsEqual(s: Sys, ch: nat)
    requires PeersAreRegistered(s) && RegisteredIsLive(s) && At(s, ch, Joined) && OneDocPerClient(s)
    ensures PeersAreRegistered(Disconnect(s, ch)) && RegisteredIsLive(Disconnect(s, ch))
  {
    var s1 := Apply(s, UnregisterSelf(ch));
    var s2 := Apply(s1, CheckRegistered(ch));
    var s' := Disconnect(s, ch);
    ApplyLive(s, UnregisterSelf(ch));
    ApplyLive(s1, CheckRegistered(ch));
    if At(s2, ch, Clearing) { ApplyLive(s2, DeletePeer(ch)); }
    forall d, id ensures id in PeersOf(s'.peers, d) <==> RegisteredOn(s', id, d) {
      assert id in PeersOf(s.peers, d) <==> RegisteredOn(s, id, d);
    }
  }

  datatype Visit = Come(ch: nat, client: string, doc: string) | Leaves(ch: nat)

  predicate MayVisit(s: Sys, v: Visit) {
    match v
    case Come(ch, c, doc) => Enabled(s, Open(ch, c, doc))
    case Leaves(ch) => At(s, ch, Joined)
  }

  function Visited(s: Sys, v: Visit): Sys
    requires MayVisit(s, v)
  {
    match v
    case Come(ch, c, doc) => Connect(s, ch, c, doc)
    case Leaves(ch) => Disconnect(s, ch)
  }

  ghost predicate IsAtomicRun(states: seq<Sys>, visits: seq<Visit>) {
    && |states| == |visits| + 1 && Init(states[0])
    && forall k :: 0 <= k < |visits| ==> MayVisit(states[k], visits[k]) && states[k + 1] == Visited(states[k], visits[k])
  }

  lemma VisitKeepsStreams(s: Sys, v: Visit)
    requires MayVisit(s, v) && OneDocPerClient(Visited(s, v))
    ensures OneDocPerClient(s)
  {
    hide Register, UnregisterIfCurrent, Join, Leave;
    assert forall ch :: ch in s.streams ==> ch in Visited(s, v).streams
                                            && Visited(s, v).streams[ch].client == s.streams[ch].client
                                            && Visited(s, v).streams[ch].doc == s.streams[ch].doc;
  }

  lemma {:induction false} AtomicRunStreams(states: seq<Sys>, visits: seq<Visit>, k: nat)
    requires IsAtomicRun(states, visits) && k <= |visits| && OneDocPerClient(states[|visits|])
    ensures OneDocPerClient(states[k])
    decreases |visits| - k
  {
    if k < |visits| {
      hide OneDocPerClient, Visited, MayVisit, Init;
      AtomicRunStreams(states, visits, k + 1);
      VisitKeepsStreams(states[k], visits[k]);
    }
  }

  /** With connect and disconnect each in one piece, at every state of every run each
      document's peer set is exactly its registered clients. */
  lemma {:induction false} PeersAreAlwaysRegistered(states: seq<Sys>, visits: seq<Visit>, k: nat)
    requires IsAtomicRun(states, visits) && k <= |visits| && OneDocPerClient(states[|visits|])
    ensures PeersAreRegistered(states[k]) && RegisteredIsLive(states[k])
  {
    if k > 0 {
      hide OneDocPerClient, Connect, Disconnect, Enabled, Init, PeersAreRegistered, RegisteredIsLive;
      PeersAreAlwaysRegistered(states, visits, k - 1);
      AtomicRunStreams(states, visits, k - 1);
      AtomicRunStreams(states, visits, k);
      var s, v := states[k - 1], visits[k - 1];
      assert MayVisit(s, v) && states[k] == Visited(s, v);
      match v {
        case Come(ch, c, doc) => ConnectKeepsEqual(s, ch, c, doc);
        case Leaves(ch) => DisconnectKeepsEqual(s, ch);
      }
    }
  }

  // ---- the limits ----

  /** Some run leads to `s`. */
  ghost predicate Reachable(s: Sys) {
    exists states, steps :: IsRun(states, steps) && states[|steps|] == s
  }

  lemma Then(was: Sys, e: Step) returns (s: Sys)
    requires Reachable(was) && Enabled(was, e)
    ensures Reachable(s) && s == Apply(was, e)
  {
    hide Apply, Enabled;
    var states, steps :| IsRun(states, steps) && states[|steps|] == was;
    s := Apply(was, e);
    assert IsRun(states + [s], steps + [e]);
  }

  const IDLE := Sys(Hub(map[], map[], map[], map[], [], 64), map[], map[])

  lemma FirstRun()
    ensures Reachable(IDLE)
  {
    assert IsRun([IDLE], []);
  }

  /** The client's second stream, on another document, opens while the first is up. */
  lemma OpenOnTwoDocs(id: string, docA: string, docB: string) returns (s: Sys)
    requires docA != docB
    ensures Reachable(s)
    ensures s.streams == map[0 := Stream(id, docA, Joined), 1 := Stream(id, docB, Joined)]
    ensures id in s.hub.clients && s.hub.clients[id] == 1
    ensures id in PeersOf(s.peers, docA)
  {
    hide Reachable;
    s := IDLE;
    FirstRun();
    s := Then(s, Open(0, id, docA));
    s := Then(s, JoinDoc(0));
    s := Then(s, Open(1, id, docB));
    s := Then(s, JoinDoc(1));
  }

  /** One client id on two documents: the first handler finds the client still
      registered, by the second, and leaves a ghost behind. */
  lemma TwoDocsLeaveAGhost(id: string, docA: string, docB: string) returns (s: Sys)
    requires docA != docB
    ensures Reachable(s)
    ensures forall ch :: ch in s.streams ==> At(s, ch, Gone)
    ensures id in PeersOf(s.peers, docA)
  {
    hide Replay, Reachable;
    s := OpenOnTwoDocs(id, docA, docB);
    s := Then(s, UnregisterSelf(0));
    s := Then(s, CheckRegistered(0));
    s := Then(s, UnregisterSelf(1));
    s := Then(s, CheckRegistered(1));
    s := Then(s, DeletePeer(1));
  }

  /** A reconnect between the check and the delete: a connected client that has
      joined is listed nowhere. */
  lemma LivePeerCanBeDropped(id: string, doc: string) returns (s: Sys)
    ensures Reachable(s) && OneDocPerClient(s)
    ensures At(s, 1, Joined) && id in s.hub.clients
    ensures s.streams[1].client == id && id !in PeersOf(s.peers, doc)
  {
    hide Reachable;
    s := FoundUnregistered(id, doc);
    s := Then(s, Open(1, id, doc));
    s := Then(s, JoinDoc(1));
    s := Then(s, DeletePeer(0));
  }

  /** The client's handler is leaving and has found it unregistered. */
  lemma FoundUnregistered(id: string, doc: string) returns (s: Sys)
    ensures Reachable(s)
    ensures s.streams == map[0 := Stream(id, doc, Clearing)] && s.hub.clients == map[] && s.hub.chans.Keys == {0}
    ensures s.peers == map[doc := {id}]
  {
    hide Reachable;
    s := IDLE;
    FirstRun();
    s := Then(s, Open(0, id, doc));
    s := Then(s, JoinDoc(0));
    assert {} + {id} == {id} && s.peers == map[doc := {id}];
    s := Then(s, UnregisterSelf(0));
    s := Then(s, CheckRegistered(0));
  }
}
