/**
 Several instances of the todo store replicating one owner's document over a bus
 that loses, repeats and reorders messages and drops ids within its duplicate
 window. A message carries the whole document; an instance may restart.
 */
module Convergence {
  import opened Wrappers
  import opened Loro
  import opened TodoItems

  datatype Msg = Msg(from: nat, epoch: nat, ops: set<Op>)

  /** `epoch` counts restarts. `pub` is what the last local write shipped, if the
      bus took it; `unsent` are the local operations no message carries. `got` and
      `late` are the messages imported since the restart, and since that write. */
  datatype Node = Node(peer: nat, epoch: nat, doc: set<Op>, unsent: set<Op>, pub: Option<set<Op>>, got: set<nat>, late: set<nat>)

  datatype Net = Net(nodes: map<nat, Node>, sent: seq<Msg>, window: set<string>, nextPeer: nat, all: set<Op>)

  datatype Event =
    | Write(i: nat, ops: set<Op>, opId: string, up: bool)
    | Deliver(i: nat, m: nat)
    | Expire(ids: set<string>)
    | Restart(i: nat, ops: set<Op>)

  /** Operations a node may write: its own peer id, Lamport times past all it has seen, distinct tags. */
  ghost predicate OwnOps(ops: set<Op>, peer: nat, doc: set<Op>) {
    && (forall o :: o in ops ==> o.tag.peer == peer)
    && (forall o, p :: o in ops && p in doc ==> p.tag.lamport < o.tag.lamport)
    && Consistent(ops)
  }

  /** A node's loop filter goes by the id its process was given at the last
      restart: messages it sent before that come back to it like any other's. */
  ghost predicate Enabled(s: Net, e: Event) {
    match e
    case Write(i, ops, _, _) => i in s.nodes && ops != {} && OwnOps(ops, s.nodes[i].peer, s.nodes[i].doc)
    case Deliver(i, m) => i in s.nodes && m < |s.sent| && (s.sent[m].from != i || s.sent[m].epoch < s.nodes[i].epoch)
    case Expire(_) => true
    case Restart(i, ops) => i in s.nodes && OwnOps(ops, s.nextPeer, {})
  }

  function Apply(s: Net, e: Event): Net
    requires Enabled(s, e)
  {
    match e
    case Write(i, ops, opId, up) =>
      var n := s.nodes[i];
      var doc := n.doc + ops;
      var accepted := up && opId !in s.window;
      var n' := n.(doc := doc,
                   unsent := if accepted then {} else n.unsent + ops,
                   pub := if accepted then Some(doc) else None,
                   late := {});
      s.(nodes := s.nodes[i := n'],
         sent := if accepted then s.sent + [Msg(i, n.epoch, doc)] else s.sent,
         window := if up then s.window + {opId} else s.window,
         all := s.all + ops)
    case Deliver(i, m) =>
      var n := s.nodes[i];
      s.(nodes := s.nodes[i := n.(doc := n.doc + s.sent[m].ops, got := n.got + {m}, late := n.late + {m})])
    case Expire(ids) => s.(window := s.window - ids)
    case Restart(i, ops) =>
      var n' := Node(s.nextPeer, s.nodes[i].epoch + 1, ops, ops, if ops == {} then Some({}) else None, {}, {});
      s.(nodes := s.nodes[i := n'], nextPeer := s.nextPeer + 1, all := s.all + ops)
  }

  ghost predicate Init(s: Net) {
    && s.sent == [] && s.window == {} && s.all == {}
    && (forall i :: i in s.nodes ==> s.nodes[i].peer < s.nextPeer
                                     && s.nodes[i] == Node(s.nodes[i].peer, 0, {}, {}, Some({}), {}, {}))
    && (forall i, j :: i in s.nodes && j in s.nodes && s.nodes[i].peer == s.nodes[j].peer ==> i == j)
  }

  // ---- what every step keeps ----

  /** Tags stay unique, and a node holds every operation of its current peer id. */
  ghost predicate Tagged(s: Net) {
    && Consistent(s.all)
    && (forall o :: o in s.all ==> o.tag.peer < s.nextPeer)
    && (forall i :: i in s.nodes ==> s.nodes[i].peer < s.nextPeer && s.nodes[i].unsent <= s.nodes[i].doc <= s.all)
    && (forall i, j :: i in s.nodes && j in s.nodes && s.nodes[i].peer == s.nodes[j].peer ==> i == j)
    && (forall i, o :: i in s.nodes && o in s.all && o.tag.peer == s.nodes[i].peer ==> o in s.nodes[i].doc)
    && (forall m :: 0 <= m < |s.sent| ==> s.sent[m].ops <= s.all)
  }

  ghost predicate InLate(s: Net, i: nat, o: Op)
    requires i in s.nodes
  {
    exists m :: m in s.nodes[i].late && m < |s.sent| && o in s.sent[m].ops
  }

  /** Past its last update, a document grew only by imports. */
  ghost predicate Accounted(s: Net, i: nat)
    requires i in s.nodes && s.nodes[i].pub.Some?
  {
    forall o :: o in s.nodes[i].doc ==> o in s.nodes[i].pub.value || InLate(s, i, o)
  }

  ghost predicate NodeInv(s: Net, i: nat)
    requires i in s.nodes
  {
    var n := s.nodes[i];
    && (forall m :: m in n.got ==> m < |s.sent| && s.sent[m].ops <= n.doc)
    && n.late <= n.got
    && (n.pub.Some? ==> n.pub.value <= n.doc && Accounted(s, i))
    && (n.pub.Some? <==> n.unsent == {})
    && SentByNode(s, i)
  }

  /** What a node sent since its restart is in its document, and in its last update. */
  ghost predicate SentByNode(s: Net, i: nat)
    requires i in s.nodes
  {
    var n := s.nodes[i];
    && (forall m :: 0 <= m < |s.sent| && s.sent[m].from == i ==> s.sent[m].epoch <= n.epoch)
    && (forall m :: 0 <= m < |s.sent| && s.sent[m].from == i && s.sent[m].epoch == n.epoch ==>
                      s.sent[m].ops <= n.doc && (n.pub.Some? ==> s.sent[m].ops <= n.pub.value))
  }

  /** No message and no other node has an unsent operation. */
  ghost predicate Hidden(s: Net) {
    && (forall i, m, o :: i in s.nodes && 0 <= m < |s.sent| && o in s.nodes[i].unsent ==> o !in s.sent[m].ops)
    && (forall i, j, o :: i in s.nodes && j in s.nodes && i != j && o in s.nodes[i].unsent ==> o !in s.nodes[j].doc)
  }

  ghost predicate Inv(s: Net) {
    && Tagged(s) && Hidden(s)
    && (forall i :: i in s.nodes ==> NodeInv(s, i))
    && (forall m :: 0 <= m < |s.sent| ==> s.sent[m].from in s.nodes)
  }

  lemma InitInv(s: Net)
    requires Init(s)
    ensures Inv(s)
  {
  }

  /** Operations just written carry tags nobody has used. */
  lemma NewTags(s: Net, ops: set<Op>, peer: nat, doc: set<Op>)
    requires Tagged(s) && OwnOps(ops, peer, doc)
    requires forall o :: o in s.all && o.tag.peer == peer ==> o in doc
    ensures forall a, b :: a in ops && b in s.all ==> a.tag != b.tag
    ensures ops !! s.all
  {
    forall a, b | a in ops && b in s.all ensures a.tag != b.tag {
      assert b.tag.peer == peer ==> b in doc;
    }
  }

  lemma WriteTagged(s: Net, e: Event)
    requires Tagged(s) && Enabled(s, e) && e.Write?
    ensures Tagged(Apply(s, e))
  {
    NewTags(s, e.ops, s.nodes[e.i].peer, s.nodes[e.i].doc);
    MoreTags(s.all, e.ops);
    hide OwnOps, Consistent;
  }

  lemma RestartTagged(s: Net, e: Event)
    requires Tagged(s) && Enabled(s, e) && e.Restart?
    ensures Tagged(Apply(s, e))
  {
    NewTags(s, e.ops, s.nextPeer, {});
    MoreTags(s.all, e.ops);
    assert forall o :: o in e.ops ==> o.tag.peer == s.nextPeer;
    hide OwnOps, Consistent;
  }

  lemma DeliverTagged(s: Net, e: Event)
    requires Tagged(s) && Enabled(s, e) && e.Deliver?
    ensures Tagged(Apply(s, e))
  {
    hide OwnOps, Consistent;
  }

  lemma MoreTags(all: set<Op>, ops: set<Op>)
    requires Consistent(all) && Consistent(ops) && forall a, b :: a in ops && b in all ==> a.tag != b.tag
    ensures Consistent(all + ops)
  {}

  lemma ApplyTagged(s: Net, e: Event)
    requires Tagged(s) && Enabled(s, e)
    ensures Tagged(Apply(s, e))
  {
    hide Tagged, OwnOps;
    match e {
      case Write(_, _, _, _) => WriteTagged(s, e);
      case Deliver(_, _) => DeliverTagged(s, e);
      case Expire(_) => ExpireTagged(s, e);
      case Restart(_, _) => RestartTagged(s, e);
    }
  }

  lemma ExpireTagged(s: Net, e: Event)
    requires Tagged(s) && Enabled(s, e) && e.Expire?
    ensures Tagged(Apply(s, e))
  {}

  lemma ApplyHidden(s: Net, e: Event)
    requires Inv(s) && Enabled(s, e)
    ensures Hidden(Apply(s, e))
  {
    hide NodeInv, Consistent;
    var s' := Apply(s, e);
    match e {
      case Write(i, ops, _, _) =>
        NewTags(s, ops, s.nodes[i].peer, s.nodes[i].doc);
        hide OwnOps;
      case Deliver(i, m) =>
      case Expire(_) =>
      case Restart(i, ops) =>
        NewTags(s, ops, s.nextPeer, {});
        hide OwnOps;
    }
  }

  lemma ApplyNodes(s: Net, e: Event, i: nat)
    requires Inv(s) && Enabled(s, e) && i in s.nodes
    ensures NodeInv(Apply(s, e), i)
  {
    hide Tagged, Hidden, OwnOps;
    var s' := Apply(s, e);
    var n, n' := s.nodes[i], s'.nodes[i];
    assert s.sent <= s'.sent;
    assert NodeInv(s, i);
    if n'.pub.Some? { ApplyAccounted(s, e, i); }
    ApplySent(s, e, i);
    hide Accounted, SentByNode;
  }

  lemma ApplySent(s: Net, e: Event, i: nat)
    requires Enabled(s, e) && i in s.nodes && SentByNode(s, i)
    requires s.nodes[i].pub.Some? ==> s.nodes[i].pub.value <= s.nodes[i].doc
    ensures SentByNode(Apply(s, e), i)
  {
    hide OwnOps;
    var s' := Apply(s, e);
    assert forall m :: 0 <= m < |s.sent| ==> s'.sent[m] == s.sent[m];
  }

  lemma ApplyAccounted(s: Net, e: Event, i: nat)
    requires Enabled(s, e) && i in s.nodes && Apply(s, e).nodes[i].pub.Some?
    requires s.nodes[i].pub.Some? ==> Accounted(s, i)
    ensures Accounted(Apply(s, e), i)
  {
    var s' := Apply(s, e);
    var n, n' := s.nodes[i], s'.nodes[i];
    assert s.sent <= s'.sent;
    forall o | o in n'.doc ensures o in n'.pub.value || InLate(s', i, o) {
      if o in n.doc && n.pub.Some? && n'.pub == n.pub && o !in n.pub.value {
        var m :| m in n.late && m < |s.sent| && o in s.sent[m].ops;
        assert m in n'.late && o in s'.sent[m].ops;
      } else if e.Deliver? && e.i == i && o in s.sent[e.m].ops {
        assert e.m in n'.late;
      }
    }
  }

  lemma ApplyInv(s: Net, e: Event)
    requires Inv(s) && Enabled(s, e)
    ensures Inv(Apply(s, e))
  {
    hide Tagged, Hidden, NodeInv;
    ApplyTagged(s, e);
    ApplyHidden(s, e);
    forall i | i in Apply(s, e).nodes ensures NodeInv(Apply(s, e), i) {
      ApplyNodes(s, e, i);
    }
  }

  /** Every last update is a message on the bus. */
  ghost predicate Shipped(s: Net) {
    forall j :: j in s.nodes && s.nodes[j].pub.Some? && s.nodes[j].pub.value != {} ==>
                  exists m :: 0 <= m < |s.sent| && s.sent[m].from == j && s.sent[m].ops == s.nodes[j].pub.value
  }

  lemma ApplyShipped(s: Net, e: Event)
    requires Inv(s) && Shipped(s) && Enabled(s, e)
    ensures Shipped(Apply(s, e))
  {
    hide Inv;
    var s' := Apply(s, e);
    assert s.sent <= s'.sent;
    forall j | j in s'.nodes && s'.nodes[j].pub.Some? && s'.nodes[j].pub.value != {}
      ensures exists m :: 0 <= m < |s'.sent| && s'.sent[m].from == j && s'.sent[m].ops == s'.nodes[j].pub.value
    {
      if e.Write? && e.i == j {
        assert s'.sent[|s.sent|] == Msg(j, s.nodes[j].epoch, s'.nodes[j].doc);
      } else {
        var m :| 0 <= m < |s.sent| && s.sent[m].from == j && s.sent[m].ops == s.nodes[j].pub.value;
        assert s'.sent[m] == s.sent[m];
      }
    }
  }

  /** A run: a first state, and events each enabled where it happens. */
  ghost predicate IsRun(states: seq<Net>, events: seq<Event>) {
    && |states| == |events| + 1 && Init(states[0])
    && forall k :: 0 <= k < |events| ==> Enabled(states[k], events[k]) && states[k + 1] == Apply(states[k], events[k])
  }

  lemma {:induction false} RunInv(states: seq<Net>, events: seq<Event>)
    requires IsRun(states, events)
    ensures Inv(states[|events|]) && Shipped(states[|events|])
  {
    var n := |events|;
    if n == 0 {
      InitInv(states[0]);
    } else {
      hide Inv, Init, Apply, Enabled, Shipped;
      assert IsRun(states[..n], events[..n - 1]);
      RunInv(states[..n], events[..n - 1]);
      ApplyInv(states[n - 1], events[n - 1]);
      ApplyShipped(states[n - 1], events[n - 1]);
    }
  }

  // ---- convergence ----

  /** Every node's last write was shipped, and every other node has imported it
      since that node's last restart. */
  ghost predicate Exchanged(s: Net) {
    && (forall i :: i in s.nodes ==> s.nodes[i].pub.Some?)
    && (forall i, j :: i in s.nodes && j in s.nodes && i != j && s.nodes[j].pub.Some? && s.nodes[j].pub.value != {} ==>
          exists m :: m in s.nodes[i].got && m < |s.sent| && s.sent[m].from == j && s.sent[m].ops == s.nodes[j].pub.value)
  }

  /** An operation some node's last update carries. */
  ghost predicate Current(s: Net, o: Op) {
    exists j :: j in s.nodes && s.nodes[j].pub.Some? && o in s.nodes[j].pub.value
  }

  ghost predicate Stale(s: Net, m: nat)
    requires m < |s.sent|
  {
    s.sent[m].from in s.nodes && s.sent[m].epoch < s.nodes[s.sent[m].from].epoch
  }

  /** What a message from before its sender's restart brought to a node that had
      already shipped its last update is also in some last update. */
  ghost predicate StaleNewsIsCurrent(s: Net) {
    forall i, m, o :: i in s.nodes && m in s.nodes[i].late && m < |s.sent| && Stale(s, m) && o in s.sent[m].ops ==> Current(s, o)
  }

  lemma HoldsEveryUpdate(s: Net, i: nat)
    requires Inv(s) && Exchanged(s) && i in s.nodes
    ensures forall o :: Current(s, o) ==> o in s.nodes[i].doc
  {
    forall o | Current(s, o) ensures o in s.nodes[i].doc {
      var j :| j in s.nodes && s.nodes[j].pub.Some? && o in s.nodes[j].pub.value;
      assert NodeInv(s, i);
    }
  }

  /** A message from before its sender's restart brought `o` to node `i` after that node's last update. */
  ghost predicate LateStale(s: Net, i: nat, o: Op)
    requires i in s.nodes
  {
    exists m :: m in s.nodes[i].late && m < |s.sent| && Stale(s, m) && o in s.sent[m].ops
  }

  /** After the exchange a document is the last updates and the stale late news, no more. */
  lemma DocumentIs(s: Net, i: nat, o: Op)
    requires Inv(s) && Exchanged(s) && i in s.nodes
    ensures o in s.nodes[i].doc <==> Current(s, o) || LateStale(s, i, o)
  {
    hide Tagged, Hidden;
    HoldsEveryUpdate(s, i);
    assert NodeInv(s, i);
    if o in s.nodes[i].doc && o !in s.nodes[i].pub.value {
      var m :| m in s.nodes[i].late && m < |s.sent| && o in s.sent[m].ops;
      var j := s.sent[m].from;
      assert NodeInv(s, j);
      if !Stale(s, m) { assert o in s.nodes[j].pub.value; }
    }
  }

  /** Stale news that no last update carries came late to every node or to none. */
  ghost predicate StaleNewsReachedAll(s: Net) {
    forall i, j, o :: i in s.nodes && j in s.nodes && LateStale(s, i, o) && !Current(s, o) ==> LateStale(s, j, o)
  }

  /** Once the last updates are exchanged, whatever was lost, repeated or reordered
      before, all documents are equal if and only if the stale news reached all. */
  lemma EqualIffStaleNewsReachedAll(s: Net)
    requires Inv(s) && Exchanged(s)
    ensures AllEqual(s) <==> StaleNewsReachedAll(s)
  {
    forall i, o | i in s.nodes ensures o in s.nodes[i].doc <==> Current(s, o) || LateStale(s, i, o) {
      DocumentIs(s, i, o);
    }
    hide Inv, Exchanged, Current, LateStale;
    if StaleNewsReachedAll(s) {
      forall i, j | i in s.nodes && j in s.nodes ensures s.nodes[i].doc == s.nodes[j].doc {
        forall o ensures o in s.nodes[i].doc <==> o in s.nodes[j].doc {
          assert o in s.nodes[i].doc <==> Current(s, o) || LateStale(s, i, o);
          assert o in s.nodes[j].doc <==> Current(s, o) || LateStale(s, j, o);
        }
      }
    } else {
      var i, j, o :| i in s.nodes && j in s.nodes && LateStale(s, i, o) && !Current(s, o) && !LateStale(s, j, o);
      assert o in s.nodes[i].doc && o !in s.nodes[j].doc;
    }
  }

  /** And they hold nothing but the last updates if and only if no late message from
      before a restart brought anything else. */
  lemma ConvergesIffStaleNewsIsCurrent(s: Net)
    requires Inv(s) && Exchanged(s)
    ensures (forall i, o :: i in s.nodes ==> (o in s.nodes[i].doc <==> Current(s, o))) <==> StaleNewsIsCurrent(s)
  {
    forall i, o | i in s.nodes ensures o in s.nodes[i].doc <==> Current(s, o) || LateStale(s, i, o) {
      DocumentIs(s, i, o);
    }
    hide Inv, Exchanged, Current, Stale;
    if !StaleNewsIsCurrent(s) {
      var i, m, o :| i in s.nodes && m in s.nodes[i].late && m < |s.sent| && Stale(s, m) && o in s.sent[m].ops && !Current(s, o);
      assert LateStale(s, i, o);
    }
  }

  /** Without restarts there is no stale news: all documents are equal, and so are
      the todos they show. */
  lemma ConvergesWithoutRestarts(s: Net, i: nat, j: nat, a: seq<Op>, b: seq<Op>)
    requires Inv(s) && Exchanged(s) && i in s.nodes && j in s.nodes
    requires forall k :: k in s.nodes ==> s.nodes[k].epoch == 0
    requires Ops(a) == s.nodes[i].doc && Ops(b) == s.nodes[j].doc
    ensures Ops(a) == Ops(b)
    ensures Items(a) == Items(b)
  {
    hide Items, NodeInv, Hidden;
    assert NodeInv(s, i) && NodeInv(s, j);
    assert StaleNewsIsCurrent(s);
    ConvergesIffStaleNewsIsCurrent(s);
    forall o ensures o in s.nodes[i].doc <==> o in s.nodes[j].doc {
      assert o in s.nodes[i].doc <==> Current(s, o);
      assert o in s.nodes[j].doc <==> Current(s, o);
    }
    assert s.nodes[i].doc == s.nodes[j].doc;
    SameOpsSameItems(a, b);
  }

  /** Every message the bus took has reached every other node. */
  ghost predicate Delivered(s: Net) {
    forall i, m :: i in s.nodes && 0 <= m < |s.sent| && s.sent[m].from != i ==> m in s.nodes[i].got
  }

  ghost predicate AllEqual(s: Net) {
    forall i, j :: i in s.nodes && j in s.nodes ==> s.nodes[i].doc == s.nodes[j].doc
  }

  /** Even when nothing the bus took is lost and nobody restarts, all documents
      end up equal exactly when the bus took every node's last write: a write
      whose message id was still in the duplicate window stays on its node. */
  lemma LosslessConvergesIffLastWritesTaken(s: Net)
    requires Inv(s) && Shipped(s) && Delivered(s) && |s.nodes| > 1
    requires forall k :: k in s.nodes ==> s.nodes[k].epoch == 0
    ensures AllEqual(s) <==> forall i :: i in s.nodes ==> s.nodes[i].pub.Some?
  {
    if i :| i in s.nodes && s.nodes[i].pub.None? {
      UnsentSplits(s, i);
    } else {
      hide Tagged, Hidden, NodeInv;
      assert Exchanged(s);
      assert StaleNewsIsCurrent(s);
      ConvergesIffStaleNewsIsCurrent(s);
      forall i, j | i in s.nodes && j in s.nodes ensures s.nodes[i].doc == s.nodes[j].doc {
        assert forall o :: o in s.nodes[i].doc <==> Current(s, o);
        assert forall o :: o in s.nodes[j].doc <==> Current(s, o);
      }
    }
  }

  /** A write no message carries keeps its node apart from every other. */
  lemma UnsentSplits(s: Net, i: nat)
    requires Inv(s) && i in s.nodes && s.nodes[i].pub.None? && |s.nodes| > 1
    ensures !AllEqual(s)
  {
    assert NodeInv(s, i);
    var o :| o in s.nodes[i].unsent;
    var j := Another(s.nodes.Keys, i);
    assert o in s.nodes[i].doc && o !in s.nodes[j].doc;
  }

  lemma Another(all: set<nat>, i: nat) returns (j: nat)
    requires i in all && |all| > 1
    ensures j in all && j != i
  {
    assert all != {i};
    j :| j in all && j != i;
  }

  // ---- whole runs ----

  ghost predicate NoRestarts(events: seq<Event>) {
    forall k :: 0 <= k < |events| ==> !events[k].Restart?
  }

  lemma {:induction false} NoRestartsNoEpochs(states: seq<Net>, events: seq<Event>)
    requires IsRun(states, events) && NoRestarts(events)
    ensures forall i :: i in states[|events|].nodes ==> states[|events|].nodes[i].epoch == 0
    ensures states[|events|].nodes.Keys == states[0].nodes.Keys
  {
    var n := |events|;
    if n > 0 {
      assert IsRun(states[..n], events[..n - 1]);
      NoRestartsNoEpochs(states[..n], events[..n - 1]);
      assert Enabled(states[n - 1], events[n - 1]) && states[n] == Apply(states[n - 1], events[n - 1]);
    }
  }

  /** For every run, restarts and all: once the last updates are exchanged, all
      documents are equal if and only if the stale news reached all, and hold exactly
      the last updates if and only if there is no other stale news. */
  lemma EveryRunConvergesIff(states: seq<Net>, events: seq<Event>)
    requires IsRun(states, events) && Exchanged(states[|events|])
    ensures AllEqual(states[|events|]) <==> StaleNewsReachedAll(states[|events|])
    ensures var s := states[|events|];
            (forall i, o :: i in s.nodes ==> (o in s.nodes[i].doc <==> Current(s, o))) <==> StaleNewsIsCurrent(s)
  {
    RunInv(states, events);
    hide *;
    EqualIffStaleNewsReachedAll(states[|events|]);
    ConvergesIffStaleNewsIsCurrent(states[|events|]);
  }

  /** For every run without restarts that loses nothing the bus took. */
  lemma EveryLosslessRunConvergesIff(states: seq<Net>, events: seq<Event>)
    requires IsRun(states, events) && NoRestarts(events) && Delivered(states[|events|]) && |states[0].nodes| > 1
    ensures AllEqual(states[|events|]) <==> forall i :: i in states[|events|].nodes ==> states[|events|].nodes[i].pub.Some?
  {
    RunInv(states, events);
    NoRestartsNoEpochs(states, events);
    var s := states[|events|];
    assert |s.nodes| == |s.nodes.Keys| == |states[0].nodes.Keys|;
    hide Inv, Shipped, Delivered, IsRun, AllEqual;
    LosslessConvergesIffLastWritesTaken(s);
  }

  // ---- how it fails ----

  /** A run with these events leads to `s`. */
  ghost predicate Leads(events: seq<Event>, s: Net) {
    exists states :: IsRun(states, events) && states[|events|] == s
  }

  function Fresh(peer: nat): Node {
    Node(peer, 0, {}, {}, Some({}), {}, {})
  }

  function NewItem(lamport: nat, peer: nat): Op {
    Op(Tag(lamport, peer), Root, "a", SubMap)
  }

  lemma Begin(n: nat) returns (s: Net)
    ensures Leads([], s)
    ensures s.sent == [] && s.window == {} && s.nextPeer == n
    ensures forall i: nat :: (i in s.nodes <==> i < n) && (i < n ==> s.nodes[i] == Fresh(i))
  {
    s := Net(map i: nat | i < n :: Fresh(i), [], {}, n, {});
    assert IsRun([s], []);
  }

  lemma Then(events: seq<Event>, was: Net, e: Event) returns (s: Net)
    requires Leads(events, was) && Enabled(was, e)
    ensures Leads(events + [e], s) && s == Apply(was, e)
  {
    hide Init, Enabled, Apply;
    var states :| IsRun(states, events) && states[|events|] == was;
    s := Apply(was, e);
    assert IsRun(states + [s], events + [e]);
  }

  /** Two updates of one todo carry one message id. Within the duplicate window
      the second never leaves its node, although the bus loses nothing. */
  lemma SecondUpdateStaysHome() returns (events: seq<Event>, s: Net)
    ensures Leads(events, s) && NoRestarts(events)
    ensures forall k :: 0 <= k < |events| && events[k].Write? ==> events[k].opId == "update-a" && events[k].up
    ensures Delivered(s) && !AllEqual(s)
  {
    hide Leads;
    var x, y := NewItem(0, 0), NewItem(1, 0);
    events, s := UpdateTwice(x, y, "update-a");
    assert y in s.nodes[0].doc && y !in s.nodes[1].doc;
  }

  lemma UpdateTwice(x: Op, y: Op, opId: string) returns (events: seq<Event>, s: Net)
    requires x == NewItem(0, 0) && y == NewItem(1, 0)
    ensures Leads(events, s)
    ensures events == [Write(0, {x}, opId, true), Deliver(1, 0), Write(0, {y}, opId, true)]
    ensures s.nodes.Keys == {0, 1} && s.nodes[0].doc == {x, y} && s.nodes[1].doc == {x} && s.nodes[1].got == {0}
    ensures s.sent == [Msg(0, 0, {x})]
  {
    assert OwnOps({y}, 0, {x});
    hide Leads, OwnOps, NewItem, Apply;
    events, s := UpdateHeard(x, opId);
    s := Keep(events, s, 0, y, opId);
    events := events + [Write(0, {y}, opId, true)];
    assert {x} + {y} == {x, y};
  }

  /** Node 0's first write reaches node 1. */
  lemma UpdateHeard(x: Op, opId: string) returns (events: seq<Event>, s: Net)
    requires x == NewItem(0, 0)
    ensures Leads(events, s)
    ensures events == [Write(0, {x}, opId, true), Deliver(1, 0)]
    ensures s.nodes.Keys == {0, 1} && s.nodes[0].doc == {x} && s.nodes[0].peer == 0
    ensures s.nodes[1].doc == {x} && s.nodes[1].got == {0}
    ensures s.sent == [Msg(0, 0, {x})] && opId in s.window
  {
    assert OwnOps({x}, 0, {});
    hide Leads, OwnOps, NewItem, Apply;
    events := [];
    s := Begin(2);
    s := Ship(events, s, 0, x, opId);
    events := events + [Write(0, {x}, opId, true)];
    assert s.sent == [Msg(0, 0, {} + {x})] && {} + {x} == {x};
    s := Hear(events, s, 1, 0);
    events := events + [Deliver(1, 0)];
  }

  /** A write the bus takes. */
  lemma Ship(events: seq<Event>, was: Net, i: nat, o: Op, opId: string) returns (s: Net)
    requires Leads(events, was) && i in was.nodes
    requires Enabled(was, Write(i, {o}, opId, true)) && opId !in was.window
    ensures Leads(events + [Write(i, {o}, opId, true)], s)
    ensures var doc := was.nodes[i].doc + {o};
            && s.nodes == was.nodes[i := was.nodes[i].(doc := doc, unsent := {}, pub := Some(doc), late := {})]
            && s.sent == was.sent + [Msg(i, was.nodes[i].epoch, doc)]
            && s.window == was.window + {opId} && s.nextPeer == was.nextPeer
  {
    hide Leads, OwnOps;
    s := Then(events, was, Write(i, {o}, opId, true));
  }

  /** Once the bus has forgotten the id, the same write is taken, and ships what stayed home too. */
  lemma TakenAfterExpiry(events: seq<Event>, was: Net, i: nat, o: Op, opId: string) returns (s: Net)
    requires Leads(events, was) && i in was.nodes && Enabled(was, Write(i, {o}, opId, true))
    ensures Leads(events + [Expire({opId})] + [Write(i, {o}, opId, true)], s)
    ensures s.sent == was.sent + [Msg(i, was.nodes[i].epoch, was.nodes[i].doc + {o})]
    ensures i in s.nodes && s.nodes[i].unsent == {}
  {
    hide Leads, OwnOps;
    s := Then(events, was, Expire({opId}));
    s := Ship(events + [Expire({opId})], s, i, o, opId);
  }

  /** A write whose message id the bus has seen. */
  lemma Keep(events: seq<Event>, was: Net, i: nat, o: Op, opId: string) returns (s: Net)
    requires Leads(events, was) && i in was.nodes
    requires Enabled(was, Write(i, {o}, opId, true)) && opId in was.window
    ensures Leads(events + [Write(i, {o}, opId, true)], s)
    ensures var n := was.nodes[i];
            && s.nodes == was.nodes[i := n.(doc := n.doc + {o}, unsent := n.unsent + {o}, pub := None, late := {})]
            && s.sent == was.sent
  {
    hide Leads, OwnOps;
    s := Then(events, was, Write(i, {o}, opId, true));
  }

  lemma Hear(events: seq<Event>, was: Net, i: nat, m: nat) returns (s: Net)
    requires Leads(events, was) && Enabled(was, Deliver(i, m))
    ensures Leads(events + [Deliver(i, m)], s)
    ensures var n := was.nodes[i];
            s == was.(nodes := was.nodes[i := n.(doc := n.doc + was.sent[m].ops, got := n.got + {m}, late := n.late + {m})])
  {
    hide Leads;
    s := Then(events, was, Deliver(i, m));
  }

  /** A node ships x, restarts, and ships y under its new peer id. */
  lemma ShipRestartShip(x: Op, y: Op) returns (events: seq<Event>, s: Net)
    requires x == NewItem(0, 0) && y == NewItem(0, 3)
    ensures Leads(events, s)
    ensures 0 in s.nodes && 1 in s.nodes && 2 in s.nodes && s.nodes.Keys == {0, 1, 2}
    ensures s.nodes[1] == Fresh(1) && s.nodes[2] == Fresh(2)
    ensures s.nodes[0].pub == Some({y}) && s.nodes[0].got == {}
    ensures s.sent == [Msg(0, 0, {x}), Msg(0, 1, {y})]
  {
    events, s := ShipRestart(x);
    assert OwnOps({y}, 3, {});
    assert "create-a"[7] != "create-b"[7];
    hide Leads, OwnOps, Apply, NewItem;
    s := Ship(events, s, 0, y, "create-b");
    events := events + [Write(0, {y}, "create-b", true)];
    assert s.nodes[0].doc == {} + {y} == {y};
  }

  lemma ShipRestart(x: Op) returns (events: seq<Event>, s: Net)
    requires x == NewItem(0, 0)
    ensures Leads(events, s)
    ensures s.nodes.Keys == {0, 1, 2} && s.nodes[0] == Node(3, 1, {}, {}, Some({}), {}, {})
    ensures s.nodes[1] == Fresh(1) && s.nodes[2] == Fresh(2)
    ensures s.sent == [Msg(0, 0, {x})] && s.window == {"create-a"}
    ensures events == [Write(0, {x}, "create-a", true), Restart(0, {})]
  {
    events, s := ShipFirst(x);
    hide Leads;
    s := Reborn(events, s, 0);
    events := events + [Restart(0, {})];
  }

  lemma ShipFirst(x: Op) returns (events: seq<Event>, s: Net)
    requires x == NewItem(0, 0)
    ensures Leads(events, s)
    ensures s.nodes.Keys == {0, 1, 2} && s.nodes[0].epoch == 0 && s.nextPeer == 3
    ensures s.nodes[1] == Fresh(1) && s.nodes[2] == Fresh(2)
    ensures s.sent == [Msg(0, 0, {x})] && s.window == {"create-a"}
    ensures events == [Write(0, {x}, "create-a", true)]
  {
    assert OwnOps({x}, 0, {});
    hide Leads, OwnOps, NewItem, Apply;
    events := [];
    s := Begin(3);
    s := Ship(events, s, 0, x, "create-a");
    events := events + [Write(0, {x}, "create-a", true)];
    assert {} + {x} == {x};
  }

  /** A restart that finds no todos in the table. */
  lemma Reborn(events: seq<Event>, was: Net, i: nat) returns (s: Net)
    requires Leads(events, was) && i in was.nodes
    ensures Leads(events + [Restart(i, {})], s)
    ensures s.nodes == was.nodes[i := Node(was.nextPeer, was.nodes[i].epoch + 1, {}, {}, Some({}), {}, {})]
    ensures s.sent == was.sent && s.window == was.window
  {
    hide Leads;
    s := Then(events, was, Restart(i, {}));
  }

  /** A restarted process has a new publisher id, so its loop filter lets its own old
      messages in: a node whose table is empty shows the todo it once shipped again. */
  lemma OwnNewsComesBack() returns (events: seq<Event>, s: Net)
    ensures Leads(events, s)
    ensures events == [Write(0, {NewItem(0, 0)}, "create-a", true), Restart(0, {}), Deliver(0, 0)]
    ensures 0 in s.nodes && s.nodes[0].doc == {NewItem(0, 0)} && s.nodes[0].epoch == 1
  {
    var x := NewItem(0, 0);
    events, s := ShipRestart(x);
    hide Leads, NewItem;
    s := Hear(events, s, 0, 0);
    events := events + [Deliver(0, 0)];
    assert {} + {x} == {x};
  }

  /** A message from before a restart reaches one peer after the sender's new
      update did, and never reaches the other: both hold every last update, yet
      their documents differ. */
  lemma StaleMessageSplitsPeers() returns (events: seq<Event>, s: Net)
    ensures Leads(events, s) && Exchanged(s)
    ensures !AllEqual(s)
  {
    var x, y := NewItem(0, 0), NewItem(0, 3);
    events, s := ShipRestartShip(x, y);
    hide Leads, Apply;
    s := Hear(events, s, 1, 1);
    events := events + [Deliver(1, 1)];
    s := Hear(events, s, 2, 1);
    events := events + [Deliver(2, 1)];
    s := Hear(events, s, 1, 0);
    events := events + [Deliver(1, 0)];
    assert 1 in s.nodes[1].got && 1 in s.nodes[2].got;
    assert x in s.nodes[1].doc && x !in s.nodes[2].doc;
  }
}
