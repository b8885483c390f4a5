/**
 The SSE hub's critical sections as functions on its state. Channels are named
 by numbers and live beside the hub: a channel holds at most `cap` events, and a
 push onto a full one is refused. A client with no channel has its last events
 kept in a ring, which its next channel is given.
 */
module HubSpec {

  datatype Chan = Chan(cap: nat, items: seq<string>)

  datatype Drop = Drop(client: string, data: string, reason: string)

  datatype Hub = Hub(
    clients: map<string, nat>,
    userOf: map<string, string>,
    buffer: map<string, seq<string>>,
    chans: map<nat, Chan>,
    drops: seq<Drop>,
    maxBuffer: int)

  /** Registered channels exist, and the two client tables have the same keys. */
  predicate Wf(h: Hub) {
    && (forall id :: id in h.clients ==> h.clients[id] in h.chans)
    && h.clients.Keys == h.userOf.Keys
  }

  predicate HasRoom(h: Hub, ch: nat) {
    ch in h.chans && |h.chans[ch].items| < h.chans[ch].cap
  }

  /** A non-blocking push; on a full channel the event is handed to onDrop. */
  function Push(h: Hub, client: string, ch: nat, data: string, reason: string): Hub
    requires ch in h.chans
  {
    if HasRoom(h, ch) then h.(chans := h.chans[ch := h.chans[ch].(items := h.chans[ch].items + [data])])
    else h.(drops := h.drops + [Drop(client, data, reason)])
  }

  function BufferOf(h: Hub, client: string): seq<string> {
    if client in h.buffer then h.buffer[client] else []
  }

  function Replay(h: Hub, client: string, ch: nat, msgs: seq<string>): Hub
    requires ch in h.chans
    ensures var r := Replay(h, client, ch, msgs);
            r.chans.Keys == h.chans.Keys && r == h.(chans := r.chans, drops := r.drops)
  {
    if msgs == [] then h
    else Push(Replay(h, client, ch, msgs[..|msgs| - 1]), client, ch, msgs[|msgs| - 1], "slow-client-replay")
  }

  function Register(h: Hub, client: string, user: string, ch: nat): Hub
    requires ch in h.chans
  {
    var h1 := h.(clients := h.clients[client := ch], userOf := h.userOf[client := user]);
    Replay(h1, client, ch, BufferOf(h, client)).(buffer := h.buffer - {client})
  }

  function Unregister(h: Hub, client: string): Hub {
    h.(clients := h.clients - {client}, buffer := h.buffer - {client}, userOf := h.userOf - {client})
  }

  function UnregisterIfCurrent(h: Hub, client: string, ch: nat): Hub {
    if client in h.clients && h.clients[client] == ch then Unregister(h, client) else h
  }

  /** bufferEvent: a ring of the newest `maxBuffer` events. */
  function BufferEvent(h: Hub, client: string, data: string): Hub {
    if h.maxBuffer <= 0 then h.(drops := h.drops + [Drop(client, data, "replay-disabled")])
    else
      var buf := BufferOf(h, client);
      var kept := if |buf| >= h.maxBuffer then buf[1..] else buf;
      h.(buffer := h.buffer[client := kept + [data]])
  }

  /** The whole of Send with nothing in between. */
  function Send(h: Hub, client: string, data: string): Hub
    requires Wf(h)
  {
    if client in h.clients then
      var h1 := Push(h, client, h.clients[client], data, "slow-client");
      if HasRoom(h, h.clients[client]) then h1 else BufferEvent(h1, client, data)
    else BufferEvent(h, client, data)
  }

  /** A broadcast that reaches the clients in the order `ids`. */
  function FanOut(h: Hub, ids: seq<string>, data: string, reason: string): Hub
    requires Wf(h) && forall id :: id in ids ==> id in h.clients
    ensures var r := FanOut(h, ids, data, reason);
            r.chans.Keys == h.chans.Keys && r == h.(chans := r.chans, drops := r.drops)
  {
    if ids == [] then h
    else
      var last := ids[|ids| - 1];
      Push(FanOut(h, ids[..|ids| - 1], data, reason), last, h.clients[last], data, reason)
  }

  /** `ids` visits each member of `targets` once. */
  ghost predicate Visits(ids: seq<string>, targets: set<string>) {
    && (forall id :: id in ids <==> id in targets)
    && (forall i, j :: 0 <= i < j < |ids| ==> ids[i] != ids[j])
  }

  // ---- what the sections mean ----

  /** Registering a channel with room for the whole buffer replays it in order,
      drops nothing and empties the buffer. */
  lemma RegisterReplaysAll(h: Hub, client: string, user: string, ch: nat)
    requires ch in h.chans && |h.chans[ch].items| + |BufferOf(h, client)| <= h.chans[ch].cap
    ensures var h' := Register(h, client, user, ch);
            && h'.chans[ch].items == h.chans[ch].items + BufferOf(h, client)
            && (forall c :: c in h.chans && c != ch ==> h'.chans[c] == h.chans[c])
            && h'.drops == h.drops && client !in h'.buffer && client in h'.clients && h'.clients[client] == ch
  {
    var h1 := h.(clients := h.clients[client := ch], userOf := h.userOf[client := user]);
    ReplayAll(h1, client, ch, BufferOf(h, client));
  }

  lemma {:induction false} ReplayAll(h: Hub, client: string, ch: nat, msgs: seq<string>)
    requires ch in h.chans && |h.chans[ch].items| + |msgs| <= h.chans[ch].cap
    ensures var r := Replay(h, client, ch, msgs);
            && r.drops == h.drops && r.chans[ch] == h.chans[ch].(items := h.chans[ch].items + msgs)
            && (forall c :: c in h.chans && c != ch ==> r.chans[c] == h.chans[c])
  {
    if msgs != [] {
      ReplayAll(h, client, ch, msgs[..|msgs| - 1]);
      assert msgs == msgs[..|msgs| - 1] + [msgs[|msgs| - 1]];
    } else {
      assert h.chans[ch].items + msgs == h.chans[ch].items;
    }
  }

  /** Replaying into a channel fills it in order and drops exactly what is left over. */
  lemma {:induction false} ReplayFills(h: Hub, client: string, ch: nat, msgs: seq<string>, n: nat)
    requires ch in h.chans && h.chans[ch].items == []
    requires n == if |msgs| < h.chans[ch].cap then |msgs| else h.chans[ch].cap
    ensures var r := Replay(h, client, ch, msgs);
            r.chans[ch] == Chan(h.chans[ch].cap, msgs[..n]) && |r.drops| == |h.drops| + |msgs| - n
  {
    if msgs != [] {
      var front := msgs[..|msgs| - 1];
      ReplayFills(h, client, ch, front, if |front| < n then |front| else n);
      assert |msgs| <= h.chans[ch].cap ==> msgs[..n] == front + [msgs[|msgs| - 1]];
      assert |msgs| > h.chans[ch].cap ==> msgs[..n] == front[..n];
    }
  }

  function Dropped(client: string, msgs: seq<string>, reason: string): (ds: seq<Drop>)
    ensures |ds| == |msgs| && forall i :: 0 <= i < |ds| ==> ds[i] == Drop(client, msgs[i], reason)
  {
    seq(|msgs|, i requires 0 <= i < |msgs| => Drop(client, msgs[i], reason))
  }

  /** Each event that is left over is told of, in order. */
  lemma {:induction false} ReplayDrops(h: Hub, client: string, ch: nat, msgs: seq<string>, n: nat)
    requires ch in h.chans && h.chans[ch].items == []
    requires n == if |msgs| < h.chans[ch].cap then |msgs| else h.chans[ch].cap
    ensures Replay(h, client, ch, msgs).drops == h.drops + Dropped(client, msgs[n..], "slow-client-replay")
  {
    if msgs != [] {
      var front := msgs[..|msgs| - 1];
      var m := if |front| < n then |front| else n;
      ReplayDrops(h, client, ch, front, m);
      ReplayFills(h, client, ch, front, m);
      assert |msgs| > n ==> msgs[n..] == front[n..] + [msgs[|msgs| - 1]];
      hide Replay;
      assert |msgs| > n ==> Dropped(client, msgs[n..], "slow-client-replay")
                            == Dropped(client, front[n..], "slow-client-replay") + [Drop(client, msgs[|msgs| - 1], "slow-client-replay")];
      ReplayNext(h, client, ch, msgs);
    } else {
      assert Dropped(client, msgs[n..], "slow-client-replay") == [];
    }
  }

  lemma ReplayNext(h: Hub, client: string, ch: nat, msgs: seq<string>)
    requires ch in h.chans && msgs != []
    ensures var r, last := Replay(h, client, ch, msgs[..|msgs| - 1]), msgs[|msgs| - 1];
            Replay(h, client, ch, msgs).drops == if HasRoom(r, ch) then r.drops else r.drops + [Drop(client, last, "slow-client-replay")]
  {}

  /** When no two clients share a channel, a broadcast gives each target the event
      once if it has room, gives nobody else anything, and in any order the same. */
  lemma {:induction false} FanOutReaches(h: Hub, ids: seq<string>, data: string, reason: string, c: nat)
    requires Wf(h) && (forall id :: id in ids ==> id in h.clients) && c in h.chans
    requires forall a, b :: a in h.clients && b in h.clients && h.clients[a] == h.clients[b] ==> a == b
    requires forall i, j :: 0 <= i < j < |ids| ==> ids[i] != ids[j]
    ensures FanOut(h, ids, data, reason).chans[c]
            == if HasRoom(h, c) && (exists id :: id in ids && h.clients[id] == c)
               then h.chans[c].(items := h.chans[c].items + [data]) else h.chans[c]
  {
    if ids != [] {
      var front, last := ids[..|ids| - 1], ids[|ids| - 1];
      FanOutReaches(h, front, data, reason, c);
      assert ids == front + [last];
      assert last !in front;
    }
  }

  /** And tells of a drop for each target without room, once, and of no other. */
  lemma {:induction false} FanOutDrops(h: Hub, ids: seq<string>, data: string, reason: string)
    requires Wf(h) && (forall id :: id in ids ==> id in h.clients)
    requires forall a, b :: a in h.clients && b in h.clients && h.clients[a] == h.clients[b] ==> a == b
    requires forall i, j :: 0 <= i < j < |ids| ==> ids[i] != ids[j]
    ensures var old', now := h.drops, FanOut(h, ids, data, reason).drops;
            && |old'| <= |now| && now[..|old'|] == old'
            && (forall d :: d in now[|old'|..] <==>
                  d == Drop(d.client, data, reason) && d.client in ids && |h.chans[h.clients[d.client]].items| >= h.chans[h.clients[d.client]].cap)
            && (forall i, j :: |old'| <= i < j < |now| ==> now[i] != now[j])
  {
    if ids != [] {
      var front, last := ids[..|ids| - 1], ids[|ids| - 1];
      FanOutDrops(h, front, data, reason);
      FanOutReaches(h, front, data, reason, h.clients[last]);
      assert ids == front + [last];
      assert last !in front;
      var before, after := FanOut(h, front, data, reason).drops[|h.drops|..], FanOut(h, ids, data, reason).drops[|h.drops|..];
      assert after == if HasRoom(h, h.clients[last]) then before else before + [Drop(last, data, reason)];
    }
  }
}
