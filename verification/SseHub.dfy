/** The SSE hub: the class whose methods hold the lock for one critical section each. */
module SseHub {
  import opened HubSpec

  class SSEHub {
    var clients: map<string, nat>
    var userOf: map<string, string>
    var buffer: map<string, seq<string>>
    var chans: map<nat, Chan>
    var drops: seq<Drop>
    const maxBuffer: int

    function State(): Hub
      reads this
    {
      Hub(clients, userOf, buffer, chans, drops, maxBuffer)
    }

    constructor (maxBuffer: int)
      ensures State() == Hub(map[], map[], map[], map[], [], maxBuffer)
    {
      this.maxBuffer := maxBuffer;
      clients, userOf, buffer, chans, drops := map[], map[], map[], map[], [];
    }

    /** The caller's make(chan): a channel nobody has used yet. */
    method MakeChan(ch: nat, cap: nat)
      requires ch !in chans
      modifies this`chans
      ensures chans == old(chans)[ch := Chan(cap, [])]
    {
      chans := chans[ch := Chan(cap, [])];
    }

    /** select { case ch <- data: default: onDrop } */
    method TryPush(client: string, ch: nat, data: string, reason: string) returns (ok: bool)
      requires ch in chans
      modifies this`chans, this`drops
      ensures ok == HasRoom(old(State()), ch)
      ensures State() == Push(old(State()), client, ch, data, reason)
    {
      ok := |chans[ch].items| < chans[ch].cap;
      if ok {
        chans := chans[ch := Chan(chans[ch].cap, chans[ch].items + [data])];
      } else {
        drops := drops + [Drop(client, data, reason)];
      }
    }

    method Register(client: string, user: string, ch: nat)
      requires ch in chans
      modifies this
      ensures State() == HubSpec.Register(old(State()), client, user, ch)
    {
      clients := clients[client := ch];
      userOf := userOf[client := user];
      ghost var h1 := State();
      var msgs := if client in buffer then buffer[client] else [];
      var i := 0;
      while i < |msgs|
        invariant 0 <= i <= |msgs| && ch in chans
        invariant State() == Replay(h1, client, ch, msgs[..i])
      {
        var _ := TryPush(client, ch, msgs[i], "slow-client-replay");
        assert msgs[..i + 1][..i] == msgs[..i];
        i := i + 1;
      }
      assert msgs[..i] == msgs;
      buffer := buffer - {client};
    }

    method Unregister(client: string)
      modifies this
      ensures State() == HubSpec.Unregister(old(State()), client)
    {
      clients, buffer, userOf := clients - {client}, buffer - {client}, userOf - {client};
    }

    method UnregisterIfCurrent(client: string, ch: nat)
      modifies this
      ensures State() == HubSpec.UnregisterIfCurrent(old(State()), client, ch)
    {
      if client in clients && clients[client] == ch {
        clients, buffer, userOf := clients - {client}, buffer - {client}, userOf - {client};
      }
    }

    method Send(client: string, data: string)
      requires Wf(State())
      modifies this
      ensures State() == HubSpec.Send(old(State()), client, data)
    {
      if client in clients {
        var ok := TryPush(client, clients[client], data, "slow-client");
        if ok { return; }
      }
      BufferEvent(client, data);
    }

    method BufferEvent(client: string, data: string)
      modifies this
      ensures State() == HubSpec.BufferEvent(old(State()), client, data)
      ensures maxBuffer <= 0 ==> buffer == old(buffer) && drops == old(drops) + [Drop(client, data, "replay-disabled")]
      ensures maxBuffer > 0 ==>
                && drops == old(drops) && client in buffer && 0 < |buffer[client]| <= |BufferOf(old(State()), client)| + 1
                && buffer[client][|buffer[client]| - 1] == data
    {
      if maxBuffer <= 0 {
        drops := drops + [Drop(client, data, "replay-disabled")];
        return;
      }
      var buf := if client in buffer then buffer[client] else [];
      if |buf| >= maxBuffer { buf := buf[1..]; }
      buffer := buffer[client := buf + [data]];
    }

    method Broadcast(data: string) returns (ghost ids: seq<string>)
      requires Wf(State())
      modifies this
      ensures Visits(ids, old(clients).Keys)
      ensures State() == FanOut(old(State()), ids, data, "slow-client-broadcast")
    {
      ids := FanOutTo(clients.Keys, data, "slow-client-broadcast");
    }

    method BroadcastExcept(data: string, excluded: string) returns (ghost ids: seq<string>)
      requires Wf(State())
      modifies this
      ensures Visits(ids, old(clients).Keys - {excluded})
      ensures State() == FanOut(old(State()), ids, data, "slow-client-broadcast")
    {
      ids := FanOutTo(clients.Keys - {excluded}, data, "slow-client-broadcast");
    }

    method BroadcastToUser(data: string, user: string, excluded: string) returns (ghost ids: seq<string>)
      requires Wf(State())
      modifies this
      ensures Visits(ids, set id | id in old(clients) && id != excluded && old(userOf)[id] == user)
      ensures State() == FanOut(old(State()), ids, data, "slow-client-broadcast-user")
    {
      var targets := set id | id in clients && id != excluded && userOf[id] == user;
      ids := FanOutTo(targets, data, "slow-client-broadcast-user");
    }

    /** The fan-out loop, over the targets in any order. */
    method FanOutTo(targets: set<string>, data: string, reason: string) returns (ghost ids: seq<string>)
      requires Wf(State()) && targets <= clients.Keys
      modifies this
      ensures Visits(ids, targets) && (forall id :: id in ids ==> id in old(clients))
      ensures State() == FanOut(old(State()), ids, data, reason)
    {
      ids := [];
      var left := targets;
      while left != {}
        invariant left <= targets && Visits(ids, targets - left)
        invariant forall id :: id in ids ==> id in old(clients)
        invariant State() == FanOut(old(State()), ids, data, reason)
      {
        var id :| id in left;
        var _ := TryPush(id, clients[id], data, reason);
        assert (ids + [id])[..|ids|] == ids;
        ids, left := ids + [id], left - {id};
      }
    }

    function IsRegistered(client: string): bool
      reads this
    {
      client in clients
    }

    /** Clients that carry a user; whiteboard connections do not. */
    method CountUserClients() returns (count: nat)
      ensures count == |set id | id in userOf && userOf[id] != ""|
    {
      count := 0;
      var left := userOf.Keys;
      ghost var done: set<string> := {};
      while left != {}
        invariant left <= userOf.Keys && done == userOf.Keys - left
        invariant count == |set id | id in done && userOf[id] != ""|
      {
        var id :| id in left;
        ghost var before, after := set i | i in done && userOf[i] != "", set i | i in done + {id} && userOf[i] != "";
        assert after == if userOf[id] != "" then before + {id} else before;
        if userOf[id] != "" { count := count + 1; }
        left, done := left - {id}, done + {id};
      }
      assert done == userOf.Keys;
    }
  }

  /** A todo event reaches only open tabs of its own user, and never the
      originating tab: every other client's channel is as it was. */
  lemma NoCrossUserLeak(h: Hub, ids: seq<string>, data: string, user: string, excluded: string, other: string)
    requires HubSpec.Wf(h) && other in h.clients && (h.userOf[other] != user || other == excluded)
    requires forall a, b :: a in h.clients && b in h.clients && h.clients[a] == h.clients[b] ==> a == b
    requires Visits(ids, set id | id in h.clients && id != excluded && h.userOf[id] == user)
    ensures (forall id :: id in ids ==> id in h.clients)
    ensures FanOut(h, ids, data, "slow-client-broadcast-user").chans[h.clients[other]] == h.chans[h.clients[other]]
  {
    FanOutReaches(h, ids, data, "slow-client-broadcast-user", h.clients[other]);
  }
}
