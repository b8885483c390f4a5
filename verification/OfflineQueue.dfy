/**
 The service worker's offline queue: mutations that found no network are kept in
 IndexedDB under growing ids and replayed later, oldest first.
 */
module OfflineQueue {

  /** A mutation request of the todo pages. */
  datatype Request =
    | Create(owner: string, key: string, title: string)
    | Toggle(owner: string, id: string)
    | Delete(owner: string, id: string)
    | Clear(owner: string)

  datatype Pending = Pending(id: nat, request: Request)

  datatype Post = SyncStart | SyncEnd | SyncError

  datatype Reply = NetworkError | Status(code: nat)

  /** What awaits one replayed request: the fetch's outcome, and whether the delete that may follow works. */
  datatype Trip = Trip(reply: Reply, deletes: bool)

  /** Success, or already gone at the server. */
  predicate Safe(code: nat) {
    200 <= code < 300 || code == 404
  }

  function Ids(items: seq<Pending>): (ids: seq<nat>)
    ensures |ids| == |items| && forall k :: 0 <= k < |items| ==> ids[k] == items[k].id
  {
    seq(|items|, k requires 0 <= k < |items| => items[k].id)
  }

  predicate Listed(items: seq<Pending>, id: nat) {
    exists k :: 0 <= k < |items| && items[k].id == id
  }

  /** The store returns its items by growing id. */
  predicate Ascending(items: seq<Pending>, limit: nat) {
    && (forall a, b :: 0 <= a < b < |items| ==> items[a].id < items[b].id)
    && (forall a :: 0 <= a < |items| ==> items[a].id < limit)
  }

  /** The items not under these ids, in the same order. */
  function Without(items: seq<Pending>, gone: set<nat>): seq<Pending> {
    if items == [] then []
    else if items[0].id in gone then Without(items[1..], gone)
    else [items[0]] + Without(items[1..], gone)
  }

  lemma {:induction false} WithoutHolds(items: seq<Pending>, gone: set<nat>, p: Pending)
    ensures p in Without(items, gone) <==> p in items && p.id !in gone
  {
    if items != [] { WithoutHolds(items[1..], gone, p); }
  }

  lemma {:induction false} WithoutAscends(items: seq<Pending>, gone: set<nat>, limit: nat)
    requires Ascending(items, limit)
    ensures Ascending(Without(items, gone), limit)
  {
    if items != [] {
      WithoutAscends(items[1..], gone, limit);
      forall p | p in Without(items[1..], gone) ensures items[0].id < p.id {
        WithoutHolds(items[1..], gone, p);
      }
      var rest := Without(items[1..], gone);
      assert forall k :: 0 <= k < |rest| ==> rest[k] in rest;
    }
  }

  lemma {:induction false} WithoutNothing(items: seq<Pending>)
    ensures Without(items, {}) == items
  {
    if items != [] { WithoutNothing(items[1..]); }
  }

  lemma {:induction false} WithoutTwice(items: seq<Pending>, a: set<nat>, b: set<nat>)
    ensures Without(Without(items, a), b) == Without(items, a + b)
  {
    if items != [] {
      WithoutTwice(items[1..], a, b);
      if items[0].id !in a {
        var rest := Without(items[1..], a);
        assert Without(items, a) == [items[0]] + rest && Without(items, a)[1..] == rest;
      }
    }
  }

  // ---- one replay, undisturbed ----

  /** How many requests were sent, which items left, how many are known to remain. */
  datatype Outcome = Outcome(tried: nat, gone: set<nat>, remaining: nat)

  function Attempts(items: seq<Pending>, trips: nat -> Trip): (r: Outcome)
    ensures r.tried <= |items|
  {
    if items == [] then Outcome(0, {}, 0)
    else
      var trip := trips(items[0].id);
      if trip.reply.NetworkError? || (Safe(trip.reply.code) && !trip.deletes) then Outcome(1, {}, 1)
      else
        var r := Attempts(items[1..], trips);
        if Safe(trip.reply.code) then Outcome(r.tried + 1, r.gone + {items[0].id}, r.remaining)
        else Outcome(r.tried + 1, r.gone, r.remaining + 1)
  }

  lemma OneMoreId(items: seq<Pending>, i: nat)
    requires i < |items|
    ensures Ids(items[..i + 1]) == Ids(items[..i]) + [items[i].id]
  {}

  class ServiceWorker {
    var pending: seq<Pending>
    var nextId: nat
    var fetched: seq<nat>
    var posted: seq<Post>

    ghost predicate Valid()
      reads this
    {
      Ascending(pending, nextId)
    }

    constructor ()
      ensures Valid() && pending == [] && fetched == [] && posted == []
    {
      pending, nextId, fetched, posted := [], 0, [], [];
    }

    /** The network first; a request it fails is kept under the next id, if the store accepts it. */
    method NetworkFirstWithQueue(request: Request, reached: bool, stores: bool)
      requires Valid()
      modifies this`pending, this`nextId, this`posted
      ensures Valid()
      ensures !reached && stores ==> pending == old(pending) + [Pending(old(nextId), request)] && posted == old(posted) + [SyncError]
      ensures reached || !stores ==> pending == old(pending) && posted == old(posted)
    {
      if reached || !stores { return; }
      pending := pending + [Pending(nextId, request)];
      nextId := nextId + 1;
      posted := posted + [SyncError];
    }

    method DeletePending(id: nat)
      requires Valid()
      modifies this`pending
      ensures Valid() && pending == Without(old(pending), {id})
    {
      WithoutAscends(pending, {id}, nextId);
      pending := Without(pending, {id});
    }

    /** Sends the snapshot's requests in order. A failed fetch or a failed delete
        ends the replay; a refused request stays and the next one is sent. */
    method ReplayQueue(loads: bool, trips: nat -> Trip)
      requires Valid()
      modifies this`pending, this`fetched, this`posted
      ensures Valid()
      ensures !loads || old(pending) == [] ==> pending == old(pending) && fetched == old(fetched) && posted == old(posted)
      ensures loads && old(pending) != [] ==>
                var r := Attempts(old(pending), trips);
                && pending == Without(old(pending), r.gone)
                && fetched == old(fetched) + Ids(old(pending)[..r.tried])
                && posted == old(posted) + [SyncStart, if r.remaining == 0 then SyncEnd else SyncError]
      ensures loads ==>
                forall k :: 0 <= k < |old(pending)| ==>
                  var p, n := old(pending)[k], |fetched| - |old(fetched)|;
                  p !in pending <==>
                    k < n && trips(p.id).reply.Status? && trips(p.id).deletes
                    && (200 <= trips(p.id).reply.code < 300 || trips(p.id).reply.code == 404)
    {
      hide Ascending, Without, Ids, Safe;
      if !loads || pending == [] { return; }
      var items := pending;
      posted := posted + [SyncStart];
      var remaining, i := 0, 0;
      ghost var gone: set<nat> := {};
      ghost var all := Attempts(items, trips);
      ghost var before := fetched;
      WithoutNothing(items);
      assert items[0..] == items && items[..0] == [];
      assert Ids([]) == [];
      ghost var rest := all;
      while i < |items|
        invariant i <= |items| && Valid() && posted == old(posted) + [SyncStart]
        invariant pending == Without(items, gone) && fetched == before + Ids(items[..i])
        invariant rest == Attempts(items[i..], trips)
        invariant all == Outcome(i + rest.tried, gone + rest.gone, remaining + rest.remaining)
      {
        var item := items[i];
        var trip := trips(item.id);
        fetched := fetched + [item.id];
        OneMoreId(items, i);
        assert items[i..][1..] == items[i + 1..];
        if trip.reply.NetworkError? {
          remaining := remaining + 1;
          rest := Outcome(0, {}, 0);
          i := i + 1;
          break;
        }
        if Safe(trip.reply.code) {
          if !trip.deletes {
            remaining := remaining + 1;
            rest := Outcome(0, {}, 0);
            i := i + 1;
            break;
          }
          WithoutTwice(items, gone, {item.id});
          DeletePending(item.id);
          gone := gone + {item.id};
        } else {
          remaining := remaining + 1;
        }
        rest := Attempts(items[i + 1..], trips);
        i := i + 1;
      }
      assert all.tried == i && all.gone == gone && all.remaining == remaining;
      posted := posted + [if remaining == 0 then SyncEnd else SyncError];
      LeftIff(items, trips, nextId);
    }
  }

  // ---- what one replay means ----

  /** An item of the snapshot leaves if and only if it was sent, the answer was a
      success or a 404, and the delete worked. */
  lemma {:induction false} GoneIff(items: seq<Pending>, trips: nat -> Trip, limit: nat, k: nat)
    requires Ascending(items, limit) && k < |items|
    ensures var t := trips(items[k].id);
            items[k].id in Attempts(items, trips).gone <==>
              k < Attempts(items, trips).tried && t.reply.Status? && (200 <= t.reply.code < 300 || t.reply.code == 404) && t.deletes
  {
    var rest := Attempts(items[1..], trips);
    if k > 0 {
      GoneIff(items[1..], trips, limit, k - 1);
      assert items[1..][k - 1] == items[k];
    } else {
      GoneIsLater(items[1..], trips, items[0].id);
    }
  }

  lemma GoneIsLater(items: seq<Pending>, trips: nat -> Trip, id: nat)
    ensures id in Attempts(items, trips).gone ==> exists j :: 0 <= j < |items| && items[j].id == id
  {
    if id in Attempts(items, trips).gone { GoneWereAnswered(items, trips, id); }
  }

  lemma LeftIff(items: seq<Pending>, trips: nat -> Trip, limit: nat)
    requires Ascending(items, limit)
    ensures forall k :: 0 <= k < |items| ==>
              var t := trips(items[k].id);
              items[k] !in Without(items, Attempts(items, trips).gone) <==>
                k < Attempts(items, trips).tried && t.reply.Status? && t.deletes && (200 <= t.reply.code < 300 || t.reply.code == 404)
  {
    forall k | 0 <= k < |items|
      ensures var t := trips(items[k].id);
              items[k] !in Without(items, Attempts(items, trips).gone) <==>
                k < Attempts(items, trips).tried && t.reply.Status? && t.deletes && (200 <= t.reply.code < 300 || t.reply.code == 404)
    {
      GoneIff(items, trips, limit, k);
      WithoutHolds(items, Attempts(items, trips).gone, items[k]);
    }
  }

  /** An item leaves only after a success or a 404, and only if the delete worked. */
  lemma {:induction false} GoneWereAnswered(items: seq<Pending>, trips: nat -> Trip, id: nat)
    requires id in Attempts(items, trips).gone
    ensures Listed(items[..Attempts(items, trips).tried], id)
    ensures trips(id).reply.Status? && trips(id).deletes
    ensures var code := trips(id).reply.code; 200 <= code < 300 || code == 404
  {
    var tried := items[..Attempts(items, trips).tried];
    var first := trips(items[0].id);
    if id == items[0].id && first.reply.Status? && Safe(first.reply.code) {
      assert tried[0].id == id;
    } else {
      GoneWereAnswered(items[1..], trips, id);
      var r := Attempts(items[1..], trips);
      var k :| 0 <= k < |items[1..][..r.tried]| && items[1..][..r.tried][k].id == id;
      assert tried[k + 1].id == id;
    }
  }

  /** The pages hear that the queue is synced exactly when every item of the snapshot is gone. */
  lemma {:induction false} SyncedIffAllGone(items: seq<Pending>, trips: nat -> Trip, limit: nat)
    requires Ascending(items, limit)
    ensures Attempts(items, trips).remaining == 0 <==> forall p :: p in items ==> p.id in Attempts(items, trips).gone
  {
    if items != [] {
      SyncedIffAllGone(items[1..], trips, limit);
      GoneIsLater(items[1..], trips, items[0].id);
      var rest := Attempts(items[1..], trips);
      assert forall p :: p in items <==> p == items[0] || p in items[1..];
      assert forall p :: p in items[1..] ==> p.id != items[0].id;
      hide Ascending;
    }
  }

  /** The fetch failed, or the answer was a success or a 404 and the delete failed. */
  predicate Halts(t: Trip) {
    t.reply.NetworkError? || ((200 <= t.reply.code < 300 || t.reply.code == 404) && !t.deletes)
  }

  /** A replay that stopped early met a failed fetch or a failed delete; nothing else stops it. */
  lemma {:induction false} StopsOnlyOnFailure(items: seq<Pending>, trips: nat -> Trip)
    requires items != []
    ensures var n := Attempts(items, trips).tried;
            && 0 < n <= |items|
            && (forall k :: 0 <= k < n - 1 ==> !Halts(trips(items[k].id)))
            && (n < |items| ==> Halts(trips(items[n - 1].id)))
  {
    var n := Attempts(items, trips).tried;
    if n > 1 {
      StopsOnlyOnFailure(items[1..], trips);
      forall k | 0 < k < n - 1 ensures !Halts(trips(items[k].id)) {
        assert items[k] == items[1..][k - 1];
      }
      assert items[n - 1] == items[1..][n - 2];
    }
  }
}
