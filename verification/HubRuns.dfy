/**
 The hub under every interleaving. A Send is three steps: look the client up, try
 its channel, buffer. Handlers connect with a fresh channel and clean up with
 UnregisterIfCurrent. A ledger follows every event each client was sent.
 */
module HubRuns {
  import opened Wrappers
  import opened HubSpec

  datatype Phase = Found(ch: nat) | ToBuffer | Over

  datatype Pending = Pending(client: string, data: string, phase: Phase)

  datatype Handler = Handler(client: string, live: bool)

  type Bag = multiset<string>

  /** Where one client's events went. `since` lists what was buffered since the
      buffer was last emptied, in order. */
  datatype Ledger = Ledger(begun: Bag, accepted: Bag, evicted: Bag, replayed: Bag, replayDropped: Bag, discarded: Bag,
                           disabled: Bag, since: seq<string>)

  const NO_EVENTS := Ledger(multiset{}, multiset{}, multiset{}, multiset{}, multiset{}, multiset{}, multiset{}, [])

  datatype Sys = Sys(hub: Hub, sends: seq<Pending>, handlers: map<nat, Handler>, last: map<string, nat>, ledgers: map<string, Ledger>)

  datatype Step =
    | Begin(client: string, data: string)
    | TryChannel(k: nat)
    | Buffer(k: nat)
    | Connect(ch: nat, client: string, user: string, cap: nat)
    | Disconnect(ch: nat)
    | Receive(ch: nat)
    | Fan(ids: seq<string>, data: string, reason: string)

  function LedgerOf(s: Sys, c: string): Ledger {
    if c in s.ledgers then s.ledgers[c] else NO_EVENTS
  }

  function WithLedger(s: Sys, c: string, l: Ledger): Sys {
    s.(ledgers := s.ledgers[c := l])
  }

  predicate Enabled(s: Sys, e: Step) {
    match e
    case Begin(_, _) => true
    case TryChannel(k) => k < |s.sends| && s.sends[k].phase.Found? && s.sends[k].phase.ch in s.hub.chans
    case Buffer(k) => k < |s.sends| && s.sends[k].phase.ToBuffer?
    case Connect(ch, _, _, _) => ch !in s.hub.chans
    case Disconnect(ch) => ch in s.handlers && s.handlers[ch].live
    case Receive(ch) => ch in s.hub.chans && s.hub.chans[ch].items != []
    case Fan(ids, _, _) => Wf(s.hub) && forall id :: id in ids ==> id in s.hub.clients
  }

  function Min(a: nat, b: nat): nat {
    if a < b then a else b
  }

  /** Send's first section: is the client registered, and on which channel? */
  function DoBegin(s: Sys, c: string, data: string): Sys {
    var l := LedgerOf(s, c);
    var phase := if c in s.hub.clients then Found(s.hub.clients[c]) else ToBuffer;
    WithLedger(s.(sends := s.sends + [Pending(c, data, phase)]), c, l.(begun := l.begun + multiset{data}))
  }

  /** Send's second section: the non-blocking push on the channel it found. */
  function DoTryChannel(s: Sys, k: nat): Sys
    requires Enabled(s, TryChannel(k))
  {
    var p := s.sends[k];
    var l := LedgerOf(s, p.client);
    var s1 := s.(hub := Push(s.hub, p.client, p.phase.ch, p.data, "slow-client"));
    if HasRoom(s.hub, p.phase.ch) then
      WithLedger(s1.(sends := s.sends[k := p.(phase := Over)]), p.client, l.(accepted := l.accepted + multiset{p.data}))
    else s1.(sends := s.sends[k := p.(phase := ToBuffer)])
  }

  /** Send's third section: the replay ring. */
  function DoBuffer(s: Sys, k: nat): Sys
    requires Enabled(s, Buffer(k))
  {
    var p := s.sends[k];
    var l := LedgerOf(s, p.client);
    var buf := BufferOf(s.hub, p.client);
    var l' := if s.hub.maxBuffer <= 0 then l.(disabled := l.disabled + multiset{p.data})
              else l.(evicted := if |buf| >= s.hub.maxBuffer then l.evicted + multiset{buf[0]} else l.evicted,
                      since := l.since + [p.data]);
    WithLedger(s.(hub := BufferEvent(s.hub, p.client, p.data), sends := s.sends[k := p.(phase := Over)]), p.client, l')
  }

  /** A handler makes a fresh channel and registers it. */
  function DoConnect(s: Sys, ch: nat, c: string, user: string, cap: nat): Sys {
    var l := LedgerOf(s, c);
    var buf := BufferOf(s.hub, c);
    var n := Min(|buf|, cap);
    var h := s.hub.(chans := s.hub.chans[ch := Chan(cap, [])]);
    WithLedger(
      s.(hub := Register(h, c, user, ch), handlers := s.handlers[ch := Handler(c, true)], last := s.last[c := ch]),
      c, l.(replayed := l.replayed + multiset(buf[..n]), replayDropped := l.replayDropped + multiset(buf[n..]), since := []))
  }

  /** A handler's deferred clean-up. */
  function DoDisconnect(s: Sys, ch: nat): Sys
    requires Enabled(s, Disconnect(ch))
  {
    var c := s.handlers[ch].client;
    var l := LedgerOf(s, c);
    var s1 := s.(hub := UnregisterIfCurrent(s.hub, c, ch), handlers := s.handlers[ch := Handler(c, false)]);
    if Mapped(s.hub, c) == Some(ch)
    then WithLedger(s1, c, l.(discarded := l.discarded + multiset(BufferOf(s.hub, c)), since := []))
    else s1
  }

  function DoReceive(s: Sys, ch: nat): Sys
    requires Enabled(s, Receive(ch))
  {
    s.(hub := s.hub.(chans := s.hub.chans[ch := s.hub.chans[ch].(items := s.hub.chans[ch].items[1..])]))
  }

  function DoFan(s: Sys, ids: seq<string>, data: string, reason: string): Sys
    requires Enabled(s, Fan(ids, data, reason))
  {
    s.(hub := FanOut(s.hub, ids, data, reason))
  }

  function Apply(s: Sys, e: Step): Sys
    requires Enabled(s, e)
  {
    match e
    case Begin(c, data) => DoBegin(s, c, data)
    case TryChannel(k) => DoTryChannel(s, k)
    case Buffer(k) => DoBuffer(s, k)
    case Connect(ch, c, user, cap) => DoConnect(s, ch, c, user, cap)
    case Disconnect(ch) => DoDisconnect(s, ch)
    case Receive(ch) => DoReceive(s, ch)
    case Fan(ids, data, reason) => DoFan(s, ids, data, reason)
  }

  ghost predicate Init(s: Sys) {
    s.hub.clients == map[] && s.hub.userOf == map[] && s.hub.buffer == map[] && s.hub.chans == map[]
    && s.sends == [] && s.handlers == map[] && s.last == map[] && s.ledgers == map[]
  }

  // ---- reconnect safety ----

  function Mapped(h: Hub, id: string): Option<nat> {
    if id in h.clients then Some(h.clients[id]) else None
  }

  /** The channel of the client's latest connect, until that handler cleans up. */
  function LiveChannel(s: Sys, id: string): Option<nat> {
    if id in s.last && s.last[id] in s.handlers && s.handlers[s.last[id]].live then Some(s.last[id]) else None
  }

  ghost predicate LatestWins(s: Sys) {
    forall id :: Mapped(s.hub, id) == LiveChannel(s, id)
  }

  ghost predicate Wired(s: Sys) {
    && Wf(s.hub) && LatestWins(s)
    && (forall id :: id in s.last ==> s.last[id] in s.handlers && s.handlers[s.last[id]].client == id)
    && s.handlers.Keys <= s.hub.chans.Keys
    && (forall k :: 0 <= k < |s.sends| && s.sends[k].phase.Found? ==> s.sends[k].phase.ch in s.hub.chans)
  }

  // ---- the ring ----

  function Newest(since: seq<string>, n: int): seq<string> {
    if n <= 0 then [] else if |since| <= n then since else since[|since| - n..]
  }

  /** Each buffer is the newest `maxBuffer` events since it was last emptied, in order. */
  ghost predicate Ring(s: Sys, c: string) {
    BufferOf(s.hub, c) == Newest(LedgerOf(s, c).since, s.hub.maxBuffer)
  }

  lemma NewestNext(since: seq<string>, n: int, data: string)
    requires n > 0
    ensures Newest(since + [data], n)
            == (if |Newest(since, n)| >= n then Newest(since, n)[1..] else Newest(since, n)) + [data]
  {
  }

  lemma NewestEmpty(n: int)
    ensures Newest([], n) == []
  {
  }

  // ---- accounting ----

  function Weight(p: Pending, c: string, x: string): nat {
    if p.client == c && p.data == x && !p.phase.Over? then 1 else 0
  }

  /** How many unfinished Sends carry event `x` to client `c`. */
  function InFlight(sends: seq<Pending>, c: string, x: string): nat {
    if sends == [] then 0
    else InFlight(sends[..|sends| - 1], c, x) + Weight(sends[|sends| - 1], c, x)
  }

  /** However often `x` was sent to `c`: each time it is in flight, was taken by a
      channel, sits in the buffer, or was lost in one of the ways the hub loses events. */
  ghost predicate Balanced(s: Sys, c: string, x: string) {
    Adds(LedgerOf(s, c), InFlight(s.sends, c, x), BufferOf(s.hub, c), x)
  }

  ghost predicate Adds(l: Ledger, inFlight: nat, buf: seq<string>, x: string) {
    l.begun[x] == inFlight + l.accepted[x] + multiset(buf)[x] + l.evicted[x]
                  + l.replayed[x] + l.replayDropped[x] + l.discarded[x] + l.disabled[x]
  }

  lemma {:induction false} InFlightChange(sends: seq<Pending>, k: nat, p: Pending, c: string, x: string)
    requires k < |sends|
    ensures InFlight(sends[k := p], c, x) == InFlight(sends, c, x) + Weight(p, c, x) - Weight(sends[k], c, x)
  {
    var n := |sends|;
    if k < n - 1 {
      InFlightChange(sends[..n - 1], k, p, c, x);
      assert sends[k := p][..n - 1] == sends[..n - 1][k := p];
    } else {
      assert sends[k := p][..n - 1] == sends[..n - 1];
    }
  }

  lemma InFlightMore(sends: seq<Pending>, p: Pending, c: string, x: string)
    ensures InFlight(sends + [p], c, x) == InFlight(sends, c, x) + Weight(p, c, x)
  {
    assert (sends + [p])[..|sends|] == sends;
  }

  lemma RingBag(buf: seq<string>, data: string, n: int, x: string)
    requires n > 0
    ensures multiset((if |buf| >= n then buf[1..] else buf) + [data])[x] + (if |buf| >= n then multiset{buf[0]}[x] else 0)
            == multiset(buf)[x] + multiset{data}[x]
  {
    if |buf| >= n { assert buf == [buf[0]] + buf[1..]; }
  }

  lemma SplitBag(buf: seq<string>, n: nat, x: string)
    requires n <= |buf|
    ensures multiset(buf[..n])[x] + multiset(buf[n..])[x] == multiset(buf)[x]
  {
    assert buf == buf[..n] + buf[n..];
  }

  // ---- every step keeps all three ----

  ghost predicate Good(s: Sys, c: string, x: string) {
    Wired(s) && Ring(s, c) && Balanced(s, c, x)
  }

  /** A step that neither registers nor cleans up leaves the wiring alone. */
  lemma SameWiring(s: Sys, s': Sys)
    requires Wired(s)
    requires s'.hub.clients == s.hub.clients && s'.hub.userOf == s.hub.userOf && s'.hub.chans.Keys == s.hub.chans.Keys
    requires s'.handlers == s.handlers && s'.last == s.last
    requires forall k :: 0 <= k < |s'.sends| && s'.sends[k].phase.Found? ==> s'.sends[k].phase.ch in s.hub.chans
    ensures Wired(s')
  {
    forall id ensures Mapped(s'.hub, id) == LiveChannel(s', id) {
      assert Mapped(s.hub, id) == LiveChannel(s, id);
    }
  }

  lemma BeginKeeps(s: Sys, d: string, data: string, c: string, x: string)
    requires Good(s, c, x)
    ensures Good(DoBegin(s, d, data), c, x)
  {
    hide DoBegin, Wired, InFlight, Newest, LedgerOf, BufferOf;
    BegunIs(s, d, data, c);
    BegunWired(s, d, data);
    InFlightMore(s.sends, DoBegin(s, d, data).sends[|s.sends|], c, x);
  }

  /** What the first section changes. */
  lemma BegunIs(s: Sys, d: string, data: string, c: string)
    ensures var s', l := DoBegin(s, d, data), LedgerOf(s, c);
            && |s'.sends| == |s.sends| + 1 && s'.sends == s.sends + [s'.sends[|s.sends|]] && s'.hub == s.hub
            && s'.sends[|s.sends|].client == d && s'.sends[|s.sends|].data == data && !s'.sends[|s.sends|].phase.Over?
            && LedgerOf(s', c) == if c == d then l.(begun := l.begun + multiset{data}) else l
  {}

  lemma BegunWired(s: Sys, d: string, data: string)
    requires Wired(s)
    ensures Wired(DoBegin(s, d, data))
  {
    SameWiring(s, DoBegin(s, d, data));
  }

  lemma TryChannelKeeps(s: Sys, k: nat, c: string, x: string)
    requires Good(s, c, x) && Enabled(s, TryChannel(k))
    ensures Good(DoTryChannel(s, k), c, x)
  {
    hide DoTryChannel, Wired, InFlight, Newest, LedgerOf, BufferOf, HasRoom, Enabled, Balanced;
    TriedIs(s, k, c);
    TriedWired(s, k);
    TakenBalanced(s, DoTryChannel(s, k), k, DoTryChannel(s, k).sends[k], c, x);
  }

  /** What the second section changes. */
  lemma TriedIs(s: Sys, k: nat, c: string)
    requires Enabled(s, TryChannel(k))
    ensures var s', l := DoTryChannel(s, k), LedgerOf(s, c);
            && k < |s.sends| && !s.sends[k].phase.Over? && |s'.sends| == |s.sends| && s'.sends == s.sends[k := s'.sends[k]]
            && s'.sends[k] == s.sends[k].(phase := s'.sends[k].phase) && !s'.sends[k].phase.Found?
            && BufferOf(s'.hub, c) == BufferOf(s.hub, c) && s'.hub.maxBuffer == s.hub.maxBuffer
            && LedgerOf(s', c) == if s.sends[k].client == c && s'.sends[k].phase.Over?
                                  then l.(accepted := l.accepted + multiset{s'.sends[k].data}) else l
  {
    hide HasRoom;
  }

  lemma TriedWired(s: Sys, k: nat)
    requires Wired(s) && Enabled(s, TryChannel(k))
    ensures Wired(DoTryChannel(s, k))
  {
    hide LedgerOf, HasRoom;
    SameWiring(s, DoTryChannel(s, k));
  }

  lemma TakenBalanced(s: Sys, s': Sys, k: nat, p': Pending, c: string, x: string)
    requires Balanced(s, c, x) && k < |s.sends|
    requires s'.sends == s.sends[k := p'] && BufferOf(s'.hub, c) == BufferOf(s.hub, c)
    requires p' == s.sends[k].(phase := p'.phase) && !s.sends[k].phase.Over? && !p'.phase.Found?
    requires var l := LedgerOf(s, c);
             LedgerOf(s', c) == if s.sends[k].client == c && p'.phase.Over? then l.(accepted := l.accepted + multiset{p'.data}) else l
    ensures Balanced(s', c, x)
  {
    InFlightChange(s.sends, k, p', c, x);
    hide LedgerOf, BufferOf, InFlight;
  }

  lemma BufferKeeps(s: Sys, k: nat, c: string, x: string)
    requires Good(s, c, x) && Enabled(s, Buffer(k))
    ensures Good(DoBuffer(s, k), c, x)
  {
    var s', p := DoBuffer(s, k), s.sends[k];
    SameWiring(s, s');
    if p.client == c {
      BufferedKeeps(s, s', k, c, x);
    } else {
      InFlightChange(s.sends, k, s'.sends[k], c, x);
      hide Wired, InFlight, Newest;
      assert LedgerOf(s', c) == LedgerOf(s, c) && BufferOf(s'.hub, c) == BufferOf(s.hub, c);
    }
  }

  lemma BufferedKeeps(s: Sys, s': Sys, k: nat, c: string, x: string)
    requires Ring(s, c) && Balanced(s, c, x) && Enabled(s, Buffer(k)) && s' == DoBuffer(s, k) && s.sends[k].client == c
    ensures Ring(s', c) && Balanced(s', c, x)
  {
    hide DoBuffer, LedgerOf, BufferOf, InFlight, Newest, Adds;
    BufferEffect(s, k);
    var p, l, buf, n := s.sends[k], LedgerOf(s, c), BufferOf(s.hub, c), s.hub.maxBuffer;
    InFlightChange(s.sends, k, p.(phase := Over), c, x);
    BufferedAdds(l, InFlight(s.sends, c, x), buf, n, p.data, x);
    if n > 0 { NewestNext(l.since, n, p.data); }
    hide Buffered;
  }

  lemma BufferEffect(s: Sys, k: nat)
    requires Enabled(s, Buffer(k))
    ensures var s', p, n := DoBuffer(s, k), s.sends[k], s.hub.maxBuffer;
            && s'.sends == s.sends[k := p.(phase := Over)] && s'.hub.maxBuffer == n
            && LedgerOf(s', p.client) == Buffered(LedgerOf(s, p.client), BufferOf(s.hub, p.client), n, p.data)
            && BufferOf(s'.hub, p.client) == Kept(BufferOf(s.hub, p.client), n, p.data)
  {
  }

  function Buffered(l: Ledger, buf: seq<string>, n: int, data: string): Ledger {
    if n <= 0 then l.(disabled := l.disabled + multiset{data})
    else l.(evicted := if |buf| >= n then l.evicted + multiset{buf[0]} else l.evicted, since := l.since + [data])
  }

  function Kept(buf: seq<string>, n: int, data: string): seq<string> {
    if n <= 0 then buf else (if |buf| >= n then buf[1..] else buf) + [data]
  }

  lemma BufferedAdds(l: Ledger, inFlight: nat, buf: seq<string>, n: int, data: string, x: string)
    requires Adds(l, inFlight, buf, x) && (data == x ==> inFlight > 0)
    ensures Adds(Buffered(l, buf, n, data), inFlight - (if data == x then 1 else 0), Kept(buf, n, data), x)
    ensures Buffered(l, buf, n, data).since == if n <= 0 then l.since else l.since + [data]
  {
    if n > 0 { RingBag(buf, data, n, x); }
  }

  lemma ConnectWiring(s: Sys, ch: nat, d: string, user: string, cap: nat)
    requires Wired(s) && Enabled(s, Connect(ch, d, user, cap))
    ensures Wired(DoConnect(s, ch, d, user, cap))
  {
    hide Replay, LedgerOf, BufferOf, Min;
    var s' := DoConnect(s, ch, d, user, cap);
    forall id ensures Mapped(s'.hub, id) == LiveChannel(s', id) {
      assert Mapped(s.hub, id) == LiveChannel(s, id);
    }
    hide Mapped, LiveChannel;
  }

  lemma ConnectKeeps(s: Sys, ch: nat, d: string, user: string, cap: nat, c: string, x: string)
    requires Good(s, c, x) && Enabled(s, Connect(ch, d, user, cap))
    ensures Good(DoConnect(s, ch, d, user, cap), c, x)
  {
    ConnectWiring(s, ch, d, user, cap);
    var s', l, buf := DoConnect(s, ch, d, user, cap), LedgerOf(s, c), BufferOf(s.hub, c);
    var n := Min(|buf|, cap);
    hide Wired, Replay, InFlight, Newest;
    NewestEmpty(s.hub.maxBuffer);
    if c == d {
      assert BufferOf(s'.hub, c) == [] && LedgerOf(s', c)
          == l.(replayed := l.replayed + multiset(buf[..n]), replayDropped := l.replayDropped + multiset(buf[n..]), since := []);
      SplitBag(buf, n, x);
    } else {
      assert BufferOf(s'.hub, c) == buf && LedgerOf(s', c) == l;
    }
    hide DoConnect, LedgerOf, BufferOf;
  }

  lemma DisconnectWiring(s: Sys, ch: nat)
    requires Wired(s) && Enabled(s, Disconnect(ch))
    ensures Wired(DoDisconnect(s, ch))
  {
    var s' := DoDisconnect(s, ch);
    assert Mapped(s.hub, s.handlers[ch].client) == LiveChannel(s, s.handlers[ch].client);
    forall id ensures Mapped(s'.hub, id) == LiveChannel(s', id) {
      assert Mapped(s.hub, id) == LiveChannel(s, id);
    }
    hide Mapped, LiveChannel;
  }

  lemma DisconnectKeeps(s: Sys, ch: nat, c: string, x: string)
    requires Good(s, c, x) && Enabled(s, Disconnect(ch))
    ensures Good(DoDisconnect(s, ch), c, x)
  {
    DisconnectWiring(s, ch);
    var s', d, l := DoDisconnect(s, ch), s.handlers[ch].client, LedgerOf(s, c);
    hide Wired, InFlight, Newest;
    NewestEmpty(s.hub.maxBuffer);
    if c == d && Mapped(s.hub, d) == Some(ch) {
      assert BufferOf(s'.hub, c) == [] && LedgerOf(s', c) == l.(discarded := l.discarded + multiset(BufferOf(s.hub, c)), since := []);
    } else {
      assert BufferOf(s'.hub, c) == BufferOf(s.hub, c) && LedgerOf(s', c) == l;
    }
    hide DoDisconnect, LedgerOf, BufferOf;
  }

  lemma ReceiveKeeps(s: Sys, ch: nat, c: string, x: string)
    requires Good(s, c, x) && Enabled(s, Receive(ch))
    ensures Good(DoReceive(s, ch), c, x)
  {
    SameWiring(s, DoReceive(s, ch));
    hide InFlight, Newest, Wired;
  }

  lemma FanKeeps(s: Sys, ids: seq<string>, data: string, reason: string, c: string, x: string)
    requires Good(s, c, x) && Enabled(s, Fan(ids, data, reason))
    ensures Good(DoFan(s, ids, data, reason), c, x)
  {
    SameWiring(s, DoFan(s, ids, data, reason));
    hide InFlight, Newest, Wired;
  }

  lemma ApplyKeeps(s: Sys, e: Step, c: string, x: string)
    requires Good(s, c, x) && Enabled(s, e)
    ensures Good(Apply(s, e), c, x)
  {
    hide Good, DoBegin, DoTryChannel, DoBuffer, DoConnect, DoDisconnect, DoReceive, DoFan;
    match e {
      case Begin(d, data) => BeginKeeps(s, d, data, c, x);
      case TryChannel(k) => TryChannelKeeps(s, k, c, x);
      case Buffer(k) => BufferKeeps(s, k, c, x);
      case Connect(ch, d, user, cap) => ConnectKeeps(s, ch, d, user, cap, c, x);
      case Disconnect(ch) => DisconnectKeeps(s, ch, c, x);
      case Receive(ch) => ReceiveKeeps(s, ch, c, x);
      case Fan(ids, data, reason) => FanKeeps(s, ids, data, reason, c, x);
    }
  }

  ghost predicate IsRun(states: seq<Sys>, steps: seq<Step>) {
    && |states| == |steps| + 1 && Init(states[0])
    && forall k :: 0 <= k < |steps| ==> Enabled(states[k], steps[k]) && states[k + 1] == Apply(states[k], steps[k])
  }

  /** In every interleaving: a client is mapped to the channel of its latest
      connect until that handler cleans up, and only then; each buffer is the
      newest events in order; and every event is accounted for. */
  lemma {:induction false} EveryRunIsGood(states: seq<Sys>, steps: seq<Step>, c: string, x: string)
    requires IsRun(states, steps)
    ensures Wired(states[|steps|]) && Ring(states[|steps|], c) && Balanced(states[|steps|], c, x)
  {
    var n := |steps|;
    if n > 0 {
      hide Wired, Ring, Balanced, Init, Apply, Enabled;
      assert IsRun(states[..n], steps[..n - 1]);
      EveryRunIsGood(states[..n], steps[..n - 1], c, x);
      ApplyKeeps(states[n - 1], steps[n - 1], c, x);
    }
  }

  lemma ChannelsAreDistinct(s: Sys)
    requires Wired(s)
    ensures forall a, b :: a in s.hub.clients && b in s.hub.clients && s.hub.clients[a] == s.hub.clients[b] ==> a == b
  {
    forall a, b | a in s.hub.clients && b in s.hub.clients && s.hub.clients[a] == s.hub.clients[b] ensures a == b {
      assert Mapped(s.hub, a) == LiveChannel(s, a) && Mapped(s.hub, b) == LiveChannel(s, b);
    }
  }

  /** Step j is the client's latest connect. */
  predicate LatestConnect(steps: seq<Step>, j: nat, c: string) {
    && j < |steps| && steps[j].Connect? && steps[j].client == c
    && forall i :: j < i < |steps| ==> !(steps[i].Connect? && steps[i].client == c)
  }

  lemma ConnectedBefore(s: Sys, ch: nat, d: string, user: string, cap: nat, c: string)
    requires Wired(s) && Enabled(s, Connect(ch, d, user, cap)) && d != c && c in DoConnect(s, ch, d, user, cap).hub.clients
    ensures var h := DoConnect(s, ch, d, user, cap).hub;
            c in s.hub.clients && h.clients[c] == s.hub.clients[c] && c in s.hub.userOf && c in h.userOf && h.userOf[c] == s.hub.userOf[c]
  {
    hide LatestWins, BufferOf, LedgerOf, Min, Replay;
  }

  lemma RegisteredBefore(s: Sys, e: Step, c: string)
    requires Wired(s) && Enabled(s, e) && !(e.Connect? && e.client == c) && c in Apply(s, e).hub.clients
    ensures c in s.hub.clients && Apply(s, e).hub.clients[c] == s.hub.clients[c]
    ensures c in s.hub.userOf && c in Apply(s, e).hub.userOf && Apply(s, e).hub.userOf[c] == s.hub.userOf[c]
  {
    if e.Connect? {
      hide DoConnect, Wired, Enabled;
      ConnectedBefore(s, e.ch, e.client, e.user, e.cap, c);
    } else {
      hide LatestWins, BufferOf, LedgerOf, HasRoom, Mapped, LiveChannel, Min, Replay, FanOut, DoConnect;
    }
  }

  lemma RegisteredNow(s: Sys, ch: nat, c: string, user: string, cap: nat)
    requires Enabled(s, Connect(ch, c, user, cap))
    ensures var h := DoConnect(s, ch, c, user, cap).hub;
            c in h.clients && h.clients[c] == ch && c in h.userOf && h.userOf[c] == user
  {
    hide BufferOf, LedgerOf, Min;
  }

  lemma LatestIsUnique(steps: seq<Step>, i: nat, j: nat, c: string)
    requires LatestConnect(steps, i, c) && LatestConnect(steps, j, c)
    ensures i == j
  {}

  /** In every interleaving a registered client has the channel and the user that its
      latest connect gave. */
  lemma {:induction false} RegisteredAsConnected(states: seq<Sys>, steps: seq<Step>, c: string) returns (j: nat)
    requires IsRun(states, steps) && c in states[|steps|].hub.clients
    ensures LatestConnect(steps, j, c)
    ensures var h := states[|steps|].hub; h.clients[c] == steps[j].ch && c in h.userOf && h.userOf[c] == steps[j].user
  {
    hide *;
    var n := |steps|;
    RunFront(states, steps);
    if n > 0 {
      var e := steps[n - 1];
      EveryRunIsGood(states[..n], steps[..n - 1], c, "");
      if e.Connect? && e.client == c {
        j := n - 1;
        ConnectIs(states[n - 1], e);
        NowLatest(steps, c);
      } else {
        RegisteredBefore(states[n - 1], e, c);
        j := RegisteredAsConnected(states[..n], steps[..n - 1], c);
        StillLatest(steps, j, c);
      }
    }
  }

  lemma RunFront(states: seq<Sys>, steps: seq<Step>)
    requires IsRun(states, steps)
    ensures |states| == |steps| + 1
    ensures |steps| == 0 ==> states[0].hub.clients == map[]
    ensures |steps| > 0 ==>
              var n := |steps|;
              && IsRun(states[..n], steps[..n - 1])
              && Enabled(states[n - 1], steps[n - 1]) && states[n] == Apply(states[n - 1], steps[n - 1])
  {}

  lemma NowLatest(steps: seq<Step>, c: string)
    requires steps != [] && steps[|steps| - 1].Connect? && steps[|steps| - 1].client == c
    ensures LatestConnect(steps, |steps| - 1, c)
  {}

  lemma StillLatest(steps: seq<Step>, j: nat, c: string)
    requires steps != [] && !(steps[|steps| - 1].Connect? && steps[|steps| - 1].client == c)
    requires LatestConnect(steps[..|steps| - 1], j, c)
    ensures j < |steps| && LatestConnect(steps, j, c) && steps[..|steps| - 1][j] == steps[j]
  {}

  lemma ConnectIs(s: Sys, e: Step)
    requires Enabled(s, e) && e.Connect?
    ensures var h := Apply(s, e).hub; e.client in h.clients && h.clients[e.client] == e.ch && e.client in h.userOf && h.userOf[e.client] == e.user
  {
    RegisteredNow(s, e.ch, e.client, e.user, e.cap);
  }

  /** At every state of every run: a user's broadcast gives the event, once, to each
      registered client with room whose latest connect was that user's, unless it is
      the tab it came from; every other client's channel is as it was. */
  lemma BroadcastReachesItsUser(states: seq<Sys>, steps: seq<Step>, ids: seq<string>, data: string, user: string,
                                excluded: string, c: string, j: nat)
    requires IsRun(states, steps) && c in states[|steps|].hub.clients && LatestConnect(steps, j, c)
    requires var h := states[|steps|].hub;
             Visits(ids, set id | id in h.clients && id != excluded && id in h.userOf && h.userOf[id] == user)
    ensures Enabled(states[|steps|], Fan(ids, data, "slow-client-broadcast-user"))
    ensures var s := states[|steps|];
            var s' := Apply(s, Fan(ids, data, "slow-client-broadcast-user"));
            var ch := steps[j].ch;
            && ch in s.hub.chans
            && s'.hub.chans[ch] == if steps[j].user == user && c != excluded && |s.hub.chans[ch].items| < s.hub.chans[ch].cap
                                   then s.hub.chans[ch].(items := s.hub.chans[ch].items + [data]) else s.hub.chans[ch]
  {
    EveryRunIsGood(states, steps, "", "");
    var i := RegisteredAsConnected(states, steps, c);
    LatestIsUnique(steps, i, j, c);
    var s := states[|steps|];
    ChannelsAreDistinct(s);
    hide IsRun, LatestWins, Ring, Balanced, LatestConnect;
    FanOutReaches(s.hub, ids, data, "slow-client-broadcast-user", steps[j].ch);
  }

  /** Done without interruption, the three sections of a Send are the hub's Send. */
  lemma SendIsItsSections(s: Sys, c: string, data: string)
    requires Wf(s.hub)
    ensures var s1, k := DoBegin(s, c, data), |s.sends|;
            && Enabled(s1, if c in s.hub.clients then TryChannel(k) else Buffer(k))
            && var s2 := if c in s.hub.clients then DoTryChannel(s1, k) else s1;
               if s2.sends[k].phase.Over? then s2.hub == Send(s.hub, c, data)
               else Enabled(s2, Buffer(k)) && DoBuffer(s2, k).hub == Send(s.hub, c, data)
  {
    hide LedgerOf;
  }

  /** What the ledger books as replayed is what the new channel holds. With room
      for the whole ring, that is every buffered event, in order, and no drop. */
  lemma ConnectReplays(s: Sys, ch: nat, c: string, user: string, cap: nat)
    requires Enabled(s, Connect(ch, c, user, cap)) && Ring(s, c)
    ensures var s', buf := DoConnect(s, ch, c, user, cap), BufferOf(s.hub, c);
            var n := Min(|buf|, cap);
            && s'.hub.chans[ch].items == buf[..n] && |s'.hub.drops| == |s.hub.drops| + |buf| - n
            && s'.hub.drops == s.hub.drops + Dropped(c, buf[n..], "slow-client-replay")
            && (cap >= s.hub.maxBuffer ==> s'.hub.chans[ch].items == buf && |s'.hub.drops| == |s.hub.drops|)
  {
    var buf := BufferOf(s.hub, c);
    var h := s.hub.(chans := s.hub.chans[ch := Chan(cap, [])]);
    var h1 := h.(clients := h.clients[c := ch], userOf := h.userOf[c := user]);
    ReplayFills(h1, c, ch, buf, Min(|buf|, cap));
    ReplayDrops(h1, c, ch, buf, Min(|buf|, cap));
    hide Replay, Newest, LedgerOf, Dropped;
    assert cap >= s.hub.maxBuffer ==> |buf| <= cap && buf[..|buf|] == buf;
  }
}
