/**
 The JetStream transport of todo operations: the body framing with the
 publisher's fingerprint, the loop filter, and the stream's message-id window.
 */
module Transport {
  import opened Wrappers

  newtype byte = x: int | 0 <= x < 256

  type Bytes = seq<byte>

  const COLON: byte := 58
  const PREFIX_LEN := 8
  const WORD := 0x1_0000_0000

  // ---- fingerprints ----

  /** FNV-1a, 32 bits. */
  function Fnv1a(id: Bytes): bv32 {
    if id == [] then 2166136261
    else (Fnv1a(id[..|id| - 1]) ^ (id[|id| - 1] as bv32)) * 16777619
  }

  function Hash(id: Bytes): (h: nat)
    ensures h < WORD
  {
    Fnv1a(id) as nat % WORD
  }

  function HexDigit(n: nat): byte
    requires n < 16
  {
    if n < 10 then (48 + n) as byte else (87 + n) as byte
  }

  /** `%0<width>x`: the low `width` hex digits, most significant first. */
  function Hex(h: nat, width: nat): (s: Bytes)
    ensures |s| == width
  {
    if width == 0 then [] else Hex(h / 16, width - 1) + [HexDigit(h % 16)]
  }

  function Pow16(n: nat): (p: nat)
    ensures p > 0
  {
    if n == 0 then 1 else 16 * Pow16(n - 1)
  }

  /** Fixed-width hex tells any two numbers that fit the width apart. */
  lemma {:induction false} HexInjective(a: nat, b: nat, width: nat)
    requires a < Pow16(width) && b < Pow16(width) && Hex(a, width) == Hex(b, width)
    ensures a == b
  {
    if width > 0 {
      var s, t := Hex(a, width), Hex(b, width);
      assert s[..width - 1] == Hex(a / 16, width - 1) && t[..width - 1] == Hex(b / 16, width - 1);
      assert s[width - 1] == HexDigit(a % 16) && t[width - 1] == HexDigit(b % 16);
      HexInjective(a / 16, b / 16, width - 1);
    }
  }

  lemma Pow16Is()
    ensures Pow16(8) == WORD
  {
    assert Pow16(2) == 256;
    assert Pow16(4) == 65536;
    assert Pow16(6) == 16777216;
  }

  /** The hash's published test values, for the empty text and for "a", and the print of the latter, e40c292c. */
  lemma FnvValues()
    ensures Hash([]) == 0x811c9dc5 && Hash([97]) == 0xe40c292c
    ensures PublisherPrefix([97]) == [101, 52, 48, 99, 50, 57, 50, 99]
  {
    assert [97 as byte][..0] == [];
    var h := 0xe40c292c;
    assert Fnv1a([97]) == (Fnv1a([]) ^ 97) * 16777619 == 0xe40c292c;
    assert Hex(0xe, 1) == [101] by { assert Hex(0, 0) == []; }
    assert Hex(0xe4, 2) == Hex(0xe, 1) + [52];
    assert Hex(0xe40, 3) == Hex(0xe4, 2) + [48];
    assert Hex(0xe40c, 4) == Hex(0xe40, 3) + [99];
    assert Hex(0xe40c2, 5) == Hex(0xe40c, 4) + [50];
    assert Hex(0xe40c29, 6) == Hex(0xe40c2, 5) + [57];
    assert Hex(0xe40c292, 7) == Hex(0xe40c29, 6) + [50];
    assert Hex(0xe40c292c, 8) == Hex(0xe40c292, 7) + [99];
  }

  function PublisherPrefix(id: Bytes): Bytes {
    if id == [] then [] else Hex(Hash(id), PREFIX_LEN)
  }

  // ---- framing ----

  function Frame(publisher: Bytes, updates: Bytes): Bytes {
    PublisherPrefix(publisher) + [COLON] + updates
  }

  function IndexByte(s: Bytes, c: byte): (r: Option<nat>)
    ensures r.Some? ==> r.value < |s| && s[r.value] == c && c !in s[..r.value]
    ensures r.None? ==> c !in s
  {
    if s == [] then None
    else if s[0] == c then Some(0)
    else
      match IndexByte(s[1..], c)
      case None => None
      case Some(i) => Some(i + 1)
  }

  datatype Split = Split(publisher: Bytes, body: Bytes, ok: bool)

  function SplitPublisherPrefix(data: Bytes): Split {
    if |data| < PREFIX_LEN + 1 then Split([], data, false)
    else
      match IndexByte(data[PREFIX_LEN..], COLON)
      case None => Split([], data, false)
      case Some(i) => Split(data[..PREFIX_LEN], data[PREFIX_LEN + i + 1..], true)
  }

  /** Splitting a published body gives back the fingerprint and the update
      bytes, whatever the bytes are. */
  lemma SplitOfFrame(publisher: Bytes, updates: Bytes)
    requires publisher != []
    ensures SplitPublisherPrefix(Frame(publisher, updates)) == Split(Hex(Hash(publisher), PREFIX_LEN), updates, true)
  {
    var data, p := Frame(publisher, updates), PublisherPrefix(publisher);
    assert data[PREFIX_LEN..][0] == COLON;
    assert data[..PREFIX_LEN] == p;
    assert data[PREFIX_LEN + 1..] == updates;
  }

  // ---- subscription ----

  datatype Message = Message(owner: string, body: Bytes, msgId: string)

  datatype Received = Received(owner: string, publisher: Bytes, updates: Bytes)

  predicate SubjectMatches(subscribed: string, owner: string) {
    subscribed == ">" || subscribed == owner
  }

  /** What the subscriber's callback hands to the store, if anything. */
  function Receive(self: Bytes, subscribed: string, m: Message): Option<Received> {
    if !SubjectMatches(subscribed, m.owner) || m.msgId == "" then None
    else
      var s := SplitPublisherPrefix(m.body);
      if s.publisher != [] && s.publisher == PublisherPrefix(self) then None
      else Some(Received(subscribed, s.publisher, s.body))
  }

  /** The loop filter drops a message exactly when the two 32-bit hashes are
      equal: its own messages, and every message of a colliding peer. */
  lemma FilterDropsIffHashesEqual(self: Bytes, publisher: Bytes, owner: string, updates: Bytes, msgId: string)
    requires self != [] && publisher != [] && msgId != ""
    ensures Receive(self, owner, Message(owner, Frame(publisher, updates), msgId)).None? <==> Hash(self) == Hash(publisher)
  {
    SplitOfFrame(publisher, updates);
    Pow16Is();
    if PublisherPrefix(self) == PublisherPrefix(publisher) {
      HexInjective(Hash(self), Hash(publisher), PREFIX_LEN);
    }
  }

  /** A peer's update reaches its owner's document exactly under a per-owner
      subscription: the wildcard subscription files every update under ">". */
  lemma ReachesOwnerIffSubscribedToOwner(self: Bytes, subscribed: string, publisher: Bytes, owner: string,
                                         updates: Bytes, msgId: string)
    requires self != [] && publisher != [] && msgId != "" && Hash(self) != Hash(publisher) && owner != ">"
    ensures Receive(self, subscribed, Message(owner, Frame(publisher, updates), msgId))
              == Some(Received(owner, Hex(Hash(publisher), PREFIX_LEN), updates))
            <==> subscribed == owner
  {
    SplitOfFrame(publisher, updates);
    FilterDropsIffHashesEqual(self, publisher, owner, updates, msgId);
  }

  /** A message without an id is never handed on. */
  lemma NamelessIsIgnored(self: Bytes, subscribed: string, m: Message)
    requires m.msgId == ""
    ensures Receive(self, subscribed, m).None?
  {}

  /** The wildcard subscription receives every owner's updates, and files each under
      ">"; a subscription to someone else receives none. */
  lemma WildcardReceivesAll(self: Bytes, subscribed: string, publisher: Bytes, owner: string, updates: Bytes, msgId: string)
    requires self != [] && publisher != [] && msgId != "" && Hash(self) != Hash(publisher)
    ensures var m := Message(owner, Frame(publisher, updates), msgId);
            && Receive(self, ">", m) == Some(Received(">", Hex(Hash(publisher), PREFIX_LEN), updates))
            && (subscribed != ">" && subscribed != owner ==> Receive(self, subscribed, m).None?)
  {
    SplitOfFrame(publisher, updates);
    FilterDropsIffHashesEqual(self, publisher, owner, updates, msgId);
  }

  /** A published message is dropped by its publisher, and heard whole, under the
      publisher's fingerprint, by everyone whose hash differs. */
  lemma PublishedIsHeard(publisher: Bytes, owner: string, updates: Bytes, msgId: string)
    requires publisher != [] && msgId != ""
    ensures var m, mark := Message(owner, Frame(publisher, updates), msgId), Hex(Hash(publisher), PREFIX_LEN);
            && SplitPublisherPrefix(m.body) == Split(mark, updates, true)
            && Receive(publisher, owner, m).None?
            && forall self: Bytes :: self != [] && Hash(self) != Hash(publisher) ==>
                 Receive(self, owner, m) == Some(Received(owner, mark, updates))
  {
    SplitOfFrame(publisher, updates);
    FilterDropsIffHashesEqual(publisher, publisher, owner, updates, msgId);
    forall self: Bytes | self != [] && Hash(self) != Hash(publisher)
      ensures Receive(self, owner, Message(owner, Frame(publisher, updates), msgId))
              == Some(Received(owner, Hex(Hash(publisher), PREFIX_LEN), updates))
    {
      FilterDropsIffHashesEqual(self, publisher, owner, updates, msgId);
    }
  }

  // ---- the stream ----

  /** The stream's part of the contract: a message id seen within the duplicate
      window is dropped, any other message is appended. */
  class Stream {
    var messages: seq<Message>
    var window: set<string>

    constructor ()
      ensures messages == [] && window == {}
    {
      messages, window := [], {};
    }

    method Append(m: Message) returns (accepted: bool)
      modifies this
      ensures accepted <==> m.msgId !in old(window)
      ensures messages == if accepted then old(messages) + [m] else old(messages)
      ensures window == old(window) + {m.msgId}
    {
      accepted := m.msgId !in window;
      if accepted { messages := messages + [m]; }
      window := window + {m.msgId};
    }
  }

  class CRDTTransport {
    const publisherId: Bytes
    const stream: Stream

    constructor (publisherId: Bytes, stream: Stream)
      requires publisherId != []
      ensures this.publisherId == publisherId && this.stream == stream
    {
      this.publisherId, this.stream := publisherId, stream;
    }

    /** An operation without an id or an owner is refused. A repeated id is no
        error for the publisher, and no message for the peers. */
    method Publish(opId: string, owner: string, updates: Bytes) returns (ok: bool)
      modifies stream
      ensures ok <==> opId != "" && owner != ""
      ensures !ok ==> stream.messages == old(stream.messages) && stream.window == old(stream.window)
      ensures ok && opId in old(stream.window) ==> stream.messages == old(stream.messages)
      ensures ok && opId !in old(stream.window) && publisherId != [] ==>
                && |stream.messages| == |old(stream.messages)| + 1 && stream.messages[..|old(stream.messages)|] == old(stream.messages)
                && var m := stream.messages[|old(stream.messages)|];
                   && m.owner == owner && m.msgId == opId
                   && SplitPublisherPrefix(m.body) == Split(Hex(Hash(publisherId), PREFIX_LEN), updates, true)
                   && Receive(publisherId, owner, m).None?
                   && forall self: Bytes :: self != [] && Hash(self) != Hash(publisherId) ==>
                        Receive(self, owner, m) == Some(Received(owner, Hex(Hash(publisherId), PREFIX_LEN), updates))
    {
      if opId == "" || owner == "" { return false; }
      var accepted := stream.Append(Message(owner, Frame(publisherId, updates), opId));
      if publisherId != [] { PublishedIsHeard(publisherId, owner, updates, opId); }
      return true;
    }
  }
}
