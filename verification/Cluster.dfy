/**
 How Go nodes pass messages to each other through the Redis adapter (server/go/adapter/redis/redis.go), and
 what a node does with one that arrives (server/go/hub.go, room.go). The key prefix is literal text.
 */
module Cluster {
  import opened Wire
  import Go = GoCodec

  type NodeId = Bytes
  type ConnId = Bytes

  // ---------------------------------------------------------------- envelopes

  function Pack(node: NodeId, raw: Bytes): Bytes {
    Framed(W4, node) + raw
  }

  /** EncodeEnvelope (redis.go:147-154). */
  method EncodeEnvelope(node: NodeId, raw: Bytes) returns (env: array<byte>)
    ensures fresh(env) && env[..] == Pack(node, raw)
  {
    env := new byte[4 + |node| + |raw|];
    assert env[..0] == [];
    var next := Go.PutField(env, 0, W4, node);
    Go.Copy(env, next, raw);
    assert env[..] == env[..next + |raw|];
  }

  /** DecodeEnvelope (redis.go:157-167). */
  function DecodeEnvelope(payload: Bytes): Option<(NodeId, Bytes)> {
    if |payload| < 4 then None
    else
      var nodeIdLen := ReadU32(payload, 0);
      if nodeIdLen <= 0 || |payload| < 4 + nodeIdLen then None
      else Some((payload[4..4 + nodeIdLen], payload[4 + nodeIdLen..]))
  }

  /** An envelope opens to what was packed exactly if the node has an ID whose length fits. */
  lemma EnvelopeInverse(payload: Bytes, node: NodeId, raw: Bytes)
    ensures DecodeEnvelope(payload) == Some((node, raw)) <==> 0 < |node| < Limit(W4) && payload == Pack(node, raw)
  {
    hide Framed;
    var end := 4 + |node|;
    FieldInverse(W4, payload, 0, node, end);
    var framed := Framed(W4, node);
    if DecodeEnvelope(payload) == Some((node, raw)) {
      assert payload == payload[0..end] + payload[end..];
    }
    if payload == framed + raw {
      assert payload[0..end] == framed && payload[end..] == raw;
    }
  }

  // ---------------------------------------------------------------- channels

  const ROOM: Bytes := [0x72, 0x6F, 0x6F, 0x6D, 0x3A]
  const NODE: Bytes := [0x6E, 0x6F, 0x64, 0x65, 0x3A]
  const ROOT: Bytes := [0x72, 0x6F, 0x6F, 0x74]

  function TrimPrefix(s: Bytes, p: Bytes): Bytes {
    if p <= s then s[|p|..] else s
  }

  /** Publish (redis.go:175) and PublishDirect (redis.go:201). */
  function RoomChannel(prefix: Bytes, room: Bytes): Bytes {
    prefix + ROOM + room
  }

  function NodeChannel(prefix: Bytes, node: NodeId): Bytes {
    prefix + NODE + node
  }

  /** The node's two subscriptions (redis.go:284-297). */
  predicate PatternMatches(prefix: Bytes, channel: Bytes) {
    prefix + ROOM <= channel
  }

  predicate OwnChannel(prefix: Bytes, node: NodeId, channel: Bytes) {
    channel == NodeChannel(prefix, node)
  }

  lemma Trimmed(a: Bytes, b: Bytes, p: Bytes)
    ensures TrimPrefix(a + b, a) == b
    ensures a + p <= a + b <==> p <= b
  {
    assert (a + b)[|a|..] == b;
    if a + p <= a + b {
      assert (a + p)[|a|..] == p;
    }
    if p <= b {
      assert a + b == a + p + b[|p|..];
    }
  }

  lemma Distinct(x: Bytes, y: Bytes)
    ensures !(ROOM <= NODE + x) && !(NODE <= ROOM + y)
  {
    assert (NODE + x)[0] == 0x6E && (ROOM + y)[0] == 0x72;
  }

  /** A room channel matches the pattern of every node and no node's own channel. */
  lemma RoomChannelReach(prefix: Bytes, room: Bytes, node: NodeId)
    ensures PatternMatches(prefix, RoomChannel(prefix, room)) && !OwnChannel(prefix, node, RoomChannel(prefix, room))
  {
    assert RoomChannel(prefix, room) == prefix + (ROOM + room);
    assert NodeChannel(prefix, node) == prefix + (NODE + node);
    Trimmed(prefix, ROOM + room, ROOM);
    Trimmed(prefix, NODE + node, ROOM);
    Distinct(node, room);
  }

  /** A node channel matches nobody's pattern and is the own channel of that node alone. */
  lemma NodeChannelReach(prefix: Bytes, target: NodeId, node: NodeId)
    ensures !PatternMatches(prefix, NodeChannel(prefix, target))
    ensures OwnChannel(prefix, node, NodeChannel(prefix, target)) <==> node == target
  {
    assert NodeChannel(prefix, target) == prefix + (NODE + target);
    assert NodeChannel(prefix, node) == prefix + (NODE + node);
    Trimmed(prefix, NODE + target, ROOM);
    Distinct(target, []);
    Trimmed(prefix + NODE, target, []);
    Trimmed(prefix + NODE, node, []);
  }

  // ---------------------------------------------------------------- a message arrives

  datatype Incoming = Dropped | Direct(msg: Message) | Fanout(room: Bytes, msg: Message)

  /** handleIncoming (redis.go:406-432) and then the callback of Configure (hub.go:79-107). */
  function Handle(node: NodeId, prefix: Bytes, channel: Bytes, payload: Bytes): Incoming {
    match DecodeEnvelope(payload)
    case None => Dropped
    case Some((sender, raw)) =>
      if sender == node then Dropped
      else
        match Strict(raw)
        case None => Dropped
        case Some(packet) => Callback(TrimPrefix(TrimPrefix(channel, prefix), ROOM), packet)
  }

  function Callback(suffix: Bytes, msg: Message): Incoming {
    if NODE <= suffix then (if msg.dst != [] then Direct(msg) else Dropped)
    else if msg.dst != [] then Direct(msg)
    else Fanout(TrimPrefix(suffix, ROOM), msg)
  }

  /** A published message as the other nodes get to see it. */
  ghost predicate Sendable(origin: NodeId, msg: Message) {
    0 < |origin| < Limit(W4) && InRange(msg) && TextFields(msg) && msg.version != 0
  }

  lemma Opened(origin: NodeId, msg: Message)
    requires Sendable(origin, msg)
    ensures DecodeEnvelope(Pack(origin, Serialize(msg))) == Some((origin, Serialize(msg)))
    ensures Strict(Serialize(msg)) == Some(msg)
  {
    EnvelopeInverse(Pack(origin, Serialize(msg)), origin, Serialize(msg));
    StrictExact(Serialize(msg));
  }

  /** Through a room channel: dropped at the origin, handled under the room's name everywhere else. */
  lemma RoutedByRoom(origin: NodeId, node: NodeId, prefix: Bytes, room: Bytes, msg: Message)
    requires Sendable(origin, msg)
    ensures Handle(node, prefix, RoomChannel(prefix, room), Pack(origin, Serialize(msg))) ==
            if node == origin then Dropped else Callback(room, msg)
  {
    hide Serialize, Strict, Pack, DecodeEnvelope;
    Opened(origin, msg);
    assert RoomChannel(prefix, room) == prefix + (ROOM + room);
    Trimmed(prefix, ROOM + room, []);
    Trimmed(ROOM, room, []);
  }

  /** Through a node channel: for one connection, never for a room. */
  lemma RoutedByNode(origin: NodeId, node: NodeId, prefix: Bytes, target: NodeId, msg: Message)
    requires Sendable(origin, msg)
    ensures Handle(node, prefix, NodeChannel(prefix, target), Pack(origin, Serialize(msg))) ==
            if node == origin || msg.dst == [] then Dropped else Direct(msg)
  {
    hide Serialize, Strict, Pack, DecodeEnvelope;
    Opened(origin, msg);
    assert NodeChannel(prefix, target) == prefix + (NODE + target);
    Trimmed(prefix, NODE + target, ROOM);
    Distinct(target, []);
    assert NODE <= NODE + target;
  }

  predicate Plain(room: Bytes) {
    !(ROOM <= room) && !(NODE <= room)
  }

  /** A broadcast reaches the room of the same name on another node exactly if the name has neither prefix. */
  lemma FanoutIdentity(origin: NodeId, node: NodeId, prefix: Bytes, msg: Message)
    requires Sendable(origin, msg) && node != origin && msg.dst == []
    ensures Plain(msg.room) <==>
            Handle(node, prefix, RoomChannel(prefix, msg.room), Pack(origin, Serialize(msg))) == Fanout(msg.room, msg)
  {
    RoutedByRoom(origin, node, prefix, msg.room, msg);
    hide Serialize;
  }

  // ---------------------------------------------------------------- fan-out loops

  datatype Offer = Offer(to: ConnId, frame: Bytes)

  /** One offer of `frame` to each of `to`. */
  function Each(to: set<ConnId>, frame: Bytes): (m: multiset<Offer>)
    ensures forall o :: m[o] == if o.to in to && o.frame == frame then 1 else 0
  {
    multiset(set c | c in to :: Offer(c, frame))
  }

  /** The parts of `Hub` and its rooms a fan-out reads, and the `TrySend` calls it makes. */
  class Node {
    const id: NodeId
    const prefix: Bytes
    var conns: set<ConnId>
    var rooms: map<Bytes, set<ConnId>>
    var offers: seq<Offer>

    constructor (id: NodeId, prefix: Bytes)
      ensures this.id == id && this.prefix == prefix && conns == {} && rooms == map[] && offers == []
    {
      this.id, this.prefix := id, prefix;
      conns, rooms, offers := {}, map[], [];
    }

    /** The loop over `members` of emit and emitLocal: every member but one is offered the frame once. */
    method FanOut(members: set<ConnId>, except: ConnId, frame: Bytes)
      modifies this`offers
      ensures old(offers) <= offers
      ensures multiset(offers) == multiset(old(offers)) + Each(members - {except}, frame)
    {
      var todo := members;
      while todo != {}
        invariant todo <= members && old(offers) <= offers
        invariant multiset(offers) == multiset(old(offers)) + Each(members - todo - {except}, frame)
      {
        var member :| member in todo;
        todo := todo - {member};
        if member != except {
          offers := offers + [Offer(member, frame)];
        }
      }
    }

    /** emit (room.go:40-54): the members here, then the channel of the room; returns what it publishes. */
    method Emit(sender: ConnId, msg: Message) returns (channel: Bytes, payload: Bytes)
      requires msg.room in rooms
      modifies this`offers
      ensures multiset(offers) == multiset(old(offers)) + Each(rooms[msg.room] - {sender}, Serialize(Versioned(msg)))
      ensures channel == RoomChannel(prefix, msg.room) && payload == Pack(id, Serialize(Versioned(msg)))
    {
      hide Serialize, Pack;
      var data := Go.Encode(msg);
      FanOut(rooms[msg.room], sender, data[..]);
      channel := prefix + ROOM + msg.room;
      var env := EncodeEnvelope(id, data[..]);
      payload := env[..];
    }

    /** handleIncoming and the callback, with the offers they make. */
    method OnPublication(channel: Bytes, payload: Bytes)
      modifies this`offers
      ensures match Handle(id, prefix, channel, payload)
              case Dropped => offers == old(offers)
              case Direct(msg) =>
                offers == old(offers) + if msg.dst in conns then [Offer(msg.dst, Serialize(Versioned(msg)))] else []
              case Fanout(room, msg) =>
                multiset(offers) == multiset(old(offers)) +
                if room in rooms then Each(rooms[room] - {msg.src}, Serialize(Versioned(msg))) else multiset{}
    {
      hide Serialize;
      var envelope := DecodeEnvelope(payload);
      if envelope.None? || envelope.value.0 == id {
        return;
      }
      var packet := Go.BytesToMessageWithLimit(envelope.value.1, 0);
      StrictExact(envelope.value.1);
      if packet.None? {
        return;
      }
      var msg := packet.value;
      var suffix := TrimPrefix(channel, prefix);
      if ROOM <= suffix {
        suffix := TrimPrefix(suffix, ROOM);
      }
      var rawBytes := Go.Encode(msg);
      if NODE <= suffix {
        if msg.dst != [] {
          if msg.dst in conns {
            offers := offers + [Offer(msg.dst, rawBytes[..])];
          }
        }
        return;
      }
      if msg.dst != [] {
        if msg.dst in conns {
          offers := offers + [Offer(msg.dst, rawBytes[..])];
        }
        return;
      }
      var roomName := TrimPrefix(suffix, ROOM);
      if roomName in rooms {
        FanOut(rooms[roomName], msg.src, rawBytes[..]);
      }
    }
  }
}
