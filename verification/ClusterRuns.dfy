/**
 A cluster of Go nodes on one broker, as a state machine over every interleaving of broadcasts, direct
 messages, deliveries, joins, leaves and disconnects. Publishing does not fail, and the broker hands every
 publication once to each subscription it matches.
 */
module ClusterRuns {
  import opened Wire
  import opened Cluster

  /** The nodes, and the node each connection is on. */
  datatype Config = Config(prefix: Bytes, nodes: set<NodeId>, home: ConnId -> NodeId)

  datatype Progress = Unpublished | Local | Published(k: nat)

  /** A broadcast by `sender` to `msg.room`, or a message to `msg.dst`. */
  datatype Item = Item(sender: ConnId, msg: Message, direct: bool, progress: Progress)

  datatype Publication = Publication(item: nat, channel: Bytes, payload: Bytes)

  /**
   Who is in which room and which connections are registered, everything sent, everything published, the
   copies still to be delivered, and the offers made. For the statements: which node has had its fan-out of
   which broadcast (`fanned`), who was in the broadcast's room at the fan-out of their node (`present`), and which
   direct messages found their destination registered when their copy came to its node (`reached`).
   */
  datatype State = State(
    members: set<(Bytes, ConnId)>,
    conns: set<ConnId>,
    items: seq<Item>,
    bus: seq<Publication>,
    pending: multiset<(nat, NodeId)>,
    offers: multiset<(nat, ConnId)>,
    fanned: set<(nat, NodeId)>,
    present: set<(nat, ConnId)>,
    reached: set<nat>)

  const INIT := State({}, {}, [], [], multiset{}, multiset{}, {}, {}, {})

  datatype Action =
    | Connect(c: ConnId) | Disconnect(c: ConnId)
    | Join(c: ConnId, room: Bytes) | Leave(c: ConnId, room: Bytes)
    | Emit(sender: ConnId, msg: Message)
    | Send(sender: ConnId, msg: Message)
    | PublishRoom(id: nat)
    | PublishDirect(id: nat, target: NodeId)
    | Deliver(k: nat, n: NodeId)

  ghost predicate WellFormed(cfg: Config) {
    && (forall n :: n in cfg.nodes ==> 0 < |n| < Limit(W4))
    && (forall c :: cfg.home(c) in cfg.nodes)
  }

  /** What a node may send: a decodable message, with the sender's ID or none as its source. */
  ghost predicate Proper(cfg: Config, sender: ConnId, msg: Message) {
    && Sendable(cfg.home(sender), msg)
    && (msg.src == sender || msg.src == [])
  }

  ghost predicate Possible(cfg: Config, s: State, a: Action) {
    match a
    case Connect(c) => c != []
    case Disconnect(c) => true
    case Join(c, room) => c != []
    case Leave(c, room) => true
    case Emit(sender, msg) => Proper(cfg, sender, msg) && msg.dst == []
    case Send(sender, msg) => Proper(cfg, sender, msg)
    case PublishRoom(id) => id < |s.items| && s.items[id].progress.Unpublished?
    case PublishDirect(id, target) =>
      id < |s.items| && s.items[id].progress.Unpublished? && s.items[id].direct && target != []
    case Deliver(k, n) => k < |s.bus| && (k, n) in s.pending && s.bus[k].item < |s.items|
  }

  /** The members of a room that are on a node. */
  function MembersAt(cfg: Config, s: State, room: Bytes, n: NodeId): (r: set<ConnId>)
    ensures forall c :: c in r <==> (room, c) in s.members && cfg.home(c) == n
  {
    set m | m in s.members && m.0 == room && cfg.home(m.1) == n :: m.1
  }

  /** One offer of item `id` to each of `to`. */
  function Once(id: nat, to: set<ConnId>): (m: multiset<(nat, ConnId)>)
    ensures forall o :: m[o] == if o.0 == id && o.1 in to then 1 else 0
  {
    multiset(set c | c in to :: (id, c))
  }

  /** A copy for each subscription the channel matches. */
  function Copies(cfg: Config, k: nat, channel: Bytes): (m: multiset<(nat, NodeId)>)
    ensures forall o :: m[o] == (if o.0 == k && o.1 in cfg.nodes && PatternMatches(cfg.prefix, channel) then 1 else 0)
                             + (if o.0 == k && o.1 in cfg.nodes && OwnChannel(cfg.prefix, o.1, channel) then 1 else 0)
  {
    multiset(set n | n in cfg.nodes && PatternMatches(cfg.prefix, channel) :: (k, n))
    + multiset(set n | n in cfg.nodes && OwnChannel(cfg.prefix, n, channel) :: (k, n))
  }

  function FanOut(cfg: Config, s: State, id: nat, room: Bytes, n: NodeId, except: ConnId): State {
    s.(offers := s.offers + Once(id, MembersAt(cfg, s, room, n) - {except}))
  }

  /** For the statements: node `n` has its fan-out of broadcast `id` now. */
  function Witness(cfg: Config, s: State, id: nat, room: Bytes, n: NodeId): State {
    s.(fanned := s.fanned + {(id, n)}, present := s.present + set c | c in MembersAt(cfg, s, room, n) :: (id, c))
  }

  /** The room an item is published to, if it is not to a node. */
  function RoomOf(item: Item): Bytes {
    if item.direct then ROOT else item.msg.room
  }

  /** For the statements: a copy of `item` at `n` is the one its destination is waiting for, and it is there. */
  predicate Finds(cfg: Config, s: State, item: Item, n: NodeId) {
    && item.direct && item.msg.dst in s.conns
    && n == cfg.home(item.msg.dst) && n != cfg.home(item.sender)
  }

  function Publish(cfg: Config, s: State, id: nat, channel: Bytes): State
    requires id < |s.items|
  {
    var item := s.items[id];
    var k := |s.bus|;
    s.(items := s.items[id := item.(progress := Published(k))],
       bus := s.bus + [Publication(id, channel, Pack(cfg.home(item.sender), Serialize(item.msg)))],
       pending := s.pending + Copies(cfg, k, channel))
  }

  /** Whom a copy is offered to, by what `Handle` makes of its channel and its bytes. */
  function Targets(cfg: Config, s: State, p: Publication, n: NodeId): set<ConnId> {
    match Handle(n, cfg.prefix, p.channel, p.payload)
    case Dropped => {}
    case Direct(msg) => if msg.dst in s.conns && cfg.home(msg.dst) == n then {msg.dst} else {}
    case Fanout(room, msg) => MembersAt(cfg, s, room, n) - {msg.src}
  }

  /** emit: the fan-out here. Publishing follows on its own. */
  function Emitted(cfg: Config, s: State, sender: ConnId, msg: Message): (s': State)
    ensures |s'.items| == |s.items| + 1
  {
    var id, n := |s.items|, cfg.home(sender);
    FanOut(cfg, Witness(cfg, s, id, msg.room, n), id, msg.room, n, sender)
      .(items := s.items + [Item(sender, msg, false, Unpublished)])
  }

  /** SendToClient and the direct branch of dispatch: a local lookup, else the cluster. */
  function Sent(cfg: Config, s: State, sender: ConnId, msg: Message): (s': State)
    ensures |s'.items| == |s.items| + 1
  {
    if msg.dst in s.conns && cfg.home(msg.dst) == cfg.home(sender) then
      s.(items := s.items + [Item(sender, msg, true, Local)], offers := s.offers + Once(|s.items|, {msg.dst}))
    else
      s.(items := s.items + [Item(sender, msg, true, Unpublished)])
  }

  /** A copy reaches node `n`. */
  function Delivered(cfg: Config, s: State, k: nat, n: NodeId): (s': State)
    requires k < |s.bus| && s.bus[k].item < |s.items|
    ensures s'.items == s.items && s'.bus == s.bus
  {
    var id := s.bus[k].item;
    var item := s.items[id];
    var s' := s.(pending := s.pending - multiset{(k, n)}, offers := s.offers + Once(id, Targets(cfg, s, s.bus[k], n)));
    if Finds(cfg, s, item, n) then s'.(reached := s'.reached + {id})
    else if item.direct || n == cfg.home(item.sender) then s'
    else Witness(cfg, s', id, item.msg.room, n)
  }

  function Apply(cfg: Config, s: State, a: Action): State
    requires Possible(cfg, s, a)
  {
    match a
    case Connect(c) => s.(conns := s.conns + {c})
    case Disconnect(c) => s.(conns := s.conns - {c})
    case Join(c, room) => s.(members := s.members + {(room, c)})
    case Leave(c, room) => s.(members := s.members - {(room, c)})
    case Emit(sender, msg) => Emitted(cfg, s, sender, msg)
    case Send(sender, msg) => Sent(cfg, s, sender, msg)
    case PublishRoom(id) =>
      Publish(cfg, s, id, RoomChannel(cfg.prefix, RoomOf(s.items[id])))
    case PublishDirect(id, target) => Publish(cfg, s, id, NodeChannel(cfg.prefix, target))
    case Deliver(k, n) => Delivered(cfg, s, k, n)
  }

  ghost predicate NextAt(cfg: Config, run: seq<State>, i: nat) {
    && i + 1 < |run|
    && exists a :: Possible(cfg, run[i], a) && run[i + 1] == Apply(cfg, run[i], a)
  }

  ghost predicate Run(cfg: Config, run: seq<State>) {
    && WellFormed(cfg)
    && |run| > 0
    && run[0] == INIT
    && forall i: nat :: i + 1 < |run| ==> NextAt(cfg, run, i)
  }

  // ---------------------------------------------------------------- the invariant, item by item

  predicate Subscribed(cfg: Config, n: NodeId, channel: Bytes) {
    n in cfg.nodes && (PatternMatches(cfg.prefix, channel) || OwnChannel(cfg.prefix, n, channel))
  }

  /** The copies still to come: of what is published, for a subscriber, at most one each. */
  ghost predicate OneCopy(cfg: Config, s: State) {
    forall o :: o in s.pending ==> o.0 < |s.bus| && Subscribed(cfg, o.1, s.bus[o.0].channel) && s.pending[o] == 1
  }

  /** Publications and published items point at each other. */
  ghost predicate Linked(s: State) {
    forall k {:trigger s.bus[k]} :: 0 <= k < |s.bus| ==>
        s.bus[k].item < |s.items| && s.items[s.bus[k].item].progress == Published(k)
  }

  /** The publication of an item carries it, on the channel of its room, or of a node, or of the root room. */
  ghost predicate Carries(cfg: Config, item: Item, p: Publication) {
    && p.payload == Pack(cfg.home(item.sender), Serialize(item.msg))
    && (if item.direct then
          p.channel == RoomChannel(cfg.prefix, ROOT) || exists target :: p.channel == NodeChannel(cfg.prefix, target)
        else p.channel == RoomChannel(cfg.prefix, item.msg.room))
  }

  ghost predicate Carried(cfg: Config, s: State, id: nat)
    requires id < |s.items|
  {
    var item := s.items[id];
    && Proper(cfg, item.sender, item.msg)
    && (item.progress.Local? ==> item.direct)
    && (!item.direct ==> item.msg.dst == [])
    && (item.progress.Published? ==>
          item.progress.k < |s.bus| && s.bus[item.progress.k].item == id && Carries(cfg, item, s.bus[item.progress.k]))
  }

  /** Offered once, and only to its destination, if that was there; and there is one copy for its node. */
  ghost predicate DirectOk(cfg: Config, s: State, id: nat)
    requires id < |s.items|
  {
    var item := s.items[id];
    && (forall c {:trigger s.offers[(id, c)]} ::
          s.offers[(id, c)] == if c == item.msg.dst && (item.progress.Local? || id in s.reached) then 1 else 0)
    && (id in s.reached ==> Came(cfg, s, item))
  }

  /** The copy of a direct message for the node of its destination has come there. */
  ghost predicate Came(cfg: Config, s: State, item: Item) {
    && item.progress.Published?
    && (item.progress.k, cfg.home(item.msg.dst)) !in s.pending
    && cfg.home(item.msg.dst) != cfg.home(item.sender)
  }

  ghost predicate BroadcastOk(cfg: Config, s: State, id: nat)
    requires id < |s.items|
  {
    var item := s.items[id];
    && (forall c {:trigger s.offers[(id, c)]} {:trigger (id, c) in s.present} ::
          && (s.offers[(id, c)] == if (id, c) in s.present && c != item.sender then 1 else 0)
          && ((id, c) in s.present ==> c != [] && (id, cfg.home(c)) in s.fanned))
    && (forall n {:trigger (id, n) in s.fanned} :: (id, n) in s.fanned <==> n in cfg.nodes && HadFanout(cfg, s, id, n))
  }

  /** The origin has its fan-out at once, any other node when its copy is delivered. */
  ghost predicate HadFanout(cfg: Config, s: State, id: nat, n: NodeId)
    requires id < |s.items|
  {
    var item := s.items[id];
    n == cfg.home(item.sender) || (item.progress.Published? && (item.progress.k, n) !in s.pending)
  }

  ghost predicate ItemOk(cfg: Config, s: State, id: nat)
    requires id < |s.items|
  {
    var item := s.items[id];
    && Carried(cfg, s, id)
    && (item.direct && item.msg.dst != [] ==> DirectOk(cfg, s, id))
    && (!item.direct && Plain(item.msg.room) ==> BroadcastOk(cfg, s, id))
  }

  /** Nothing is recorded about items yet to be sent. */
  ghost predicate NoFuture(s: State) {
    && (forall o :: o in s.offers ==> o.0 < |s.items|)
    && (forall o :: o in s.fanned ==> o.0 < |s.items|)
    && (forall o :: o in s.present ==> o.0 < |s.items|)
    && (forall id :: id in s.reached ==> id < |s.items|)
  }

  ghost predicate Shape(cfg: Config, s: State) {
    && OneCopy(cfg, s)
    && Linked(s)
    && NoFuture(s)
    && (forall m :: m in s.members ==> m.1 != [])
  }

  ghost predicate Inv(cfg: Config, s: State) {
    && Shape(cfg, s)
    && forall id: nat {:trigger ItemOk(cfg, s, id)} :: id < |s.items| ==> ItemOk(cfg, s, id)
  }

  // ---------------------------------------------------------------- every step keeps it

  /** Nothing about item `id` changes. */
  ghost predicate Untouched(s: State, s': State, id: nat) {
    && id < |s.items| && id < |s'.items| && s'.items[id] == s.items[id]
    && s.bus <= s'.bus
    && (id in s'.reached <==> id in s.reached)
    && (forall c {:trigger s'.offers[(id, c)]} :: s'.offers[(id, c)] == s.offers[(id, c)])
    && (forall n {:trigger (id, n) in s'.fanned} :: (id, n) in s'.fanned <==> (id, n) in s.fanned)
    && (forall c {:trigger (id, c) in s'.present} :: (id, c) in s'.present <==> (id, c) in s.present)
    && (s.items[id].progress.Published? ==> forall n {:trigger s'.pending[(s.items[id].progress.k, n)]} ::
          s'.pending[(s.items[id].progress.k, n)] == s.pending[(s.items[id].progress.k, n)])
  }

  lemma UntouchedKeeps(cfg: Config, s: State, s': State, id: nat)
    requires Untouched(s, s', id) && ItemOk(cfg, s, id)
    ensures ItemOk(cfg, s', id)
  {
    hide Carries, Proper, Plain;
    var item := s.items[id];
    if item.direct && item.msg.dst != [] && id in s.reached {
      assert s'.pending[(item.progress.k, cfg.home(item.msg.dst))] == 0;
    }
    if !item.direct && Plain(item.msg.room) {
      UntouchedBroadcast(cfg, s, s', id);
    }
  }

  lemma UntouchedBroadcast(cfg: Config, s: State, s': State, id: nat)
    requires Untouched(s, s', id) && BroadcastOk(cfg, s, id)
    ensures BroadcastOk(cfg, s', id)
  {
    hide Carries, Proper, Plain;
    forall n
      ensures (id, n) in s'.fanned <==> n in cfg.nodes && HadFanout(cfg, s', id, n)
    {
      assert (id, n) in s'.fanned <==> (id, n) in s.fanned;
      assert HadFanout(cfg, s', id, n) <==> HadFanout(cfg, s, id, n);
    }
  }

  /** If the rest of the items are untouched, it is the shape and one item that matter. */
  lemma OthersKeep(cfg: Config, s: State, s': State, id: nat)
    requires Inv(cfg, s) && Shape(cfg, s') && |s.items| <= |s'.items| <= |s.items| + 1
    requires forall i: nat {:trigger Untouched(s, s', i)} :: i < |s.items| && i != id ==> Untouched(s, s', i)
    requires id < |s'.items| && ItemOk(cfg, s', id) && (|s'.items| > |s.items| ==> id == |s.items|)
    ensures Inv(cfg, s')
  {
    hide ItemOk, Untouched, Shape;
    forall i: nat | i < |s'.items|
      ensures ItemOk(cfg, s', i)
    {
      if i != id {
        assert ItemOk(cfg, s, i) && Untouched(s, s', i);
        UntouchedKeeps(cfg, s, s', i);
      }
    }
  }

  /** A broadcast begins: the fan-out at its origin. */
  lemma EmitKeeps(cfg: Config, s: State, sender: ConnId, msg: Message)
    requires WellFormed(cfg) && Inv(cfg, s) && Proper(cfg, sender, msg) && msg.dst == []
    ensures Inv(cfg, Emitted(cfg, s, sender, msg))
  {
    hide Proper, ItemOk, Shape, Emitted, Untouched;
    EmittedShape(cfg, s, sender, msg);
    EmittedUntouched(cfg, s, sender, msg);
    EmittedOk(cfg, s, sender, msg);
    OthersKeep(cfg, s, Emitted(cfg, s, sender, msg), |s.items|);
  }

  lemma EmittedShape(cfg: Config, s: State, sender: ConnId, msg: Message)
    requires Shape(cfg, s)
    ensures Shape(cfg, Emitted(cfg, s, sender, msg))
  {
    hide Subscribed, MembersAt, Once;
  }

  lemma EmittedUntouched(cfg: Config, s: State, sender: ConnId, msg: Message)
    ensures forall i: nat {:trigger Untouched(s, Emitted(cfg, s, sender, msg), i)} ::
              i < |s.items| ==> Untouched(s, Emitted(cfg, s, sender, msg), i)
  {
    hide MembersAt, Once;
  }

  lemma EmittedOk(cfg: Config, s: State, sender: ConnId, msg: Message)
    requires WellFormed(cfg) && Shape(cfg, s) && Proper(cfg, sender, msg) && msg.dst == []
    ensures ItemOk(cfg, Emitted(cfg, s, sender, msg), |s.items|)
  {
    hide Proper, Plain, Shape, BroadcastOk, DirectOk, FanOut, Witness;
    EmittedBroadcast(cfg, s, sender, msg);
  }

  lemma EmittedBroadcast(cfg: Config, s: State, sender: ConnId, msg: Message)
    requires WellFormed(cfg) && Shape(cfg, s)
    ensures BroadcastOk(cfg, Emitted(cfg, s, sender, msg), |s.items|)
  {
    hide Linked, OneCopy, Once, MembersAt, Sendable;
    var s', id, n := Emitted(cfg, s, sender, msg), |s.items|, cfg.home(sender);
    var here := MembersAt(cfg, s, msg.room, n);
    forall c
      ensures s'.offers[(id, c)] == (if c in here && c != sender then 1 else 0)
      ensures (id, c) in s'.present <==> c in here
      ensures (id, c) in s'.fanned <==> c == n
      ensures c in here ==> c != [] && cfg.home(c) == n
    {
      assert (id, c) !in s.offers && (id, c) !in s.present && (id, c) !in s.fanned;
    }
    assert s'.items[id] == Item(sender, msg, false, Unpublished);
  }

  lemma SendKeeps(cfg: Config, s: State, sender: ConnId, msg: Message)
    requires WellFormed(cfg) && Inv(cfg, s) && Proper(cfg, sender, msg)
    ensures Inv(cfg, Sent(cfg, s, sender, msg))
  {
    hide Proper, ItemOk, Shape, Sent, Untouched;
    SentShape(cfg, s, sender, msg);
    SentUntouched(cfg, s, sender, msg);
    SentOk(cfg, s, sender, msg);
    OthersKeep(cfg, s, Sent(cfg, s, sender, msg), |s.items|);
  }

  lemma SentShape(cfg: Config, s: State, sender: ConnId, msg: Message)
    requires Shape(cfg, s)
    ensures Shape(cfg, Sent(cfg, s, sender, msg))
  {
    hide Subscribed, MembersAt, Once;
  }

  lemma SentUntouched(cfg: Config, s: State, sender: ConnId, msg: Message)
    ensures forall i: nat {:trigger Untouched(s, Sent(cfg, s, sender, msg), i)} ::
              i < |s.items| ==> Untouched(s, Sent(cfg, s, sender, msg), i)
  {
    hide MembersAt, Once;
  }

  lemma SentOk(cfg: Config, s: State, sender: ConnId, msg: Message)
    requires WellFormed(cfg) && Shape(cfg, s) && Proper(cfg, sender, msg)
    ensures ItemOk(cfg, Sent(cfg, s, sender, msg), |s.items|)
  {
    hide Proper, Plain, Linked, Carries;
    assert forall c :: (|s.items|, c) !in s.offers;
  }

  /** The channels an item may be published on. */
  ghost predicate ChannelFor(cfg: Config, item: Item, channel: Bytes) {
    if item.direct then
      channel == RoomChannel(cfg.prefix, ROOT) || exists target :: channel == NodeChannel(cfg.prefix, target)
    else
      channel == RoomChannel(cfg.prefix, item.msg.room)
  }

  /** One copy to each node for a room channel, at most one in all for a node channel. */
  lemma CopiesOnce(cfg: Config, k: nat, item: Item, channel: Bytes)
    requires ChannelFor(cfg, item, channel)
    ensures forall o :: Copies(cfg, k, channel)[o] <= 1
    ensures !item.direct ==> forall n :: n in cfg.nodes ==> (k, n) in Copies(cfg, k, channel)
  {
    hide RoomChannel, NodeChannel, PatternMatches, OwnChannel;
    var copies := Copies(cfg, k, channel);
    forall n
      ensures !(PatternMatches(cfg.prefix, channel) && OwnChannel(cfg.prefix, n, channel))
      ensures !item.direct ==> PatternMatches(cfg.prefix, channel)
    {
      if channel == RoomChannel(cfg.prefix, ROOT) {
        RoomChannelReach(cfg.prefix, ROOT, n);
      } else if item.direct {
        var target :| channel == NodeChannel(cfg.prefix, target);
        NodeChannelReach(cfg.prefix, target, n);
      } else {
        RoomChannelReach(cfg.prefix, item.msg.room, n);
      }
    }
  }

  lemma PublishKeeps(cfg: Config, s: State, id: nat, channel: Bytes)
    requires WellFormed(cfg) && Inv(cfg, s) && id < |s.items| && s.items[id].progress.Unpublished?
    requires ChannelFor(cfg, s.items[id], channel)
    ensures Inv(cfg, Publish(cfg, s, id, channel))
  {
    hide ItemOk, Shape, ChannelFor, Untouched;
    PublishedShape(cfg, s, id, channel);
    PublishedUntouched(cfg, s, id, channel);
    PublishedOk(cfg, s, id, channel);
    OthersKeep(cfg, s, Publish(cfg, s, id, channel), id);
  }

  lemma PublishedShape(cfg: Config, s: State, id: nat, channel: Bytes)
    requires Shape(cfg, s) && id < |s.items| && s.items[id].progress.Unpublished?
    requires ChannelFor(cfg, s.items[id], channel)
    ensures Shape(cfg, Publish(cfg, s, id, channel))
  {
    hide OneCopy, ChannelFor, Pack, Serialize;
    PublishedCopies(cfg, s, id, channel);
  }

  lemma PublishedCopies(cfg: Config, s: State, id: nat, channel: Bytes)
    requires OneCopy(cfg, s) && id < |s.items| && ChannelFor(cfg, s.items[id], channel)
    ensures OneCopy(cfg, Publish(cfg, s, id, channel))
  {
    hide ChannelFor, PatternMatches, OwnChannel, Pack, Serialize;
    var s', k := Publish(cfg, s, id, channel), |s.bus|;
    CopiesOnce(cfg, k, s.items[id], channel);
    forall o | o in s'.pending
      ensures o.0 < |s'.bus| && Subscribed(cfg, o.1, s'.bus[o.0].channel) && s'.pending[o] == 1
    {
      assert s'.pending[o] == s.pending[o] + Copies(cfg, k, channel)[o];
    }
  }

  lemma PublishedUntouched(cfg: Config, s: State, id: nat, channel: Bytes)
    requires Inv(cfg, s) && id < |s.items| && s.items[id].progress.Unpublished?
    ensures forall i: nat {:trigger Untouched(s, Publish(cfg, s, id, channel), i)} ::
              i < |s.items| && i != id ==> Untouched(s, Publish(cfg, s, id, channel), i)
  {
    hide ItemOk, ChannelFor, PatternMatches, OwnChannel, Pack, Serialize, OneCopy, NoFuture;
    var s' := Publish(cfg, s, id, channel);
    forall i: nat | i < |s.items| && i != id
      ensures Untouched(s, s', i)
    {
      assert ItemOk(cfg, s, i);
      PublishedIndex(cfg, s, i);
    }
  }

  lemma PublishedIndex(cfg: Config, s: State, i: nat)
    requires i < |s.items| && ItemOk(cfg, s, i)
    ensures s.items[i].progress.Published? ==> s.items[i].progress.k < |s.bus| && s.bus[s.items[i].progress.k].item == i
  {
  }

  lemma PublishedOk(cfg: Config, s: State, id: nat, channel: Bytes)
    requires WellFormed(cfg) && Inv(cfg, s) && id < |s.items| && s.items[id].progress.Unpublished?
    requires ChannelFor(cfg, s.items[id], channel)
    ensures ItemOk(cfg, Publish(cfg, s, id, channel), id)
  {
    hide Proper, Plain, RoomChannel, NodeChannel, PatternMatches, OwnChannel, Pack, Serialize, Subscribed, NoFuture,
        Linked;
    var s', k := Publish(cfg, s, id, channel), |s.bus|;
    assert ItemOk(cfg, s, id);
    CopiesOnce(cfg, k, s.items[id], channel);
    assert forall n :: (k, n) !in s.pending;
    assert forall n :: s'.pending[(k, n)] == Copies(cfg, k, channel)[(k, n)];
  }

  /** What a copy is taken for, by the nodes it was not sent from. */
  lemma HandledAs(cfg: Config, item: Item, p: Publication, n: NodeId)
    requires Proper(cfg, item.sender, item.msg) && Carries(cfg, item, p)
    ensures n == cfg.home(item.sender) ==> Handle(n, cfg.prefix, p.channel, p.payload) == Dropped
    ensures n != cfg.home(item.sender) && item.direct && item.msg.dst != [] ==>
              Handle(n, cfg.prefix, p.channel, p.payload) == Direct(item.msg)
    ensures n != cfg.home(item.sender) && !item.direct && item.msg.dst == [] && Plain(item.msg.room) ==>
              Handle(n, cfg.prefix, p.channel, p.payload) == Fanout(item.msg.room, item.msg)
  {
    hide Handle, Sendable, Pack, Serialize, RoomChannel, NodeChannel;
    var origin := cfg.home(item.sender);
    if !item.direct {
      RoutedByRoom(origin, n, cfg.prefix, item.msg.room, item.msg);
    } else if p.channel == RoomChannel(cfg.prefix, ROOT) {
      RoutedByRoom(origin, n, cfg.prefix, ROOT, item.msg);
    } else {
      var target :| p.channel == NodeChannel(cfg.prefix, target);
      RoutedByNode(origin, n, cfg.prefix, target, item.msg);
    }
  }

  lemma DeliverKeeps(cfg: Config, s: State, k: nat, n: NodeId)
    requires WellFormed(cfg) && Inv(cfg, s) && (k, n) in s.pending
    ensures k < |s.bus| && s.bus[k].item < |s.items| && Inv(cfg, Delivered(cfg, s, k, n))
  {
    hide ItemOk, Delivered, Untouched, OneCopy, Linked, NoFuture;
    CopyOf(cfg, s, k, n);
    DeliveredShape(cfg, s, k, n);
    DeliveredUntouched(cfg, s, k, n);
    DeliveredOk(cfg, s, k, n);
    OthersKeep(cfg, s, Delivered(cfg, s, k, n), s.bus[k].item);
  }

  lemma CopyOf(cfg: Config, s: State, k: nat, n: NodeId)
    requires Shape(cfg, s) && (k, n) in s.pending
    ensures k < |s.bus| && s.bus[k].item < |s.items| && s.items[s.bus[k].item].progress == Published(k) &&
        n in cfg.nodes
  {
    assert s.bus[k].item < |s.items|;
  }

  lemma DeliveredShape(cfg: Config, s: State, k: nat, n: NodeId)
    requires Shape(cfg, s) && (k, n) in s.pending && k < |s.bus| && s.bus[k].item < |s.items|
    ensures Shape(cfg, Delivered(cfg, s, k, n))
  {
    hide Targets, MembersAt, Once, OneCopy;
    DeliveredCopies(cfg, s, k, n);
  }

  lemma DeliveredCopies(cfg: Config, s: State, k: nat, n: NodeId)
    requires OneCopy(cfg, s) && (k, n) in s.pending && k < |s.bus| && s.bus[k].item < |s.items|
    ensures OneCopy(cfg, Delivered(cfg, s, k, n))
  {
    hide Targets, MembersAt, Once, Subscribed;
  }

  lemma DeliveredUntouched(cfg: Config, s: State, k: nat, n: NodeId)
    requires Inv(cfg, s) && (k, n) in s.pending && k < |s.bus| && s.bus[k].item < |s.items|
    ensures forall i: nat {:trigger Untouched(s, Delivered(cfg, s, k, n), i)} ::
              i < |s.items| && i != s.bus[k].item ==> Untouched(s, Delivered(cfg, s, k, n), i)
  {
    hide ItemOk, Targets, MembersAt, Once, OneCopy, Linked, NoFuture;
    var s' := Delivered(cfg, s, k, n);
    forall i: nat | i < |s.items| && i != s.bus[k].item
      ensures Untouched(s, s', i)
    {
      assert ItemOk(cfg, s, i);
      PublishedIndex(cfg, s, i);
    }
  }

  lemma DeliveredOk(cfg: Config, s: State, k: nat, n: NodeId)
    requires WellFormed(cfg) && Inv(cfg, s) && (k, n) in s.pending
    ensures k < |s.bus| && s.bus[k].item < |s.items| && ItemOk(cfg, Delivered(cfg, s, k, n), s.bus[k].item)
  {
    hide Proper, Plain, BroadcastOk, DirectOk, Targets, Carries, Witness;
    assert s.bus[k].item < |s.items|;
    var id := s.bus[k].item;
    var item := s.items[id];
    assert item.progress == Published(k) && ItemOk(cfg, s, id);
    if item.direct && item.msg.dst != [] {
      DeliveredDirect(cfg, s, k, n);
    }
    if !item.direct && Plain(item.msg.room) {
      DeliveredBroadcast(cfg, s, k, n);
    }
  }

  lemma DeliveredDirect(cfg: Config, s: State, k: nat, n: NodeId)
    requires Shape(cfg, s) && (k, n) in s.pending && k < |s.bus| && s.bus[k].item < |s.items|
    requires var item := s.items[s.bus[k].item];
             item.direct && item.msg.dst != [] && Carried(cfg, s, s.bus[k].item) && DirectOk(cfg, s, s.bus[k].item)
    ensures DirectOk(cfg, Delivered(cfg, s, k, n), s.bus[k].item)
  {
    hide Handle, Proper, Carries, MembersAt, Once, Linked, NoFuture, Subscribed;
    CopyOf(cfg, s, k, n);
    HandledAs(cfg, s.items[s.bus[k].item], s.bus[k], n);
  }

  /** Broadcast `id` is offered to everyone in `here`, the members of its room at `n`, whose fan-out it was not yet. */
  ghost predicate FansOut(cfg: Config, s: State, s': State, id: nat, k: nat, n: NodeId, here: set<ConnId>) {
    && s'.items == s.items
    && (forall c {:trigger c in here} :: c in here ==> c != [] && cfg.home(c) == n)
    && (forall c {:trigger s'.offers[(id, c)]} ::
        s'.offers[(id, c)] == s.offers[(id, c)] + (if c in here then 1 else 0))
    && (forall c {:trigger (id, c) in s'.present} :: (id, c) in s'.present <==> (id, c) in s.present || c in here)
    && (forall n' {:trigger (id, n') in s'.fanned} :: (id, n') in s'.fanned <==> (id, n') in s.fanned || n' == n)
    && (forall o {:trigger s'.pending[o]} :: s'.pending[o] == if o == (k, n) then 0 else s.pending[o])
  }

  lemma FansOutKeeps(cfg: Config, s: State, s': State, k: nat, n: NodeId, here: set<ConnId>, id: nat)
    requires id < |s.items| && s.items[id].progress == Published(k) && BroadcastOk(cfg, s, id)
    requires (k, n) in s.pending && n in cfg.nodes && n != cfg.home(s.items[id].sender)
    requires FansOut(cfg, s, s', id, k, n, here)
    ensures BroadcastOk(cfg, s', id)
  {
    assert (id, n) !in s.fanned;
    forall c
      ensures s'.offers[(id, c)] == (if (id, c) in s'.present && c != s.items[id].sender then 1 else 0)
      ensures (id, c) in s'.present ==> c != [] && (id, cfg.home(c)) in s'.fanned
    {
      assert (id, c) in s.present ==> (id, cfg.home(c)) in s.fanned;
      assert s.offers[(id, c)] == if (id, c) in s.present && c != s.items[id].sender then 1 else 0;
    }
    forall n'
      ensures (id, n') in s'.fanned <==> n' in cfg.nodes && HadFanout(cfg, s', id, n')
    {
      assert (id, n') in s.fanned <==> n' in cfg.nodes && HadFanout(cfg, s, id, n');
    }
  }

  lemma DeliveredBroadcast(cfg: Config, s: State, k: nat, n: NodeId)
    requires WellFormed(cfg) && Shape(cfg, s) && (k, n) in s.pending && k < |s.bus| && s.bus[k].item < |s.items|
    requires var item := s.items[s.bus[k].item];
             && !item.direct && Plain(item.msg.room)
             && Carried(cfg, s, s.bus[k].item) && BroadcastOk(cfg, s, s.bus[k].item)
    ensures BroadcastOk(cfg, Delivered(cfg, s, k, n), s.bus[k].item)
  {
    hide Handle, Carries, Sendable, MembersAt, Once, BroadcastOk, FansOut, NoFuture;
    var id := s.bus[k].item;
    var item := s.items[id];
    var s' := Delivered(cfg, s, k, n);
    HandledAs(cfg, item, s.bus[k], n);
    if n == cfg.home(item.sender) {
      LoopbackKeeps(cfg, s, s', k, n, id);
    } else {
      var here := MembersAt(cfg, s, item.msg.room, n);
      DeliveredFansOut(cfg, s, k, n, here);
      FansOutKeeps(cfg, s, s', k, n, here, id);
    }
  }

  lemma DeliveredFansOut(cfg: Config, s: State, k: nat, n: NodeId, here: set<ConnId>)
    requires Shape(cfg, s) && (k, n) in s.pending && k < |s.bus| && s.bus[k].item < |s.items|
    requires var item := s.items[s.bus[k].item];
             && !item.direct && n != cfg.home(item.sender)
             && here == MembersAt(cfg, s, item.msg.room, n)
             && (item.msg.src == item.sender || item.msg.src == [])
             && Handle(n, cfg.prefix, s.bus[k].channel, s.bus[k].payload) == Fanout(item.msg.room, item.msg)
    ensures FansOut(cfg, s, Delivered(cfg, s, k, n), s.bus[k].item, k, n, here)
  {
    hide Handle, Linked, NoFuture, MembersAt, Once;
    assert here - {s.items[s.bus[k].item].msg.src} == here;
    assert s.pending[(k, n)] == 1;
  }

  lemma LoopbackKeeps(cfg: Config, s: State, s': State, k: nat, n: NodeId, id: nat)
    requires id < |s.items| && s.items[id].progress == Published(k) && BroadcastOk(cfg, s, id)
    requires n == cfg.home(s.items[id].sender)
    requires s'.items == s.items && s'.pending == s.pending - multiset{(k, n)} && s'.fanned == s.fanned &&
        s'.present == s.present
    requires s'.offers == s.offers + Once(id, {})
    ensures BroadcastOk(cfg, s', id)
  {
    forall n'
      ensures HadFanout(cfg, s', id, n') <==> HadFanout(cfg, s, id, n')
    {
    }
    assert s'.offers == s.offers;
  }

  // ---------------------------------------------------------------- over every run

  /** Joins, leaves, connects and disconnects. */
  lemma ChurnKeeps(cfg: Config, s: State, s': State)
    requires Inv(cfg, s)
    requires s' == s.(conns := s'.conns, members := s'.members) && forall m :: m in s'.members ==> m.1 != []
    ensures Inv(cfg, s')
  {
    hide ItemOk, Untouched;
    forall id: nat | id < |s'.items|
      ensures ItemOk(cfg, s', id)
    {
      Unchanged(s, s', id);
      assert ItemOk(cfg, s, id);
      UntouchedKeeps(cfg, s, s', id);
    }
  }

  lemma Unchanged(s: State, s': State, id: nat)
    requires s' == s.(conns := s'.conns, members := s'.members) && id < |s.items|
    ensures Untouched(s, s', id)
  {
  }

  lemma StepKeeps(cfg: Config, s: State, a: Action)
    requires WellFormed(cfg) && Inv(cfg, s) && Possible(cfg, s, a)
    ensures Inv(cfg, Apply(cfg, s, a))
  {
    hide Inv, Emitted, Sent, Publish, Delivered, Proper;
    match a
    case Emit(sender, msg) => EmitKeeps(cfg, s, sender, msg);
    case Send(sender, msg) => SendKeeps(cfg, s, sender, msg);
    case PublishRoom(id) =>
      PublishKeeps(cfg, s, id, RoomChannel(cfg.prefix, RoomOf(s.items[id])));
    case PublishDirect(id, target) => PublishKeeps(cfg, s, id, NodeChannel(cfg.prefix, target));
    case Deliver(k, n) => DeliverKeeps(cfg, s, k, n);
    case _ =>
      MembersNamed(cfg, s);
      ChurnKeeps(cfg, s, Apply(cfg, s, a));
  }

  lemma MembersNamed(cfg: Config, s: State)
    requires Inv(cfg, s)
    ensures forall m :: m in s.members ==> m.1 != []
  {
  }

  lemma {:induction false} InvAlways(cfg: Config, run: seq<State>, i: nat)
    requires Run(cfg, run) && i < |run|
    ensures Inv(cfg, run[i])
  {
    hide Inv, Possible, Apply, WellFormed;
    if i == 0 {
      InitInv(cfg);
    } else {
      InvAlways(cfg, run, i - 1);
      assert NextAt(cfg, run, i - 1);
      var a :| Possible(cfg, run[i - 1], a) && run[i] == Apply(cfg, run[i - 1], a);
      StepKeeps(cfg, run[i - 1], a);
    }
  }

  lemma InitInv(cfg: Config)
    ensures Inv(cfg, INIT)
  {
  }

  /**
   Fan-out is exactly once. In every state of every run, a broadcast to a room with a plain name has been
   offered once to each connection that was in the room at the fan-out of its node, the sender apart, and to
   nobody else; and every node has had its fan-out once the copies are delivered.
   */
  lemma FanoutExactlyOnce(cfg: Config, run: seq<State>, i: nat, id: nat)
    requires Run(cfg, run) && i < |run| && id < |run[i].items|
    requires !run[i].items[id].direct && Plain(run[i].items[id].msg.room)
    ensures var s, item := run[i], run[i].items[id];
            && (forall c :: s.offers[(id, c)] == if (id, c) in s.present && c != item.sender then 1 else 0)
            && (forall n :: (id, n) in s.fanned ==> n in cfg.nodes)
            && (id, cfg.home(item.sender)) in s.fanned
            && (item.progress.Published? && (forall n :: (item.progress.k, n) !in s.pending) ==>
                  forall n :: n in cfg.nodes ==> (id, n) in s.fanned)
  {
    hide Carried, Plain;
    InvAlways(cfg, run, i);
    assert ItemOk(cfg, run[i], id);
    var s, item := run[i], run[i].items[id];
    forall n
      ensures (id, n) in s.fanned <==> n in cfg.nodes && HadFanout(cfg, s, id, n)
    {
    }
  }

  /** `present` is what it says: the members of the room when their node has its fan-out, for good. */
  lemma PresentAtFanout(cfg: Config, run: seq<State>, i: nat, id: nat, c: ConnId)
    requires Run(cfg, run) && i + 1 < |run| && id < |run[i + 1].items|
    requires !run[i + 1].items[id].direct && Plain(run[i + 1].items[id].msg.room)
    ensures var s, s', n := run[i], run[i + 1], cfg.home(c);
            && ((id, n) !in s.fanned && (id, n) in s'.fanned ==>
                  ((id, c) in s'.present <==> (s'.items[id].msg.room, c) in s.members))
            && ((id, n) in s.fanned ==> (id, n) in s'.fanned && ((id, c) in s'.present <==> (id, c) in s.present))
  {
    hide Inv, Possible, Apply, Plain;
    InvAlways(cfg, run, i);
    assert NextAt(cfg, run, i);
    var a :| Possible(cfg, run[i], a) && run[i + 1] == Apply(cfg, run[i], a);
    PresentStep(cfg, run[i], a, id, c);
  }

  lemma PresentStep(cfg: Config, s: State, a: Action, id: nat, c: ConnId)
    requires Inv(cfg, s) && Possible(cfg, s, a) && id < |Apply(cfg, s, a).items|
    requires !Apply(cfg, s, a).items[id].direct && Plain(Apply(cfg, s, a).items[id].msg.room)
    ensures var s', n := Apply(cfg, s, a), cfg.home(c);
            && ((id, n) !in s.fanned && (id, n) in s'.fanned ==>
                  ((id, c) in s'.present <==> (s'.items[id].msg.room, c) in s.members))
            && ((id, n) in s.fanned ==> (id, n) in s'.fanned && ((id, c) in s'.present <==> (id, c) in s.present))
  {
    hide Targets, Once, Copies, Proper, Plain, ItemOk, OneCopy, Linked;
    PresentFanned(cfg, s, id, c);
    match a
    case Emit(sender, msg) =>
    case Deliver(k, n) => DeliverFresh(cfg, s, k, n);
    case _ =>
  }

  lemma PresentFanned(cfg: Config, s: State, id: nat, c: ConnId)
    requires Inv(cfg, s) && (id < |s.items| ==> !s.items[id].direct && Plain(s.items[id].msg.room))
    ensures (id, c) in s.present ==> id < |s.items| && (id, cfg.home(c)) in s.fanned
    ensures id >= |s.items| ==> (id, cfg.home(c)) !in s.fanned
  {
    hide Plain, OneCopy, Linked;
    if id < |s.items| {
      assert ItemOk(cfg, s, id);
    }
  }

  /** A copy for another node comes before that node's fan-out. */
  lemma DeliverFresh(cfg: Config, s: State, k: nat, n: NodeId)
    requires Inv(cfg, s) && (k, n) in s.pending
    ensures k < |s.bus| && s.bus[k].item < |s.items|
    ensures var item := s.items[s.bus[k].item];
            !item.direct && Plain(item.msg.room) && n != cfg.home(item.sender) ==> (s.bus[k].item, n) !in s.fanned
  {
    hide Plain;
    CopyOf(cfg, s, k, n);
    assert ItemOk(cfg, s, s.bus[k].item);
  }

  /** A copy sent through a node's channel is only ever handled by that node. */
  lemma NodeChannelIsolated(cfg: Config, run: seq<State>, i: nat, k: nat, n: NodeId, target: NodeId)
    requires Run(cfg, run) && i < |run| && (k, n) in run[i].pending
    ensures k < |run[i].bus|
    ensures run[i].bus[k].channel == NodeChannel(cfg.prefix, target) ==> n == target
  {
    hide NodeChannel, PatternMatches, OwnChannel;
    InvAlways(cfg, run, i);
    NodeChannelReach(cfg.prefix, target, n);
  }

  /**
   Unicast is exactly once. In every state of every run, a direct message has been offered once to its
   destination if that was found, on the sender's node or by the copy that came to its own, and to nobody else.
   */
  lemma UnicastExactlyOnce(cfg: Config, run: seq<State>, i: nat, id: nat)
    requires Run(cfg, run) && i < |run| && id < |run[i].items|
    requires run[i].items[id].direct && run[i].items[id].msg.dst != []
    ensures var s, item := run[i], run[i].items[id];
            && (forall c :: s.offers[(id, c)] ==
                  if c == item.msg.dst && (item.progress.Local? || id in s.reached) then 1 else 0)
            && (id in s.reached ==> Came(cfg, s, item))
  {
    hide Carried;
    InvAlways(cfg, run, i);
    assert ItemOk(cfg, run[i], id);
  }

  /** The action behind a step of a run. */
  lemma RunStep(cfg: Config, run: seq<State>, i: nat) returns (a: Action)
    requires Run(cfg, run) && i + 1 < |run|
    ensures WellFormed(cfg) && Inv(cfg, run[i]) && Possible(cfg, run[i], a) && run[i + 1] == Apply(cfg, run[i], a)
  {
    hide Inv, Possible, Apply, WellFormed;
    InvAlways(cfg, run, i);
    assert NextAt(cfg, run, i);
    a :| Possible(cfg, run[i], a) && run[i + 1] == Apply(cfg, run[i], a);
  }

  /**
   `reached` is what it says: a direct message comes into it in the very step that takes its copy for the node
   of its destination from the broker, if the destination is registered then and the node is not the origin.
   */
  lemma ReachedAtDelivery(cfg: Config, run: seq<State>, i: nat, id: nat)
    requires Run(cfg, run) && i + 1 < |run| && id < |run[i].items| && run[i].items[id].direct
    ensures var s, s', item, n := run[i], run[i + 1], run[i].items[id], cfg.home(run[i].items[id].msg.dst);
            id in s'.reached <==>
              || id in s.reached
              || (&& item.progress.Published?
                  && (item.progress.k, n) in s.pending && (item.progress.k, n) !in s'.pending
                  && n != cfg.home(item.sender) && item.msg.dst in s.conns)
  {
    hide Inv, Possible, Apply, WellFormed;
    var a := RunStep(cfg, run, i);
    ReachedStep(cfg, run[i], a, id);
  }

  lemma ReachedStep(cfg: Config, s: State, a: Action, id: nat)
    requires Inv(cfg, s) && Possible(cfg, s, a) && id < |s.items| && s.items[id].direct
    ensures var s', item, n := Apply(cfg, s, a), s.items[id], cfg.home(s.items[id].msg.dst);
            id in s'.reached <==>
              || id in s.reached
              || (&& item.progress.Published?
                  && (item.progress.k, n) in s.pending && (item.progress.k, n) !in s'.pending
                  && n != cfg.home(item.sender) && item.msg.dst in s.conns)
  {
    hide Targets, Once, Copies, Proper, NoFuture, RoomChannel, NodeChannel, Pack;
    assert ItemOk(cfg, s, id);
    match a
    case Deliver(k, n) =>
      CopyOf(cfg, s, k, n);
      assert s.pending[(k, n)] == 1;
    case _ =>
  }

  /** A direct message is settled on the sender's node exactly if its destination is registered there at that time. */
  lemma LocalAtSend(cfg: Config, run: seq<State>, i: nat)
    requires Run(cfg, run) && i + 1 < |run| && |run[i].items| < |run[i + 1].items|
    requires run[i + 1].items[|run[i].items|].direct
    ensures var s, item := run[i], run[i + 1].items[|run[i].items|];
            && (item.progress.Local? <==> item.msg.dst in s.conns && cfg.home(item.msg.dst) == cfg.home(item.sender))
            && (!item.progress.Local? ==> item.progress.Unpublished?)
  {
    hide Inv, WellFormed, Proper, Copies, Once, Targets, RoomChannel, NodeChannel, Pack;
    var a := RunStep(cfg, run, i);
  }

  /**
   A publication puts a copy with the broker for each node it is for: all of them, or the one whose channel it
   is on.
   */
  lemma CopiesAtPublish(cfg: Config, run: seq<State>, i: nat, n: NodeId)
    requires Run(cfg, run) && i + 1 < |run| && |run[i].bus| < |run[i + 1].bus| && n in cfg.nodes
    ensures var k, p := |run[i].bus|, run[i + 1].bus[|run[i].bus|];
            && p.item < |run[i].items|
            && ((k, n) in run[i + 1].pending <==>
                  || p.channel == RoomChannel(cfg.prefix, RoomOf(run[i].items[p.item]))
                  || p.channel == NodeChannel(cfg.prefix, n))
            && (!run[i].items[p.item].direct ==> (k, n) in run[i + 1].pending)
  {
    hide Inv, WellFormed, Proper, Publish, Emitted, Sent, Delivered;
    var a := RunStep(cfg, run, i);
    var s := run[i];
    match a
    case PublishRoom(id) => PublishedFor(cfg, s, id, RoomChannel(cfg.prefix, RoomOf(s.items[id])), n);
    case PublishDirect(id, target) => PublishedFor(cfg, s, id, NodeChannel(cfg.prefix, target), n);
    case Deliver(k, m) => SameBus(cfg, s, k, m);
    case Emit(sender, msg) => EmittedBus(cfg, s, sender, msg);
    case Send(sender, msg) => EmittedBus(cfg, s, sender, msg);
    case _ =>
  }

  lemma EmittedBus(cfg: Config, s: State, sender: ConnId, msg: Message)
    ensures Emitted(cfg, s, sender, msg).bus == Sent(cfg, s, sender, msg).bus == s.bus
  {
  }

  lemma SameBus(cfg: Config, s: State, k: nat, n: NodeId)
    requires k < |s.bus| && s.bus[k].item < |s.items|
    ensures Delivered(cfg, s, k, n).bus == s.bus
  {
  }

  lemma PublishedFor(cfg: Config, s: State, id: nat, channel: Bytes, n: NodeId)
    requires Inv(cfg, s) && id < |s.items| && ChannelFor(cfg, s.items[id], channel) && n in cfg.nodes
    ensures var s', k := Publish(cfg, s, id, channel), |s.bus|;
            && |s'.bus| == k + 1 && s'.bus[k].item == id && s'.bus[k].channel == channel
            && ((k, n) in s'.pending <==>
                  || channel == RoomChannel(cfg.prefix, RoomOf(s.items[id])) || channel == NodeChannel(cfg.prefix, n))
            && (!s.items[id].direct ==> (k, n) in s'.pending)
  {
    hide RoomChannel, NodeChannel, PatternMatches, OwnChannel, Pack, Serialize, ItemOk, Linked, NoFuture;
    assert (|s.bus|, n) !in s.pending;
    RoomChannelReach(cfg.prefix, RoomOf(s.items[id]), n);
    if channel != RoomChannel(cfg.prefix, RoomOf(s.items[id])) {
      var target :| channel == NodeChannel(cfg.prefix, target);
      NodeChannelReach(cfg.prefix, target, n);
      NodeChannelReach(cfg.prefix, n, n);
      NodeChannelReach(cfg.prefix, n, target);
    }
  }

  /** Membership changes by joins and leaves alone, and registration by connects and disconnects. */
  lemma ChangedBy(cfg: Config, s: State, a: Action, room: Bytes, c: ConnId)
    requires Possible(cfg, s, a)
    ensures var s' := Apply(cfg, s, a);
            && ((room, c) in s'.members <==> a == Join(c, room) || ((room, c) in s.members && a != Leave(c, room)))
            && (c in s'.conns <==> a == Connect(c) || (c in s.conns && a != Disconnect(c)))
  {
    hide Targets, MembersAt, Once, Copies, RoomChannel, NodeChannel, Pack, Serialize, Proper;
  }

  /**
   From every state of every run a direct message can be delivered: once its destination is connected, it is
   offered by the sender's node, or by its own when the copy sent there arrives.
   */
  lemma UnicastArrives(cfg: Config, run: seq<State>, sender: ConnId, msg: Message) returns (longer: seq<State>)
    requires Run(cfg, run) && |run| > 0 && Proper(cfg, sender, msg) && msg.dst != []
    ensures run <= longer && Run(cfg, longer)
    ensures var s, id := longer[|longer| - 1], |run[|run| - 1].items|;
            id < |s.items| && s.items[id].msg == msg && s.offers[(id, msg.dst)] == 1
  {
    hide Run, Proper, Apply;
    HomesNamed(cfg, run, msg.dst);
    longer := Longer(cfg, run, Connect(msg.dst));
    var s, id := longer[|longer| - 1], |run[|run| - 1].items|;
    Connected(cfg, run[|run| - 1], msg.dst);
    longer := Longer(cfg, longer, Send(sender, msg));
    Settled(cfg, s, sender, msg);
    if !(longer[|longer| - 1].items[id].progress.Local?) {
      var n, k := cfg.home(msg.dst), |longer[|longer| - 1].bus|;
      var sent := longer[|longer| - 1];
      longer := Longer(cfg, longer, PublishDirect(id, n));
      Dispatched(cfg, sent, id, n);
      var out := longer[|longer| - 1];
      longer := Longer(cfg, longer, Deliver(k, n));
      Found(cfg, out, k, n);
    }
    UnicastExactlyOnce(cfg, longer, |longer| - 1, id);
  }

  /** And so can a broadcast, to any connection that is in its room. */
  lemma FanoutArrives(cfg: Config, run: seq<State>, sender: ConnId, msg: Message, d: ConnId)
      returns (longer: seq<State>)
    requires Run(cfg, run) && |run| > 0 && Proper(cfg, sender, msg) && msg.dst == [] && Plain(msg.room)
    requires d != [] && d != sender
    ensures run <= longer && Run(cfg, longer)
    ensures var s, id := longer[|longer| - 1], |run[|run| - 1].items|;
            id < |s.items| && s.items[id].msg == msg && !s.items[id].direct && s.offers[(id, d)] == 1
  {
    hide Run, Proper, Apply, Plain;
    HomesNamed(cfg, run, d);
    longer := Longer(cfg, run, Join(d, msg.room));
    var s, id, n := longer[|longer| - 1], |run[|run| - 1].items|, cfg.home(d);
    IsIn(cfg, run[|run| - 1], d, msg.room);
    longer := Longer(cfg, longer, Emit(sender, msg));
    Begun(cfg, s, sender, msg, d);
    if n != cfg.home(sender) {
      var sent, k := longer[|longer| - 1], |longer[|longer| - 1].bus|;
      longer := Longer(cfg, longer, PublishRoom(id));
      Announced(cfg, sent, id, n);
      var out := longer[|longer| - 1];
      longer := Longer(cfg, longer, Deliver(k, n));
      Witnessed(cfg, out, k, n, d);
    }
    FanoutExactlyOnce(cfg, longer, |longer| - 1, id);
  }

  lemma IsIn(cfg: Config, s: State, d: ConnId, room: Bytes)
    requires d != []
    ensures var s' := Apply(cfg, s, Join(d, room)); (room, d) in s'.members && s'.items == s.items
  {
  }

  lemma Begun(cfg: Config, s: State, sender: ConnId, msg: Message, d: ConnId)
    requires Proper(cfg, sender, msg) && msg.dst == [] && (msg.room, d) in s.members
    ensures var s', id := Apply(cfg, s, Emit(sender, msg)), |s.items|;
            && |s'.items| == id + 1 && s'.items[id] == Item(sender, msg, false, Unpublished)
            && s'.members == s.members
            && (cfg.home(d) == cfg.home(sender) ==> (id, d) in s'.present)
  {
    hide Proper, Once;
  }

  lemma Announced(cfg: Config, s: State, id: nat, n: NodeId)
    requires id < |s.items| && !s.items[id].direct && s.items[id].progress.Unpublished? && n in cfg.nodes
    ensures var s', k := Apply(cfg, s, PublishRoom(id)), |s.bus|;
            && |s'.bus| == k + 1 && s'.bus[k].item == id && (k, n) in s'.pending && s'.members == s.members
            && |s'.items| == |s.items|
            && s'.items[id] == s.items[id].(progress := Published(k))
  {
    hide RoomChannel, Pack, Serialize;
    RoomChannelReach(cfg.prefix, s.items[id].msg.room, n);
  }

  lemma Witnessed(cfg: Config, s: State, k: nat, n: NodeId, d: ConnId)
    requires Possible(cfg, s, Deliver(k, n))
    requires var item := s.items[s.bus[k].item];
             !item.direct && n != cfg.home(item.sender) && (item.msg.room, d) in s.members && n == cfg.home(d)
    ensures var s' := Apply(cfg, s, Deliver(k, n)); (s.bus[k].item, d) in s'.present && s'.items == s.items
  {
    hide Targets, Once;
  }

  lemma Longer(cfg: Config, run: seq<State>, a: Action) returns (longer: seq<State>)
    requires Run(cfg, run) && |run| > 0 && Possible(cfg, run[|run| - 1], a)
    ensures run <= longer && |longer| > 0 && Run(cfg, longer)
    ensures longer[|longer| - 1] == Apply(cfg, run[|run| - 1], a)
  {
    hide Possible, Apply, WellFormed;
    longer := run + [Apply(cfg, run[|run| - 1], a)];
    forall i: nat | i + 1 < |longer|
      ensures NextAt(cfg, longer, i)
    {
      if i + 1 < |run| {
        assert NextAt(cfg, run, i) && longer[i] == run[i] && longer[i + 1] == run[i + 1];
        var b :| Possible(cfg, run[i], b) && run[i + 1] == Apply(cfg, run[i], b);
        assert Possible(cfg, longer[i], b) && longer[i + 1] == Apply(cfg, longer[i], b);
      } else {
        assert longer[i] == run[|run| - 1] && Possible(cfg, longer[i], a);
        assert longer[i + 1] == Apply(cfg, longer[i], a);
      }
    }
  }

  lemma HomesNamed(cfg: Config, run: seq<State>, c: ConnId)
    requires Run(cfg, run)
    ensures cfg.home(c) in cfg.nodes && cfg.home(c) != []
  {
  }

  lemma Connected(cfg: Config, s: State, c: ConnId)
    requires c != []
    ensures var s' := Apply(cfg, s, Connect(c)); c in s'.conns && s'.items == s.items
  {
  }

  lemma Settled(cfg: Config, s: State, sender: ConnId, msg: Message)
    requires Proper(cfg, sender, msg) && msg.dst in s.conns
    ensures var s', id := Apply(cfg, s, Send(sender, msg)), |s.items|;
            && |s'.items| == id + 1 && s'.items[id].msg == msg && s'.items[id].direct && s'.conns == s.conns
            && s'.items[id].sender == sender
            && (s'.items[id].progress.Local? || s'.items[id].progress.Unpublished?)
            && (s'.items[id].progress.Local? <==> cfg.home(msg.dst) == cfg.home(sender))
  {
    hide Proper;
  }

  lemma Dispatched(cfg: Config, s: State, id: nat, n: NodeId)
    requires id < |s.items| && s.items[id].direct && s.items[id].progress.Unpublished? && n in cfg.nodes && n != []
    ensures var s', k := Apply(cfg, s, PublishDirect(id, n)), |s.bus|;
            && |s'.bus| == k + 1 && s'.bus[k].item == id && (k, n) in s'.pending && s'.conns == s.conns
            && |s'.items| == |s.items|
            && s'.items[id] == s.items[id].(progress := Published(k))
  {
    hide NodeChannel, Pack, Serialize;
    NodeChannelReach(cfg.prefix, n, n);
  }

  lemma Found(cfg: Config, s: State, k: nat, n: NodeId)
    requires Possible(cfg, s, Deliver(k, n)) && Finds(cfg, s, s.items[s.bus[k].item], n)
    ensures var s' := Apply(cfg, s, Deliver(k, n)); s.bus[k].item in s'.reached && s'.items == s.items
  {
  }

  /** Why the destination must not be empty: the fallback then reaches the whole root room of other nodes. */
  lemma EmptyDestination(origin: NodeId, node: NodeId, prefix: Bytes, msg: Message)
    requires Sendable(origin, msg) && node != origin
    ensures var reach := Handle(node, prefix, RoomChannel(prefix, ROOT), Pack(origin, Serialize(msg)));
            reach == if msg.dst == [] then Fanout(ROOT, msg) else Direct(msg)
  {
    RoutedByRoom(origin, node, prefix, ROOT, msg);
    hide Serialize;
  }
}
