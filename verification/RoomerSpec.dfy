/**
 The abstract specification spec/roomer.tla, action by action, over all clients and all rooms.
 The model checker explores it on two clients and one room; here its invariants are proved for
 any number.
 */
module RoomerSpec {
  type Client = int
  type RoomName = int

  const MAX_TOKENS := 5
  const REFILL_AMOUNT := 2

  datatype Packet = Packet(version: nat, flags: nat, roomLen: nat, eventLen: nat, dstLen: nat, srcLen: nat,
                           payloadLen: nat, room: RoomName, event: string, src: Client, payload: string)

  datatype Spec = Spec(
    connections: set<Client>,
    memberships: imap<RoomName, set<Client>>,
    presence: imap<RoomName, set<Client>>,
    buffers: imap<Client, seq<Packet>>,
    tokens: imap<Client, int>)

  datatype SpecAction =
    | Connect(c: Client)
    | Disconnect(c: Client)
    | RefillTokens(c: Client)
    | JoinRoom(c: Client, r: RoomName)
    | LeaveRoom(c: Client, r: RoomName)
    | ExpireAbandonedRoom(r: RoomName)
    | Broadcast(c: Client, r: RoomName, msg: string)
    | ReadMsg(c: Client)

  /** The functions of the specification are total. */
  ghost predicate Total(a: Spec) {
    && (forall r :: r in a.memberships)
    && (forall r :: r in a.presence)
    && (forall c :: c in a.buffers)
    && (forall c :: c in a.tokens)
  }

  ghost predicate SpecInit(a: Spec) {
    && Total(a)
    && a.connections == {}
    && (forall r :: a.memberships[r] == {})
    && (forall r :: a.presence[r] == {})
    && (forall c :: a.buffers[c] == [])
    && (forall c :: a.tokens[c] == MAX_TOKENS)
  }

  ghost predicate Key(k: int) {
    true
  }

  ghost function Everywhere<V>(v: V): (m: imap<int, V>)
    ensures forall k :: k in m && m[k] == v
  {
    imap k: int | Key(k) :: v
  }

  ghost function InitState(): (a: Spec)
    ensures SpecInit(a)
  {
    Spec({}, Everywhere({}), Everywhere({}), Everywhere([]), Everywhere(MAX_TOKENS))
  }

  function ChatPacket(c: Client, r: RoomName, msg: string): Packet {
    Packet(1, 0, 5, 4, 0, 8, 4, r, "chat", c, msg)
  }

  ghost predicate Guard(a: Spec, act: SpecAction)
    requires Total(a)
  {
    match act
    case Connect(c) => c !in a.connections
    case Disconnect(c) => c in a.connections
    case RefillTokens(c) => c in a.connections && a.tokens[c] < MAX_TOKENS
    case JoinRoom(c, r) => c in a.connections && c !in a.memberships[r] && a.tokens[c] > 0
    case LeaveRoom(c, r) => c in a.connections && c in a.memberships[r] && a.tokens[c] > 0
    case ExpireAbandonedRoom(r) => a.memberships[r] == {} && a.presence[r] != {}
    case Broadcast(c, r, msg) => c in a.connections && c in a.memberships[r]
    case ReadMsg(c) => c in a.connections && a.buffers[c] != []
  }

  ghost function Without(m: imap<RoomName, set<Client>>, c: Client): (w: imap<RoomName, set<Client>>)
    requires forall r :: r in m
    ensures forall r :: r in w && w[r] == m[r] - {c}
  {
    imap r | r in m :: m[r] - {c}
  }

  ghost function AppendTo(m: imap<Client, seq<Packet>>, to: set<Client>, p: Packet): (w: imap<Client, seq<Packet>>)
    requires forall c :: c in m
    ensures forall c :: c in w && w[c] == if c in to then m[c] + [p] else m[c]
  {
    imap c | c in m :: if c in to then m[c] + [p] else m[c]
  }

  ghost function Update(a: Spec, act: SpecAction): Spec
    requires Total(a) && Guard(a, act)
  {
    match act
    case Connect(c) =>
      a.(connections := a.connections + {c}, tokens := a.tokens[c := MAX_TOKENS])
    case Disconnect(c) =>
      a.(connections := a.connections - {c},
         memberships := Without(a.memberships, c),
         presence := Without(a.presence, c),
         buffers := a.buffers[c := []],
         tokens := a.tokens[c := 0])
    case RefillTokens(c) =>
      var more := a.tokens[c] + REFILL_AMOUNT;
      a.(tokens := a.tokens[c := if more > MAX_TOKENS then MAX_TOKENS else more])
    case JoinRoom(c, r) =>
      a.(memberships := a.memberships[r := a.memberships[r] + {c}],
         presence := a.presence[r := a.presence[r] + {c}],
         tokens := a.tokens[c := a.tokens[c] - 1])
    case LeaveRoom(c, r) =>
      a.(memberships := a.memberships[r := a.memberships[r] - {c}],
         presence := a.presence[r := a.presence[r] - {c}],
         tokens := a.tokens[c := a.tokens[c] - 1])
    case ExpireAbandonedRoom(r) =>
      a.(presence := a.presence[r := {}])
    case Broadcast(c, r, msg) =>
      a.(buffers := AppendTo(a.buffers, a.memberships[r] - {c}, ChatPacket(c, r, msg)))
    case ReadMsg(c) =>
      a.(buffers := a.buffers[c := a.buffers[c][1..]])
  }

  ghost predicate SpecNext(a: Spec, a': Spec) {
    Total(a) && exists act :: Guard(a, act) && a' == Update(a, act)
  }

  // ---------------------------------------------------------------- the specification's invariants

  ghost predicate TypeOK(a: Spec) {
    Total(a) && forall c :: 0 <= a.tokens[c] <= MAX_TOKENS
  }

  ghost predicate NoUnconnectedMembers(a: Spec)
    requires Total(a)
  {
    forall r :: a.memberships[r] <= a.connections && a.presence[r] <= a.connections
  }

  ghost predicate NotConnectedBufferEmpty(a: Spec)
    requires Total(a)
  {
    forall c :: c !in a.connections ==> a.buffers[c] == []
  }

  predicate WirePacketOK(p: Packet) {
    p.version == 1 && p.flags <= 255 && p.roomLen <= 65535 && p.eventLen <= 65535 && p.dstLen <= 255 && p.srcLen <= 255
  }

  ghost predicate WireFormatValid(a: Spec)
    requires Total(a)
  {
    forall c, i :: 0 <= i < |a.buffers[c]| ==> WirePacketOK(a.buffers[c][i])
  }

  ghost predicate SpecInv(a: Spec) {
    && TypeOK(a)
    && NoUnconnectedMembers(a)
    && NotConnectedBufferEmpty(a)
    && WireFormatValid(a)
  }

  lemma StaysTotal(a: Spec, act: SpecAction)
    requires Total(a) && Guard(a, act)
    ensures Total(Update(a, act))
  {
  }

  lemma SpecStepKeeps(a: Spec, act: SpecAction)
    requires SpecInv(a) && Guard(a, act)
    ensures SpecInv(Update(a, act))
  {
    StaysTotal(a, act);
  }

  lemma SpecNextKeeps(a: Spec, a': Spec)
    requires SpecInv(a) && SpecNext(a, a')
    ensures SpecInv(a')
  {
    var act :| Guard(a, act) && a' == Update(a, act);
    SpecStepKeeps(a, act);
  }

  /** A run of the specification. */
  ghost predicate SpecRun(run: seq<Spec>) {
    && |run| > 0
    && SpecInit(run[0])
    && forall i: nat :: i + 1 < |run| ==> SpecNextAt(run, i)
  }

  ghost predicate SpecNextAt(run: seq<Spec>, i: nat) {
    i + 1 < |run| && SpecNext(run[i], run[i + 1])
  }

  /** What the model checker checks on two clients and one room holds for any number of either. */
  lemma {:induction false} SpecInvAlways(run: seq<Spec>, i: nat)
    requires SpecRun(run) && i < |run|
    ensures SpecInv(run[i])
  {
    if i > 0 {
      SpecInvAlways(run, i - 1);
      assert SpecNextAt(run, i - 1);
      SpecNextKeeps(run[i - 1], run[i]);
    }
  }
}
