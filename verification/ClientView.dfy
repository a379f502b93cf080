/**
 A room's member list as the clients replicate it: the room object of the browser client
 (client/roomer.js:647-696) and of the Python client (client/python/roomer.py:423-478), and the system of any
 number of clients and one server, for one room. Server operations are serialised, presence is up to date,
 and the queues both ways lose nothing.
 */
module ClientView {
  import opened Wire

  type ConnId = int

  datatype Frame =
    | JoinAck(src: ConnId, list: seq<ConnId>)
    | NewMember(id: ConnId)
    | MemberLeft(id: ConnId)
    | LeaveAck

  /** A room object in the client's table. */
  datatype View = View(isOpen: bool, members: seq<ConnId>, memberId: Option<ConnId>)

  const FRESH := View(false, [], None)

  function Without(list: seq<ConnId>, x: ConnId): (r: seq<ConnId>) {
    if list == [] then []
    else if list[0] == x then list[1..]
    else [list[0]] + Without(list[1..], x)
  }

  /** What a frame does to the room under its name; without one it is dropped. */
  function ParseFrame(v: Option<View>, f: Frame): Option<View> {
    match v
    case None => None
    case Some(view) =>
      match f
      case JoinAck(src, list) => Some(View(true, list, Some(src)))
      case NewMember(id) => Some(if id in view.members then view else view.(members := view.members + [id]))
      case MemberLeft(id) => Some(view.(members := Without(view.members, id)))
      case LeaveAck => None
  }

  /** The room object of both clients, with the table's entry for it. */
  class Room {
    var members: seq<ConnId>
    var isOpen: bool
    var memberId: Option<ConnId>
    var listed: bool

    ghost function State(): Option<View>
      reads this
    {
      if listed then Some(View(isOpen, members, memberId)) else None
    }

    constructor ()
      ensures State() == Some(FRESH)
    {
      members, isOpen, memberId, listed := [], false, None, true;
    }

    /** members.splice(members.indexOf(id), 1) and members.remove(id): the first occurrence goes. */
    method Remove(id: ConnId)
      requires id in members
      modifies this`members
      ensures members == Without(old(members), id)
    {
      var i := 0;
      while members[i] != id
        invariant 0 <= i < |members| && id !in members[..i] && id in members[i..]
        decreases |members| - i
      {
        i := i + 1;
      }
      WithoutAt(members, i);
      members := members[..i] + members[i + 1..];
    }

    /** parse (roomer.js:647-696), of a frame whose room is in the table. */
    method Parse(f: Frame)
      requires listed
      modifies this
      ensures State() == ParseFrame(old(State()), f)
      ensures f.LeaveAck? ==> !isOpen && members == [] && memberId == None
    {
      match f
      case JoinAck(src, list) =>
        memberId := Some(src);
        members := [];
        members := members + list;
        assert members == list;
        isOpen := true;
      case NewMember(id) =>
        if id !in members {
          members := members + [id];
        }
      case LeaveAck =>
        isOpen := false;
        members := [];
        memberId := None;
        listed := false;
      case MemberLeft(id) =>
        if id in members {
          Remove(id);
        } else {
          WithoutAbsent(members, id);
        }
    }

    /** forceClose (roomer.js:550-563): a disconnected room stays in the table, empty and closed. */
    method ForceClose(isDisconnect: bool)
      modifies this
      ensures !isOpen && (old(isOpen) ==> members == []) && (!old(isOpen) ==> members == old(members))
      ensures listed == (isDisconnect && old(listed))
      ensures memberId == if isDisconnect then old(memberId) else None
    {
      if isOpen {
        isOpen := false;
        members := [];
      }
      if !isDisconnect {
        memberId := None;
        listed := false;
      }
    }
  }

  lemma {:induction false} WithoutAt(list: seq<ConnId>, i: nat)
    requires i < |list| && list[i] !in list[..i]
    ensures Without(list, list[i]) == list[..i] + list[i + 1..]
  {
    if i > 0 {
      assert list[0] in list[..i] && list[1..][..i - 1] == list[..i][1..];
      WithoutAt(list[1..], i - 1);
    }
  }

  lemma {:induction false} WithoutAbsent(list: seq<ConnId>, x: ConnId)
    requires x !in list
    ensures Without(list, x) == list
  {
    if list != [] {
      WithoutAbsent(list[1..], x);
    }
  }

  predicate NoDuplicates(list: seq<ConnId>) {
    forall i, j :: 0 <= i < j < |list| ==> list[i] != list[j]
  }

  /** The list holds exactly the members, each once. */
  ghost predicate Exact(list: seq<ConnId>, members: set<ConnId>) {
    NoDuplicates(list) && forall x :: x in list <==> x in members
  }

  lemma {:induction false} WithoutExact(list: seq<ConnId>, members: set<ConnId>, x: ConnId)
    requires Exact(list, members)
    ensures Exact(Without(list, x), members - {x})
  {
    if list != [] {
      var head, rest := list[0], list[1..];
      assert list == [head] + rest && head !in rest;
      assert Exact(rest, members - {head});
      if head == x {
        assert members - {head} == members - {x};
      } else {
        WithoutExact(rest, members - {head}, x);
        var w := Without(rest, x);
        assert head !in w;
        Prepended(head, w, members - {head} - {x}, members - {x});
      }
    }
  }

  lemma Prepended(head: ConnId, list: seq<ConnId>, members: set<ConnId>, all: set<ConnId>)
    requires Exact(list, members) && head !in members && head in all && members == all - {head}
    ensures Exact([head] + list, all)
  {
    var longer := [head] + list;
    forall i, j | 0 <= i < j < |longer|
      ensures longer[i] != longer[j]
    {
      assert longer[j] in list;
    }
    forall y
      ensures y in longer <==> y in all
    {
      assert y in longer <==> y == head || y in list;
    }
  }

  // ---------------------------------------------------------------- the system

  datatype Request = Join | Leave

  /** A client's room object, its requests under way and the frames on their way to it. */
  datatype Client = Client(room: Option<View>, up: seq<Request>, down: seq<Frame>)

  datatype State = State(members: set<ConnId>, clients: map<ConnId, Client>)

  const INIT := State({}, map[])

  datatype Action =
    | Connect(c: ConnId, reconnecting: bool)
    | CallJoin(c: ConnId) | Rejoin(c: ConnId) | CallLeave(c: ConnId)
    | Serve(c: ConnId, list: seq<ConnId>) | Refuse(c: ConnId)
    | Receive(c: ConnId)
    | Close(c: ConnId)

  /** The server's member set after the first request of `c`. */
  function Served(s: State, c: ConnId): set<ConnId>
    requires c in s.clients && s.clients[c].up != []
  {
    if s.clients[c].up[0].Join? then s.members + {c} else s.members - {c}
  }

  ghost predicate Possible(s: State, a: Action) {
    match a
    case Connect(c, reconnecting) => c !in s.clients
    case CallJoin(c) => c in s.clients && s.clients[c].room.None?
    case Rejoin(c) => c in s.clients && s.clients[c].room.Some?
    case CallLeave(c) => c in s.clients && s.clients[c].room.Some? && s.clients[c].room.value.isOpen
    case Serve(c, list) => c in s.clients && s.clients[c].up != [] && Exact(list, Served(s, c))
    case Refuse(c) => c in s.clients && s.clients[c].up != []
    case Receive(c) => c in s.clients && s.clients[c].down != []
    case Close(c) => c in s.clients
  }

  function Put(s: State, c: ConnId, cl: Client): State {
    s.(clients := s.clients[c := cl])
  }

  /** One frame to every client in `to`. */
  function Tell(clients: map<ConnId, Client>, to: set<ConnId>, f: Frame): (r: map<ConnId, Client>)
    ensures r.Keys == clients.Keys
    ensures forall d :: d in r ==> r[d] == if d in to then clients[d].(down := clients[d].down + [f]) else clients[d]
  {
    map d | d in clients :: if d in to then clients[d].(down := clients[d].down + [f]) else clients[d]
  }

  /** dispatch of a join or a leave (conn.go:215-241): the room is told, then the caller gets its ack. */
  function Dispatch(s: State, c: ConnId, list: seq<ConnId>): State
    requires c in s.clients && s.clients[c].up != []
  {
    var request := s.clients[c].up[0];
    var members := Served(s, c);
    var told := Tell(s.clients, members - {c}, if request.Join? then NewMember(c) else MemberLeft(c));
    var me := told[c];
    var ack := if request.Join? then JoinAck(c, list) else LeaveAck;
    State(members, told[c := me.(up := me.up[1..], down := me.down + [ack])])
  }

  function Apply(s: State, a: Action): State
    requires Possible(s, a)
  {
    match a
    case Connect(c, reconnecting) =>
      Put(s, c, if reconnecting then Client(Some(FRESH), [Join], []) else Client(None, [], []))
    case CallJoin(c) =>
      var cl := s.clients[c];
      Put(s, c, cl.(room := Some(FRESH), up := cl.up + [Join]))
    case Rejoin(c) =>
      var cl := s.clients[c];
      Put(s, c, cl.(up := cl.up + [Join]))
    case CallLeave(c) =>
      var cl := s.clients[c];
      Put(s, c, cl.(up := cl.up + [Leave]))
    case Serve(c, list) => Dispatch(s, c, list)
    case Refuse(c) =>
      var cl := s.clients[c];
      Put(s, c, cl.(up := cl.up[1..]))
    case Receive(c) =>
      var cl := s.clients[c];
      Put(s, c, cl.(room := ParseFrame(cl.room, cl.down[0]), down := cl.down[1..]))
    case Close(c) =>
      var rest := s.members - {c};
      State(rest, if c in s.members then Tell(s.clients - {c}, rest, MemberLeft(c)) else s.clients - {c})
  }

  // ---------------------------------------------------------------- what a client will see

  /** The room after the pending frames. */
  function Settle(v: Option<View>, frames: seq<Frame>): Option<View> {
    if frames == [] then v else ParseFrame(Settle(v, frames[..|frames| - 1]), frames[|frames| - 1])
  }

  lemma SettleNext(v: Option<View>, frames: seq<Frame>, f: Frame)
    ensures Settle(v, frames + [f]) == ParseFrame(Settle(v, frames), f)
  {
    assert (frames + [f])[..|frames|] == frames;
  }

  lemma {:induction false} SettleFirst(v: Option<View>, frames: seq<Frame>)
    requires frames != []
    ensures Settle(v, frames) == Settle(ParseFrame(v, frames[0]), frames[1..])
  {
    if |frames| == 1 {
      assert Settle(v, frames[..0]) == v;
    } else {
      var n := |frames| - 1;
      SettleFirst(v, frames[..n]);
      assert frames[..n][1..] == frames[1..][..n - 1];
    }
  }

  lemma {:induction false} SettleSome(v: Option<View>, frames: seq<Frame>)
    ensures Settle(v, frames).Some? <==> v.Some? && LeaveAck !in frames
  {
    if frames != [] {
      var n := |frames| - 1;
      SettleSome(v, frames[..n]);
      assert frames == frames[..n] + [frames[n]];
    }
  }

  ghost predicate ExactView(v: Option<View>, members: set<ConnId>, c: ConnId) {
    v.Some? && v.value.isOpen && v.value.memberId == Some(c) && Exact(v.value.members, members)
  }

  predicate HasJoinAck(frames: seq<Frame>) {
    exists i :: 0 <= i < |frames| && frames[i].JoinAck?
  }

  /** The room is listed and stays so, and is open or about to be. */
  predicate OnTrack(cl: Client) {
    cl.room.Some? && LeaveAck !in cl.down && (cl.room.value.isOpen || HasJoinAck(cl.down))
  }

  lemma {:induction false} SettleOpen(v: Option<View>, frames: seq<Frame>)
    requires Settle(v, frames).Some? && Settle(v, frames).value.isOpen
    ensures v.Some? && (v.value.isOpen || HasJoinAck(frames))
  {
    SettleSome(v, frames);
    if frames != [] {
      var n := |frames| - 1;
      SettleSome(v, frames[..n]);
      if !frames[n].JoinAck? {
        SettleOpen(v, frames[..n]);
      }
    }
  }

  /** Once a join ack is among them, the pending frames alone decide what the room will be. */
  lemma {:induction false} SettleSame(v: Option<View>, v': Option<View>, frames: seq<Frame>)
    requires v.Some? && v'.Some? && HasJoinAck(frames)
    ensures Settle(v, frames) == Settle(v', frames)
  {
    var n := |frames| - 1;
    SettleSome(v, frames[..n]);
    SettleSome(v', frames[..n]);
    if !frames[n].JoinAck? {
      var i :| 0 <= i < |frames| && frames[i].JoinAck?;
      assert frames[..n][i].JoinAck?;
      SettleSame(v, v', frames[..n]);
    }
  }

  /** A room that is open will show exactly the members, unless a leave ack is on its way. */
  ghost predicate OpenSees(cl: Client, members: set<ConnId>, c: ConnId) {
    cl.room.Some? && cl.room.value.isOpen && LeaveAck !in cl.down ==> ExactView(Settle(cl.room, cl.down), members, c)
  }

  /** So would a room that starts anew before frame `k`, if a join ack and no leave ack is yet to come. */
  ghost predicate PendingSees(frames: seq<Frame>, members: set<ConnId>, c: ConnId) {
    LeaveAck !in frames && HasJoinAck(frames) ==> ExactView(Settle(Some(FRESH), frames), members, c)
  }

  ghost predicate Sees(s: State, c: ConnId) {
    c in s.members ==>
      && c in s.clients
      && OpenSees(s.clients[c], s.members, c)
      && forall k :: 0 <= k <= |s.clients[c].down| ==> PendingSees(s.clients[c].down[k..], s.members, c)
  }

  ghost predicate Inv(s: State) {
    forall c :: Sees(s, c)
  }

  function Changed(members: set<ConnId>, f: Frame): set<ConnId>
    requires f.NewMember? || f.MemberLeft?
  {
    if f.NewMember? then members + {f.id} else members - {f.id}
  }

  /** Who sees the members and is told of a change sees the changed members. */
  lemma ToldView(v: Option<View>, frames: seq<Frame>, members: set<ConnId>, c: ConnId, f: Frame)
    requires ExactView(Settle(v, frames), members, c) && (f.NewMember? || f.MemberLeft?)
    ensures ExactView(Settle(v, frames + [f]), Changed(members, f), c)
  {
    SettleNext(v, frames, f);
    if f.MemberLeft? {
      WithoutExact(Settle(v, frames).value.members, members, f.id);
    }
  }

  lemma Told(s: State, s': State, d: ConnId, f: Frame)
    requires d in s.members && Sees(s, d) && (f.NewMember? || f.MemberLeft?) && s'.members == Changed(s.members, f)
    requires d in s'.clients && s'.clients[d] == s.clients[d].(down := s.clients[d].down + [f])
    ensures Sees(s', d)
  {
    hide Settle, ExactView, HasJoinAck, Changed;
    var cl, cl' := s.clients[d], s'.clients[d];
    InFront(cl.down, f);
    if OpenSees(cl, s.members, d) && cl.room.Some? && cl.room.value.isOpen && LeaveAck !in cl'.down {
      ToldView(cl.room, cl.down, s.members, d, f);
    }
    forall k | 0 <= k <= |cl'.down|
      ensures PendingSees(cl'.down[k..], s'.members, d)
    {
      if k <= |cl.down| {
        assert cl'.down[k..] == cl.down[k..] + [f] && PendingSees(cl.down[k..], s.members, d);
        InFront(cl.down[k..], f);
        if LeaveAck !in cl'.down[k..] && HasJoinAck(cl'.down[k..]) {
          ToldView(Some(FRESH), cl.down[k..], s.members, d, f);
        }
      } else {
        NoAck(cl'.down[k..]);
      }
    }
  }

  lemma InFront(frames: seq<Frame>, f: Frame)
    requires !f.JoinAck?
    ensures HasJoinAck(frames + [f]) ==> HasJoinAck(frames)
    ensures LeaveAck !in frames + [f] ==> LeaveAck !in frames
  {
    var all := frames + [f];
    if HasJoinAck(all) {
      var i :| 0 <= i < |all| && all[i].JoinAck?;
      assert frames[i].JoinAck?;
    }
    assert LeaveAck in frames ==> LeaveAck in all;
  }

  lemma NoAck(frames: seq<Frame>)
    requires frames == []
    ensures !HasJoinAck(frames)
  {
  }

  lemma ServeKeeps(s: State, c: ConnId, list: seq<ConnId>)
    requires Inv(s) && Possible(s, Serve(c, list))
    ensures Inv(Dispatch(s, c, list))
  {
    hide Settle, ExactView, OpenSees, PendingSees;
    var s' := Dispatch(s, c, list);
    var f := if s.clients[c].up[0].Join? then NewMember(c) else MemberLeft(c);
    forall d
      ensures Sees(s', d)
    {
      assert Sees(s, d);
      if d == c {
        Acked(s, c, list);
      } else if d in s.members {
        Told(s, s', d, f);
      }
    }
  }

  lemma Acked(s: State, c: ConnId, list: seq<ConnId>)
    requires Possible(s, Serve(c, list))
    ensures Sees(Dispatch(s, c, list), c)
  {
    hide Exact, Settle;
    var cl := s.clients[c];
    if cl.up[0].Join? {
      var s' := Dispatch(s, c, list);
      var cl' := s'.clients[c];
      var ack := JoinAck(c, list);
      AckView(cl.room, cl.down, s'.members, c, list);
      forall k | 0 <= k <= |cl'.down|
        ensures PendingSees(cl'.down[k..], s'.members, c)
      {
        if k <= |cl.down| {
          assert cl'.down[k..] == cl.down[k..] + [ack];
          AckView(Some(FRESH), cl.down[k..], s'.members, c, list);
        }
      }
    }
  }

  lemma AckView(v: Option<View>, frames: seq<Frame>, members: set<ConnId>, c: ConnId, list: seq<ConnId>)
    requires Exact(list, members)
    ensures v.Some? && LeaveAck !in frames + [JoinAck(c, list)] ==>
        ExactView(Settle(v, frames + [JoinAck(c, list)]), members, c)
  {
    hide Exact;
    var ack := JoinAck(c, list);
    SettleNext(v, frames, ack);
    SettleSome(v, frames + [ack]);
  }

  lemma ReceiveKeeps(s: State, c: ConnId)
    requires Inv(s) && Possible(s, Receive(c))
    ensures Inv(Apply(s, Receive(c)))
  {
    hide Settle, ExactView, PendingSees, OpenSees;
    var s' := Apply(s, Receive(c));
    var cl, cl' := s.clients[c], s'.clients[c];
    forall d
      ensures Sees(s', d)
    {
      assert Sees(s, d);
      if d == c && d in s.members {
        assert PendingSees(cl.down[0..], s.members, c) && cl.down[0..] == cl.down;
        Received(cl, s.members, c);
        forall k | 0 <= k <= |cl'.down|
          ensures PendingSees(cl'.down[k..], s'.members, c)
        {
          assert cl'.down[k..] == cl.down[k + 1..];
        }
      }
    }
  }

  lemma Received(cl: Client, members: set<ConnId>, c: ConnId)
    requires cl.down != [] && OpenSees(cl, members, c) && PendingSees(cl.down, members, c)
    ensures OpenSees(cl.(room := ParseFrame(cl.room, cl.down[0]), down := cl.down[1..]), members, c)
  {
    hide ExactView, Settle;
    var cl' := cl.(room := ParseFrame(cl.room, cl.down[0]), down := cl.down[1..]);
    SettleFirst(cl.room, cl.down);
    assert cl.down == [cl.down[0]] + cl'.down;
    if cl'.room.Some? && cl'.room.value.isOpen && LeaveAck !in cl'.down && !cl.room.value.isOpen {
      assert cl.down[0].JoinAck?;
      SettleSame(cl.room, Some(FRESH), cl.down);
    }
  }

  lemma CloseKeeps(s: State, c: ConnId)
    requires Inv(s) && c in s.clients
    ensures Inv(Apply(s, Close(c)))
  {
    hide Settle, ExactView, OpenSees, PendingSees;
    var s' := Apply(s, Close(c));
    forall d
      ensures Sees(s', d)
    {
      assert Sees(s, d);
      if d != c && d in s.members {
        if c in s.members {
          Told(s, s', d, MemberLeft(c));
        } else {
          assert s'.members == s.members;
        }
      }
    }
  }

  /** What a client does by itself. */
  lemma ClientKeeps(s: State, a: Action)
    requires Inv(s) && Possible(s, a) && !a.Serve? && !a.Receive? && !a.Close?
    ensures Inv(Apply(s, a))
  {
    hide ExactView, Settle, PendingSees;
    var s' := Apply(s, a);
    forall d
      ensures Sees(s', d)
    {
      assert Sees(s, d);
    }
  }

  lemma StepKeeps(s: State, a: Action)
    requires Inv(s) && Possible(s, a)
    ensures Inv(Apply(s, a))
  {
    hide Inv;
    match a
    case Serve(c, list) => ServeKeeps(s, c, list);
    case Receive(c) => ReceiveKeeps(s, c);
    case Close(c) => CloseKeeps(s, c);
    case _ => ClientKeeps(s, a);
  }

  // ---------------------------------------------------------------- over every run

  /** Leaves a client has asked for and not yet been told of. */
  predicate Leaving(cl: Client) {
    Leave in cl.up || LeaveAck in cl.down
  }

  /** A client that waits for its leave ack before it leaves or joins again. */
  predicate Patient(s: State, a: Action) {
    (a.CallLeave? || a.Rejoin?) && a.c in s.clients ==> !Leaving(s.clients[a.c])
  }

  /** All runs, or those of patient clients. */
  ghost predicate NextAt(run: seq<State>, i: nat, patient: bool) {
    && i + 1 < |run|
    && exists a :: Possible(run[i], a) && (patient ==> Patient(run[i], a)) && run[i + 1] == Apply(run[i], a)
  }

  ghost predicate Run(run: seq<State>, patient: bool) {
    && |run| > 0
    && run[0] == INIT
    && forall i: nat :: i + 1 < |run| ==> NextAt(run, i, patient)
  }

  lemma {:induction false} InvAlways(run: seq<State>, patient: bool, i: nat)
    requires Run(run, patient) && i < |run|
    ensures Inv(run[i])
  {
    hide Inv, Possible, Apply, Patient;
    if i == 0 {
      InitInv();
    } else {
      InvAlways(run, patient, i - 1);
      assert NextAt(run, i - 1, patient);
      var a :| Possible(run[i - 1], a) && run[i] == Apply(run[i - 1], a);
      StepKeeps(run[i - 1], a);
    }
  }

  lemma InitInv()
    ensures Inv(INIT)
  {
  }

  /**
   In every state of every run: once a member's pending frames are applied, its room shows exactly the
   server's members, each once, if and only if the room is listed, open or about to be, and no leave ack is
   on its way.
   */
  lemma ViewAgrees(run: seq<State>, patient: bool, i: nat, c: ConnId)
    requires Run(run, patient) && i < |run| && c in run[i].members
    ensures c in run[i].clients
    ensures ExactView(Settle(run[i].clients[c].room, run[i].clients[c].down), run[i].members, c) <==>
        OnTrack(run[i].clients[c])
  {
    hide Settle, Exact, HasJoinAck;
    var s := run[i];
    InvAlways(run, patient, i);
    assert Sees(s, c);
    var cl := s.clients[c];
    SettleSome(cl.room, cl.down);
    if ExactView(Settle(cl.room, cl.down), s.members, c) {
      SettleOpen(cl.room, cl.down);
    }
    if OnTrack(cl) && !cl.room.value.isOpen {
      assert PendingSees(cl.down[0..], s.members, c) && cl.down[0..] == cl.down;
      SettleSame(cl.room, Some(FRESH), cl.down);
    }
  }

  // ---------------------------------------------------------------- patient clients are always on track

  ghost predicate Orderly(cl: Client, member: bool) {
    && (cl.room.None? ==> cl.up == [] && LeaveAck !in cl.down && !member)
    && (Leave in cl.up ==> LeaveAck !in cl.down && Leave !in cl.up[..|cl.up| - 1])
    && (LeaveAck in cl.down ==> cl.up == [] && !member && LeaveAck !in cl.down[..|cl.down| - 1])
    && (member ==> (cl.room.Some? && cl.room.value.isOpen) || HasJoinAck(cl.down))
  }

  ghost predicate AllOrderly(s: State) {
    forall c :: (c in s.members ==> c in s.clients) && (c in s.clients ==> Orderly(s.clients[c], c in s.members))
  }

  /** A member is told something. */
  lemma ToldOrderly(cl: Client, f: Frame)
    requires Orderly(cl, true) && (f.NewMember? || f.MemberLeft?)
    ensures Orderly(cl.(down := cl.down + [f]), true)
  {
    var down := cl.down + [f];
    if HasJoinAck(cl.down) {
      var i :| 0 <= i < |cl.down| && cl.down[i].JoinAck?;
      assert down[i].JoinAck?;
    }
    assert LeaveAck in down ==> LeaveAck in cl.down;
  }

  lemma FirstInFront<T>(s: seq<T>)
    requires s != []
    ensures |s| == 1 || s[0] in s[..|s| - 1]
  {
    if |s| > 1 {
      assert s[..|s| - 1][0] == s[0];
    }
  }

  lemma ServedOrderly(cl: Client, member: bool, c: ConnId, list: seq<ConnId>)
    requires Orderly(cl, member) && cl.up != []
    ensures var join := cl.up[0].Join?;
            Orderly(cl.(up := cl.up[1..], down := cl.down + [if join then JoinAck(c, list) else LeaveAck]), join)
  {
    var ack := if cl.up[0].Join? then JoinAck(c, list) else LeaveAck;
    var down := cl.down + [ack];
    assert down[|cl.down|] == ack && down[..|down| - 1] == cl.down;
    assert cl.up == [cl.up[0]] + cl.up[1..];
    if cl.up[0].Leave? {
      assert Leave in cl.up;
      FirstInFront(cl.up);
    } else if Leave in cl.up[1..] {
      assert Leave in cl.up;
      var i :| 0 <= i < |cl.up| && cl.up[i] == Leave;
      assert cl.up[1..][..|cl.up| - 2] == cl.up[..|cl.up| - 1][1..];
    }
  }

  lemma ReceivedOrderly(cl: Client, member: bool)
    requires Orderly(cl, member) && cl.down != []
    ensures Orderly(cl.(room := ParseFrame(cl.room, cl.down[0]), down := cl.down[1..]), member)
  {
    var tail := cl.down[1..];
    assert cl.down == [cl.down[0]] + tail;
    if cl.down[0].LeaveAck? {
      FirstInFront(cl.down);
    } else {
      assert tail != [] ==> tail[..|tail| - 1] == cl.down[..|cl.down| - 1][1..];
      if HasJoinAck(cl.down) && !cl.down[0].JoinAck? {
        var i :| 0 <= i < |cl.down| && cl.down[i].JoinAck?;
        assert tail[i - 1].JoinAck?;
      }
    }
  }

  lemma RefusedOrderly(cl: Client, member: bool)
    requires Orderly(cl, member) && cl.up != []
    ensures Orderly(cl.(up := cl.up[1..]), member)
  {
    var tail := cl.up[1..];
    assert cl.up == [cl.up[0]] + tail;
    if Leave in tail {
      assert tail[..|tail| - 1] == cl.up[..|cl.up| - 1][1..];
    }
  }

  lemma AskedOrderly(cl: Client, member: bool, r: Request)
    requires Orderly(cl, member) && cl.room.Some? && !Leaving(cl)
    ensures Orderly(cl.(up := cl.up + [r]), member)
  {
    assert (cl.up + [r])[..|cl.up|] == cl.up;
  }

  lemma OrderlyKeeps(s: State, a: Action)
    requires AllOrderly(s) && Possible(s, a) && Patient(s, a)
    ensures AllOrderly(Apply(s, a))
  {
    hide Orderly, ParseFrame, HasJoinAck, Exact;
    var s' := Apply(s, a);
    forall d
      ensures d in s'.members ==> d in s'.clients
      ensures d in s'.clients ==> Orderly(s'.clients[d], d in s'.members)
    {
      assert d in s.members ==> d in s.clients;
      if d == a.c {
        OwnOrderly(s, a);
      } else if d in s.members && s'.clients[d] != s.clients[d] {
        assert Orderly(s.clients[d], true);
        ToldOrderly(s.clients[d],
                    if a.Serve? && s.clients[a.c].up[0].Join? then NewMember(a.c) else MemberLeft(a.c));
      }
    }
  }

  lemma OwnOrderly(s: State, a: Action)
    requires AllOrderly(s) && Possible(s, a) && Patient(s, a)
    ensures var s' := Apply(s, a); a.c in s'.clients ==> Orderly(s'.clients[a.c], a.c in s'.members)
  {
    hide ParseFrame, HasJoinAck, Exact;
    var c := a.c;
    assert c in s.members ==> c in s.clients;
    match a
    case Connect(_, _) =>
    case CallJoin(_) =>
    case Rejoin(_) => AskedOrderly(s.clients[c], c in s.members, Join);
    case CallLeave(_) => AskedOrderly(s.clients[c], c in s.members, Leave);
    case Serve(_, list) => ServedOrderly(s.clients[c], c in s.members, c, list);
    case Refuse(_) => RefusedOrderly(s.clients[c], c in s.members);
    case Receive(_) => ReceivedOrderly(s.clients[c], c in s.members);
    case Close(_) =>
  }

  lemma {:induction false} OrderlyAlways(run: seq<State>, i: nat)
    requires Run(run, true) && i < |run|
    ensures AllOrderly(run[i])
  {
    hide AllOrderly, Possible, Apply, Patient;
    if i == 0 {
      InitOrderly();
    } else {
      OrderlyAlways(run, i - 1);
      assert NextAt(run, i - 1, true);
      var a :| Possible(run[i - 1], a) && Patient(run[i - 1], a) && run[i] == Apply(run[i - 1], a);
      OrderlyKeeps(run[i - 1], a);
    }
  }

  lemma InitOrderly()
    ensures AllOrderly(INIT)
  {
  }

  /** While clients await their leave acks, every member's view agrees in every state of every run. */
  lemma PatientViewsAgree(run: seq<State>, i: nat, c: ConnId)
    requires Run(run, true) && i < |run| && c in run[i].members
    ensures c in run[i].clients
    ensures ExactView(Settle(run[i].clients[c].room, run[i].clients[c].down), run[i].members, c)
  {
    hide ExactView;
    ViewAgrees(run, true, i, c);
    OrderlyAlways(run, i);
  }

  /** A client that has the room and is not leaving it is a member or has asked to be. */
  predicate Wanted(cl: Client, member: bool) {
    cl.room.Some? && !Leaving(cl) ==> member || Join in cl.up
  }

  ghost predicate AllWanted(s: State) {
    forall c :: c in s.clients ==> Wanted(s.clients[c], c in s.members)
  }

  /** A step in which no request is refused. */
  ghost predicate Granted(run: seq<State>, i: nat) {
    && i + 1 < |run|
    && exists a :: Possible(run[i], a) && Patient(run[i], a) && !a.Refuse? && run[i + 1] == Apply(run[i], a)
  }

  lemma OwnWanted(s: State, a: Action)
    requires AllWanted(s) && Possible(s, a) && Patient(s, a) && !a.Refuse?
    ensures var s' := Apply(s, a); a.c in s'.clients ==> Wanted(s'.clients[a.c], a.c in s'.members)
  {
    hide Exact;
    var s' := Apply(s, a);
    match a
    case Serve(c, list) =>
      var cl, cl' := s.clients[c], s'.clients[c];
      assert cl.up == [cl.up[0]] + cl.up[1..] && cl'.down[|cl'.down| - 1] in cl'.down;
    case Receive(c) =>
      var cl := s.clients[c];
      assert cl.down == [cl.down[0]] + cl.down[1..];
    case _ =>
  }

  lemma WantedKeeps(s: State, a: Action)
    requires AllWanted(s) && Possible(s, a) && Patient(s, a) && !a.Refuse?
    ensures AllWanted(Apply(s, a))
  {
    hide Exact, ParseFrame;
    var s' := Apply(s, a);
    OwnWanted(s, a);
    forall d | d in s'.clients && d != a.c
      ensures Wanted(s'.clients[d], d in s'.members)
    {
      assert forall f :: f in s.clients[d].down ==> f in s'.clients[d].down;
    }
  }

  lemma {:induction false} WantedAlways(run: seq<State>, i: nat)
    requires Run(run, true) && i < |run| && forall m: nat :: m < i ==> Granted(run, m)
    ensures AllWanted(run[i])
  {
    hide AllWanted, Possible, Apply, Patient;
    if i == 0 {
      InitWanted();
    } else {
      WantedAlways(run, i - 1);
      assert Granted(run, i - 1);
      var a :| Possible(run[i - 1], a) && Patient(run[i - 1], a) && !a.Refuse? && run[i] == Apply(run[i - 1], a);
      WantedKeeps(run[i - 1], a);
    }
  }

  lemma InitWanted()
    ensures AllWanted(INIT)
  {
  }

  /** If none is refused, then once its requests are served a client is a member exactly if it keeps the room. */
  lemma JoinsCount(run: seq<State>, i: nat, c: ConnId)
    requires Run(run, true) && i < |run| && forall m: nat :: m < i ==> Granted(run, m)
    requires c in run[i].clients && run[i].clients[c].up == []
    ensures c in run[i].members <==> run[i].clients[c].room.Some? && LeaveAck !in run[i].clients[c].down
  {
    WantedAlways(run, i);
    OrderlyAlways(run, i);
    assert Orderly(run[i].clients[c], c in run[i].members) && Wanted(run[i].clients[c], c in run[i].members);
  }

  lemma Take(run: seq<State>, a: Action) returns (run': seq<State>)
    requires Run(run, false) && Possible(run[|run| - 1], a)
    ensures Run(run', false) && run'[|run'| - 1] == Apply(run[|run| - 1], a)
  {
    hide Possible, Apply;
    run' := run + [Apply(run[|run| - 1], a)];
    forall i: nat | i + 1 < |run'|
      ensures NextAt(run', i, false)
    {
      if i + 1 < |run| {
        assert NextAt(run, i, false);
        var b :| Possible(run[i], b) && run[i + 1] == Apply(run[i], b);
        assert Possible(run'[i], b) && run'[i + 1] == Apply(run'[i], b);
      } else {
        assert Possible(run'[i], a) && run'[i + 1] == Apply(run'[i], a);
      }
    }
  }

  /**
   Leaving twice and joining again loses the room: the second leave ack deletes the new room object, and the
   join ack that follows is dropped, while the server counts the client as a member.
   */
  lemma DoubleLeaveLosesRoom(c: ConnId) returns (run: seq<State>)
    ensures Run(run, false)
    ensures var s := run[|run| - 1];
            c in s.members && c in s.clients && s.clients[c].down == [] && s.clients[c].room.None?
  {
    hide Run;
    run := LeftTwice(c);
    run := Take(run, Receive(c));
    run := Take(run, CallJoin(c));
    run := Take(run, Receive(c));
    run := Take(run, Serve(c, [c]));
    run := Take(run, Receive(c));
  }

  lemma LeftTwice(c: ConnId) returns (run: seq<State>)
    ensures Run(run, false)
    ensures var s := run[|run| - 1];
            && s.members == {} && c in s.clients
            && s.clients[c] == Client(Some(View(true, [c], Some(c))), [], [LeaveAck, LeaveAck])
  {
    hide Run;
    run := Joined(c);
    run := Take(run, CallLeave(c));
    run := Take(run, CallLeave(c));
    run := Take(run, Serve(c, []));
    run := Take(run, Serve(c, []));
  }

  lemma Started() returns (run: seq<State>)
    ensures Run(run, false) && run[|run| - 1] == INIT
  {
    run := [INIT];
  }

  lemma Joined(c: ConnId) returns (run: seq<State>)
    ensures Run(run, false)
    ensures var s := run[|run| - 1];
            s.members == {c} && c in s.clients && s.clients[c] == Client(Some(View(true, [c], Some(c))), [], [])
  {
    hide Run;
    run := Started();
    run := Take(run, Connect(c, false));
    run := Take(run, CallJoin(c));
    run := Take(run, Serve(c, [c]));
    run := Take(run, Receive(c));
  }
}
