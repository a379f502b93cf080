/**
 The Go hub as a concurrent protocol (server/go/hub.go, conn.go, room.go).

 Every call of `joinRoom`, `leaveRoom` (with its `removeRoom` and `emit`), `cleanup` and a room
 fan-out is a thread with a program counter. One step takes or releases at most one lock and does
 at most one access to shared memory. Any number of threads, connections, rooms and calls is
 allowed, in any combination, so the callers of the real server (one control goroutine per
 connection, any number of closers) are among them.

 Names and connection IDs are only compared for equality here, so numbers stand for them. A room
 object has an address (`RoomId`): two objects with one name are different objects.
 */
module Hub {
  type ConnId = int
  type Name = int
  type RoomId = int
  type Tid = int

  /** `roomShards[i].mu`, `room.mu` and `Conn.roomsMu`. */
  datatype Lock = Shard(shard: nat) | RoomMu(room: RoomId) | RoomsMu(conn: ConnId)

  /** The state of `sync.Once`. */
  datatype Once = Idle | Running(runner: Tid) | Done

  /** Where a thread is: the label names the step it takes next. */
  datatype At =
    // joinRoom
    | JoinEnter | JoinLockShard | JoinLookup | JoinCount | JoinUnlockShard(added: bool)
    // trackRoom
    | TrackCheck | TrackLock | TrackRecheck | TrackWrite | TrackUnlock(tracked: bool)
    // addMember
    | AddLock | AddWrite | AddUnlock
    // leaveRoom, with untrackRoom
    | UntrackLock | UntrackDelete | UntrackUnlock | LeaveRLock | LeaveLookup | LeaveRUnlock(found: bool)
    // removeMember
    | RemoveLock | RemoveDelete | RemoveLen | RemoveUnlock(empty: bool)
    // removeRoom
    | DropLockShard | DropLockRoom | DropCheckCurrent | DropCheckEmpty | DropDelete | DropCount
    | DropUnlockRoom | DropUnlockShard
    // emit
    | EmitRLock | EmitRange | EmitSend
    // cleanup, with leaveAllRooms and joinedRooms
    | OnceDo | CloseDone | RoomsRLock | RoomsRead | RoomsRUnlock | LeaveNext | RemoveConn | OnceDone
    // a fan-out to a room looked up by name
    | CastRLock | CastLookup | CastRUnlock(hit: bool)
    | Finished

  /**
   A thread: the connection `c` it acts for (the excluded sender, for a fan-out), the room name `n`,
   the room object `o` once it is looked up, inside `cleanup` the names still to leave, and inside
   `emit` the members still to send to.
   */
  datatype Thread = Thread(c: ConnId, n: Name, o: RoomId, cleaning: bool, rest: set<Name>, todo: set<ConnId>, at: At)

  /**
   The shared memory, one collection per field of the source's structs: `registry` is the union of
   `shard.rooms`, `members` and `tracked` are the sets `room.members` and `Conn.rooms` of all objects,
   `done` the connections whose `done` channel is closed.
   */
  datatype State = State(
    registry: map<Name, RoomId>,
    roomName: map<RoomId, Name>,
    members: set<(RoomId, ConnId)>,
    tracked: set<(ConnId, Name)>,
    once: map<ConnId, Once>,
    done: set<ConnId>,
    registered: set<ConnId>,
    cleaningUp: set<ConnId>,
    gauge: int,
    writer: map<Lock, Tid>,
    readers: set<(Lock, Tid)>,
    threads: map<Tid, Thread>)

  const INIT := State(map[], map[], {}, {}, map[], {}, {}, {}, 0, map[], {}, map[])

  /** What the scheduler, the allocator, the map iteration order and the send buffers are free to choose. */
  datatype Choice = Choice(room: RoomId, name: Name, member: ConnId, closes: bool, spawn: Tid)

  predicate Empty(s: State, o: RoomId) {
    forall m :: m in s.members ==> m.0 != o
  }

  function MembersOf(s: State, o: RoomId): set<ConnId> {
    set m | m in s.members && m.0 == o :: m.1
  }

  function TrackedBy(s: State, c: ConnId): set<Name> {
    set m | m in s.tracked && m.0 == c :: m.1
  }

  // ---------------------------------------------------------------- locks

  datatype LockOp = NoLock | LockW(l: Lock) | UnlockW(l: Lock) | LockR(l: Lock) | UnlockR(l: Lock)

  function LockOpOf(shardOf: Name -> nat, th: Thread): LockOp {
    match th.at
    case JoinLockShard | DropLockShard => LockW(Shard(shardOf(th.n)))
    case JoinUnlockShard(_) | DropUnlockShard => UnlockW(Shard(shardOf(th.n)))
    case LeaveRLock | CastRLock => LockR(Shard(shardOf(th.n)))
    case LeaveRUnlock(_) | CastRUnlock(_) => UnlockR(Shard(shardOf(th.n)))
    case TrackLock | UntrackLock => LockW(RoomsMu(th.c))
    case TrackUnlock(_) | UntrackUnlock => UnlockW(RoomsMu(th.c))
    case RoomsRLock => LockR(RoomsMu(th.c))
    case RoomsRUnlock => UnlockR(RoomsMu(th.c))
    case AddLock | RemoveLock | DropLockRoom => LockW(RoomMu(th.o))
    case AddUnlock | RemoveUnlock(_) | DropUnlockRoom => UnlockW(RoomMu(th.o))
    case EmitRLock => LockR(RoomMu(th.o))
    case EmitSend => if th.todo == {} then UnlockR(RoomMu(th.o)) else NoLock
    case _ => NoLock
  }

  ghost predicate LockFree(s: State, op: LockOp) {
    match op
    case LockW(l) => l !in s.writer && forall t :: (l, t) !in s.readers
    case LockR(l) => l !in s.writer
    case _ => true
  }

  function DoLock(s: State, t: Tid, op: LockOp): State {
    match op
    case NoLock => s
    case LockW(l) => s.(writer := s.writer[l := t])
    case UnlockW(l) => s.(writer := s.writer - {l})
    case LockR(l) => s.(readers := s.readers + {(l, t)})
    case UnlockR(l) => s.(readers := s.readers - {(l, t)})
  }

  // ---------------------------------------------------------------- shared-memory accesses

  datatype Effect =
    | Nothing
    | Create(n: Name, o: RoomId)
    | Delete(n: Name)
    | Count(delta: int)
    | Track(c: ConnId, n: Name)
    | Untrack(c: ConnId, n: Name)
    | Insert(o: RoomId, c: ConnId)
    | Remove(o: RoomId, c: ConnId)
    | TakeOnce(c: ConnId)
    | Close(c: ConnId)
    | Unregister(c: ConnId)
    | ReleaseOnce(c: ConnId)
    | StartCloser(c: ConnId, spawn: Tid)

  function EffectOf(s: State, th: Thread, ch: Choice): Effect {
    match th.at
    case JoinLookup => if th.n in s.registry then Nothing else Create(th.n, ch.room)
    case JoinCount => Count(1)
    case TrackWrite => Track(th.c, th.n)
    case AddWrite => Insert(th.o, th.c)
    case UntrackDelete => Untrack(th.c, th.n)
    case RemoveDelete => Remove(th.o, th.c)
    case DropDelete => Delete(th.n)
    case DropCount => Count(-1)
    case EmitSend => if th.todo != {} && ch.closes then StartCloser(ch.member, ch.spawn) else Nothing
    case OnceDo => if th.c in s.once && s.once[th.c].Idle? then TakeOnce(th.c) else Nothing
    case CloseDone => Close(th.c)
    case RemoveConn => Unregister(th.c)
    case OnceDone => ReleaseOnce(th.c)
    case _ => Nothing
  }

  function NewThread(c: ConnId, n: Name, at: At): Thread {
    Thread(c, n, 0, false, {}, {}, at)
  }

  function DoEffect(s: State, t: Tid, e: Effect): State {
    match e
    case Nothing => s
    case Create(n, o) => s.(registry := s.registry[n := o], roomName := s.roomName[o := n])
    case Delete(n) => s.(registry := s.registry - {n})
    case Count(d) => s.(gauge := s.gauge + d)
    case Track(c, n) => s.(tracked := s.tracked + {(c, n)})
    case Untrack(c, n) => s.(tracked := s.tracked - {(c, n)})
    case Insert(o, c) => s.(members := s.members + {(o, c)})
    case Remove(o, c) => s.(members := s.members - {(o, c)})
    case TakeOnce(c) => s.(once := s.once[c := Running(t)])
    case Close(c) => s.(done := s.done + {c})
    case Unregister(c) => s.(registered := s.registered - {c})
    case ReleaseOnce(c) => s.(once := s.once[c := Done])
    case StartCloser(c, u) =>
      s.(cleaningUp := s.cleaningUp + {c}, threads := s.threads[u := NewThread(c, 0, OnceDo)])
  }

  // ---------------------------------------------------------------- control flow

  /** Where `leaveRoom` returns to: the loop of `leaveAllRooms`, or the end of the call. */
  function Return(th: Thread): Thread {
    th.(at := if th.cleaning then LeaveNext else Finished)
  }

  /** joinRoom (hub.go:217-252), trackRoom (conn.go:37-52), addMember (room.go:25-29). */
  function JoinGoto(s: State, th: Thread, ch: Choice): Thread {
    match th.at
    case JoinEnter => th.(at := if th.c in s.done then Finished else JoinLockShard)
    case JoinLockShard => th.(at := JoinLookup)
    case JoinLookup =>
      if th.n in s.registry then th.(o := s.registry[th.n], at := TrackCheck) else th.(o := ch.room, at := JoinCount)
    case JoinCount => th.(at := TrackCheck)
    case TrackCheck => th.(at := if th.c in s.done then JoinUnlockShard(false) else TrackLock)
    case TrackLock => th.(at := TrackRecheck)
    case TrackRecheck => th.(at := if th.c in s.done then TrackUnlock(false) else TrackWrite)
    case TrackWrite => th.(at := TrackUnlock(true))
    case TrackUnlock(tracked) => th.(at := if tracked then AddLock else JoinUnlockShard(false))
    case AddLock => th.(at := AddWrite)
    case AddWrite => th.(at := AddUnlock)
    case AddUnlock => th.(at := JoinUnlockShard(true))
    case JoinUnlockShard(added) => th.(at := if added then EmitRLock else Finished)
    case _ => th
  }

  /** leaveRoom (hub.go:255-281), untrackRoom (conn.go:54-58), removeMember (room.go:32-37). */
  function LeaveGoto(s: State, th: Thread): Thread {
    match th.at
    case UntrackLock => th.(at := UntrackDelete)
    case UntrackDelete => th.(at := UntrackUnlock)
    case UntrackUnlock => th.(at := LeaveRLock)
    case LeaveRLock => th.(at := LeaveLookup)
    case LeaveLookup =>
      if th.n in s.registry then th.(o := s.registry[th.n], at := LeaveRUnlock(true))
      else th.(at := LeaveRUnlock(false))
    case LeaveRUnlock(found) => if found then th.(at := RemoveLock) else Return(th)
    case RemoveLock => th.(at := RemoveDelete)
    case RemoveDelete => th.(at := RemoveLen)
    case RemoveLen => th.(at := RemoveUnlock(Empty(s, th.o)))
    case RemoveUnlock(empty) => th.(at := if empty then DropLockShard else EmitRLock)
    case _ => th
  }

  /** removeRoom (hub.go:200-214). */
  function DropGoto(s: State, th: Thread): Thread {
    match th.at
    case DropLockShard => th.(at := DropLockRoom)
    case DropLockRoom => th.(at := DropCheckCurrent)
    case DropCheckCurrent =>
      th.(at := if th.n in s.registry && s.registry[th.n] == th.o then DropCheckEmpty else DropUnlockRoom)
    case DropCheckEmpty => th.(at := if Empty(s, th.o) then DropDelete else DropUnlockRoom)
    case DropDelete => th.(at := DropCount)
    case DropCount => th.(at := DropUnlockRoom)
    case DropUnlockRoom => th.(at := DropUnlockShard)
    case DropUnlockShard => th.(at := EmitRLock)
    case _ => th
  }

  /** emit, emitLocal (room.go:40-66) and the lookup before a fan-out (hub.go:191-197). */
  function EmitGoto(s: State, th: Thread, ch: Choice): Thread {
    match th.at
    case CastRLock => th.(at := CastLookup)
    case CastLookup =>
      if th.n in s.registry then th.(o := s.registry[th.n], at := CastRUnlock(true)) else th.(at := CastRUnlock(false))
    case CastRUnlock(hit) => th.(at := if hit then EmitRLock else Finished)
    case EmitRLock => th.(at := EmitRange)
    case EmitRange => th.(todo := MembersOf(s, th.o) - {th.c}, at := EmitSend)
    case EmitSend => if th.todo == {} then Return(th) else th.(todo := th.todo - {ch.member})
    case _ => th
  }

  /** cleanup (conn.go:274-283), joinedRooms (conn.go:60-68), leaveAllRooms (hub.go:284-288). */
  function CleanupGoto(s: State, th: Thread, ch: Choice): Thread {
    match th.at
    case OnceDo =>
      if th.c in s.once && s.once[th.c].Idle? then th.(cleaning := true, at := CloseDone) else th.(at := Finished)
    case CloseDone => th.(at := RoomsRLock)
    case RoomsRLock => th.(at := RoomsRead)
    case RoomsRead => th.(rest := TrackedBy(s, th.c), at := RoomsRUnlock)
    case RoomsRUnlock => th.(at := LeaveNext)
    case LeaveNext =>
      if th.rest == {} then th.(at := RemoveConn) else th.(n := ch.name, rest := th.rest - {ch.name}, at := UntrackLock)
    case RemoveConn => th.(at := OnceDone)
    case OnceDone => th.(cleaning := false, at := Finished)
    case _ => th
  }

  datatype Proc = Joining | Leaving | Dropping | Emitting | Cleaning

  function ProcOf(at: At): Proc {
    match at
    case JoinEnter | JoinLockShard | JoinLookup | JoinCount | JoinUnlockShard(_) | TrackCheck | TrackLock
       | TrackRecheck | TrackWrite | TrackUnlock(_) | AddLock | AddWrite | AddUnlock => Joining
    case UntrackLock | UntrackDelete | UntrackUnlock | LeaveRLock | LeaveLookup | LeaveRUnlock(_)
       | RemoveLock | RemoveDelete | RemoveLen | RemoveUnlock(_) => Leaving
    case DropLockShard | DropLockRoom | DropCheckCurrent | DropCheckEmpty | DropDelete | DropCount
       | DropUnlockRoom | DropUnlockShard => Dropping
    case CastRLock | CastLookup | CastRUnlock(_) | EmitRLock | EmitRange | EmitSend => Emitting
    case _ => Cleaning
  }

  function Goto(s: State, th: Thread, ch: Choice): Thread {
    match ProcOf(th.at)
    case Joining => JoinGoto(s, th, ch)
    case Leaving => LeaveGoto(s, th)
    case Dropping => DropGoto(s, th)
    case Emitting => EmitGoto(s, th, ch)
    case Cleaning => CleanupGoto(s, th, ch)
  }

  // ---------------------------------------------------------------- steps

  /** The choice is one the allocator, the iteration and the runtime can make. */
  predicate Choosable(s: State, th: Thread, ch: Choice) {
    match th.at
    case JoinLookup => ch.room !in s.roomName
    case LeaveNext => th.rest != {} ==> ch.name in th.rest
    case EmitSend =>
      && (th.todo != {} ==> ch.member in th.todo)
      && (ch.closes ==> ch.spawn !in s.threads && ch.member in s.once && ch.member !in s.cleaningUp)
    case _ => true
  }

  /** A second caller of `cleanupOnce.Do` waits for the first. */
  predicate OnceFree(s: State, th: Thread) {
    th.at.OnceDo? ==> th.c in s.once && !s.once[th.c].Running?
  }

  ghost predicate Enabled(shardOf: Name -> nat, s: State, t: Tid, ch: Choice) {
    && t in s.threads
    && !s.threads[t].at.Finished?
    && LockFree(s, LockOpOf(shardOf, s.threads[t]))
    && OnceFree(s, s.threads[t])
    && Choosable(s, s.threads[t], ch)
  }

  function Move(s: State, t: Tid, th: Thread): State {
    s.(threads := s.threads[t := th])
  }

  /** The memory access and the jump of one step, apart from its lock action. */
  function After(s: State, t: Tid, ch: Choice): State
    requires t in s.threads
  {
    var th := s.threads[t];
    Move(DoEffect(s, t, EffectOf(s, th, ch)), t, Goto(s, th, ch))
  }

  function Step(shardOf: Name -> nat, s: State, t: Tid, ch: Choice): State
    requires t in s.threads
  {
    DoLock(After(s, t, ch), t, LockOpOf(shardOf, s.threads[t]))
  }

  /** addConn (hub.go:141-161) of a connection with a fresh ID. */
  function Connect(s: State, c: ConnId): State {
    s.(once := s.once[c := Idle], registered := s.registered + {c})
  }

  /** A call may start at any time, for any connection that was ever added; a fan-out for any sender. */
  predicate Startable(s: State, t: Tid, th: Thread) {
    && t !in s.threads
    && th == NewThread(th.c, th.n, th.at)
    && (th.at.CastRLock? || (th.c in s.once && (th.at.JoinEnter? || th.at.UntrackLock? || th.at.OnceDo?)))
  }

  datatype Action = Take(t: Tid, ch: Choice) | Add(c: ConnId) | Start(t: Tid, th: Thread)

  ghost predicate Possible(shardOf: Name -> nat, s: State, a: Action) {
    match a
    case Take(t, ch) => Enabled(shardOf, s, t, ch)
    case Add(c) => c !in s.once
    case Start(t, th) => Startable(s, t, th)
  }

  ghost function Apply(shardOf: Name -> nat, s: State, a: Action): State
    requires Possible(shardOf, s, a)
  {
    match a
    case Take(t, ch) => Step(shardOf, s, t, ch)
    case Add(c) => Connect(s, c)
    case Start(t, th) => Move(s, t, th)
  }

  ghost predicate Next(shardOf: Name -> nat, s: State, s': State) {
    exists a :: Possible(shardOf, s, a) && s' == Apply(shardOf, s, a)
  }

  ghost predicate NextAt(shardOf: Name -> nat, run: seq<State>, i: nat) {
    i + 1 < |run| && Next(shardOf, run[i], run[i + 1])
  }

  /** A run: any finite interleaving from the empty hub. */
  ghost predicate Run(shardOf: Name -> nat, run: seq<State>) {
    && |run| > 0
    && run[0] == INIT
    && forall i: nat :: i + 1 < |run| ==> NextAt(shardOf, run, i)
  }
}
