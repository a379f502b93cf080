/**
 Lock discipline of the hub protocol: every lock is held exactly by the threads whose program
 counter lies in its critical section, and a writer excludes everybody else.
 */
module HubLocks {
  import opened Hub

  datatype Mode = Free | Reading | Writing

  /** How a thread holds the shard lock of its room name at each label. */
  function ShardMode(at: At): Mode {
    match at
    case JoinLookup | JoinCount | JoinUnlockShard(_) | TrackCheck | TrackLock | TrackRecheck | TrackWrite
       | TrackUnlock(_) | AddLock | AddWrite | AddUnlock | DropLockRoom | DropCheckCurrent | DropCheckEmpty
       | DropDelete | DropCount | DropUnlockRoom | DropUnlockShard => Writing
    case LeaveLookup | LeaveRUnlock(_) | CastLookup | CastRUnlock(_) => Reading
    case _ => Free
  }

  /** How a thread holds the lock of its room object. */
  function RoomMode(at: At): Mode {
    match at
    case AddWrite | AddUnlock | RemoveDelete | RemoveLen | RemoveUnlock(_) | DropCheckCurrent | DropCheckEmpty
       | DropDelete | DropCount | DropUnlockRoom => Writing
    case EmitRange | EmitSend => Reading
    case _ => Free
  }

  /** How a thread holds `roomsMu` of its connection. */
  function RoomsMode(at: At): Mode {
    match at
    case TrackRecheck | TrackWrite | TrackUnlock(_) | UntrackDelete | UntrackUnlock => Writing
    case RoomsRead | RoomsRUnlock => Reading
    case _ => Free
  }

  function ModeOf(shardOf: Name -> nat, th: Thread, l: Lock): Mode {
    match l
    case Shard(i) => if i == shardOf(th.n) then ShardMode(th.at) else Free
    case RoomMu(o) => if o == th.o then RoomMode(th.at) else Free
    case RoomsMu(c) => if c == th.c then RoomsMode(th.at) else Free
  }

  /** One lock is held exactly by the threads in its critical section, and by one if by a writer. */
  ghost predicate Agree(shardOf: Name -> nat, s: State, l: Lock) {
    && (forall t :: (l in s.writer && s.writer[l] == t) <==>
          (t in s.threads && ModeOf(shardOf, s.threads[t], l) == Writing))
    && (forall t :: (l, t) in s.readers <==> (t in s.threads && ModeOf(shardOf, s.threads[t], l) == Reading))
    && (forall t :: (l, t) in s.readers ==> l !in s.writer)
  }

  ghost predicate LocksAgree(shardOf: Name -> nat, s: State) {
    forall l :: Agree(shardOf, s, l)
  }

  /** What a lock action does to the mode in which one thread holds a lock. */
  function NewMode(m: Mode, op: LockOp, l: Lock): Mode {
    match op
    case NoLock => m
    case LockW(k) => if k == l then Writing else m
    case LockR(k) => if k == l then Reading else m
    case UnlockW(k) => if k == l then Free else m
    case UnlockR(k) => if k == l then Free else m
  }

  predicate Releases(m: Mode, op: LockOp, l: Lock) {
    (op == UnlockW(l) ==> m == Writing) && (op == UnlockR(l) ==> m == Reading)
  }

  ghost predicate Shifts(shardOf: Name -> nat, th: Thread, th': Thread, op: LockOp) {
    forall l :: && ModeOf(shardOf, th', l) == NewMode(ModeOf(shardOf, th, l), op, l)
                && Releases(ModeOf(shardOf, th, l), op, l)
  }

  /** The same, for the three locks a thread can point to. */
  predicate Moves(shardOf: Name -> nat, th: Thread, th': Thread, op: LockOp) {
    && ShardMode(th'.at) == NewMode(ShardMode(th.at), op, Shard(shardOf(th.n)))
    && RoomMode(th'.at) == NewMode(RoomMode(th.at), op, RoomMu(th.o))
    && RoomsMode(th'.at) == NewMode(RoomsMode(th.at), op, RoomsMu(th.c))
    && Releases(ShardMode(th.at), op, Shard(shardOf(th.n)))
    && Releases(RoomMode(th.at), op, RoomMu(th.o))
    && Releases(RoomsMode(th.at), op, RoomsMu(th.c))
    && (th'.n == th.n || ShardMode(th.at) == ShardMode(th'.at) == Free)
    && (th'.o == th.o || RoomMode(th.at) == RoomMode(th'.at) == Free)
    && th'.c == th.c
    && (op.NoLock? || op.l == Shard(shardOf(th.n)) || op.l == RoomMu(th.o) || op.l == RoomsMu(th.c))
  }

  lemma MovesShift(shardOf: Name -> nat, th: Thread, th': Thread, op: LockOp)
    requires Moves(shardOf, th, th', op)
    ensures Shifts(shardOf, th, th', op)
  {
  }

  lemma JoinMoves(shardOf: Name -> nat, s: State, th: Thread, ch: Choice)
    requires ProcOf(th.at).Joining?
    ensures Moves(shardOf, th, JoinGoto(s, th, ch), LockOpOf(shardOf, th))
  {
  }

  lemma LeaveMoves(shardOf: Name -> nat, s: State, th: Thread)
    requires ProcOf(th.at).Leaving?
    ensures Moves(shardOf, th, LeaveGoto(s, th), LockOpOf(shardOf, th))
  {
  }

  lemma DropMoves(shardOf: Name -> nat, s: State, th: Thread)
    requires ProcOf(th.at).Dropping?
    ensures Moves(shardOf, th, DropGoto(s, th), LockOpOf(shardOf, th))
  {
  }

  lemma EmitMoves(shardOf: Name -> nat, s: State, th: Thread, ch: Choice)
    requires ProcOf(th.at).Emitting?
    ensures Moves(shardOf, th, EmitGoto(s, th, ch), LockOpOf(shardOf, th))
  {
  }

  lemma CleanupMoves(shardOf: Name -> nat, s: State, th: Thread, ch: Choice)
    requires ProcOf(th.at).Cleaning? && !th.at.Finished?
    ensures Moves(shardOf, th, CleanupGoto(s, th, ch), LockOpOf(shardOf, th))
  {
  }

  lemma GotoShifts(shardOf: Name -> nat, s: State, th: Thread, ch: Choice)
    requires !th.at.Finished?
    ensures Shifts(shardOf, th, Goto(s, th, ch), LockOpOf(shardOf, th))
  {
    match ProcOf(th.at)
    case Joining => JoinMoves(shardOf, s, th, ch);
    case Leaving => LeaveMoves(shardOf, s, th);
    case Dropping => DropMoves(shardOf, s, th);
    case Emitting => EmitMoves(shardOf, s, th, ch);
    case Cleaning => CleanupMoves(shardOf, s, th, ch);
    MovesShift(shardOf, th, Goto(s, th, ch), LockOpOf(shardOf, th));
  }

  lemma OneLock(shardOf: Name -> nat, s: State, t: Tid, th': Thread, op: LockOp, l: Lock)
    requires Agree(shardOf, s, l) && t in s.threads && LockFree(s, op)
    requires ModeOf(shardOf, th', l) == NewMode(ModeOf(shardOf, s.threads[t], l), op, l)
    requires Releases(ModeOf(shardOf, s.threads[t], l), op, l)
    ensures Agree(shardOf, Move(DoLock(s, t, op), t, th'), l)
  {
    hide ModeOf;
  }

  /** A lock action on a free lock, by a thread that moves as the action says, keeps the agreement. */
  lemma LockStep(shardOf: Name -> nat, s: State, t: Tid, th': Thread, op: LockOp)
    requires LocksAgree(shardOf, s) && t in s.threads
    requires LockFree(s, op) && Shifts(shardOf, s.threads[t], th', op)
    ensures LocksAgree(shardOf, Move(DoLock(s, t, op), t, th'))
  {
    hide ModeOf;
    var s' := Move(DoLock(s, t, op), t, th');
    forall l
      ensures Agree(shardOf, s', l)
    {
      assert Agree(shardOf, s, l);
      OneLock(shardOf, s, t, th', op, l);
    }
  }

  lemma IdleThread(shardOf: Name -> nat, s: State, t: Tid, th: Thread)
    requires LocksAgree(shardOf, s) && t !in s.threads
    requires forall l :: ModeOf(shardOf, th, l) == Free
    ensures LocksAgree(shardOf, Move(s, t, th))
  {
    forall l
      ensures Agree(shardOf, Move(s, t, th), l)
    {
      assert Agree(shardOf, s, l);
    }
  }

  /** The agreement reads the lock fields and the threads only. */
  lemma SameLocks(shardOf: Name -> nat, s: State, s': State)
    requires LocksAgree(shardOf, s)
    requires s'.writer == s.writer && s'.readers == s.readers && s'.threads == s.threads
    ensures LocksAgree(shardOf, s')
  {
    forall l
      ensures Agree(shardOf, s', l)
    {
      assert Agree(shardOf, s, l);
    }
  }

  lemma EffectFrame(s: State, t: Tid, e: Effect)
    ensures DoEffect(s, t, e).writer == s.writer && DoEffect(s, t, e).readers == s.readers
    ensures !e.StartCloser? ==> DoEffect(s, t, e).threads == s.threads
  {
  }

  lemma LockFrame(s: State, s': State, t: Tid, op: LockOp)
    requires s'.writer == s.writer && s'.readers == s.readers
    ensures DoLock(s', t, op).writer == DoLock(s, t, op).writer && DoLock(s', t, op).readers == DoLock(s, t, op).readers
    ensures DoLock(s', t, op).threads == s'.threads
  {
  }

  lemma StepLocks(shardOf: Name -> nat, s: State, t: Tid, ch: Choice)
    requires LocksAgree(shardOf, s) && Enabled(shardOf, s, t, ch)
    ensures LocksAgree(shardOf, Step(shardOf, s, t, ch))
  {
    var th := s.threads[t];
    var op := LockOpOf(shardOf, th);
    var th' := Goto(s, th, ch);
    var e := EffectOf(s, th, ch);
    GotoShifts(shardOf, s, th, ch);
    LockStep(shardOf, s, t, th', op);
    var s2 := Move(DoLock(s, t, op), t, th');
    EffectFrame(s, t, e);
    LockFrame(s, After(s, t, ch), t, op);
    LockFrame(s, s, t, op);
    var s3 := Step(shardOf, s, t, ch);
    if e.StartCloser? {
      IdleThread(shardOf, s2, e.spawn, NewThread(e.c, 0, OnceDo));
      assert s3.threads == Move(s2, e.spawn, NewThread(e.c, 0, OnceDo)).threads;
      SameLocks(shardOf, Move(s2, e.spawn, NewThread(e.c, 0, OnceDo)), s3);
    } else {
      SameLocks(shardOf, s2, s3);
    }
  }

  lemma LocksKept(shardOf: Name -> nat, s: State, a: Action)
    requires LocksAgree(shardOf, s) && Possible(shardOf, s, a)
    ensures LocksAgree(shardOf, Apply(shardOf, s, a))
  {
    match a
    case Take(t, ch) => StepLocks(shardOf, s, t, ch);
    case Add(c) => SameLocks(shardOf, s, Connect(s, c));
    case Start(t, th) => IdleThread(shardOf, s, t, th);
  }
}
