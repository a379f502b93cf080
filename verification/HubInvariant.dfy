/**
 The invariant of the hub protocol. Each conjunct is kept by every step; a step's effect on the
 shared memory and the jump of the thread that takes it are looked at separately.
 */
module HubInvariant {
  import opened Hub
  import opened HubLocks

  // ---------------------------------------------------------------- the invariant

  /** Objects that are pointed to exist; the connection of every join and leave was added to the hub. */
  ghost predicate ObjectsExist(s: State) {
    && (forall n :: n in s.registry ==> s.registry[n] in s.roomName && s.roomName[s.registry[n]] == n)
    && (forall m :: m in s.members ==> m.0 in s.roomName && m.1 in s.once)
    && (forall c :: c in s.once && c !in s.done ==> c in s.registered)
    && (forall c :: c in s.registered ==> c in s.once)
  }

  ghost predicate ConnsKnown(s: State) {
    forall t :: t in s.threads && UsesConn(s.threads[t]) ==> s.threads[t].c in s.once
  }

  predicate UsesConn(th: Thread) {
    th.cleaning || ProcOf(th.at).Joining? || ProcOf(th.at).Leaving? || th.at.OnceDo?
  }

  /** The labels a thread visits inside `cleanupOnce.Do`, and only there. */
  predicate CleaningLabels(th: Thread) {
    && (th.cleaning ==> !ProcOf(th.at).Joining? && !th.at.OnceDo? && !th.at.Finished? && !th.at.CastRLock?
                        && !th.at.CastLookup? && !th.at.CastRUnlock?)
    && (ProcOf(th.at).Cleaning? && !th.at.OnceDo? && !th.at.Finished? ==> th.cleaning)
  }

  ghost predicate LabelsAgree(s: State) {
    forall t :: t in s.threads ==> CleaningLabels(s.threads[t])
  }

  /** `cleanupOnce` is owned by the one thread cleaning up, and `done` closes in its first step. */
  ghost predicate OnceOwned(s: State) {
    && (forall t :: t in s.threads && s.threads[t].cleaning ==>
          s.threads[t].c in s.once && s.once[s.threads[t].c] == Running(t))
    && (forall c :: c in s.once && s.once[c].Running? ==>
          && s.once[c].runner in s.threads
          && s.threads[s.once[c].runner].cleaning
          && s.threads[s.once[c].runner].c == c)
    && (forall c :: c in s.done <==>
          c in s.once && !s.once[c].Idle? && (s.once[c].Running? ==> !s.threads[s.once[c].runner].at.CloseDone?))
  }

  /** Labels at which the shard lock makes `o` the room registered under `n`. */
  predicate PinsRoom(at: At) {
    at.JoinCount? || at.TrackCheck? || at.TrackLock? || at.TrackRecheck? || at.TrackWrite? || at.TrackUnlock?
    || at.AddLock? || at.AddWrite? || at.AddUnlock? || at.DropCheckEmpty? || at.DropDelete?
  }

  ghost predicate RoomsPinned(s: State) {
    && (forall t :: t in s.threads && PinsRoom(s.threads[t].at) ==>
          s.threads[t].n in s.registry && s.registry[s.threads[t].n] == s.threads[t].o)
    && (forall t :: t in s.threads && s.threads[t].at.DropDelete? ==> Empty(s, s.threads[t].o))
  }

  /** A room object with a member is the one registered under its name. */
  ghost predicate NoOrphans(s: State) {
    forall m :: m in s.members ==>
        m.0 in s.roomName && s.roomName[m.0] in s.registry && s.registry[s.roomName[m.0]] == m.0
  }

  /** A leave of `c` from room `n` that has untracked it and may still remove it from `o`. */
  predicate Leaves(th: Thread, c: ConnId, n: Name, o: RoomId) {
    && th.c == c && th.n == n
    && (th.at.UntrackUnlock? || th.at.LeaveRLock? || th.at.LeaveLookup?
        || (((th.at.LeaveRUnlock? && th.at.found) || th.at.RemoveLock? || th.at.RemoveDelete?) && th.o == o))
  }

  ghost predicate LeavePending(s: State, c: ConnId, n: Name, o: RoomId) {
    exists t :: t in s.threads && Leaves(s.threads[t], c, n, o)
  }

  /** A leave that has untracked its room and not looked it up yet. */
  predicate LeavesEarly(th: Thread, c: ConnId, n: Name) {
    th.c == c && th.n == n && (th.at.UntrackUnlock? || th.at.LeaveRLock?)
  }

  ghost predicate LeaveAhead(s: State, c: ConnId, n: Name) {
    exists t :: t in s.threads && LeavesEarly(s.threads[t], c, n)
  }

  /** Labels of a join that has tracked the room and not yet added the member. */
  predicate JoinsNext(at: At) {
    (at.TrackUnlock? && at.tracked) || at.AddLock? || at.AddWrite?
  }

  /** Every member tracks the room, unless a leave is about to remove it. */
  ghost predicate MembersTracked(s: State) {
    forall m :: m in s.members && m.0 in s.roomName ==>
      (m.1, s.roomName[m.0]) in s.tracked || LeavePending(s, m.1, s.roomName[m.0], m.0)
  }

  ghost predicate JoinsTracked(s: State) {
    forall t :: t in s.threads && JoinsNext(s.threads[t].at) ==>
      (s.threads[t].c, s.threads[t].n) in s.tracked || LeaveAhead(s, s.threads[t].c, s.threads[t].n)
  }

  predicate EarlyCleanup(at: At) {
    at.CloseDone? || at.RoomsRLock? || at.RoomsRead?
  }

  /** `cleanup` of this connection has read the set of tracked rooms. */
  ghost predicate PastSnapshot(s: State, c: ConnId) {
    && c in s.once
    && !s.once[c].Idle?
    && (s.once[c].Running? ==> s.once[c].runner in s.threads && !EarlyCleanup(s.threads[s.once[c].runner].at))
  }

  /** `leaveAllRooms` has returned. */
  ghost predicate PastLeaveAll(s: State, c: ConnId) {
    && c in s.once
    && !s.once[c].Idle?
    && (s.once[c].Running? ==>
          s.once[c].runner in s.threads &&
          (s.threads[s.once[c].runner].at.RemoveConn? || s.threads[s.once[c].runner].at.OnceDone?))
  }

  /** What the cleaning thread still has to leave. */
  predicate StillLeaving(th: Thread, n: Name) {
    n in th.rest || ((th.at.UntrackLock? || th.at.UntrackDelete?) && th.n == n)
  }

  ghost predicate LeftToDo(s: State, c: ConnId, n: Name) {
    && c in s.once
    && s.once[c].Running?
    && s.once[c].runner in s.threads
    && StillLeaving(s.threads[s.once[c].runner], n)
  }

  /** After the snapshot nothing is tracked but the rooms still to leave. */
  ghost predicate Snapshots(s: State) {
    && (forall c, n :: (c, n) in s.tracked && PastSnapshot(s, c) ==> LeftToDo(s, c, n))
    && (forall t :: t in s.threads && s.threads[t].at.TrackWrite? ==>
        !PastSnapshot(s, s.threads[t].c) && SnapshotBlocked(s, s.threads[t].c))
    && (forall t ::
          (t in s.threads && s.threads[t].cleaning && (s.threads[t].at.RemoveConn? || s.threads[t].at.OnceDone?)) ==>
          s.threads[t].rest == {})
  }

  /** No thread is between the read lock and the read of the tracked rooms. */
  ghost predicate SnapshotBlocked(s: State, c: ConnId) {
    forall t :: t in s.threads && s.threads[t].c == c ==> !s.threads[t].at.RoomsRead?
  }

  ghost function Counting(s: State): set<Tid> {
    set t | t in s.threads && s.threads[t].at.JoinCount?
  }

  ghost function Uncounting(s: State): set<Tid> {
    set t | t in s.threads && s.threads[t].at.DropCount?
  }

  /** The gauge is the registry size, up to the threads between a registry update and its count. */
  ghost predicate GaugeTracks(s: State) {
    s.gauge + |Counting(s)| == |s.registry| + |Uncounting(s)|
  }

  // ---------------------------------------------------------------- jumps

  /** What the jump of a step does to the facts about its own thread: connection and `cleanupOnce`. */
  predicate Jump(th: Thread, th': Thread, e: Effect) {
    && th'.c == th.c
    && th'.cleaning == (e.TakeOnce? || (th.cleaning && !e.ReleaseOnce?))
    && (th'.at.CloseDone? <==> e.TakeOnce?)
    && (th.at.CloseDone? <==> e.Close?)
  }

  predicate JumpLabels(th: Thread, th': Thread) {
    && th'.c == th.c
    && (UsesConn(th') ==> UsesConn(th))
    && CleaningLabels(th')
  }

  /** And what it does to the pinned room. */
  ghost predicate JumpPins(s: State, th: Thread, th': Thread, e: Effect) {
    && (PinsRoom(th'.at) ==>
          && th'.n == th.n
          && (|| (PinsRoom(th.at) && th'.o == th.o && !e.Create? && !e.Delete?)
              || e == Create(th'.n, th'.o)
              || (e.Nothing? && th'.n in s.registry && s.registry[th'.n] == th'.o)))
    && (th'.at.DropDelete? ==> e.Nothing? && Empty(s, th'.o))
  }

  /** A leave in flight stays one until it removes its member, or misses a room that is not registered. */
  ghost predicate JumpLeaves(s: State, th: Thread, th': Thread, e: Effect) {
    && (forall o :: Leaves(th, th.c, th.n, o) ==>
          || Leaves(th', th.c, th.n, o)
          || e == Remove(o, th.c)
          || (th.at.LeaveLookup? && !(th.n in s.registry && s.registry[th.n] == o)))
    && (LeavesEarly(th, th.c, th.n) ==> LeavesEarly(th', th.c, th.n) || th.at.LeaveRLock?)
    && (e.Untrack? ==> LeavesEarly(th', e.c, e.n))
    && (JoinsNext(th'.at) ==> th'.c == th.c && th'.n == th.n && (JoinsNext(th.at) || e.Track?))
  }

  /** How the jump of a step treats the snapshot of tracked rooms. */
  predicate JumpSnapshot(s: State, th: Thread, th': Thread, e: Effect) {
    && (th'.at.TrackWrite? ==> th.at.TrackRecheck? && th.c !in s.done)
    && (th'.at.RoomsRead? ==> th.at.RoomsRLock?)
    && (th.cleaning && th'.cleaning && EarlyCleanup(th.at) && !EarlyCleanup(th'.at) ==>
          th.at.RoomsRead? && th'.rest == TrackedBy(s, th.c))
    && (th.cleaning && th'.cleaning && !EarlyCleanup(th.at) ==> !EarlyCleanup(th'.at))
    && (th.at.RemoveConn? || th.at.OnceDone? ==> th'.rest == th.rest)
    && (th'.at.RemoveConn? || th'.at.OnceDone? ==> th'.rest == {} || th.at.RemoveConn?)
    && (e.ReleaseOnce? ==> th.at.OnceDone?)
    && (e.Track? ==> !th.cleaning)
  }

  predicate JumpCounts(th: Thread, th': Thread, e: Effect) {
    && (th'.at.JoinCount? <==> e.Create?)
    && (th.at.JoinCount? <==> e == Count(1))
    && (th'.at.DropCount? <==> e.Delete?)
    && (th.at.DropCount? <==> e == Count(-1))
  }

  ghost predicate JumpRest(th: Thread, th': Thread, e: Effect) {
    forall n :: th.cleaning && !EarlyCleanup(th.at) && StillLeaving(th, n) ==>
      StillLeaving(th', n) || e == Untrack(th.c, n) || (th.at.RemoveConn? || th.at.OnceDone?)
  }

  ghost predicate Jumps(s: State, th: Thread, th': Thread, e: Effect) {
    && Jump(th, th', e)
    && JumpLabels(th, th')
    && JumpPins(s, th, th', e)
    && JumpLeaves(s, th, th', e)
    && JumpSnapshot(s, th, th', e)
    && JumpCounts(th, th', e)
    && JumpRest(th, th', e)
  }

  lemma JoinJumps(s: State, th: Thread, ch: Choice)
    requires CleaningLabels(th) && ProcOf(th.at).Joining?
    ensures Jumps(s, th, JoinGoto(s, th, ch), EffectOf(s, th, ch))
  {
  }

  lemma LeaveJumps(s: State, th: Thread, ch: Choice)
    requires CleaningLabels(th) && ProcOf(th.at).Leaving?
    ensures Jumps(s, th, LeaveGoto(s, th), EffectOf(s, th, ch))
  {
  }

  lemma DropJumps(s: State, th: Thread, ch: Choice)
    requires CleaningLabels(th) && ProcOf(th.at).Dropping?
    ensures Jumps(s, th, DropGoto(s, th), EffectOf(s, th, ch))
  {
  }

  lemma EmitJumps(s: State, th: Thread, ch: Choice)
    requires CleaningLabels(th) && ProcOf(th.at).Emitting?
    ensures Jumps(s, th, EmitGoto(s, th, ch), EffectOf(s, th, ch))
  {
  }

  lemma CleanupJumps(s: State, th: Thread, ch: Choice)
    requires CleaningLabels(th) && ProcOf(th.at).Cleaning? && !th.at.Finished?
    ensures Jumps(s, th, CleanupGoto(s, th, ch), EffectOf(s, th, ch))
  {
  }

  predicate Chosen(s: State, t: Tid, ch: Choice) {
    t in s.threads && !s.threads[t].at.Finished? && OnceFree(s, s.threads[t]) && Choosable(s, s.threads[t], ch)
  }

  lemma GotoJumps(s: State, t: Tid, ch: Choice)
    requires Chosen(s, t, ch) && CleaningLabels(s.threads[t])
    ensures Jumps(s, s.threads[t], Goto(s, s.threads[t], ch), EffectOf(s, s.threads[t], ch))
  {
    var th := s.threads[t];
    match ProcOf(th.at)
    case Joining => JoinJumps(s, th, ch);
    case Leaving => LeaveJumps(s, th, ch);
    case Dropping => DropJumps(s, th, ch);
    case Emitting => EmitJumps(s, th, ch);
    case Cleaning => CleanupJumps(s, th, ch);
  }

  // ---------------------------------------------------------------- preservation

  /** Facts about an effect that its own label gives. */
  ghost predicate Sound(s: State, th: Thread, e: Effect) {
    match e
    case Nothing => true
    case Create(n, o) => th.at.JoinLookup? && n == th.n && n !in s.registry && o !in s.roomName
    case Delete(n) => th.at.DropDelete? && n == th.n
    case Count(d) => (d == 1 && th.at.JoinCount?) || (d == -1 && th.at.DropCount?)
    case Track(c, n) => th.at.TrackWrite? && c == th.c && n == th.n
    case Untrack(c, n) => th.at.UntrackDelete? && c == th.c && n == th.n
    case Insert(o, c) => th.at.AddWrite? && o == th.o && c == th.c
    case Remove(o, c) => th.at.RemoveDelete? && o == th.o && c == th.c
    case TakeOnce(c) => th.at.OnceDo? && c == th.c && c in s.once && s.once[c].Idle?
    case Close(c) => th.at.CloseDone? && c == th.c && th.cleaning
    case Unregister(c) => th.at.RemoveConn? && c == th.c && th.cleaning
    case ReleaseOnce(c) => th.at.OnceDone? && c == th.c && th.cleaning
    case StartCloser(c, u) => th.at.EmitSend? && u !in s.threads && c in s.once && c !in s.cleaningUp
  }

  lemma EffectSound(s: State, t: Tid, ch: Choice)
    requires Chosen(s, t, ch) && CleaningLabels(s.threads[t])
    ensures Sound(s, s.threads[t], EffectOf(s, s.threads[t], ch))
  {
  }

  lemma LabelsKept(s: State, t: Tid, th': Thread, e: Effect)
    requires LabelsAgree(s) && t in s.threads && CleaningLabels(th') && Sound(s, s.threads[t], e)
    ensures LabelsAgree(Move(DoEffect(s, t, e), t, th'))
  {
  }

  lemma ConnsKept(s: State, t: Tid, th': Thread, e: Effect)
    requires ConnsKnown(s) && t in s.threads && JumpLabels(s.threads[t], th') && Sound(s, s.threads[t], e)
    ensures ConnsKnown(Move(DoEffect(s, t, e), t, th'))
  {
    var s' := Move(DoEffect(s, t, e), t, th');
    assert forall c :: c in s.once ==> c in s'.once;
  }

  /** The four ways a step can treat `cleanupOnce` and `done`: take, close, release, leave alone. */
  lemma OnceKept(s: State, t: Tid, th': Thread, e: Effect)
    requires OnceOwned(s) && t in s.threads
    requires Jump(s.threads[t], th', e) && Sound(s, s.threads[t], e)
    ensures OnceOwned(Move(DoEffect(s, t, e), t, th'))
  {
    var s' := Move(DoEffect(s, t, e), t, th');
    if e.TakeOnce? || e.Close? || e.ReleaseOnce? {
      OnceMoved(s, s', t, e);
    } else {
      OnceAlone(s, s', t);
    }
  }

  lemma OnceAlone(s: State, s': State, t: Tid)
    requires OnceOwned(s) && t in s.threads && t in s'.threads
    requires s'.once == s.once && s'.done == s.done
    requires s'.threads[t].c == s.threads[t].c && s'.threads[t].cleaning == s.threads[t].cleaning
    requires !s'.threads[t].at.CloseDone? && !s.threads[t].at.CloseDone?
    requires forall u :: u in s.threads && u != t ==> u in s'.threads && s'.threads[u] == s.threads[u]
    requires forall u :: u in s'.threads && u !in s.threads ==> !s'.threads[u].cleaning
    ensures OnceOwned(s')
  {
  }

  lemma OnceMoved(s: State, s': State, t: Tid, e: Effect)
    requires OnceOwned(s) && t in s.threads &&
        e in [TakeOnce(s.threads[t].c), Close(s.threads[t].c), ReleaseOnce(s.threads[t].c)]
    requires s'.once == DoEffect(s, t, e).once && s'.done == DoEffect(s, t, e).done
    requires s'.threads.Keys == s.threads.Keys
    requires s'.threads[t].c == s.threads[t].c
    requires forall u :: u in s.threads && u != t ==> s'.threads[u] == s.threads[u]
    requires e.TakeOnce? ==> e.c in s.once && s.once[e.c].Idle? && s'.threads[t].at.CloseDone?
    requires !e.TakeOnce? ==> s.threads[t].cleaning && !s'.threads[t].at.CloseDone?
    requires s.threads[t].at.CloseDone? <==> e.Close?
    requires s'.threads[t].cleaning == !e.ReleaseOnce?
    ensures OnceOwned(s')
  {
  }

  lemma ObjectsKept(s: State, t: Tid, th': Thread, e: Effect)
    requires ObjectsExist(s) && ConnsKnown(s) && OnceOwned(s) && RoomsPinned(s)
    requires t in s.threads && Sound(s, s.threads[t], e)
    ensures ObjectsExist(Move(DoEffect(s, t, e), t, th'))
  {
  }

  lemma Exclusive(shardOf: Name -> nat, s: State, t: Tid, u: Tid, l: Lock)
    requires LocksAgree(shardOf, s) && t in s.threads && u in s.threads && t != u
    requires ModeOf(shardOf, s.threads[t], l) == Writing
    ensures ModeOf(shardOf, s.threads[u], l) == Free
  {
    assert Agree(shardOf, s, l);
    assert s.writer[l] == t;
    assert (l, u) !in s.readers;
  }

  /** Nobody touches what another thread has pinned: both would hold one lock for writing. */
  lemma PinKept(shardOf: Name -> nat, s: State, t: Tid, u: Tid, e: Effect)
    requires LocksAgree(shardOf, s) && RoomsPinned(s)
    requires t in s.threads && u in s.threads && t != u && PinsRoom(s.threads[u].at) && Sound(s, s.threads[t], e)
    ensures (e.Create? || e.Delete?) ==> s.threads[u].n != e.n
    ensures s.threads[u].at.DropDelete? && e.Insert? ==> s.threads[u].o != e.o
  {
    if (e.Create? || e.Delete?) && s.threads[u].n == e.n {
      Exclusive(shardOf, s, t, u, Shard(shardOf(e.n)));
    } else if e.Insert? && s.threads[u].at.DropDelete? && s.threads[u].o == e.o {
      Exclusive(shardOf, s, t, u, RoomMu(e.o));
    }
  }

  lemma PinnedKept(shardOf: Name -> nat, s: State, t: Tid, th': Thread, e: Effect)
    requires LocksAgree(shardOf, s) && RoomsPinned(s)
    requires t in s.threads && JumpPins(s, s.threads[t], th', e) && Sound(s, s.threads[t], e)
    ensures RoomsPinned(Move(DoEffect(s, t, e), t, th'))
  {
    forall u | u in s.threads && u != t && PinsRoom(s.threads[u].at)
      ensures (e.Create? || e.Delete?) ==> s.threads[u].n != e.n
      ensures s.threads[u].at.DropDelete? && e.Insert? ==> s.threads[u].o != e.o
    {
      PinKept(shardOf, s, t, u, e);
    }
    OwnPin(s, t, th', e);
    OtherPins(s, t, th', e);
  }

  lemma OwnPin(s: State, t: Tid, th': Thread, e: Effect)
    requires RoomsPinned(s)
    requires t in s.threads && JumpPins(s, s.threads[t], th', e)
    ensures PinsRoom(th'.at) ==>
              th'.n in DoEffect(s, t, e).registry && DoEffect(s, t, e).registry[th'.n] == th'.o
    ensures th'.at.DropDelete? ==> Empty(DoEffect(s, t, e), th'.o)
  {
  }

  lemma OtherPins(s: State, t: Tid, th': Thread, e: Effect)
    requires RoomsPinned(s) && t in s.threads && Sound(s, s.threads[t], e)
    requires PinsRoom(th'.at) ==> th'.n in DoEffect(s, t, e).registry && DoEffect(s, t, e).registry[th'.n] == th'.o
    requires th'.at.DropDelete? ==> Empty(DoEffect(s, t, e), th'.o)
    requires forall u :: u in s.threads && u != t && PinsRoom(s.threads[u].at) && (e.Create? || e.Delete?) ==>
        s.threads[u].n != e.n
    requires forall u :: u in s.threads && u != t && s.threads[u].at.DropDelete? && e.Insert? ==> s.threads[u].o != e.o
    ensures RoomsPinned(Move(DoEffect(s, t, e), t, th'))
  {
  }

  lemma OrphansKept(s: State, t: Tid, th': Thread, e: Effect)
    requires ObjectsExist(s) && RoomsPinned(s) && NoOrphans(s)
    requires t in s.threads && Sound(s, s.threads[t], e)
    ensures NoOrphans(Move(DoEffect(s, t, e), t, th'))
  {
  }

  lemma TrackedKept(s: State, t: Tid, th': Thread, e: Effect)
    requires ObjectsExist(s) && RoomsPinned(s) && NoOrphans(s) && MembersTracked(s) && JoinsTracked(s)
    requires t in s.threads && JumpLeaves(s, s.threads[t], th', e) && Sound(s, s.threads[t], e)
    ensures MembersTracked(Move(DoEffect(s, t, e), t, th'))
  {
    var s' := Move(DoEffect(s, t, e), t, th');
    forall m | m in s'.members && m.0 in s'.roomName
      ensures (m.1, s'.roomName[m.0]) in s'.tracked || LeavePending(s', m.1, s'.roomName[m.0], m.0)
    {
      var n := s'.roomName[m.0];
      if e.Insert? && m == (e.o, e.c) {
        if (e.c, n) !in s.tracked {
          var u :| u in s.threads && LeavesEarly(s.threads[u], e.c, n);
          assert Leaves(s'.threads[u], m.1, n, m.0);
        }
      } else if (m.1, n) in s.tracked {
        if e == Untrack(m.1, n) {
          assert Leaves(s'.threads[t], m.1, n, m.0);
        }
      } else {
        var u :| u in s.threads && Leaves(s.threads[u], m.1, n, m.0);
        assert Leaves(s'.threads[u], m.1, n, m.0);
      }
    }
  }

  /** A join that is about to insert holds the shard lock, so no leave of that name gets to look the room up. */
  lemma NoLookup(shardOf: Name -> nat, s: State, u: Tid, v: Tid)
    requires LocksAgree(shardOf, s) && u in s.threads && v in s.threads
    requires JoinsNext(s.threads[u].at) && s.threads[v].n == s.threads[u].n
    requires LockFree(s, LockOpOf(shardOf, s.threads[v]))
    ensures !s.threads[v].at.LeaveRLock?
  {
    var l := Shard(shardOf(s.threads[u].n));
    assert Agree(shardOf, s, l);
    assert ModeOf(shardOf, s.threads[u], l) == Writing;
    assert l in s.writer;
  }

  lemma JoinsKept(shardOf: Name -> nat, s: State, t: Tid, th': Thread, e: Effect)
    requires LocksAgree(shardOf, s) && JoinsTracked(s)
    requires t in s.threads && JumpLeaves(s, s.threads[t], th', e) && Sound(s, s.threads[t], e)
    requires LockFree(s, LockOpOf(shardOf, s.threads[t]))
    ensures JoinsTracked(Move(DoEffect(s, t, e), t, th'))
  {
    hide LocksAgree, LockFree, LockOpOf;
    var s' := Move(DoEffect(s, t, e), t, th');
    forall u | u in s'.threads && JoinsNext(s'.threads[u].at)
      ensures (s'.threads[u].c, s'.threads[u].n) in s'.tracked || LeaveAhead(s', s'.threads[u].c, s'.threads[u].n)
    {
      var c, n := s'.threads[u].c, s'.threads[u].n;
      if (c, n) in s'.tracked {
      } else if e == Untrack(c, n) {
        assert LeavesEarly(s'.threads[t], c, n);
      } else {
        var v :| v in s.threads && LeavesEarly(s.threads[v], c, n);
        if v == t {
          NoLookup(shardOf, s, u, v);
        }
        assert LeavesEarly(s'.threads[v], c, n);
      }
    }
  }

  lemma GaugeKept(s: State, t: Tid, th': Thread, e: Effect)
    requires GaugeTracks(s) && RoomsPinned(s)
    requires t in s.threads && JumpCounts(s.threads[t], th', e) && Sound(s, s.threads[t], e)
    ensures GaugeTracks(Move(DoEffect(s, t, e), t, th'))
  {
    var s' := Move(DoEffect(s, t, e), t, th');
    CountingMoves(s, t, th', e);
    RegistrySize(s, t, e);
    assert t in Counting(s) <==> e == Count(1);
    assert t in Uncounting(s) <==> e == Count(-1);
  }

  lemma CountingMoves(s: State, t: Tid, th': Thread, e: Effect)
    requires t in s.threads && JumpCounts(s.threads[t], th', e)
    requires e.StartCloser? ==> e.spawn !in s.threads
    ensures var s' := Move(DoEffect(s, t, e), t, th');
            && Counting(s') == (
                 if e.Create? then Counting(s) + {t} else if e == Count(1) then Counting(s) - {t} else Counting(s))
            && Uncounting(s') == (
                 if e.Delete? then Uncounting(s) + {t}
                 else if e == Count(-1) then Uncounting(s) - {t} else Uncounting(s))
  {
  }

  lemma RegistrySize(s: State, t: Tid, e: Effect)
    requires e.Create? ==> e.n !in s.registry
    requires e.Delete? ==> e.n in s.registry
    ensures |DoEffect(s, t, e).registry| == |s.registry| + (if e.Create? then 1 else if e.Delete? then -1 else 0)
  {
    var r := DoEffect(s, t, e).registry;
    assert r.Keys ==
      if e.Create? then s.registry.Keys + {e.n} else if e.Delete? then s.registry.Keys - {e.n} else s.registry.Keys;
    assert |r| == |r.Keys| && |s.registry| == |s.registry.Keys|;
  }

  /** `cleanup` gets past its snapshot in one step only, the read of the tracked rooms. */
  lemma PastMoves(s: State, t: Tid, th': Thread, e: Effect, c: ConnId)
    requires OnceOwned(s) && t in s.threads && Sound(s, s.threads[t], e)
    requires Jump(s.threads[t], th', e) && JumpSnapshot(s, s.threads[t], th', e)
    requires PastSnapshot(Move(DoEffect(s, t, e), t, th'), c)
    ensures PastSnapshot(s, c)
         || (s.once[c] == Running(t) && s.threads[t].at.RoomsRead? && th'.rest == TrackedBy(s, c) && e.Nothing?)
  {
  }

  lemma TrackedLeft(s: State, t: Tid, th': Thread, e: Effect, c: ConnId, n: Name)
    requires OnceOwned(s) && Snapshots(s) && t in s.threads && Sound(s, s.threads[t], e)
    requires Jump(s.threads[t], th', e) && JumpSnapshot(s, s.threads[t], th', e) && JumpRest(s.threads[t], th', e)
    requires PastSnapshot(Move(DoEffect(s, t, e), t, th'), c)
    requires (c, n) in DoEffect(s, t, e).tracked
    ensures LeftToDo(Move(DoEffect(s, t, e), t, th'), c, n)
  {
    PastMoves(s, t, th', e, c);
    if PastSnapshot(s, c) {
      assert (c, n) in s.tracked;
      assert LeftToDo(s, c, n);
    } else {
      assert n in th'.rest;
    }
  }

  /** While one thread holds roomsMu of `c` for writing, no other is at the read of what `c` tracks. */
  lemma NotReading(shardOf: Name -> nat, s: State, u: Tid, v: Tid)
    requires LocksAgree(shardOf, s) && u in s.threads && v in s.threads && s.threads[v].c == s.threads[u].c
    requires RoomsMode(s.threads[u].at) == Writing
    ensures !s.threads[v].at.RoomsRead?
    ensures LockFree(s, LockOpOf(shardOf, s.threads[v])) ==> !s.threads[v].at.RoomsRLock?
  {
    var l := RoomsMu(s.threads[u].c);
    assert Agree(shardOf, s, l);
    assert ModeOf(shardOf, s.threads[u], l) == Writing;
    assert l in s.writer && s.writer[l] == u;
    if v != u {
      Exclusive(shardOf, s, u, v, l);
    }
  }

  lemma WriterBlocks(shardOf: Name -> nat, s: State, t: Tid, th': Thread, e: Effect, u: Tid)
    requires LocksAgree(shardOf, s) && t in s.threads && u in s.threads
    requires JumpSnapshot(s, s.threads[t], th', e) && th'.c == s.threads[t].c
    requires e.StartCloser? ==> e.spawn !in s.threads
    requires LockFree(s, LockOpOf(shardOf, s.threads[t]))
    requires if u == t then th'.at.TrackWrite? else s.threads[u].at.TrackWrite?
    ensures SnapshotBlocked(Move(DoEffect(s, t, e), t, th'), s.threads[u].c)
  {
    hide LocksAgree, LockFree, LockOpOf;
    forall v | v in s.threads && s.threads[v].c == s.threads[u].c
      ensures !s.threads[v].at.RoomsRead?
      ensures LockFree(s, LockOpOf(shardOf, s.threads[v])) ==> !s.threads[v].at.RoomsRLock?
    {
      NotReading(shardOf, s, u, v);
    }
  }

  lemma NotPast(s: State, t: Tid, th': Thread, e: Effect, u: Tid)
    requires OnceOwned(s) && Snapshots(s)
    requires t in s.threads && u in s.threads && Sound(s, s.threads[t], e)
    requires Jump(s.threads[t], th', e) && JumpSnapshot(s, s.threads[t], th', e)
    requires if u == t then th'.at.TrackWrite? else s.threads[u].at.TrackWrite?
    ensures !PastSnapshot(Move(DoEffect(s, t, e), t, th'), s.threads[u].c)
  {
    if PastSnapshot(Move(DoEffect(s, t, e), t, th'), s.threads[u].c) {
      PastMoves(s, t, th', e, s.threads[u].c);
    }
  }

  lemma SnapshotsKept(shardOf: Name -> nat, s: State, t: Tid, th': Thread, e: Effect)
    requires LocksAgree(shardOf, s) && OnceOwned(s) && Snapshots(s)
    requires t in s.threads && Sound(s, s.threads[t], e)
    requires Jump(s.threads[t], th', e) && JumpSnapshot(s, s.threads[t], th', e) && JumpRest(s.threads[t], th', e)
    requires LockFree(s, LockOpOf(shardOf, s.threads[t]))
    ensures Snapshots(Move(DoEffect(s, t, e), t, th'))
  {
    hide LocksAgree, OnceOwned, LockFree, LockOpOf, PastSnapshot, SnapshotBlocked, LeftToDo;
    var s' := Move(DoEffect(s, t, e), t, th');
    forall c, n | (c, n) in s'.tracked && PastSnapshot(s', c)
      ensures LeftToDo(s', c, n)
    {
      TrackedLeft(s, t, th', e, c, n);
    }
    forall u | u in s'.threads && s'.threads[u].at.TrackWrite?
      ensures !PastSnapshot(s', s'.threads[u].c) && SnapshotBlocked(s', s'.threads[u].c)
    {
      WriterBlocks(shardOf, s, t, th', e, u);
      NotPast(s, t, th', e, u);
    }
  }

  // ---------------------------------------------------------------- the whole invariant

  /** All conjuncts but the lock discipline. */
  ghost predicate SharedInv(s: State) {
    && ObjectsExist(s)
    && ConnsKnown(s)
    && LabelsAgree(s)
    && OnceOwned(s)
    && RoomsPinned(s)
    && NoOrphans(s)
    && MembersTracked(s)
    && JoinsTracked(s)
    && Snapshots(s)
    && GaugeTracks(s)
  }

  ghost predicate Inv(shardOf: Name -> nat, s: State) {
    LocksAgree(shardOf, s) && SharedInv(s)
  }

  lemma SharedKept(shardOf: Name -> nat, s: State, t: Tid, ch: Choice)
    requires Inv(shardOf, s) && Enabled(shardOf, s, t, ch)
    ensures SharedInv(After(s, t, ch))
  {
    var th := s.threads[t];
    var e := EffectOf(s, th, ch);
    var th' := Goto(s, th, ch);
    GotoJumps(s, t, ch);
    EffectSound(s, t, ch);
    ObjectsKept(s, t, th', e);
    ConnsKept(s, t, th', e);
    LabelsKept(s, t, th', e);
    OnceKept(s, t, th', e);
    PinnedKept(shardOf, s, t, th', e);
    OrphansKept(s, t, th', e);
    TrackedKept(s, t, th', e);
    JoinsKept(shardOf, s, t, th', e);
    SnapshotsKept(shardOf, s, t, th', e);
    GaugeKept(s, t, th', e);
  }

  /** Nothing but the lock discipline reads the locks. */
  lemma Unlocked(s: State, writer: map<Lock, Tid>, readers: set<(Lock, Tid)>)
    requires SharedInv(s)
    ensures SharedInv(s.(writer := writer, readers := readers))
  {
  }

  lemma StepKeeps(shardOf: Name -> nat, s: State, t: Tid, ch: Choice)
    requires Inv(shardOf, s) && Enabled(shardOf, s, t, ch)
    ensures Inv(shardOf, Step(shardOf, s, t, ch))
  {
    StepLocks(shardOf, s, t, ch);
    SharedKept(shardOf, s, t, ch);
    var s' := Step(shardOf, s, t, ch);
    Unlocked(After(s, t, ch), s'.writer, s'.readers);
  }

  lemma StartOnce(s: State, t: Tid, th: Thread)
    requires SharedInv(s) && Startable(s, t, th)
    ensures ConnsKnown(Move(s, t, th)) && LabelsAgree(Move(s, t, th)) && OnceOwned(Move(s, t, th))
  {
  }

  lemma StartRooms(s: State, t: Tid, th: Thread)
    requires SharedInv(s) && Startable(s, t, th)
    ensures RoomsPinned(Move(s, t, th)) && GaugeTracks(Move(s, t, th))
  {
    var s' := Move(s, t, th);
    assert Counting(s') == Counting(s) && Uncounting(s') == Uncounting(s);
  }

  lemma StartTracked(s: State, t: Tid, th: Thread)
    requires SharedInv(s) && Startable(s, t, th)
    ensures MembersTracked(Move(s, t, th)) && JoinsTracked(Move(s, t, th))
  {
    var s' := Move(s, t, th);
    assert forall u :: u in s.threads ==> s'.threads[u] == s.threads[u];
    forall m | m in s.members && LeavePending(s, m.1, s.roomName[m.0], m.0)
      ensures LeavePending(s', m.1, s.roomName[m.0], m.0)
    {
      var u :| u in s.threads && Leaves(s.threads[u], m.1, s.roomName[m.0], m.0);
      assert Leaves(s'.threads[u], m.1, s.roomName[m.0], m.0);
    }
    forall c, n | LeaveAhead(s, c, n)
      ensures LeaveAhead(s', c, n)
    {
      var u :| u in s.threads && LeavesEarly(s.threads[u], c, n);
      assert LeavesEarly(s'.threads[u], c, n);
    }
  }

  lemma StartSnapshots(s: State, t: Tid, th: Thread)
    requires SharedInv(s) && Startable(s, t, th)
    ensures Snapshots(Move(s, t, th))
  {
    var s' := Move(s, t, th);
    assert forall c :: c in s.once ==> (PastSnapshot(s', c) <==> PastSnapshot(s, c));
  }

  lemma StartKeeps(shardOf: Name -> nat, s: State, t: Tid, th: Thread)
    requires Inv(shardOf, s) && Startable(s, t, th)
    ensures Inv(shardOf, Move(s, t, th))
  {
    IdleThread(shardOf, s, t, th);
    StartOnce(s, t, th);
    StartRooms(s, t, th);
    StartTracked(s, t, th);
    StartSnapshots(s, t, th);
  }

  lemma ConnectOnce(s: State, c: ConnId)
    requires SharedInv(s) && c !in s.once
    ensures ObjectsExist(Connect(s, c)) && ConnsKnown(Connect(s, c)) && OnceOwned(Connect(s, c))
  {
  }

  lemma ConnectTracked(s: State, c: ConnId)
    requires SharedInv(s) && c !in s.once
    ensures MembersTracked(Connect(s, c)) && JoinsTracked(Connect(s, c)) && Snapshots(Connect(s, c))
  {
    var s' := Connect(s, c);
    assert forall m :: m in s.members ==>
      (LeavePending(s', m.1, s.roomName[m.0], m.0) <==> LeavePending(s, m.1, s.roomName[m.0], m.0));
    assert forall d, n :: LeaveAhead(s', d, n) <==> LeaveAhead(s, d, n);
    assert forall d :: PastSnapshot(s', d) ==> PastSnapshot(s, d);
  }

  lemma ConnectKeeps(shardOf: Name -> nat, s: State, c: ConnId)
    requires Inv(shardOf, s) && c !in s.once
    ensures Inv(shardOf, Connect(s, c))
  {
    SameLocks(shardOf, s, Connect(s, c));
    ConnectOnce(s, c);
    ConnectTracked(s, c);
    assert Counting(Connect(s, c)) == Counting(s) && Uncounting(Connect(s, c)) == Uncounting(s);
  }

  lemma NextKeeps(shardOf: Name -> nat, s: State, a: Action)
    requires Inv(shardOf, s) && Possible(shardOf, s, a)
    ensures Inv(shardOf, Apply(shardOf, s, a))
  {
    match a
    case Take(t, ch) => StepKeeps(shardOf, s, t, ch);
    case Add(c) => ConnectKeeps(shardOf, s, c);
    case Start(t, th) => StartKeeps(shardOf, s, t, th);
  }

  lemma NextInv(shardOf: Name -> nat, s: State, s': State)
    requires Inv(shardOf, s) && Next(shardOf, s, s')
    ensures Inv(shardOf, s')
  {
    hide Inv, Possible, Apply;
    var a :| Possible(shardOf, s, a) && s' == Apply(shardOf, s, a);
    NextKeeps(shardOf, s, a);
  }

  lemma InitInv(shardOf: Name -> nat)
    ensures Inv(shardOf, INIT)
  {
    assert Counting(INIT) == {} && Uncounting(INIT) == {};
  }

  /** The invariant holds in every state of every run. */
  lemma {:induction false} InvAlways(shardOf: Name -> nat, run: seq<State>, i: nat)
    requires Run(shardOf, run) && i < |run|
    ensures Inv(shardOf, run[i])
  {
    hide Inv;
    hide Next;
    if i == 0 {
      InitInv(shardOf);
    } else {
      InvAlways(shardOf, run, i - 1);
      assert NextAt(shardOf, run, i - 1);
      NextInv(shardOf, run[i - 1], run[i]);
    }
  }

  /** The action behind a step of a run, from a state that satisfies the invariant. */
  lemma RunStep(shardOf: Name -> nat, run: seq<State>, i: nat) returns (a: Action)
    requires Run(shardOf, run) && i + 1 < |run|
    ensures Inv(shardOf, run[i]) && Possible(shardOf, run[i], a) && run[i + 1] == Apply(shardOf, run[i], a)
  {
    hide Inv, Possible, Apply;
    InvAlways(shardOf, run, i);
    assert NextAt(shardOf, run, i);
    a :| Possible(shardOf, run[i], a) && run[i + 1] == Apply(shardOf, run[i], a);
  }
}
