/**
 What the hub guarantees over every run: no orphan rooms, an exact room gauge, no zombie members, and
 no deadlock.
 */
module HubTheorems {
  import opened Finite
  import opened Hub
  import opened HubLocks
  import opened HubInvariant

  // ---------------------------------------------------------------- rooms

  /**
   No orphans: a member is a member of the object registered under the room's name, so at most one
   object of a name has members, and the registry never leads to an object of another name.
   */
  lemma NoOrphanRooms(shardOf: Name -> nat, run: seq<State>, i: nat, m: (RoomId, ConnId))
    requires Run(shardOf, run) && i < |run| && m in run[i].members
    ensures var s := run[i];
            && m.0 in s.roomName
            && s.roomName[m.0] in s.registry && s.registry[s.roomName[m.0]] == m.0
            && forall m' :: m' in s.members && m'.0 in s.roomName && s.roomName[m'.0] == s.roomName[m.0] ==> m'.0 == m.0
  {
    InvAlways(shardOf, run, i);
  }

  lemma CounterHoldsShard(shardOf: Name -> nat, s: State, t: Tid)
    requires LocksAgree(shardOf, s) && (t in Counting(s) || t in Uncounting(s))
    ensures Shard(shardOf(s.threads[t].n)) in s.writer
  {
    var l := Shard(shardOf(s.threads[t].n));
    assert Agree(shardOf, s, l) && ModeOf(shardOf, s.threads[t], l) == Writing;
  }

  /** The active-rooms gauge is exact whenever no shard lock is held for writing. */
  lemma GaugeExact(shardOf: Name -> nat, run: seq<State>, i: nat)
    requires Run(shardOf, run) && i < |run|
    requires forall l :: l in run[i].writer ==> !l.Shard?
    ensures run[i].gauge == |run[i].registry|
  {
    var s := run[i];
    InvAlways(shardOf, run, i);
    forall t | t in Counting(s) || t in Uncounting(s)
      ensures Shard(shardOf(s.threads[t].n)) in s.writer
    {
      CounterHoldsShard(shardOf, s, t);
    }
    assert forall t :: t !in Counting(s) && t !in Uncounting(s);
    assert Counting(s) == {} && Uncounting(s) == {};
  }

  // ---------------------------------------------------------------- zombies

  /** A leave of `c` is between its untrackRoom and its removeMember. */
  ghost predicate LeaveInFlight(s: State, c: ConnId) {
    exists t :: t in s.threads && s.threads[t].c == c && BetweenUntrackAndRemove(s.threads[t].at)
  }

  predicate BetweenUntrackAndRemove(at: At) {
    at.UntrackUnlock? || at.LeaveRLock? || at.LeaveLookup? || (at.LeaveRUnlock? && at.found) || at.RemoveLock? ||
        at.RemoveDelete?
  }

  ghost predicate Gone(s: State, c: ConnId) {
    && PastLeaveAll(s, c)
    && (forall m :: m in s.members ==> m.1 != c)
    && (forall m :: m in s.tracked ==> m.0 != c)
  }

  /** Once leaveAllRooms has returned nothing is tracked, and a membership left is one a leave is about to remove. */
  lemma NothingTracked(shardOf: Name -> nat, s: State, c: ConnId)
    requires Inv(shardOf, s) && PastLeaveAll(s, c)
    ensures forall m :: m in s.tracked ==> m.0 != c
    ensures forall m :: m in s.members && m.1 == c ==> LeavePending(s, c, s.roomName[m.0], m.0)
  {
    assert PastSnapshot(s, c);
    assert forall n :: (c, n) in s.tracked ==> LeftToDo(s, c, n);
    assert forall n :: !LeftToDo(s, c, n);
    assert forall n :: (c, n) !in s.tracked;
    assert forall m :: m in s.tracked ==> m == (m.0, m.1);
  }

  lemma PendingInFlight(s: State, c: ConnId)
    requires !LeaveInFlight(s, c)
    ensures forall n, o :: !LeavePending(s, c, n, o)
    ensures forall n :: !LeaveAhead(s, c, n)
  {
  }

  lemma GoneWhenQuiet(shardOf: Name -> nat, s: State, c: ConnId)
    requires Inv(shardOf, s) && PastLeaveAll(s, c) && !LeaveInFlight(s, c)
    ensures Gone(s, c) && NoJoinNext(s, c)
  {
    NothingTracked(shardOf, s, c);
    PendingInFlight(s, c);
  }

  /** No thread is about to insert `c` into a room. */
  ghost predicate NoJoinNext(s: State, c: ConnId) {
    forall t :: t in s.threads && s.threads[t].c == c ==> !JoinsNext(s.threads[t].at)
  }

  lemma PastStays(s: State, t: Tid, th': Thread, e: Effect, c: ConnId)
    requires OnceOwned(s) && PastLeaveAll(s, c) && t in s.threads
    requires Jump(s.threads[t], th', e) && Sound(s, s.threads[t], e)
    requires s.threads[t].at.RemoveConn? ==> th'.at.OnceDone?
    requires s.threads[t].at.OnceDone? ==> e.ReleaseOnce?
    ensures PastLeaveAll(Move(DoEffect(s, t, e), t, th'), c)
  {
  }

  lemma GoneStep(shardOf: Name -> nat, s: State, t: Tid, ch: Choice, c: ConnId)
    requires Inv(shardOf, s) && Enabled(shardOf, s, t, ch) && Gone(s, c) && NoJoinNext(s, c)
    ensures Gone(After(s, t, ch), c) && NoJoinNext(After(s, t, ch), c)
  {
    var th := s.threads[t];
    var e := EffectOf(s, th, ch);
    GotoJumps(s, t, ch);
    EffectSound(s, t, ch);
    PastStays(s, t, Goto(s, th, ch), e, c);
    assert PastSnapshot(s, c);
    GoneEffect(s, t, Goto(s, th, ch), e, c);
  }

  lemma GoneEffect(s: State, t: Tid, th': Thread, e: Effect, c: ConnId)
    requires Gone(s, c) && NoJoinNext(s, c) && t in s.threads
    requires Sound(s, s.threads[t], e) && JumpLeaves(s, s.threads[t], th', e)
    requires s.threads[t].at.TrackWrite? ==> s.threads[t].c != c
    requires PastLeaveAll(Move(DoEffect(s, t, e), t, th'), c)
    ensures Gone(Move(DoEffect(s, t, e), t, th'), c) && NoJoinNext(Move(DoEffect(s, t, e), t, th'), c)
  {
  }

  lemma GoneKept(shardOf: Name -> nat, s: State, a: Action, c: ConnId)
    requires Inv(shardOf, s) && Possible(shardOf, s, a) && Gone(s, c) && NoJoinNext(s, c)
    ensures Gone(Apply(shardOf, s, a), c) && NoJoinNext(Apply(shardOf, s, a), c)
  {
    match a
    case Take(t, ch) => GoneStep(shardOf, s, t, ch, c);
    case Add(d) =>
    case Start(t, th) =>
  }

  lemma {:induction false} StaysGone(shardOf: Name -> nat, run: seq<State>, i: nat, j: nat, c: ConnId)
    requires Run(shardOf, run) && i <= j < |run| && Gone(run[i], c) && NoJoinNext(run[i], c)
    ensures Gone(run[j], c) && NoJoinNext(run[j], c)
    decreases j
  {
    hide Gone, NoJoinNext;
    if i < j {
      StaysGone(shardOf, run, i, j - 1, c);
      GoneNext(shardOf, run, j - 1, c);
    }
  }

  lemma GoneNext(shardOf: Name -> nat, run: seq<State>, j: nat, c: ConnId)
    requires Run(shardOf, run) && j + 1 < |run| && Gone(run[j], c) && NoJoinNext(run[j], c)
    ensures Gone(run[j + 1], c) && NoJoinNext(run[j + 1], c)
  {
    hide *;
    var a := RunStep(shardOf, run, j);
    GoneKept(shardOf, run[j], a, c);
  }

  /**
   No zombies: once `cleanup` of a connection has passed leaveAllRooms and no leave of it is in
   flight, it is in no room and tracks none, in every later state, whatever joins are attempted.
   */
  lemma NoZombies(shardOf: Name -> nat, run: seq<State>, i: nat, j: nat, c: ConnId)
    requires Run(shardOf, run) && i <= j < |run|
    requires PastLeaveAll(run[i], c) && !LeaveInFlight(run[i], c)
    ensures forall m :: m in run[j].members ==> m.1 != c
    ensures forall m :: m in run[j].tracked ==> m.0 != c
  {
    InvAlways(shardOf, run, i);
    GoneWhenQuiet(shardOf, run[i], c);
    StaysGone(shardOf, run, i, j, c);
  }

  // ---------------------------------------------------------------- deadlock

  predicate Unfinished(s: State, t: Tid) {
    t in s.threads && !s.threads[t].at.Finished?
  }

  ghost predicate WriterWaits(shardOf: Name -> nat, s: State, l: Lock) {
    exists t :: Unfinished(s, t) && LockOpOf(shardOf, s.threads[t]) == LockW(l)
  }

  /** Enabled even if readers are refused as long as a writer waits, as sync.RWMutex may do. */
  ghost predicate Ready(shardOf: Name -> nat, s: State, t: Tid, ch: Choice) {
    && Enabled(shardOf, s, t, ch)
    && (LockOpOf(shardOf, s.threads[t]).LockR? ==> !WriterWaits(shardOf, s, LockOpOf(shardOf, s.threads[t]).l))
  }

  ghost predicate CanStep(shardOf: Name -> nat, s: State) {
    exists t, ch :: Ready(shardOf, s, t, ch)
  }

  predicate Acquires(op: LockOp) {
    op.LockW? || op.LockR?
  }

  lemma {:induction false} Fresh(used: set<int>) returns (k: int)
    ensures k !in used && forall u :: u in used ==> u < k
  {
    k := 0;
    if used != {} {
      var u := AnElement(used);
      var rest := used - {u};
      assert forall v :: v in used ==> v == u || v in rest;
      var k' := Fresh(rest);
      k := if u < k' then k' else u + 1;
    }
  }

  /** Every thread has a choice to step with. */
  lemma AChoice(s: State, th: Thread) returns (ch: Choice)
    ensures Choosable(s, th, ch)
  {
    var o := Fresh(s.roomName.Keys);
    ch := Choice(o, 0, 0, false, 0);
    if th.rest != {} {
      var n := AnElement(th.rest);
      ch := ch.(name := n);
    }
    if th.todo != {} {
      var m := AnElement(th.todo);
      ch := ch.(member := m);
    }
  }

  /** A thread that asks for no lock and does not wait for another's `cleanupOnce` can step. */
  lemma FreeThread(shardOf: Name -> nat, s: State, t: Tid)
    requires Unfinished(s, t) && OnceFree(s, s.threads[t]) && !Acquires(LockOpOf(shardOf, s.threads[t]))
    ensures CanStep(shardOf, s)
  {
    var ch := AChoice(s, s.threads[t]);
    assert Ready(shardOf, s, t, ch);
  }

  /** If a lock is free and somebody asks for it, somebody can step: a writer if one waits. */
  lemma FreeLock(shardOf: Name -> nat, s: State, t: Tid, l: Lock)
    requires l !in s.writer && forall u :: (l, u) !in s.readers
    requires Unfinished(s, t) &&
        (LockOpOf(shardOf, s.threads[t]) == LockW(l) || LockOpOf(shardOf, s.threads[t]) == LockR(l))
    ensures CanStep(shardOf, s)
  {
    var u := t;
    if WriterWaits(shardOf, s, l) {
      u :| Unfinished(s, u) && LockOpOf(shardOf, s.threads[u]) == LockW(l);
    }
    var ch := AChoice(s, s.threads[u]);
    assert Ready(shardOf, s, u, ch);
  }

  /** A thread inside a critical section of a room lock or of roomsMu asks for no further lock. */
  lemma LeafHolders(shardOf: Name -> nat, s: State, t: Tid, l: Lock)
    requires t in s.threads && !l.Shard? && ModeOf(shardOf, s.threads[t], l) != Free
    ensures Unfinished(s, t) && !s.threads[t].at.OnceDo? && !Acquires(LockOpOf(shardOf, s.threads[t]))
  {
  }

  /** A thread inside a critical section of a shard lock asks at most for a room lock or for roomsMu. */
  lemma ShardHolders(shardOf: Name -> nat, s: State, t: Tid, l: Lock)
    requires t in s.threads && l.Shard? && ModeOf(shardOf, s.threads[t], l) != Free
    ensures Unfinished(s, t) && !s.threads[t].at.OnceDo?
    ensures Acquires(LockOpOf(shardOf, s.threads[t])) ==> !LockOpOf(shardOf, s.threads[t]).l.Shard?
  {
  }

  lemma LeafWaiter(shardOf: Name -> nat, s: State, t: Tid)
    requires LocksAgree(shardOf, s) && Unfinished(s, t)
    requires Acquires(LockOpOf(shardOf, s.threads[t])) && !LockOpOf(shardOf, s.threads[t]).l.Shard?
    ensures CanStep(shardOf, s)
  {
    var l := LockOpOf(shardOf, s.threads[t]).l;
    assert Agree(shardOf, s, l);
    if l in s.writer {
      LeafHolders(shardOf, s, s.writer[l], l);
      FreeThread(shardOf, s, s.writer[l]);
    } else if exists u :: (l, u) in s.readers {
      var u :| (l, u) in s.readers;
      LeafHolders(shardOf, s, u, l);
      FreeThread(shardOf, s, u);
    } else {
      FreeLock(shardOf, s, t, l);
    }
  }

  lemma ShardHolder(shardOf: Name -> nat, s: State, u: Tid, l: Lock)
    requires LocksAgree(shardOf, s) && u in s.threads && l.Shard? && ModeOf(shardOf, s.threads[u], l) != Free
    ensures CanStep(shardOf, s)
  {
    ShardHolders(shardOf, s, u, l);
    if Acquires(LockOpOf(shardOf, s.threads[u])) {
      LeafWaiter(shardOf, s, u);
    } else {
      FreeThread(shardOf, s, u);
    }
  }

  lemma ShardWaiter(shardOf: Name -> nat, s: State, t: Tid)
    requires LocksAgree(shardOf, s) && Unfinished(s, t)
    requires Acquires(LockOpOf(shardOf, s.threads[t])) && LockOpOf(shardOf, s.threads[t]).l.Shard?
    ensures CanStep(shardOf, s)
  {
    var l := LockOpOf(shardOf, s.threads[t]).l;
    assert Agree(shardOf, s, l);
    if l in s.writer {
      ShardHolder(shardOf, s, s.writer[l], l);
    } else if exists u :: (l, u) in s.readers {
      var u :| (l, u) in s.readers;
      ShardHolder(shardOf, s, u, l);
    } else {
      FreeLock(shardOf, s, t, l);
    }
  }

  lemma LockWaiter(shardOf: Name -> nat, s: State, t: Tid)
    requires LocksAgree(shardOf, s) && Unfinished(s, t) && OnceFree(s, s.threads[t])
    ensures CanStep(shardOf, s)
  {
    if !Acquires(LockOpOf(shardOf, s.threads[t])) {
      FreeThread(shardOf, s, t);
    } else if LockOpOf(shardOf, s.threads[t]).l.Shard? {
      ShardWaiter(shardOf, s, t);
    } else {
      LeafWaiter(shardOf, s, t);
    }
  }

  /**
   No deadlock: as long as some call is unfinished, some thread can take a step. The ranking is
   cleanupOnce, then a shard lock, then a room lock or roomsMu.
   */
  lemma NoDeadlock(shardOf: Name -> nat, run: seq<State>, i: nat, t: Tid)
    requires Run(shardOf, run) && i < |run| && Unfinished(run[i], t)
    ensures CanStep(shardOf, run[i])
  {
    var s := run[i];
    InvAlways(shardOf, run, i);
    if OnceFree(s, s.threads[t]) {
      LockWaiter(shardOf, s, t);
    } else {
      var r := s.once[s.threads[t].c].runner;
      assert CleaningLabels(s.threads[r]);
      LockWaiter(shardOf, s, r);
    }
  }
}
