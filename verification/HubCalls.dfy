/**
 What the calls of `joinRoom` and `leaveRoom` achieve, in every run, whatever the other threads do meanwhile: a
 join makes its connection a member, a leave ends its membership, and both tell the room.
 */
module HubCalls {
  import opened Hub
  import opened HubLocks
  import opened HubInvariant
  import opened HubRefinement
  import opened HubTheorems
  import RS = RoomerSpec

  // ---------------------------------------------------------------- one thread in a run

  /** Thread `t` takes the step from `s` to `s'`. */
  ghost predicate Advances(shardOf: Name -> nat, s: State, s': State, t: Tid, ch: Choice) {
    && Enabled(shardOf, s, t, ch)
    && s' == Step(shardOf, s, t, ch)
    && t in s'.threads && s'.threads[t] == Goto(s, s.threads[t], ch)
  }

  ghost predicate Rests(s: State, s': State, t: Tid) {
    t in s.threads && t in s'.threads && s'.threads[t] == s.threads[t]
  }

  lemma EffectKeeps(s: State, t: Tid, e: Effect, u: Tid)
    requires u in s.threads && (e.StartCloser? ==> e.spawn !in s.threads)
    ensures u in DoEffect(s, t, e).threads && DoEffect(s, t, e).threads[u] == s.threads[u]
    ensures s.done <= DoEffect(s, t, e).done
  {
  }

  lemma LockKeeps(s: State, t: Tid, op: LockOp)
    ensures DoLock(s, t, op) == s.(writer := DoLock(s, t, op).writer, readers := DoLock(s, t, op).readers)
  {
  }

  /** A registered name keeps its object, or loses its registration. */
  ghost predicate KeepsRooms(s: State, s': State) {
    && (forall o :: o in s.roomName ==> o in s'.roomName && s'.roomName[o] == s.roomName[o])
    && forall n :: n in s.registry && n in s'.registry ==> s'.registry[n] == s.registry[n]
  }

  lemma EffectRooms(s: State, th: Thread, t: Tid, ch: Choice)
    requires Choosable(s, th, ch)
    ensures KeepsRooms(s, DoEffect(s, t, EffectOf(s, th, ch)))
  {
  }

  lemma ClosersFresh(s: State, th: Thread, ch: Choice)
    requires Choosable(s, th, ch)
    ensures var e := EffectOf(s, th, ch); e.StartCloser? ==> e.spawn !in s.threads
  {
  }

  lemma TakeAdvances(shardOf: Name -> nat, s: State, u: Tid, ch: Choice, t: Tid)
    requires Enabled(shardOf, s, u, ch) && t in s.threads
    ensures var s' := Step(shardOf, s, u, ch);
            && s.done <= s'.done && KeepsRooms(s, s')
            && if t == u then Advances(shardOf, s, s', t, ch) else Rests(s, s', t)
  {
    hide Goto, LockFree, LockOpOf, OnceFree, DoEffect, EffectOf, DoLock, Choosable;
    var e := EffectOf(s, s.threads[u], ch);
    ClosersFresh(s, s.threads[u], ch);
    EffectRooms(s, s.threads[u], u, ch);
    EffectKeeps(s, u, e, t);
    LockKeeps(After(s, u, ch), u, LockOpOf(shardOf, s.threads[u]));
  }

  /** A step of a run is one of thread `t`, or leaves `t` where it is. */
  lemma OneThread(shardOf: Name -> nat, run: seq<State>, j: nat, t: Tid) returns (moved: bool, ch: Choice)
    requires Run(shardOf, run) && j + 1 < |run| && t in run[j].threads
    ensures Inv(shardOf, run[j]) && run[j].done <= run[j + 1].done && KeepsRooms(run[j], run[j + 1])
    ensures if moved then Advances(shardOf, run[j], run[j + 1], t, ch) else Rests(run[j], run[j + 1], t)
  {
    hide Inv, Enabled, Step, Advances;
    var a := RunStep(shardOf, run, j);
    moved, ch := false, Choice(0, 0, 0, false, 0);
    match a
    case Take(u, choice) =>
      TakeAdvances(shardOf, run[j], u, choice, t);
      moved, ch := t == u, choice;
    case _ =>
  }

  // ---------------------------------------------------------------- the object a thread has looked up

  /** Labels at which `o` is an object of the name `n`. */
  predicate Points(at: At) {
    || PinsRoom(at) || at.JoinUnlockShard? || (at.LeaveRUnlock? && at.found) || at.RemoveLock? || at.RemoveDelete?
    || at.RemoveLen? || at.RemoveUnlock? || ProcOf(at).Dropping? || (at.CastRUnlock? && at.hit)
    || at.EmitRLock? || at.EmitRange? || at.EmitSend?
  }

  ghost predicate NamedThread(s: State, th: Thread) {
    Points(th.at) ==> th.o in s.roomName && s.roomName[th.o] == th.n
  }

  ghost predicate Named(s: State) {
    forall t :: t in s.threads ==> NamedThread(s, s.threads[t])
  }

  /** The object of a step's jump was there before, or is looked up or made in it. */
  predicate PointsOn(s: State, th: Thread, th': Thread, e: Effect) {
    Points(th'.at) ==>
      && th'.n == th.n
      && (|| (Points(th.at) && th'.o == th.o)
          || (th.n in s.registry && th'.o == s.registry[th.n])
          || e == Create(th.n, th'.o))
  }

  lemma JoinPoints(s: State, th: Thread, ch: Choice)
    requires ProcOf(th.at).Joining?
    ensures PointsOn(s, th, JoinGoto(s, th, ch), EffectOf(s, th, ch))
  {
  }

  lemma LeavePoints(s: State, th: Thread, ch: Choice)
    requires ProcOf(th.at).Leaving?
    ensures PointsOn(s, th, LeaveGoto(s, th), EffectOf(s, th, ch))
  {
  }

  lemma DropPoints(s: State, th: Thread, ch: Choice)
    requires ProcOf(th.at).Dropping?
    ensures PointsOn(s, th, DropGoto(s, th), EffectOf(s, th, ch))
  {
  }

  lemma EmitPoints(s: State, th: Thread, ch: Choice)
    requires ProcOf(th.at).Emitting?
    ensures PointsOn(s, th, EmitGoto(s, th, ch), EffectOf(s, th, ch))
  {
  }

  lemma CleanupPoints(s: State, th: Thread, ch: Choice)
    requires ProcOf(th.at).Cleaning?
    ensures PointsOn(s, th, CleanupGoto(s, th, ch), EffectOf(s, th, ch))
  {
  }

  lemma GotoPoints(s: State, th: Thread, ch: Choice)
    ensures PointsOn(s, th, Goto(s, th, ch), EffectOf(s, th, ch))
  {
    hide PointsOn, EffectOf, JoinGoto, LeaveGoto, DropGoto, EmitGoto, CleanupGoto;
    match ProcOf(th.at)
    case Joining => JoinPoints(s, th, ch);
    case Leaving => LeavePoints(s, th, ch);
    case Dropping => DropPoints(s, th, ch);
    case Emitting => EmitPoints(s, th, ch);
    case Cleaning => CleanupPoints(s, th, ch);
  }

  lemma NamedGoto(s: State, t: Tid, th: Thread, th': Thread, e: Effect)
    requires ObjectsExist(s) && NamedThread(s, th) && PointsOn(s, th, th', e) && KeepsRooms(s, DoEffect(s, t, e))
    ensures NamedThread(DoEffect(s, t, e), th')
  {
    hide Points;
  }

  lemma Spawned(s: State, t: Tid, e: Effect, u: Tid)
    requires u !in s.threads && u in DoEffect(s, t, e).threads
    ensures DoEffect(s, t, e).threads[u].at.OnceDo?
  {
  }

  lemma NamedStays(s: State, s': State, th: Thread)
    requires NamedThread(s, th) && KeepsRooms(s, s')
    ensures NamedThread(s', th)
  {
  }

  lemma NamedTake(shardOf: Name -> nat, s: State, t: Tid, ch: Choice)
    requires ObjectsExist(s) && Named(s) && Enabled(shardOf, s, t, ch)
    ensures Named(Step(shardOf, s, t, ch))
  {
    hide Goto, LockFree, LockOpOf, OnceFree, EffectOf, DoLock, NamedThread, DoEffect, ObjectsExist, KeepsRooms,
      Choosable;
    var th := s.threads[t];
    var e, s' := EffectOf(s, th, ch), Step(shardOf, s, t, ch);
    GotoPoints(s, th, ch);
    EffectRooms(s, th, t, ch);
    NamedGoto(s, t, th, Goto(s, th, ch), e);
    LockKeeps(After(s, t, ch), t, LockOpOf(shardOf, th));
    NamedElsewhere(s', DoEffect(s, t, e), Goto(s, th, ch));
    forall u | u in s'.threads && u != t
      ensures NamedThread(s', s'.threads[u])
    {
      TakeAdvances(shardOf, s, t, ch, t);
      if u in s.threads {
        TakeAdvances(shardOf, s, t, ch, u);
        NamedStays(s, s', s.threads[u]);
      } else {
        Spawned(s, t, e, u);
        NewNamed(s', s'.threads[u]);
      }
    }
  }

  lemma Objects(shardOf: Name -> nat, s: State)
    requires Inv(shardOf, s)
    ensures ObjectsExist(s)
  {
    hide ObjectsExist, LocksAgree, OnceOwned, Snapshots, MembersTracked, JoinsTracked, GaugeTracks, NoOrphans,
      RoomsPinned, ConnsKnown, LabelsAgree;
  }

  lemma NamedElsewhere(s': State, s: State, th: Thread)
    requires s'.roomName == s.roomName && NamedThread(s, th)
    ensures NamedThread(s', th)
  {
  }

  lemma NewNamed(s: State, th: Thread)
    requires !Points(th.at)
    ensures NamedThread(s, th)
  {
  }

  lemma {:induction false} NamedAlways(shardOf: Name -> nat, run: seq<State>, i: nat)
    requires Run(shardOf, run) && i < |run|
    ensures Named(run[i])
  {
    hide Inv, Enabled, Step, NamedThread;
    if i > 0 {
      NamedAlways(shardOf, run, i - 1);
      var s, s' := run[i - 1], run[i];
      var a := RunStep(shardOf, run, i - 1);
      match a
      case Take(t, ch) =>
        Objects(shardOf, s);
        NamedTake(shardOf, s, t, ch);
      case Add(c) =>
        forall t | t in s.threads
          ensures NamedThread(s', s'.threads[t])
        {
          NamedElsewhere(s', s, s.threads[t]);
        }
      case Start(u, th) =>
        NewNamed(s', th);
        forall t | t in s.threads
          ensures NamedThread(s', s'.threads[t])
        {
          NamedElsewhere(s', s, s.threads[t]);
        }
    }
  }

  // ---------------------------------------------------------------- a join adds its member

  /** In some state after `i`, up to `j`, connection `c` is a live member of room `n`. */
  ghost predicate WasMember(run: seq<State>, i: nat, j: nat, c: ConnId, n: Name) {
    exists k :: i < k <= j < |run| && c in LiveMembers(run[k], n)
  }

  /** At the start of a fan-out to the members of a room of that name, `c` apart. */
  ghost predicate Announces(s: State, t: Tid, c: ConnId, n: Name) {
    && t in s.threads && s.threads[t].at.EmitRange? && s.threads[t].c == c
    && s.threads[t].o in s.roomName && s.roomName[s.threads[t].o] == n
  }

  /** Thread `t` has been there. */
  ghost predicate Announced(run: seq<State>, i: nat, j: nat, t: Tid, c: ConnId, n: Name) {
    exists k :: i <= k < j < |run| && Announces(run[k], t, c, n)
  }

  predicate AddedLabels(at: At) {
    at.AddUnlock? || at == JoinUnlockShard(true) || at.EmitRLock? || at.EmitRange? || at.EmitSend? || at.Finished?
  }

  predicate LostLabels(at: At) {
    at == TrackUnlock(false) || at == JoinUnlockShard(false)
  }

  /** Where a join that began in state `i` stands in state `j`. */
  ghost predicate Joins(run: seq<State>, i: nat, j: nat, t: Tid, c: ConnId, n: Name) {
    && i <= j < |run| && t in run[j].threads
    && var th := run[j].threads[t];
       && th.c == c && th.n == n && !th.cleaning
       && (ProcOf(th.at).Joining? || AddedLabels(th.at))
       && (LostLabels(th.at) ==> c in run[j].done)
       && (AddedLabels(th.at) && c !in run[j].done ==> WasMember(run, i, j, c, n))
       && ((th.at.EmitSend? || th.at.Finished?) && c !in run[j].done ==> Announced(run, i, j, t, c, n))
  }

  lemma LaterToo(run: seq<State>, i: nat, j: nat, t: Tid, c: ConnId, n: Name)
    requires j + 1 < |run|
    ensures WasMember(run, i, j, c, n) ==> WasMember(run, i, j + 1, c, n)
    ensures Announced(run, i, j, t, c, n) ==> Announced(run, i, j + 1, t, c, n)
  {
  }

  /** The write of `addMember` makes a member of the registered room. */
  lemma AddWriteAdds(shardOf: Name -> nat, s: State, s': State, t: Tid, ch: Choice)
    requires Inv(shardOf, s) && Advances(shardOf, s, s', t, ch) && s.threads[t].at.AddWrite?
    ensures s.threads[t].c !in s'.done ==> s.threads[t].c in LiveMembers(s', s.threads[t].n)
  {
    hide LocksAgree, LockFree, OnceFree, GaugeTracks, Snapshots, NoOrphans, OnceOwned, MembersTracked, JoinsTracked;
    var th := s.threads[t];
    assert (th.o, th.c) in s'.members;
  }

  lemma JoinGoesOn(s: State, th: Thread, ch: Choice)
    requires (ProcOf(th.at).Joining? || (AddedLabels(th.at) && !th.at.Finished?)) && !th.cleaning
    ensures var th' := Goto(s, th, ch);
            && th'.c == th.c && th'.n == th.n && !th'.cleaning
            && (ProcOf(th'.at).Joining? || AddedLabels(th'.at))
            && (LostLabels(th'.at) ==> LostLabels(th.at) || th.c in s.done)
            && (AddedLabels(th'.at) ==> AddedLabels(th.at) || th.at.AddWrite? || LostLabels(th.at) || th.c in s.done)
            && (th'.at.EmitSend? ==> th.at.EmitRange? || th.at.EmitSend?)
            && (th'.at.Finished? ==> th.at.EmitSend? || LostLabels(th.at) || th.c in s.done)
  {
  }

  lemma JoinStep(shardOf: Name -> nat, run: seq<State>, i: nat, j: nat, t: Tid, c: ConnId, n: Name)
    requires Run(shardOf, run) && j + 1 < |run| && i < j + 1 && Joins(run, i, j, t, c, n)
    ensures Joins(run, i, j + 1, t, c, n)
  {
    hide Run, Inv, Goto, Enabled, Step, LiveMembers, WasMember, Announced;
    var moved, ch := OneThread(shardOf, run, j, t);
    LaterToo(run, i, j, t, c, n);
    if moved {
      var s, th := run[j], run[j].threads[t];
      assert !th.at.Finished? by { NotFinished(shardOf, s, t, ch); }
      JoinGoesOn(s, th, ch);
      if th.at.AddWrite? {
        AddWriteAdds(shardOf, s, run[j + 1], t, ch);
        NowMember(run, i, j + 1, c, n);
      }
      if th.at.EmitRange? {
        NowSaid(shardOf, run, i, j, t);
      }
    }
  }

  lemma NotFinished(shardOf: Name -> nat, s: State, t: Tid, ch: Choice)
    requires Enabled(shardOf, s, t, ch)
    ensures t in s.threads && !s.threads[t].at.Finished?
  {
  }

  lemma NowMember(run: seq<State>, i: nat, j: nat, c: ConnId, n: Name)
    requires i < j < |run|
    ensures c in LiveMembers(run[j], n) ==> WasMember(run, i, j, c, n)
  {
  }

  lemma NowSaid(shardOf: Name -> nat, run: seq<State>, i: nat, j: nat, t: Tid)
    requires Run(shardOf, run) && i <= j && j + 1 < |run| && t in run[j].threads && run[j].threads[t].at.EmitRange?
    ensures Announced(run, i, j + 1, t, run[j].threads[t].c, run[j].threads[t].n)
  {
    hide Run;
    NamedAlways(shardOf, run, j);
    assert NamedThread(run[j], run[j].threads[t]);
    assert Announces(run[j], t, run[j].threads[t].c, run[j].threads[t].n);
  }

  lemma {:induction false} JoinStands(shardOf: Name -> nat, run: seq<State>, i: nat, j: nat, t: Tid, c: ConnId, n: Name)
    requires Run(shardOf, run) && i <= j < |run|
    requires t in run[i].threads && run[i].threads[t] == NewThread(c, n, JoinEnter)
    ensures Joins(run, i, j, t, c, n)
    decreases j
  {
    hide Run;
    if i < j {
      JoinStands(shardOf, run, i, j - 1, t, c, n);
      JoinStep(shardOf, run, i, j - 1, t, c, n);
    }
  }

  /**
   A join takes effect. If the call of `joinRoom` is past its work, and its connection has not been closed,
   then in between the connection was a live member of the room; and when it returns it has told the members.
   */
  lemma JoinTakesEffect(shardOf: Name -> nat, run: seq<State>, i: nat, j: nat, t: Tid, c: ConnId, n: Name)
    requires Run(shardOf, run) && i <= j < |run|
    requires t in run[i].threads && run[i].threads[t] == NewThread(c, n, JoinEnter)
    ensures t in run[j].threads
    ensures var at := run[j].threads[t].at;
            && (!ProcOf(at).Joining? && c !in run[j].done ==> WasMember(run, i, j, c, n))
            && (at.Finished? && c !in run[j].done ==> Announced(run, i, j, t, c, n))
            && (at == JoinUnlockShard(false) ==> c in run[j].done)
  {
    hide Run;
    JoinStands(shardOf, run, i, j, t, c, n);
  }

  /** A join of a connection that is closed already returns at once: it makes no room and asks for no lock. */
  lemma {:induction false} ClosedJoinReturns(shardOf: Name -> nat, run: seq<State>, i: nat, j: nat, t: Tid)
    requires Run(shardOf, run) && i <= j < |run|
    requires t in run[i].threads && run[i].threads[t].at.JoinEnter? && run[i].threads[t].c in run[i].done
    ensures t in run[j].threads && run[j].threads[t].c in run[j].done
    ensures run[j].threads[t].at.JoinEnter? || run[j].threads[t].at.Finished?
    decreases j
  {
    hide Run, Inv, Enabled, Step;
    if i < j {
      ClosedJoinReturns(shardOf, run, i, j - 1, t);
      var moved, ch := OneThread(shardOf, run, j - 1, t);
      if moved {
        NotFinished(shardOf, run[j - 1], t, ch);
      }
    }
  }

  /** Every run of the hub is one of the specification in which the connection becomes a member of the room. */
  lemma JoinIsSpecified(shardOf: Name -> nat, run: seq<State>, spec: seq<RS.Spec>, i: nat, j: nat, t: Tid, c: ConnId,
      n: Name)
    requires Run(shardOf, run) && i <= j < |run| && Simulates(run, spec)
    requires t in run[i].threads && run[i].threads[t] == NewThread(c, n, JoinEnter)
    requires t in run[j].threads && run[j].threads[t].at.Finished? && c !in run[j].done
    ensures exists k :: i < k <= j && c in spec[k].memberships[n]
  {
    hide Run;
    JoinTakesEffect(shardOf, run, i, j, t, c, n);
    var k :| i < k <= j < |run| && c in LiveMembers(run[k], n);
    assert Refines(run[k], spec[k]);
  }

  lemma OtherMembers(s: State, t: Tid, e: Effect, o: RoomId)
    requires e.Insert? || e.Remove? ==> e.o != o
    ensures MembersOf(DoEffect(s, t, e), o) == MembersOf(s, o)
  {
  }

  /** Who changes the members of an object holds its lock for writing. */
  lemma WritersChange(s: State, th: Thread, ch: Choice)
    ensures var e := EffectOf(s, th, ch); e.Insert? || e.Remove? ==> RoomMode(th.at).Writing? && e.o == th.o
  {
  }

  /** A join that has written its member, and still holds the lock of the room, finds it there. */
  ghost predicate Inserted(s: State) {
    forall t :: t in s.threads ==> FindsMember(s, s.threads[t])
  }

  predicate FindsMember(s: State, th: Thread) {
    th.at.AddUnlock? ==> th.c in MembersOf(s, th.o)
  }

  lemma InsertedStep(shardOf: Name -> nat, s: State, s': State, u: Tid, ch: Choice, t: Tid)
    requires Inv(shardOf, s) && Inserted(s) && Enabled(shardOf, s, u, ch) && s' == Step(shardOf, s, u, ch)
    requires t in s.threads && t in s'.threads
    ensures FindsMember(s', s'.threads[t])
  {
    hide LockFree, LockOpOf, OnceFree, Choosable, SharedInv, DoLock, DoEffect, EffectOf, Goto;
    var th := s.threads[t];
    TakeAdvances(shardOf, s, u, ch, t);
    LockKeeps(After(s, u, ch), u, LockOpOf(shardOf, s.threads[u]));
    if t == u {
      NotFinished(shardOf, s, t, ch);
      AddsFirst(s, th, t, ch);
    } else if th.at.AddUnlock? {
      Exclusive(shardOf, s, t, u, RoomMu(th.o));
      WritersChange(s, s.threads[u], ch);
      OtherMembers(s, u, EffectOf(s, s.threads[u], ch), th.o);
    }
  }

  lemma AddsFirst(s: State, th: Thread, t: Tid, ch: Choice)
    requires !th.at.Finished?
    ensures FindsMember(DoEffect(s, t, EffectOf(s, th, ch)), Goto(s, th, ch))
  {
    if Goto(s, th, ch).at.AddUnlock? {
      assert (th.o, th.c) in DoEffect(s, t, EffectOf(s, th, ch)).members;
    }
  }

  lemma {:induction false} InsertedAlways(shardOf: Name -> nat, run: seq<State>, i: nat)
    requires Run(shardOf, run) && i < |run|
    ensures Inserted(run[i])
  {
    hide Enabled, Step, Inv;
    if i > 0 {
      InsertedAlways(shardOf, run, i - 1);
      var a := RunStep(shardOf, run, i - 1);
      if a.Take? {
        forall t | t in run[i].threads
          ensures FindsMember(run[i], run[i].threads[t])
        {
          if t in run[i - 1].threads {
            InsertedStep(shardOf, run[i - 1], run[i], a.t, a.ch, t);
          } else {
            NewAtDoor(shardOf, run[i - 1], run[i], a.t, a.ch, t);
          }
        }
      }
    }
  }

  lemma NewAtDoor(shardOf: Name -> nat, s: State, s': State, u: Tid, ch: Choice, t: Tid)
    requires Enabled(shardOf, s, u, ch) && s' == Step(shardOf, s, u, ch) && t in s'.threads && t !in s.threads
    ensures s'.threads[t].at.OnceDo?
  {
    hide LockFree, LockOpOf, OnceFree, DoLock, DoEffect, EffectOf, Goto;
    LockKeeps(After(s, u, ch), u, LockOpOf(shardOf, s.threads[u]));
    Spawned(s, u, EffectOf(s, s.threads[u], ch), t);
  }

  // ---------------------------------------------------------------- a leave ends a membership

  /** In some state from `i` on, up to `j`, connection `c` is no live member of room `n`. */
  ghost predicate WasOut(run: seq<State>, i: nat, j: nat, c: ConnId, n: Name) {
    exists k :: i <= k <= j < |run| && c !in LiveMembers(run[k], n)
  }

  ghost predicate WasUntracked(run: seq<State>, i: nat, j: nat, c: ConnId, n: Name) {
    exists k :: i < k <= j < |run| && (c, n) !in run[k].tracked
  }

  /** In some state there was no room of that name. */
  ghost predicate WasMissing(run: seq<State>, i: nat, j: nat, n: Name) {
    exists k :: i <= k <= j < |run| && n !in run[k].registry
  }

  predicate FoundLabels(at: At) {
    (at.LeaveRUnlock? && at.found) || at.RemoveLock? || at.RemoveDelete?
  }

  predicate OutLabels(at: At) {
    || at == LeaveRUnlock(false) || at.RemoveLen? || at.RemoveUnlock? || ProcOf(at).Dropping?
    || at.EmitRLock? || at.EmitRange? || at.EmitSend? || at.Finished?
  }

  /** Where a leave that began in state `i` stands in state `j`. */
  ghost predicate LeavesOff(run: seq<State>, i: nat, j: nat, t: Tid, c: ConnId, n: Name) {
    && i <= j < |run| && t in run[j].threads
    && var th := run[j].threads[t];
       && th.c == c && th.n == n && !th.cleaning
       && (ProcOf(th.at).Leaving? || OutLabels(th.at))
       && (!th.at.UntrackLock? && !th.at.UntrackDelete? ==> WasUntracked(run, i, j, c, n))
       && (FoundLabels(th.at) ==>
             (n in run[j].registry && run[j].registry[n] == th.o) || WasOut(run, i, j, c, n))
       && (OutLabels(th.at) ==> WasOut(run, i, j, c, n))
       && (th.at == LeaveRUnlock(false) ==> WasMissing(run, i, j, n))
       && (th.at.EmitSend? ==> Announced(run, i, j, t, c, n))
       && (th.at.Finished? ==> WasMissing(run, i, j, n) || Announced(run, i, j, t, c, n))
  }

  lemma OutLater(run: seq<State>, i: nat, j: nat, c: ConnId, n: Name)
    requires j + 1 < |run|
    ensures WasOut(run, i, j, c, n) ==> WasOut(run, i, j + 1, c, n)
    ensures WasUntracked(run, i, j, c, n) ==> WasUntracked(run, i, j + 1, c, n)
    ensures WasMissing(run, i, j, n) ==> WasMissing(run, i, j + 1, n)
  {
  }

  lemma NowOut(run: seq<State>, i: nat, j: nat, c: ConnId, n: Name)
    requires i <= j < |run|
    ensures c !in LiveMembers(run[j], n) ==> WasOut(run, i, j, c, n)
    ensures n !in run[j].registry ==> WasOut(run, i, j, c, n) && WasMissing(run, i, j, n)
    ensures i < j && (c, n) !in run[j].tracked ==> WasUntracked(run, i, j, c, n)
  {
  }

  lemma LeaveGoesOn(s: State, th: Thread, ch: Choice)
    requires (ProcOf(th.at).Leaving? || (OutLabels(th.at) && !th.at.Finished?)) && !th.cleaning
    ensures var th' := Goto(s, th, ch);
            && th'.c == th.c && th'.n == th.n && !th'.cleaning
            && (ProcOf(th'.at).Leaving? || OutLabels(th'.at))
            && (th'.at.UntrackLock? || th'.at.UntrackDelete? ==> th.at.UntrackLock?)
            && (th.at.UntrackLock? ==> th'.at.UntrackDelete?)
            && (FoundLabels(th'.at) ==>
                  || (th.at.LeaveLookup? && th.n in s.registry && th'.o == s.registry[th.n])
                  || (FoundLabels(th.at) && th'.o == th.o))
            && (OutLabels(th'.at) ==>
                  OutLabels(th.at) || th.at.RemoveDelete? || (th.at.LeaveLookup? && th.n !in s.registry))
            && (th'.at == LeaveRUnlock(false) ==> th.n !in s.registry)
            && (th'.at.EmitSend? ==> th.at.EmitRange? || th.at.EmitSend?)
            && (th'.at.Finished? ==> th.at.EmitSend? || th.at == LeaveRUnlock(false))
  {
  }

  /** The deletion of `untrackRoom`, and that of `removeMember` while the object is registered. */
  lemma Deletes(shardOf: Name -> nat, s: State, s': State, t: Tid, ch: Choice)
    requires Advances(shardOf, s, s', t, ch)
    ensures var th := s.threads[t];
            && (th.at.UntrackDelete? ==> (th.c, th.n) !in s'.tracked)
            && (th.at.RemoveDelete? && th.n in s.registry && s.registry[th.n] == th.o ==>
                  th.c !in LiveMembers(s', th.n))
            && (th.at.LeaveLookup? ==> s'.registry == s.registry)
  {
    hide LockFree, OnceFree;
  }

  lemma LeaveStep(shardOf: Name -> nat, run: seq<State>, i: nat, j: nat, t: Tid, c: ConnId, n: Name)
    requires Run(shardOf, run) && j + 1 < |run| && LeavesOff(run, i, j, t, c, n)
    ensures LeavesOff(run, i, j + 1, t, c, n)
  {
    hide Run, Inv, Goto, Enabled, Step, LiveMembers, WasOut, WasUntracked, WasMissing, Announced;
    var moved, ch := OneThread(shardOf, run, j, t);
    OutLater(run, i, j, c, n);
    LaterToo(run, i, j, t, c, n);
    NowOut(run, i, j, c, n);
    NowOut(run, i, j + 1, c, n);
    if moved {
      var s, th := run[j], run[j].threads[t];
      assert !th.at.Finished? by { NotFinished(shardOf, s, t, ch); }
      LeaveGoesOn(s, th, ch);
      Deletes(shardOf, s, run[j + 1], t, ch);
      if th.at.EmitRange? {
        NowSaid(shardOf, run, i, j, t);
      }
    }
  }

  lemma {:induction false} LeaveStands(shardOf: Name -> nat, run: seq<State>, i: nat, j: nat, t: Tid, c: ConnId,
      n: Name)
    requires Run(shardOf, run) && i <= j < |run|
    requires t in run[i].threads && run[i].threads[t] == NewThread(c, n, UntrackLock)
    ensures LeavesOff(run, i, j, t, c, n)
    decreases j
  {
    hide Run;
    if i < j {
      LeaveStands(shardOf, run, i, j - 1, t, c, n);
      LeaveStep(shardOf, run, i, j - 1, t, c, n);
    }
  }

  /**
   A leave takes effect. When the call of `leaveRoom` returns, then in between the connection was no member of
   the room and did not track it; and if there was a room, its members have been told.
   */
  lemma LeaveTakesEffect(shardOf: Name -> nat, run: seq<State>, i: nat, j: nat, t: Tid, c: ConnId, n: Name)
    requires Run(shardOf, run) && i <= j < |run|
    requires t in run[i].threads && run[i].threads[t] == NewThread(c, n, UntrackLock)
    ensures t in run[j].threads
    ensures run[j].threads[t].at.Finished? ==>
              && WasOut(run, i, j, c, n) && WasUntracked(run, i, j, c, n)
              && (WasMissing(run, i, j, n) || Announced(run, i, j, t, c, n))
  {
    hide Run;
    LeaveStands(shardOf, run, i, j, t, c, n);
  }
}
