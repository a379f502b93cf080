/**
 What comes to an end in the hub: `cleanup` closes and unregisters its connection, and a room that has lost its
 last member is removed, unless a join has failed in it.
 */
module HubEndings {
  import opened Hub
  import opened HubLocks
  import opened HubInvariant
  import opened HubTheorems
  import opened HubCalls

  // ---------------------------------------------------------------- cleanup

  /** `cleanup` of this connection has unregistered it. */
  ghost predicate PastRemove(s: State, c: ConnId) {
    && c in s.once
    && (|| s.once[c].Done?
        || (s.once[c].Running? && s.once[c].runner in s.threads && s.threads[s.once[c].runner].at.OnceDone?))
  }

  ghost predicate Unlisted(s: State) {
    forall c :: PastRemove(s, c) ==> c !in s.registered
  }

  lemma UnlistedKept(s: State, t: Tid, th': Thread, e: Effect)
    requires OnceOwned(s) && Unlisted(s) && t in s.threads && Sound(s, s.threads[t], e) && Jump(s.threads[t], th', e)
    requires th'.at.OnceDone? ==> e == Unregister(s.threads[t].c)
    ensures Unlisted(Move(DoEffect(s, t, e), t, th'))
  {
  }

  lemma LastSteps(s: State, th: Thread, ch: Choice)
    requires !th.at.Finished?
    ensures Goto(s, th, ch).at.OnceDone? ==> EffectOf(s, th, ch) == Unregister(th.c)
  {
  }

  lemma UnlistedTake(shardOf: Name -> nat, s: State, t: Tid, ch: Choice)
    requires Inv(shardOf, s) && Unlisted(s) && Enabled(shardOf, s, t, ch)
    ensures Unlisted(Step(shardOf, s, t, ch))
  {
    hide LocksAgree, Goto, EffectOf, DoEffect, DoLock, LockOpOf, LockFree, Jump, Sound, Unlisted, Snapshots,
      MembersTracked, JoinsTracked, GaugeTracks, NoOrphans, RoomsPinned, ObjectsExist, ConnsKnown;
    var th := s.threads[t];
    GotoJumps(s, t, ch);
    EffectSound(s, t, ch);
    LastSteps(s, th, ch);
    UnlistedKept(s, t, Goto(s, th, ch), EffectOf(s, th, ch));
    LockKeeps(After(s, t, ch), t, LockOpOf(shardOf, th));
    SameListing(After(s, t, ch), Step(shardOf, s, t, ch));
  }

  lemma SameListing(s: State, s': State)
    requires Unlisted(s) && s' == s.(writer := s'.writer, readers := s'.readers)
    ensures Unlisted(s')
  {
  }

  lemma {:induction false} UnlistedAlways(shardOf: Name -> nat, run: seq<State>, i: nat)
    requires Run(shardOf, run) && i < |run|
    ensures Unlisted(run[i])
  {
    hide Enabled, Step, LocksAgree;
    if i > 0 {
      UnlistedAlways(shardOf, run, i - 1);
      var a := RunStep(shardOf, run, i - 1);
      if a.Take? {
        UnlistedTake(shardOf, run[i - 1], a.t, a.ch);
      }
    }
  }

  /** Where a call of `cleanup` stands: at the door, in it, or through it. */
  ghost predicate CleansUp(s: State, t: Tid, c: ConnId) {
    && t in s.threads && s.threads[t].c == c
    && var th := s.threads[t];
       || (th.at.OnceDo? && !th.cleaning)
       || th.cleaning
       || (th.at.Finished? && c in s.once && s.once[c].Done?)
  }

  lemma DoneStays(s: State, t: Tid, e: Effect, c: ConnId)
    requires c in s.once && s.once[c].Done?
    requires (e.TakeOnce? ==> e.c in s.once && s.once[e.c].Idle?) && (e.ReleaseOnce? ==> e.c in s.once)
    ensures c in DoEffect(s, t, e).once && DoEffect(s, t, e).once[c].Done?
  {
  }

  lemma CleanupStep(shardOf: Name -> nat, s: State, u: Tid, ch: Choice, t: Tid, c: ConnId)
    requires Inv(shardOf, s) && Enabled(shardOf, s, u, ch) && CleansUp(s, t, c)
    ensures CleansUp(Step(shardOf, s, u, ch), t, c)
  {
    hide LocksAgree, DoLock, LockOpOf, LockFree, Snapshots, MembersTracked, JoinsTracked, GaugeTracks, NoOrphans,
      RoomsPinned, ObjectsExist, ConnsKnown, EffectOf, Goto, DoEffect, JumpPins, JumpLeaves, JumpSnapshot, JumpRest;
    TakeAdvances(shardOf, s, u, ch, t);
    LockKeeps(After(s, u, ch), u, LockOpOf(shardOf, s.threads[u]));
    GotoJumps(s, u, ch);
    EffectSound(s, u, ch);
    var e := EffectOf(s, s.threads[u], ch);
    if c in s.once && s.once[c].Done? {
      DoneStays(s, u, e, c);
    }
    if t == u {
      CleanerGoesOn(s, t, ch);
    }
  }

  lemma CleanerGoesOn(s: State, t: Tid, ch: Choice)
    requires Chosen(s, t, ch) && CleaningLabels(s.threads[t]) && OnceOwned(s)
    requires s.threads[t].cleaning || s.threads[t].at.OnceDo?
    ensures var th, th' := s.threads[t], Goto(s, s.threads[t], ch);
            var s' := DoEffect(s, t, EffectOf(s, th, ch));
            th'.cleaning || (th'.at.Finished? && th.c in s'.once && s'.once[th.c].Done?)
  {
  }

  lemma {:induction false} CleanupStands(shardOf: Name -> nat, run: seq<State>, i: nat, j: nat, t: Tid, c: ConnId)
    requires Run(shardOf, run) && i <= j < |run|
    requires t in run[i].threads && run[i].threads[t] == NewThread(c, run[i].threads[t].n, OnceDo)
    ensures CleansUp(run[j], t, c)
    decreases j
  {
    hide Run, Inv, Enabled, Step;
    if i < j {
      CleanupStands(shardOf, run, i, j - 1, t, c);
      var a := RunStep(shardOf, run, j - 1);
      if a.Take? {
        CleanupStep(shardOf, run[j - 1], a.t, a.ch, t, c);
      } else {
        DoneElsewhere(shardOf, run[j - 1], a, t, c);
      }
    }
  }

  lemma DoneElsewhere(shardOf: Name -> nat, s: State, a: Action, t: Tid, c: ConnId)
    requires Possible(shardOf, s, a) && !a.Take? && CleansUp(s, t, c)
    ensures CleansUp(Apply(shardOf, s, a), t, c)
  {
  }

  /**
   `cleanup` takes effect. When a call of it returns, whichever of the calls did the work, the connection is
   closed, out of the hub's table and out of its rooms, but for leaves still under way.
   */
  lemma CleanupTakesEffect(shardOf: Name -> nat, run: seq<State>, i: nat, j: nat, t: Tid, c: ConnId)
    requires Run(shardOf, run) && i <= j < |run|
    requires t in run[i].threads && run[i].threads[t] == NewThread(c, run[i].threads[t].n, OnceDo)
    ensures t in run[j].threads
    ensures run[j].threads[t].at.Finished? ==>
              && c in run[j].done && c !in run[j].registered
              && (!LeaveInFlight(run[j], c) ==> Gone(run[j], c))
  {
    hide Run;
    CleanupStands(shardOf, run, i, j, t, c);
    InvAlways(shardOf, run, j);
    UnlistedAlways(shardOf, run, j);
    var s := run[j];
    if s.threads[t].at.Finished? {
      assert CleaningLabels(s.threads[t]);
      assert PastRemove(s, c) && PastLeaveAll(s, c);
      if !LeaveInFlight(s, c) {
        GoneWhenQuiet(shardOf, s, c);
      }
    }
  }

  // ---------------------------------------------------------------- rooms without members

  /** This thread will put a member into object `o`, or find that it cannot, or look whether `o` is to be removed. */
  predicate Minds(th: Thread, o: RoomId) {
    && th.o == o
    && (|| th.at.JoinCount? || th.at.TrackCheck? || th.at.TrackLock? || th.at.TrackRecheck? || th.at.TrackWrite?
        || th.at.TrackUnlock? || th.at.AddLock? || th.at.AddWrite?
        || th.at.RemoveLen? || th.at == RemoveUnlock(true)
        || th.at.DropLockShard? || th.at.DropLockRoom? || th.at.DropCheckCurrent? || th.at.DropCheckEmpty?
        || th.at.DropDelete?)
  }

  ghost predicate Minded(s: State, o: RoomId) {
    exists t :: t in s.threads && Minds(s.threads[t], o)
  }

  /** A join has found its connection closed and gives up, with `o` registered. */
  predicate Fails(th: Thread, o: RoomId) {
    th.o == o && th.at == JoinUnlockShard(false)
  }

  ghost predicate Failing(s: State, o: RoomId) {
    exists t :: t in s.threads && Fails(s.threads[t], o)
  }

  ghost predicate HasFailed(run: seq<State>, j: nat, o: RoomId) {
    exists k :: 0 <= k <= j < |run| && Failing(run[k], o)
  }

  /** Who minds an empty registered room goes on to mind it, or fills it, fails or removes it. */
  lemma MindsOn(s: State, th: Thread, ch: Choice, o: RoomId)
    requires Empty(s, o) && th.n in s.registry && s.registry[th.n] == o
    ensures var th', e := Goto(s, th, ch), EffectOf(s, th, ch);
            Minds(th, o) ==> Minds(th', o) || Fails(th', o) || e == Insert(o, th.c) || e == Delete(th.n)
  {
  }

  lemma StartsMinding(s: State, th: Thread, ch: Choice)
    ensures var th', e := Goto(s, th, ch), EffectOf(s, th, ch);
            (e.Remove? ==> Minds(th', e.o)) && (e.Create? ==> Minds(th', e.o))
  {
  }

  /** How an object comes to be an empty registered one. */
  lemma EmptiedBy(s: State, t: Tid, e: Effect, n: Name)
    requires n in DoEffect(s, t, e).registry && Empty(DoEffect(s, t, e), DoEffect(s, t, e).registry[n])
    ensures var o := DoEffect(s, t, e).registry[n];
            && (|| e == Create(n, o)
                || (n in s.registry && s.registry[n] == o && (Empty(s, o) || (e.Remove? && e.o == o))))
            && (forall c :: e != Insert(o, c)) && e != Delete(n)
  {
    var o := DoEffect(s, t, e).registry[n];
    assert !e.Remove? && e != Create(n, o) && !Empty(s, o) ==>
        exists m :: m in s.members && m.0 == o && m in DoEffect(s, t, e).members;
    assert e.Remove? && e.o != o && !Empty(s, o) ==>
        exists m :: m in s.members && m.0 == o && m in DoEffect(s, t, e).members;
  }

  lemma EmptyStep(shardOf: Name -> nat, s: State, t: Tid, ch: Choice, n: Name)
    requires ObjectsExist(s) && Named(s) && Enabled(shardOf, s, t, ch)
    ensures var s' := Step(shardOf, s, t, ch);
            n in s'.registry && Empty(s', s'.registry[n]) ==>
              var o := s'.registry[n];
              || Minded(s', o) || Failing(s', o)
              || (n in s.registry && s.registry[n] == o && Empty(s, o) && !Minded(s, o))
  {
    hide LockOpOf, LockFree, OnceFree, Choosable, EffectOf, Goto, DoEffect, DoLock, Minds, Fails;
    var s', th := Step(shardOf, s, t, ch), s.threads[t];
    var e := EffectOf(s, th, ch);
    LockKeeps(After(s, t, ch), t, LockOpOf(shardOf, th));
    TakeAdvances(shardOf, s, t, ch, t);
    StartsMinding(s, th, ch);
    if n in s'.registry && Empty(s', s'.registry[n]) {
      var o := s'.registry[n];
      EmptiedBy(s, t, e, n);
      if n in s.registry && s.registry[n] == o && Empty(s, o) && Minded(s, o) {
        var u :| u in s.threads && Minds(s.threads[u], o);
        TakeAdvances(shardOf, s, t, ch, u);
        if u == t {
          MindsNamed(s, th, o);
          MindsOn(s, th, ch, o);
        }
      }
    }
  }

  lemma MindsNamed(s: State, th: Thread, o: RoomId)
    requires ObjectsExist(s) && NamedThread(s, th) && Minds(th, o)
    ensures forall n :: n in s.registry && s.registry[n] == o ==> n == th.n
  {
  }

  /**
   Rooms that have emptied are removed. In every run, a registered room has members, or some thread is about to
   give it one or to look whether it is to be removed, or a join has once failed in it.
   */
  lemma {:induction false} EmptyRoomsMinded(shardOf: Name -> nat, run: seq<State>, j: nat, n: Name)
    requires Run(shardOf, run) && j < |run| && n in run[j].registry && Empty(run[j], run[j].registry[n])
    ensures Minded(run[j], run[j].registry[n]) || HasFailed(run, j, run[j].registry[n])
  {
    hide Run, Enabled, Step, Minds, Fails, LocksAgree;
    if j == 0 {
      StartsEmpty(shardOf, run);
    } else {
      var s, s' := run[j - 1], run[j];
      var o := s'.registry[n];
      var a := RunStep(shardOf, run, j - 1);
      NamedAlways(shardOf, run, j - 1);
      if a.Take? {
        Objects(shardOf, s);
        EmptyStep(shardOf, s, a.t, a.ch, n);
      }
      if Failing(s', o) {
        assert HasFailed(run, j, o);
      } else if n in s.registry && s.registry[n] == o && Empty(s, o) {
        EmptyRoomsMinded(shardOf, run, j - 1, n);
        if HasFailed(run, j - 1, o) {
          var k :| 0 <= k <= j - 1 && Failing(run[k], o);
          assert HasFailed(run, j, o);
        } else if !a.Take? {
          StillMinded(shardOf, s, a, o);
        }
      }
    }
  }

  lemma StartsEmpty(shardOf: Name -> nat, run: seq<State>)
    requires Run(shardOf, run)
    ensures run[0].registry == map[]
  {
  }

  lemma StillMinded(shardOf: Name -> nat, s: State, a: Action, o: RoomId)
    requires Possible(shardOf, s, a) && !a.Take? && Minded(s, o)
    ensures Minded(Apply(shardOf, s, a), o)
  {
    hide Minds;
    var t :| t in s.threads && Minds(s.threads[t], o);
    assert t in Apply(shardOf, s, a).threads && Apply(shardOf, s, a).threads[t] == s.threads[t];
  }

  /** Once all calls have returned, and if no join has failed, every registered room has members. */
  lemma NoEmptyRooms(shardOf: Name -> nat, run: seq<State>, j: nat, n: Name)
    requires Run(shardOf, run) && j < |run| && n in run[j].registry
    requires forall t :: t in run[j].threads ==> run[j].threads[t].at.Finished?
    ensures Empty(run[j], run[j].registry[n]) ==> HasFailed(run, j, run[j].registry[n])
  {
    hide Run;
    if Empty(run[j], run[j].registry[n]) {
      EmptyRoomsMinded(shardOf, run, j, n);
    }
  }

  // ---------------------------------------------------------------- a room that stays empty

  lemma GoOn(shardOf: Name -> nat, run: seq<State>, a: Action) returns (longer: seq<State>)
    requires Run(shardOf, run) && |run| > 0 && Possible(shardOf, run[|run| - 1], a)
    ensures Run(shardOf, longer) && |longer| > 0 && longer[|longer| - 1] == Apply(shardOf, run[|run| - 1], a)
  {
    hide Possible, Apply;
    longer := run + [Apply(shardOf, run[|run| - 1], a)];
    forall i: nat | i + 1 < |longer|
      ensures NextAt(shardOf, longer, i)
    {
      if i + 1 < |run| {
        assert NextAt(shardOf, run, i);
      } else {
        assert Possible(shardOf, longer[i], a) && longer[i + 1] == Apply(shardOf, longer[i], a);
      }
    }
  }

  const CHOICE := Choice(1, 0, 0, false, 0)

  /** Connection 1 is joining room 1. */
  function Joining(at: At): State {
    State(map[], map[], {}, {}, map[1 := Idle], {}, {1}, {}, 0, map[], {},
          map[1 := Thread(1, 1, 0, false, {}, {}, at)])
  }

  /** It has made object 1 for it, and counted it, and is about to look whether it is closed. */
  function Opening(shardOf: Name -> nat): State {
    State(map[1 := 1], map[1 := 1], {}, {}, map[1 := Idle], {}, {1}, {}, 1, map[Shard(shardOf(1)) := 1], {},
          map[1 := Thread(1, 1, 1, false, {}, {}, TrackCheck)])
  }

  /** And somebody has called `cleanup` of it. */
  function Closing(shardOf: Name -> nat, joiner: At, cleaner: Thread, once: Once, done: set<ConnId>): State {
    State(map[1 := 1], map[1 := 1], {}, {}, map[1 := once], done, {1}, {}, 1, map[Shard(shardOf(1)) := 1], {},
          map[1 := Thread(1, 1, 1, false, {}, {}, joiner), 2 := cleaner])
  }

  function Cleaner(at: At): Thread {
    Thread(1, 0, 0, !at.Finished?, {}, {}, at)
  }

  /** The join has given up, and the cleanup goes on. */
  function GivenUp(at: At, once: Once, registered: set<ConnId>, readers: set<(Lock, Tid)>): State {
    State(map[1 := 1], map[1 := 1], {}, {}, map[1 := once], {1}, registered, {}, 1, map[], readers,
          map[1 := Thread(1, 1, 1, false, {}, {}, Finished), 2 := Cleaner(at)])
  }

  lemma Starts(shardOf: Name -> nat) returns (run: seq<State>)
    ensures Run(shardOf, run) && |run| > 0 && run[|run| - 1] == Joining(JoinLockShard)
  {
    hide Run, LeaveGoto, DropGoto, EmitGoto, CleanupGoto;
    assert Run(shardOf, [INIT]) by { OnlyInit(shardOf); }
    run := GoOn(shardOf, [INIT], Add(1));
    run := GoOn(shardOf, run, Action.Start(1, NewThread(1, 1, JoinEnter)));
    run := GoOn(shardOf, run, Take(1, CHOICE));
  }

  lemma OnlyInit(shardOf: Name -> nat)
    ensures Run(shardOf, [INIT])
  {
  }

  lemma Locks(shardOf: Name -> nat) returns (run: seq<State>)
    ensures Run(shardOf, run) && |run| > 0
    ensures run[|run| - 1] == Joining(JoinLookup).(writer := map[Shard(shardOf(1)) := 1])
  {
    hide Run, LeaveGoto, DropGoto, EmitGoto, CleanupGoto;
    run := Starts(shardOf);
    run := GoOn(shardOf, run, Take(1, CHOICE));
  }

  lemma Opens(shardOf: Name -> nat) returns (run: seq<State>)
    ensures Run(shardOf, run) && |run| > 0 && run[|run| - 1] == Opening(shardOf)
  {
    hide Run, LeaveGoto, DropGoto, EmitGoto, CleanupGoto;
    run := Locks(shardOf);
    run := GoOn(shardOf, run, Take(1, CHOICE));
    run := GoOn(shardOf, run, Take(1, CHOICE));
  }

  /** A step that only takes or releases a lock. */
  lemma LockOnly(shardOf: Name -> nat, run: seq<State>, t: Tid, th: Thread) returns (longer: seq<State>)
    requires Run(shardOf, run) && |run| > 0 && Enabled(shardOf, run[|run| - 1], t, CHOICE)
    requires var s := run[|run| - 1]; s.threads[t] == th && EffectOf(s, th, CHOICE) == Nothing
    ensures Run(shardOf, longer) && |longer| > 0
    ensures var s, s' := run[|run| - 1], longer[|longer| - 1];
            s' == s.(threads := s.threads[t := Goto(s, th, CHOICE)], writer := s'.writer, readers := s'.readers)
    ensures !LockOpOf(shardOf, th).LockW? && !LockOpOf(shardOf, th).UnlockW? ==>
              longer[|longer| - 1].writer == run[|run| - 1].writer
  {
    hide Run, Enabled, EffectOf, Goto, LockOpOf;
    longer := GoOn(shardOf, run, Take(t, CHOICE));
  }

  /** A step that takes and releases no lock. */
  lemma StepAs(shardOf: Name -> nat, run: seq<State>, t: Tid, th: Thread, th': Thread, e: Effect)
      returns (longer: seq<State>)
    requires Run(shardOf, run) && |run| > 0 && Enabled(shardOf, run[|run| - 1], t, CHOICE)
    requires var s := run[|run| - 1];
             && s.threads[t] == th && EffectOf(s, th, CHOICE) == e && Goto(s, th, CHOICE) == th'
             && LockOpOf(shardOf, th) == NoLock
    ensures Run(shardOf, longer) && |longer| > 0
    ensures longer[|longer| - 1] == Move(DoEffect(run[|run| - 1], t, e), t, th')
  {
    hide Run, Enabled, EffectOf, Goto, LockOpOf, DoEffect;
    longer := GoOn(shardOf, run, Take(t, CHOICE));
  }

  lemma Comes(shardOf: Name -> nat) returns (run: seq<State>)
    ensures Run(shardOf, run) && |run| > 0
    ensures run[|run| - 1] == Closing(shardOf, TrackCheck, NewThread(1, 0, OnceDo), Idle, {})
  {
    hide Run, JoinGoto, LeaveGoto, DropGoto, EmitGoto;
    run := Opens(shardOf);
    run := GoOn(shardOf, run, Action.Start(2, NewThread(1, 0, OnceDo)));
  }

  lemma Enters(shardOf: Name -> nat) returns (run: seq<State>)
    ensures Run(shardOf, run) && |run| > 0
    ensures run[|run| - 1] == Closing(shardOf, TrackCheck, Cleaner(CloseDone), Running(2), {})
  {
    hide Run, JoinGoto, LeaveGoto, DropGoto, EmitGoto;
    run := Comes(shardOf);
    run := StepAs(shardOf, run, 2, NewThread(1, 0, OnceDo), Cleaner(CloseDone), TakeOnce(1));
    assert run[|run| - 1].threads[2] == Cleaner(CloseDone);
    assert run[|run| - 1].once == map[1 := Running(2)];
  }

  lemma Closes(shardOf: Name -> nat) returns (run: seq<State>)
    ensures Run(shardOf, run) && |run| > 0
    ensures run[|run| - 1] == Closing(shardOf, TrackCheck, Cleaner(RoomsRLock), Running(2), {1})
  {
    hide Run, JoinGoto, LeaveGoto, DropGoto, EmitGoto;
    run := Enters(shardOf);
    run := StepAs(shardOf, run, 2, Cleaner(CloseDone), Cleaner(RoomsRLock), Close(1));
  }

  lemma FindsClosed(shardOf: Name -> nat) returns (run: seq<State>)
    ensures Run(shardOf, run) && |run| > 0
    ensures run[|run| - 1] == Closing(shardOf, JoinUnlockShard(false), Cleaner(RoomsRLock), Running(2), {1})
  {
    hide Run, LeaveGoto, DropGoto, EmitGoto, CleanupGoto;
    run := Closes(shardOf);
    run := StepAs(shardOf, run, 1, Thread(1, 1, 1, false, {}, {}, TrackCheck),
                  Thread(1, 1, 1, false, {}, {}, JoinUnlockShard(false)), Nothing);
  }

  lemma GivesUp(shardOf: Name -> nat) returns (run: seq<State>)
    ensures Run(shardOf, run) && |run| > 0
    ensures run[|run| - 1] == GivenUp(RoomsRLock, Running(2), {1}, {})
  {
    hide Run, LeaveGoto, DropGoto, EmitGoto, CleanupGoto;
    run := FindsClosed(shardOf);
    run := GoOn(shardOf, run, Take(1, CHOICE));
    assert run[|run| - 1].writer == map[];
  }

  lemma MayRead(shardOf: Name -> nat)
    ensures Enabled(shardOf, GivenUp(RoomsRLock, Running(2), {1}, {}), 2, CHOICE)
  {
  }

  lemma Waits(shardOf: Name -> nat) returns (run: seq<State>, held: set<(Lock, Tid)>)
    ensures Run(shardOf, run) && |run| > 0 && run[|run| - 1] == GivenUp(RoomsRead, Running(2), {1}, held)
  {
    hide Run, Enabled, JoinGoto, LeaveGoto, DropGoto, EmitGoto;
    run := GivesUp(shardOf);
    MayRead(shardOf);
    run := LockOnly(shardOf, run, 2, Cleaner(RoomsRLock));
    held := run[|run| - 1].readers;
  }

  lemma Reads(shardOf: Name -> nat) returns (run: seq<State>, held: set<(Lock, Tid)>)
    ensures Run(shardOf, run) && |run| > 0 && run[|run| - 1] == GivenUp(RoomsRUnlock, Running(2), {1}, held)
  {
    hide Run, JoinGoto, LeaveGoto, DropGoto, EmitGoto;
    run, held := Waits(shardOf);
    run := StepAs(shardOf, run, 2, Cleaner(RoomsRead), Cleaner(RoomsRUnlock), Nothing);
    assert run[|run| - 1].threads[2].rest == {};
  }

  lemma Lets(shardOf: Name -> nat) returns (run: seq<State>, held: set<(Lock, Tid)>)
    ensures Run(shardOf, run) && |run| > 0 && run[|run| - 1] == GivenUp(LeaveNext, Running(2), {1}, held)
  {
    hide Run, JoinGoto, LeaveGoto, DropGoto, EmitGoto;
    run, held := Reads(shardOf);
    run := LockOnly(shardOf, run, 2, Cleaner(RoomsRUnlock));
    held := run[|run| - 1].readers;
  }

  lemma FindsNothing(shardOf: Name -> nat) returns (run: seq<State>, held: set<(Lock, Tid)>)
    ensures Run(shardOf, run) && |run| > 0 && run[|run| - 1] == GivenUp(RemoveConn, Running(2), {1}, held)
  {
    hide Run, JoinGoto, LeaveGoto, DropGoto, EmitGoto;
    run, held := Lets(shardOf);
    run := StepAs(shardOf, run, 2, Cleaner(LeaveNext), Cleaner(RemoveConn), Nothing);
  }

  lemma Removes(shardOf: Name -> nat) returns (run: seq<State>, held: set<(Lock, Tid)>)
    ensures Run(shardOf, run) && |run| > 0 && run[|run| - 1] == GivenUp(OnceDone, Running(2), {}, held)
  {
    hide Run, JoinGoto, LeaveGoto, DropGoto, EmitGoto;
    run, held := FindsNothing(shardOf);
    run := StepAs(shardOf, run, 2, Cleaner(RemoveConn), Cleaner(OnceDone), Unregister(1));
  }

  lemma Ends(shardOf: Name -> nat) returns (run: seq<State>, held: set<(Lock, Tid)>)
    ensures Run(shardOf, run) && |run| > 0 && run[|run| - 1] == GivenUp(Finished, Once.Done, {}, held)
  {
    hide Run, JoinGoto, LeaveGoto, DropGoto, EmitGoto;
    run, held := Removes(shardOf);
    run := StepAs(shardOf, run, 2, Cleaner(OnceDone), Cleaner(Finished), ReleaseOnce(1));
  }

  /** A run after which every call has returned and a room without members stays registered, and counted. */
  lemma EmptyRoomStays(shardOf: Name -> nat) returns (run: seq<State>)
    ensures Run(shardOf, run) && |run| > 0
    ensures var s := run[|run| - 1];
            && (forall t :: t in s.threads ==> s.threads[t].at.Finished?)
            && 1 in s.registry && Empty(s, s.registry[1]) && s.gauge == 1
  {
    hide Run;
    var held;
    run, held := Ends(shardOf);
  }
}
