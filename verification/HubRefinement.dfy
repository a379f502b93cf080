/**
 Every interleaving of the hub's steps refines spec/roomer.tla, projected on connections and
 memberships: `addConn` is Connect, the close of `done` is Disconnect, the write of a new live member
 is JoinRoom, the removal of a live member is LeaveRoom, and every other step stutters. A join or
 leave may be preceded by a RefillTokens, since the hub does not track the specification's tokens.
 */
module HubRefinement {
  import opened Hub
  import opened HubLocks
  import opened HubInvariant
  import RS = RoomerSpec

  function Connected(s: State): set<ConnId> {
    s.registered - s.done
  }

  /** The members of the room registered under `n` whose `done` is open. */
  function LiveMembers(s: State, n: Name): set<ConnId> {
    if n in s.registry then MembersOf(s, s.registry[n]) - s.done else {}
  }

  ghost predicate Refines(s: State, a: RS.Spec) {
    && RS.TypeOK(a)
    && a.connections == Connected(s)
    && (forall n :: a.memberships[n] == LiveMembers(s, n))
    && (forall n :: a.presence[n] == a.memberships[n])
  }

  /** At most two steps of the specification. */
  ghost predicate SpecSteps(a: RS.Spec, a': RS.Spec) {
    a == a' || RS.SpecNext(a, a') || exists b :: RS.SpecNext(a, b) && RS.SpecNext(b, a')
  }

  lemma SpecStep(a: RS.Spec, act: RS.SpecAction)
    requires RS.TypeOK(a) && RS.Guard(a, act)
    ensures RS.SpecNext(a, RS.Update(a, act)) && RS.Total(RS.Update(a, act))
  {
    RS.StaysTotal(a, act);
  }

  /** A join or leave, with a refill first when the specification's bucket is empty. */
  lemma Paid(a: RS.Spec, act: RS.SpecAction) returns (a': RS.Spec)
    requires RS.TypeOK(a) && (act.JoinRoom? || act.LeaveRoom?)
    requires act.c in a.connections && (act.c in a.memberships[act.r] <==> act.LeaveRoom?)
    requires forall n :: a.presence[n] == a.memberships[n]
    ensures SpecSteps(a, a') && RS.TypeOK(a')
    ensures a'.connections == a.connections
    ensures forall n :: a'.memberships[n] ==
              if n != act.r then a.memberships[n]
              else if act.JoinRoom? then a.memberships[n] + {act.c} else a.memberships[n] - {act.c}
    ensures forall n :: a'.presence[n] == a'.memberships[n]
  {
    var b := a;
    if a.tokens[act.c] == 0 {
      SpecStep(a, RS.RefillTokens(act.c));
      b := RS.Update(a, RS.RefillTokens(act.c));
    }
    SpecStep(b, act);
    a' := RS.Update(b, act);
  }

  ghost predicate Stutters(s: State, s': State) {
    Connected(s') == Connected(s) && forall n :: LiveMembers(s', n) == LiveMembers(s, n)
  }

  /** The steps that change what the specification sees. */
  predicate Visible(s: State, e: Effect) {
    match e
    case Close(c) => true
    case Insert(o, c) => c !in s.done && (o, c) !in s.members
    case Remove(o, c) => c !in s.done && (o, c) in s.members
    case _ => false
  }

  lemma HiddenStep(s: State, t: Tid, th': Thread, e: Effect)
    requires ObjectsExist(s) && OnceOwned(s) && RoomsPinned(s) && NoOrphans(s)
    requires t in s.threads && Sound(s, s.threads[t], e) && !Visible(s, e)
    ensures Stutters(s, Move(DoEffect(s, t, e), t, th'))
  {
    var s' := Move(DoEffect(s, t, e), t, th');
    forall n
      ensures LiveMembers(s', n) == LiveMembers(s, n)
    {
    }
  }

  lemma CloseStep(s: State, t: Tid, th': Thread, c: ConnId, a: RS.Spec) returns (a': RS.Spec)
    requires OnceOwned(s) && ObjectsExist(s) && Refines(s, a)
    requires t in s.threads && Sound(s, s.threads[t], Close(c))
    ensures SpecSteps(a, a') && Refines(Move(DoEffect(s, t, Close(c)), t, th'), a')
  {
    assert c in s.once && c !in s.done;
    SpecStep(a, RS.Disconnect(c));
    a' := RS.Update(a, RS.Disconnect(c));
  }

  lemma InsertStep(s: State, t: Tid, th': Thread, o: RoomId, c: ConnId, a: RS.Spec) returns (a': RS.Spec)
    requires ObjectsExist(s) && RoomsPinned(s) && ConnsKnown(s) && Refines(s, a)
    requires t in s.threads && Sound(s, s.threads[t], Insert(o, c)) && c !in s.done && (o, c) !in s.members
    ensures SpecSteps(a, a') && Refines(Move(DoEffect(s, t, Insert(o, c)), t, th'), a')
  {
    a' := Paid(a, RS.JoinRoom(c, s.threads[t].n));
  }

  lemma RemoveStep(s: State, t: Tid, th': Thread, o: RoomId, c: ConnId, a: RS.Spec) returns (a': RS.Spec)
    requires ObjectsExist(s) && NoOrphans(s) && Refines(s, a)
    requires t in s.threads && c !in s.done && (o, c) in s.members
    ensures SpecSteps(a, a') && Refines(Move(DoEffect(s, t, Remove(o, c)), t, th'), a')
  {
    a' := Paid(a, RS.LeaveRoom(c, s.roomName[o]));
  }

  lemma VisibleStep(s: State, t: Tid, th': Thread, e: Effect, a: RS.Spec) returns (a': RS.Spec)
    requires SharedInv(s) && Refines(s, a)
    requires t in s.threads && Sound(s, s.threads[t], e) && Visible(s, e)
    ensures SpecSteps(a, a') && Refines(Move(DoEffect(s, t, e), t, th'), a')
  {
    hide Refines, SpecSteps, DoEffect;
    match e
    case Close(c) => a' := CloseStep(s, t, th', c, a);
    case Insert(o, c) => a' := InsertStep(s, t, th', o, c, a);
    case Remove(o, c) => a' := RemoveStep(s, t, th', o, c, a);
  }

  /** The refinement does not look at locks or threads. */
  lemma SameView(s: State, s': State, a: RS.Spec)
    requires Refines(s, a) && Stutters(s, s')
    ensures Refines(s', a)
  {
  }

  lemma LockStutters(s: State, t: Tid, op: LockOp)
    ensures Stutters(s, DoLock(s, t, op))
  {
  }

  lemma ActStutters(s: State, t: Tid, th: Thread)
    ensures Stutters(s, Move(s, t, th))
  {
  }

  lemma TakeRefines(shardOf: Name -> nat, s: State, t: Tid, ch: Choice, a: RS.Spec) returns (a': RS.Spec)
    requires SharedInv(s) && Enabled(shardOf, s, t, ch) && Refines(s, a)
    ensures SpecSteps(a, a') && Refines(After(s, t, ch), a')
  {
    var th := s.threads[t];
    var e := EffectOf(s, th, ch);
    EffectSound(s, t, ch);
    if Visible(s, e) {
      a' := VisibleStep(s, t, Goto(s, th, ch), e, a);
    } else {
      HiddenStep(s, t, Goto(s, th, ch), e);
      a' := a;
      SameView(s, After(s, t, ch), a);
    }
  }

  lemma ConnectRefines(s: State, c: ConnId, a: RS.Spec) returns (a': RS.Spec)
    requires SharedInv(s) && c !in s.once && Refines(s, a)
    ensures SpecSteps(a, a') && Refines(Connect(s, c), a')
  {
    SpecStep(a, RS.Connect(c));
    a' := RS.Update(a, RS.Connect(c));
  }

  lemma StepRefines(shardOf: Name -> nat, s: State, act: Action, a: RS.Spec) returns (a': RS.Spec)
    requires Inv(shardOf, s) && Possible(shardOf, s, act) && Refines(s, a)
    ensures SpecSteps(a, a') && Refines(Apply(shardOf, s, act), a')
  {
    hide Refines, SharedInv, LocksAgree, Goto, DoEffect, DoLock, EffectOf, LockOpOf;
    match act
    case Take(t, ch) =>
      a' := TakeRefines(shardOf, s, t, ch, a);
      LockStutters(After(s, t, ch), t, LockOpOf(shardOf, s.threads[t]));
      SameView(After(s, t, ch), Step(shardOf, s, t, ch), a');
    case Add(c) =>
      a' := ConnectRefines(s, c, a);
    case Start(t, th) =>
      a' := a;
      ActStutters(s, t, th);
      SameView(s, Move(s, t, th), a);
  }

  ghost predicate Simulates(run: seq<State>, spec: seq<RS.Spec>) {
    && |spec| == |run| > 0
    && RS.SpecInit(spec[0])
    && (forall i :: 0 <= i < |run| ==> Refines(run[i], spec[i]))
    && (forall i: nat :: i + 1 < |spec| ==> SpecStepsAt(spec, i))
  }

  ghost predicate SpecStepsAt(spec: seq<RS.Spec>, i: nat) {
    i + 1 < |spec| && SpecSteps(spec[i], spec[i + 1])
  }

  /** Main result: every run of the hub is, state by state, a run of the specification. */
  lemma {:induction false} HubRefinesSpec(shardOf: Name -> nat, run: seq<State>) returns (spec: seq<RS.Spec>)
    requires Run(shardOf, run)
    ensures Simulates(run, spec)
  {
    if |run| == 1 {
      spec := [RS.InitState()];
    } else {
      var front := run[..|run| - 1];
      RunPrefix(shardOf, run);
      var spec' := HubRefinesSpec(shardOf, front);
      var a' := LastStep(shardOf, run, spec'[|spec'| - 1]);
      spec := spec' + [a'];
      ExtendSimulation(run, spec', a');
    }
  }

  lemma RunPrefix(shardOf: Name -> nat, run: seq<State>)
    requires Run(shardOf, run) && |run| > 1
    ensures Run(shardOf, run[..|run| - 1])
  {
    var front := run[..|run| - 1];
    forall i: nat | i + 1 < |front|
      ensures NextAt(shardOf, front, i)
    {
      assert NextAt(shardOf, run, i);
    }
  }

  lemma LastStep(shardOf: Name -> nat, run: seq<State>, a: RS.Spec) returns (a': RS.Spec)
    requires Run(shardOf, run) && |run| > 1 && Refines(run[|run| - 2], a)
    ensures SpecSteps(a, a') && Refines(run[|run| - 1], a')
  {
    hide *;
    var k := |run| - 2;
    var act := RunStep(shardOf, run, k);
    a' := StepRefines(shardOf, run[k], act, a);
  }

  lemma ExtendSimulation(run: seq<State>, spec: seq<RS.Spec>, a: RS.Spec)
    requires |run| == |spec| + 1 && Simulates(run[..|spec|], spec)
    requires Refines(run[|spec|], a) && SpecSteps(spec[|spec| - 1], a)
    ensures Simulates(run, spec + [a])
  {
    var spec' := spec + [a];
    forall i | 0 <= i < |run|
      ensures Refines(run[i], spec'[i])
    {
      if i < |spec| {
        assert run[..|spec|][i] == run[i];
      }
    }
    forall i: nat | i + 1 < |spec'|
      ensures SpecStepsAt(spec', i)
    {
      if i + 1 < |spec| {
        assert SpecStepsAt(spec, i);
      }
    }
  }

  lemma SpecStepsKeep(a: RS.Spec, a': RS.Spec)
    requires RS.SpecInv(a) && SpecSteps(a, a')
    ensures RS.SpecInv(a')
  {
    if a == a' {
    } else if RS.SpecNext(a, a') {
      RS.SpecNextKeeps(a, a');
    } else {
      var b :| RS.SpecNext(a, b) && RS.SpecNext(b, a');
      RS.SpecNextKeeps(a, b);
      RS.SpecNextKeeps(b, a');
    }
  }

  lemma {:induction false} SimulationInv(run: seq<State>, spec: seq<RS.Spec>, i: nat)
    requires Simulates(run, spec) && i < |spec|
    ensures RS.SpecInv(spec[i])
  {
    if i > 0 {
      SimulationInv(run, spec, i - 1);
      assert SpecStepsAt(spec, i - 1);
      SpecStepsKeep(spec[i - 1], spec[i]);
    }
  }

  /** The specification's first safety property, for the hub: a live member is a connected client. */
  lemma NoUnconnectedMembers(shardOf: Name -> nat, run: seq<State>, i: nat, n: Name)
    requires Run(shardOf, run) && i < |run|
    ensures LiveMembers(run[i], n) <= Connected(run[i])
  {
    var spec := HubRefinesSpec(shardOf, run);
    SimulationInv(run, spec, i);
    assert spec[i].memberships[n] <= spec[i].connections;
  }
}
