/**
 What a fan-out of the hub achieves: it comes to the members of its room, sends to each of them once, and
 nobody joins or leaves while it does.
 */
module HubFanout {
  import opened Hub
  import opened HubLocks
  import opened HubInvariant
  import opened HubCalls

  /** A fan-out to a room by name starts there, unless there is no room. */
  ghost predicate CastsOff(run: seq<State>, i: nat, j: nat, t: Tid, c: ConnId, n: Name) {
    && i <= j < |run| && t in run[j].threads
    && var th := run[j].threads[t];
       && th.c == c && th.n == n && !th.cleaning
       && (ProcOf(th.at).Emitting? || th.at.Finished?)
       && (th.at == CastRUnlock(false) ==> WasMissing(run, i, j, n))
       && (th.at.EmitSend? ==> Announced(run, i, j, t, c, n))
       && (th.at.Finished? ==> WasMissing(run, i, j, n) || Announced(run, i, j, t, c, n))
  }

  lemma CastGoesOn(s: State, th: Thread, ch: Choice)
    requires ProcOf(th.at).Emitting? && !th.cleaning
    ensures var th' := Goto(s, th, ch);
            && th'.c == th.c && th'.n == th.n && !th'.cleaning
            && (ProcOf(th'.at).Emitting? || th'.at.Finished?)
            && (th'.at == CastRUnlock(false) ==> th.n !in s.registry)
            && (th'.at.EmitSend? ==> th.at.EmitRange? || th.at.EmitSend?)
            && (th'.at.Finished? ==> th.at.EmitSend? || th.at == CastRUnlock(false))
  {
  }

  lemma CastStep(shardOf: Name -> nat, run: seq<State>, i: nat, j: nat, t: Tid, c: ConnId, n: Name)
    requires Run(shardOf, run) && j + 1 < |run| && CastsOff(run, i, j, t, c, n)
    ensures CastsOff(run, i, j + 1, t, c, n)
  {
    hide Run, Inv, Goto, Enabled, Step, WasOut, WasUntracked, WasMissing, WasMember, Announced;
    var moved, ch := OneThread(shardOf, run, j, t);
    OutLater(run, i, j, c, n);
    LaterToo(run, i, j, t, c, n);
    NowOut(run, i, j, c, n);
    if moved {
      var s, th := run[j], run[j].threads[t];
      assert !th.at.Finished? by { NotFinished(shardOf, s, t, ch); }
      CastGoesOn(s, th, ch);
      if th.at.EmitRange? {
        NowSaid(shardOf, run, i, j, t);
      }
    }
  }

  /** A call that fans out to a room by its name gets to its members, if there is such a room. */
  lemma {:induction false} CastTakesEffect(shardOf: Name -> nat, run: seq<State>, i: nat, j: nat, t: Tid, c: ConnId,
      n: Name)
    requires Run(shardOf, run) && i <= j < |run|
    requires t in run[i].threads && run[i].threads[t] == NewThread(c, n, CastRLock)
    ensures CastsOff(run, i, j, t, c, n)
    decreases j
  {
    hide Run;
    if i < j {
      CastTakesEffect(shardOf, run, i, j - 1, t, c, n);
      CastStep(shardOf, run, i, j - 1, t, c, n);
    }
  }

  // ---------------------------------------------------------------- a fan-out reaches every member

  predicate Emits(s: State, t: Tid) {
    t in s.threads && (s.threads[t].at.EmitRange? || s.threads[t].at.EmitSend?)
  }

  /** Thread `t` sends to `m` and goes on to the members left. */
  predicate SendsTo(s: State, s': State, t: Tid, m: ConnId) {
    && t in s.threads && s.threads[t].at.EmitSend? && m in s.threads[t].todo
    && t in s'.threads && s'.threads[t] == s.threads[t].(todo := s.threads[t].todo - {m})
  }

  /** Thread `t` has sent to `m` in a step from `i` on, before `j`. */
  ghost predicate SentBy(run: seq<State>, i: nat, j: nat, t: Tid, m: ConnId) {
    exists k :: i <= k < j && SendsAt(run, k, t, m)
  }

  ghost predicate SendsAt(run: seq<State>, k: nat, t: Tid, m: ConnId) {
    k + 1 < |run| && SendsTo(run[k], run[k + 1], t, m)
  }

  /** From state `i` to `j` thread `t` is in one fan-out, which begins at `i`. */
  ghost predicate OneEmission(run: seq<State>, i: nat, j: nat, t: Tid) {
    && i <= j < |run|
    && (forall k :: i <= k <= j ==> Emits(run[k], t))
    && run[i].threads[t].at.EmitRange?
  }

  /** Whom a fan-out is to reach: the members of the room, the connection it is for apart. */
  function Audience(s: State, t: Tid): set<ConnId>
    requires t in s.threads
  {
    MembersOf(s, s.threads[t].o) - {s.threads[t].c}
  }

  /** While a thread goes through the members of a room, nobody changes them. */
  lemma MembersHeld(shardOf: Name -> nat, run: seq<State>, j: nat, t: Tid)
    requires Run(shardOf, run) && j + 1 < |run| && Emits(run[j], t)
    ensures MembersOf(run[j + 1], run[j].threads[t].o) == MembersOf(run[j], run[j].threads[t].o)
  {
    hide Run, Inv, Enabled, Step;
    var a := RunStep(shardOf, run, j);
    match a
    case Take(u, ch) => HeldStep(shardOf, run[j], u, ch, t);
    case _ =>
  }

  lemma HeldStep(shardOf: Name -> nat, s: State, u: Tid, ch: Choice, t: Tid)
    requires Inv(shardOf, s) && Enabled(shardOf, s, u, ch) && Emits(s, t)
    ensures MembersOf(Step(shardOf, s, u, ch), s.threads[t].o) == MembersOf(s, s.threads[t].o)
  {
    hide Goto, LockFree, LockOpOf, OnceFree, Choosable, SharedInv, DoLock, DoEffect, EffectOf;
    var o := s.threads[t].o;
    var l := RoomMu(o);
    assert Agree(shardOf, s, l);
    assert ModeOf(shardOf, s.threads[t], l) == Reading;
    assert ModeOf(shardOf, s.threads[u], l) != Writing;
    WritersChange(s, s.threads[u], ch);
    OtherMembers(s, u, EffectOf(s, s.threads[u], ch), o);
    LockKeeps(After(s, u, ch), u, LockOpOf(shardOf, s.threads[u]));
  }

  lemma EmitGoesOn(shardOf: Name -> nat, s: State, s': State, t: Tid, ch: Choice)
    requires Advances(shardOf, s, s', t, ch) && Emits(s, t)
    ensures var th, th' := s.threads[t], s'.threads[t];
            if th.at.EmitRange? then th' == th.(todo := Audience(s, t), at := EmitSend)
            else if th.todo == {} then !Emits(s', t)
            else SendsTo(s, s', t, ch.member)
  {
    hide LockFree, OnceFree, Step, LockOpOf;
  }

  /** A member that a fan-out finds slow is marked, and a call of `cleanup` is started for it. */
  lemma SlowStarts(shardOf: Name -> nat, s: State, s': State, t: Tid, ch: Choice)
    requires Advances(shardOf, s, s', t, ch) && s.threads[t].at.EmitSend? && s.threads[t].todo != {} && ch.closes
    ensures ch.member in s.threads[t].todo && ch.member !in s.cleaningUp && ch.member in s'.cleaningUp
    ensures ch.spawn in s'.threads && s'.threads[ch.spawn] == NewThread(ch.member, 0, OnceDo)
  {
    hide LockFree, OnceFree, Goto;
  }

  /** How far a fan-out has come: whom it has still to send to, and whom it has sent to. */
  ghost predicate Reaching(run: seq<State>, i: nat, j: nat, t: Tid)
    requires OneEmission(run, i, j, t)
  {
    var th, o := run[j].threads[t], run[i].threads[t].o;
    && th.o == o && th.c == run[i].threads[t].c
    && MembersOf(run[j], o) == MembersOf(run[i], o)
    && (th.at.EmitRange? ==> forall m :: !SentBy(run, i, j, t, m))
    && (th.at.EmitSend? ==> forall m :: SentBy(run, i, j, t, m) <==> m in Audience(run[i], t) && m !in th.todo)
    && (th.at.EmitSend? ==> th.todo <= Audience(run[i], t))
  }

  lemma SentNext(run: seq<State>, i: nat, j: nat, t: Tid, m: ConnId)
    requires i <= j
    ensures SentBy(run, i, j + 1, t, m) <==> SentBy(run, i, j, t, m) || SendsAt(run, j, t, m)
  {
  }

  /** A step of a fan-out sends to one member at most. */
  lemma SendsOne(s: State, s': State, t: Tid, m: ConnId, to: ConnId)
    requires SendsTo(s, s', t, to)
    ensures SendsTo(s, s', t, m) <==> m == to
  {
    if SendsTo(s, s', t, m) {
      assert m !in s.threads[t].todo - {m};
    }
  }

  lemma RestsSilent(s: State, s': State, t: Tid, m: ConnId)
    requires t in s.threads && (Rests(s, s', t) || s.threads[t].at.EmitRange? || s.threads[t].todo == {})
    ensures !SendsTo(s, s', t, m)
  {
  }

  lemma SendsAtStep(run: seq<State>, j: nat, t: Tid, m: ConnId)
    requires j + 1 < |run|
    ensures SendsAt(run, j, t, m) <==> SendsTo(run[j], run[j + 1], t, m)
  {
  }

  /** What one step adds to those sent to. */
  lemma ReachStep(shardOf: Name -> nat, run: seq<State>, i: nat, j: nat, t: Tid)
    requires Run(shardOf, run) && OneEmission(run, i, j, t) && Reaching(run, i, j, t) && j + 1 < |run|
    ensures if Emits(run[j + 1], t) then OneEmission(run, i, j + 1, t) && Reaching(run, i, j + 1, t)
            else forall m :: SentBy(run, i, j + 1, t, m) <==> m in Audience(run[i], t)
  {
    hide Run, Inv, Enabled, Step, SentBy, SendsAt;
    var moved, ch := OneThread(shardOf, run, j, t);
    MembersHeld(shardOf, run, j, t);
    var th := run[j].threads[t];
    if moved {
      EmitGoesOn(shardOf, run[j], run[j + 1], t, ch);
    }
    var sends := moved && th.at.EmitSend? && th.todo != {};
    var next := j + 1;
    forall m
      ensures SentBy(run, i, next, t, m) <==> SentBy(run, i, j, t, m) || (sends && m == ch.member)
    {
      SentNext(run, i, j, t, m);
      SendsAtStep(run, j, t, m);
      if sends {
        SendsOne(run[j], run[j + 1], t, m, ch.member);
      } else {
        RestsSilent(run[j], run[j + 1], t, m);
      }
    }
    assert Audience(run[j], t) == Audience(run[i], t);
    if Emits(run[j + 1], t) {
      assert OneEmission(run, i, j + 1, t);
      assert Reaching(run, i, j + 1, t);
    }
  }

  lemma {:induction false} ReachStands(shardOf: Name -> nat, run: seq<State>, i: nat, j: nat, t: Tid)
    requires Run(shardOf, run) && OneEmission(run, i, j, t)
    ensures Reaching(run, i, j, t)
    decreases j
  {
    hide Run;
    if i < j {
      ReachStands(shardOf, run, i, j - 1, t);
      ReachStep(shardOf, run, i, j - 1, t);
    }
  }

  /**
   A fan-out reaches every member of the room but the one it is for, each once, and nobody else; and who is a
   member does not change while it goes on.
   */
  lemma FanoutReachesAll(shardOf: Name -> nat, run: seq<State>, i: nat, j: nat, t: Tid, m: ConnId)
    requires Run(shardOf, run) && OneEmission(run, i, j, t) && j + 1 < |run| && !Emits(run[j + 1], t)
    ensures SentBy(run, i, j + 1, t, m) <==> m in Audience(run[i], t)
    ensures forall k, l :: i <= k < l <= j && SendsAt(run, k, t, m) ==> !SendsAt(run, l, t, m)
    ensures forall k :: i <= k <= j ==> Audience(run[k], t) == Audience(run[i], t)
  {
    hide Run, SentBy;
    ReachStands(shardOf, run, i, j, t);
    ReachStep(shardOf, run, i, j, t);
    forall k | i <= k <= j
      ensures Audience(run[k], t) == Audience(run[i], t)
      ensures SendsAt(run, k, t, m) ==> !SentBy(run, i, k, t, m)
    {
      ReachStands(shardOf, run, i, k, t);
    }
    forall k, l | i <= k < l <= j && SendsAt(run, k, t, m)
      ensures SentBy(run, i, l, t, m)
    {
      SentSince(run, i, k, l, t, m);
    }
  }

  lemma SentSince(run: seq<State>, i: nat, k: nat, l: nat, t: Tid, m: ConnId)
    requires i <= k < l && SendsAt(run, k, t, m)
    ensures SentBy(run, i, l, t, m)
  {
  }
}
