/**
 The hub's calls come to an end: once no new call starts, every step of a thread spends some of a finite
 budget, and until all calls have returned some thread can step.
 */
module HubProgress {
  import opened Finite
  import opened Hub
  import opened HubLocks
  import opened HubInvariant
  import opened HubTheorems

  /** All connections and room names there are while no call starts. */
  datatype Limits = Limits(conns: set<ConnId>, names: set<Name>)

  predicate ThreadWithin(l: Limits, th: Thread) {
    && th.rest <= l.names
    && th.todo <= l.conns
    && (ProcOf(th.at).Joining? ==> th.n in l.names)
  }

  ghost predicate Within(l: Limits, s: State) {
    && s.once.Keys <= l.conns
    && (forall p :: p in s.tracked ==> p.1 in l.names)
    && forall t :: t in s.threads ==> ThreadWithin(l, s.threads[t])
  }

  // ---------------------------------------------------------------- what a thread may still spend

  function Times(k: nat, cost: nat): nat {
    if k == 0 then 0 else cost + Times(k - 1, cost)
  }

  lemma {:induction false} TimesGrows(j: nat, k: nat, cost: nat)
    requires j <= k
    ensures Times(j, cost) <= Times(k, cost)
  {
    if j < k {
      TimesGrows(j, k - 1, cost);
    }
  }

  /** The steps of one leave inside `cleanup`, with the loop around it. */
  function LeaveCost(l: Limits): nat {
    |l.conns| + 22
  }

  /** The steps of `cleanup` once it has its snapshot, with `k` rooms left. */
  function LeavingCost(l: Limits, k: nat): (c: nat)
    ensures c >= 3
  {
    3 + Times(k, LeaveCost(l))
  }

  /** The steps of a whole `cleanup`. */
  function CloserCost(l: Limits): nat {
    5 + LeavingCost(l, |l.names|)
  }

  function EmitCost(l: Limits, th: Thread): nat {
    match th.at
    case EmitSend => 1 + |th.todo|
    case EmitRange => |l.conns| + 2
    case EmitRLock => |l.conns| + 3
    case CastRUnlock(_) => |l.conns| + 4
    case CastLookup => |l.conns| + 5
    case CastRLock => |l.conns| + 6
    case _ => 0
  }

  function DropCost(l: Limits, at: At): nat {
    |l.conns| + match at
                case DropUnlockShard => 4
                case DropUnlockRoom => 5
                case DropCount => 6
                case DropDelete => 7
                case DropCheckEmpty => 8
                case DropCheckCurrent => 9
                case DropLockRoom => 10
                case DropLockShard => 11
                case _ => 0
  }

  function LeaveLeft(l: Limits, at: At): nat {
    |l.conns| + match at
                case RemoveUnlock(_) => 12
                case RemoveLen => 13
                case RemoveDelete => 14
                case RemoveLock => 15
                case LeaveRUnlock(_) => 16
                case LeaveLookup => 17
                case LeaveRLock => 18
                case UntrackUnlock => 19
                case UntrackDelete => 20
                case UntrackLock => 21
                case _ => 0
  }

  function JoinCost(l: Limits, at: At): nat {
    |l.conns| + match at
                case JoinUnlockShard(_) => 4
                case AddUnlock => 5
                case AddWrite => 6
                case AddLock => 7
                case TrackUnlock(_) => 8
                case TrackWrite => 9
                case TrackRecheck => 10
                case TrackLock => 11
                case TrackCheck => 12
                case JoinCount => 13
                case JoinLookup => 14
                case JoinLockShard => 15
                case JoinEnter => 16
                case _ => 0
  }

  function CleanupCost(l: Limits, th: Thread): nat {
    match th.at
    case OnceDone => 1
    case RemoveConn => 2
    case LeaveNext => LeavingCost(l, |th.rest|)
    case RoomsRUnlock => 1 + LeavingCost(l, |th.rest|)
    case RoomsRead => 2 + LeavingCost(l, |l.names|)
    case RoomsRLock => 3 + LeavingCost(l, |l.names|)
    case CloseDone => 4 + LeavingCost(l, |l.names|)
    case OnceDo => CloserCost(l)
    case _ => 0
  }

  /** A bound on the steps a thread takes until its call returns. */
  function Cost(l: Limits, th: Thread): nat {
    var back := if th.cleaning then LeavingCost(l, |th.rest|) else 0;
    match ProcOf(th.at)
    case Joining => JoinCost(l, th.at) + back
    case Leaving => LeaveLeft(l, th.at) + back
    case Dropping => DropCost(l, th.at) + back
    case Emitting => EmitCost(l, th) + back
    case Cleaning => CleanupCost(l, th)
  }

  // ---------------------------------------------------------------- a step spends

  /** What a thread needs to be sure of for its next step. */
  ghost predicate Steps(l: Limits, s: State, th: Thread, ch: Choice) {
    && ThreadWithin(l, th) && CleaningLabels(th) && !th.at.Finished? && Choosable(s, th, ch)
    && (forall m :: m in s.members ==> m.1 in l.conns)
    && (forall p :: p in s.tracked ==> p.1 in l.names)
  }

  lemma JoinSpends(l: Limits, s: State, th: Thread, ch: Choice)
    requires Steps(l, s, th, ch) && ProcOf(th.at).Joining?
    ensures Cost(l, JoinGoto(s, th, ch)) < Cost(l, th) && ThreadWithin(l, JoinGoto(s, th, ch))
  {
    hide LeavingCost;
  }

  lemma LeaveSpends(l: Limits, s: State, th: Thread, ch: Choice)
    requires Steps(l, s, th, ch) && ProcOf(th.at).Leaving?
    ensures Cost(l, LeaveGoto(s, th)) < Cost(l, th) && ThreadWithin(l, LeaveGoto(s, th))
  {
    hide LeavingCost;
  }

  lemma DropSpends(l: Limits, s: State, th: Thread, ch: Choice)
    requires Steps(l, s, th, ch) && ProcOf(th.at).Dropping?
    ensures Cost(l, DropGoto(s, th)) < Cost(l, th) && ThreadWithin(l, DropGoto(s, th))
  {
    hide LeavingCost;
  }

  lemma RangeSpends(l: Limits, s: State, th: Thread, ch: Choice)
    requires Steps(l, s, th, ch) && th.at.EmitRange?
    ensures Cost(l, EmitGoto(s, th, ch)) < Cost(l, th) && ThreadWithin(l, EmitGoto(s, th, ch))
  {
    hide Steps, MembersOf, LeavingCost;
    MembersKnown(l, s, th, ch);
    SubsetSize(MembersOf(s, th.o) - {th.c}, l.conns);
  }

  lemma MembersKnown(l: Limits, s: State, th: Thread, ch: Choice)
    requires Steps(l, s, th, ch)
    ensures MembersOf(s, th.o) <= l.conns && ThreadWithin(l, th)
  {
    hide Choosable, ThreadWithin;
  }

  lemma CastSpends(l: Limits, s: State, th: Thread, ch: Choice)
    requires Steps(l, s, th, ch) && (th.at.EmitRLock? || th.at.CastRLock? || th.at.CastLookup? || th.at.CastRUnlock?)
    ensures Cost(l, EmitGoto(s, th, ch)) < Cost(l, th) && ThreadWithin(l, EmitGoto(s, th, ch))
  {
    hide LeavingCost, MembersOf;
  }

  lemma SendSpends(l: Limits, s: State, th: Thread, ch: Choice)
    requires Steps(l, s, th, ch) && th.at.EmitSend?
    ensures Cost(l, EmitGoto(s, th, ch)) < Cost(l, th) && ThreadWithin(l, EmitGoto(s, th, ch))
  {
    hide LeavingCost, MembersOf;
    if th.todo != {} {
      assert |th.todo - {ch.member}| == |th.todo| - 1;
    }
  }

  lemma EmitSpends(l: Limits, s: State, th: Thread, ch: Choice)
    requires Steps(l, s, th, ch) && ProcOf(th.at).Emitting?
    ensures Cost(l, EmitGoto(s, th, ch)) < Cost(l, th) && ThreadWithin(l, EmitGoto(s, th, ch))
  {
    hide Steps, Cost, ThreadWithin, EmitGoto;
    if th.at.EmitRange? {
      RangeSpends(l, s, th, ch);
    } else if th.at.EmitSend? {
      SendSpends(l, s, th, ch);
    } else {
      CastSpends(l, s, th, ch);
    }
  }

  lemma SnapshotSpends(l: Limits, s: State, th: Thread, ch: Choice)
    requires Steps(l, s, th, ch) && th.at.RoomsRead?
    ensures Cost(l, CleanupGoto(s, th, ch)) < Cost(l, th) && ThreadWithin(l, CleanupGoto(s, th, ch))
  {
    hide Times;
    assert TrackedBy(s, th.c) <= l.names;
    SubsetSize(TrackedBy(s, th.c), l.names);
    TimesGrows(|TrackedBy(s, th.c)|, |l.names|, LeaveCost(l));
  }

  lemma NextLeaveSpends(l: Limits, s: State, th: Thread, ch: Choice)
    requires Steps(l, s, th, ch) && th.at.LeaveNext?
    ensures Cost(l, CleanupGoto(s, th, ch)) < Cost(l, th) && ThreadWithin(l, CleanupGoto(s, th, ch))
  {
    hide TrackedBy;
    if th.rest != {} {
      assert |th.rest - {ch.name}| == |th.rest| - 1;
    }
  }

  lemma StraightSpends(l: Limits, s: State, th: Thread, ch: Choice)
    requires Steps(l, s, th, ch) && ProcOf(th.at).Cleaning? && !th.at.RoomsRead? && !th.at.LeaveNext?
    ensures Cost(l, CleanupGoto(s, th, ch)) < Cost(l, th) && ThreadWithin(l, CleanupGoto(s, th, ch))
  {
    hide TrackedBy, LeavingCost;
  }

  lemma CleanupSpends(l: Limits, s: State, th: Thread, ch: Choice)
    requires Steps(l, s, th, ch) && ProcOf(th.at).Cleaning?
    ensures Cost(l, CleanupGoto(s, th, ch)) < Cost(l, th) && ThreadWithin(l, CleanupGoto(s, th, ch))
  {
    hide Steps, Cost, ThreadWithin, CleanupGoto;
    if th.at.RoomsRead? {
      SnapshotSpends(l, s, th, ch);
    } else if th.at.LeaveNext? {
      NextLeaveSpends(l, s, th, ch);
    } else {
      StraightSpends(l, s, th, ch);
    }
  }

  lemma GotoSpends(l: Limits, s: State, th: Thread, ch: Choice)
    requires Steps(l, s, th, ch)
    ensures Cost(l, Goto(s, th, ch)) < Cost(l, th) && ThreadWithin(l, Goto(s, th, ch))
  {
    hide Cost, ThreadWithin, JoinGoto, LeaveGoto, DropGoto, EmitGoto, CleanupGoto;
    match ProcOf(th.at)
    case Joining => JoinSpends(l, s, th, ch);
    case Leaving => LeaveSpends(l, s, th, ch);
    case Dropping => DropSpends(l, s, th, ch);
    case Emitting => EmitSpends(l, s, th, ch);
    case Cleaning => CleanupSpends(l, s, th, ch);
  }

  // ---------------------------------------------------------------- the budget of all threads

  ghost function Total(l: Limits, threads: map<Tid, Thread>): nat
    decreases |threads|
  {
    if threads == map[] then 0
    else
      var t := AnyOf(threads.Keys);
      Cost(l, threads[t]) + Total(l, threads - {t})
  }

  lemma {:induction false} TotalPick(l: Limits, threads: map<Tid, Thread>, t: Tid)
    requires t in threads
    ensures Total(l, threads) == Cost(l, threads[t]) + Total(l, threads - {t})
    decreases |threads|
  {
    hide Cost;
    var u := AnyOf(threads.Keys);
    if u != t {
      TotalPick(l, threads - {u}, t);
      TotalPick(l, threads - {t}, u);
      assert threads - {u} - {t} == threads - {t} - {u};
    }
  }

  lemma TotalMove(l: Limits, threads: map<Tid, Thread>, t: Tid, th: Thread)
    ensures Total(l, threads[t := th]) == Cost(l, th) + Total(l, threads - {t})
  {
    hide Cost;
    TotalPick(l, threads[t := th], t);
    assert threads[t := th] - {t} == threads - {t};
  }

  /** The steps left to all threads, and to the closers that slow clients may yet start. */
  ghost function Budget(l: Limits, s: State): nat {
    Total(l, s.threads) + Times(|l.conns - s.cleaningUp|, CloserCost(l))
  }

  /** Of a step, what matters to the budget: the thread moves on, and may start one closer. */
  lemma MoveSpends(l: Limits, s: State, t: Tid, th': Thread, e: Effect)
    requires t in s.threads && Cost(l, th') < Cost(l, s.threads[t])
    requires e.StartCloser? ==> e.spawn !in s.threads && e.c in l.conns && e.c !in s.cleaningUp
    ensures Budget(l, Move(DoEffect(s, t, e), t, th')) < Budget(l, s)
  {
    hide Cost, Times;
    TotalPick(l, s.threads, t);
    if e.StartCloser? {
      StartSpends(l, s, t, th', e.c, e.spawn);
    } else {
      OthersStay(s, t, e);
      TotalMove(l, s.threads, t, th');
    }
  }

  lemma OthersStay(s: State, t: Tid, e: Effect)
    requires !e.StartCloser?
    ensures DoEffect(s, t, e).threads == s.threads && DoEffect(s, t, e).cleaningUp == s.cleaningUp
  {
  }

  /** The budget of a closer moves from the clients that may yet be slow to the threads. */
  lemma StartSpends(l: Limits, s: State, t: Tid, th': Thread, c: ConnId, u: Tid)
    requires t in s.threads && Cost(l, th') < Cost(l, s.threads[t])
    requires u !in s.threads && c in l.conns && c !in s.cleaningUp
    ensures Budget(l, Move(DoEffect(s, t, StartCloser(c, u)), t, th')) < Budget(l, s)
  {
    hide Cost, Times, Total, CloserCost;
    CloserSpends(l, s, c);
    StartTotal(l, s.threads, t, th', u, NewThread(c, 0, OnceDo));
  }

  lemma CloserSpends(l: Limits, s: State, c: ConnId)
    requires c in l.conns && c !in s.cleaningUp
    ensures Cost(l, NewThread(c, 0, OnceDo)) == CloserCost(l)
    ensures Times(|l.conns - s.cleaningUp|, CloserCost(l)) ==
            CloserCost(l) + Times(|l.conns - (s.cleaningUp + {c})|, CloserCost(l))
  {
    hide LeavingCost;
    var left := l.conns - s.cleaningUp;
    assert l.conns - (s.cleaningUp + {c}) == left - {c} && |left - {c}| == |left| - 1;
  }

  lemma StartTotal(l: Limits, threads: map<Tid, Thread>, t: Tid, th': Thread, u: Tid, closer: Thread)
    requires t in threads && u !in threads
    ensures Total(l, threads[u := closer][t := th']) + Cost(l, threads[t]) ==
        Total(l, threads) + Cost(l, closer) + Cost(l, th')
  {
    hide Cost, Total;
    var rest := threads - {t};
    TotalPick(l, threads, t);
    TotalMove(l, threads[u := closer], t, th');
    assert threads[u := closer] - {t} == rest[u := closer];
    TotalMove(l, rest, u, closer);
    assert rest - {u} == rest;
  }

  // ---------------------------------------------------------------- every step, every run

  lemma EffectWithin(l: Limits, s: State, t: Tid, th': Thread, e: Effect)
    requires Within(l, s) && t in s.threads && ThreadWithin(l, th')
    requires e.Track? ==> e.n in l.names
    requires e.TakeOnce? || e.ReleaseOnce? ==> e.c in l.conns
    ensures Within(l, Move(DoEffect(s, t, e), t, th'))
  {
  }

  lemma AfterSpends(shardOf: Name -> nat, l: Limits, s: State, t: Tid, ch: Choice)
    requires Inv(shardOf, s) && Within(l, s) && Enabled(shardOf, s, t, ch)
    ensures Within(l, After(s, t, ch)) && Budget(l, After(s, t, ch)) < Budget(l, s)
  {
    hide LocksAgree, Goto, DoEffect, Budget, Cost, ThreadWithin, LockOpOf;
    var th := s.threads[t];
    var e := EffectOf(s, th, ch);
    StepsNow(shardOf, l, s, t, ch);
    GotoSpends(l, s, th, ch);
    EffectKnown(l, s, th, ch);
    EffectWithin(l, s, t, Goto(s, th, ch), e);
    MoveSpends(l, s, t, Goto(s, th, ch), e);
  }

  lemma StepsNow(shardOf: Name -> nat, l: Limits, s: State, t: Tid, ch: Choice)
    requires Inv(shardOf, s) && Within(l, s) && Enabled(shardOf, s, t, ch)
    ensures Steps(l, s, s.threads[t], ch)
    ensures UsesConn(s.threads[t]) ==> s.threads[t].c in l.conns
  {
    hide LocksAgree, LockOpOf;
  }

  lemma EffectKnown(l: Limits, s: State, th: Thread, ch: Choice)
    requires Steps(l, s, th, ch) && s.once.Keys <= l.conns && (UsesConn(th) ==> th.c in l.conns)
    ensures var e := EffectOf(s, th, ch);
            && (e.Track? ==> e.n in l.names)
            && (e.TakeOnce? || e.ReleaseOnce? ==> e.c in l.conns)
            && (e.StartCloser? ==> e.spawn !in s.threads && e.c in l.conns && e.c !in s.cleaningUp)
  {
  }

  lemma StepSpends(shardOf: Name -> nat, l: Limits, s: State, t: Tid, ch: Choice)
    requires Inv(shardOf, s) && Within(l, s) && Enabled(shardOf, s, t, ch)
    ensures Within(l, Step(shardOf, s, t, ch)) && Budget(l, Step(shardOf, s, t, ch)) < Budget(l, s)
  {
    hide Inv, LockFree, OnceFree, Choosable, After, Budget, Within;
    AfterSpends(shardOf, l, s, t, ch);
    Unlocks(l, After(s, t, ch), t, LockOpOf(shardOf, s.threads[t]));
  }

  lemma Unlocks(l: Limits, s: State, t: Tid, op: LockOp)
    ensures Within(l, s) ==> Within(l, DoLock(s, t, op))
    ensures Budget(l, DoLock(s, t, op)) == Budget(l, s)
  {
  }

  /** Everything a state mentions. */
  function LimitsOf(s: State): Limits {
    Limits(s.once.Keys + (set t, c | t in s.threads && c in s.threads[t].todo :: c),
           (set p | p in s.tracked :: p.1) + (set t | t in s.threads :: s.threads[t].n)
           + (set t, n | t in s.threads && n in s.threads[t].rest :: n))
  }

  lemma WithinLimits(s: State)
    ensures Within(LimitsOf(s), s)
  {
    forall t | t in s.threads
      ensures ThreadWithin(LimitsOf(s), s.threads[t])
    {
      var th := s.threads[t];
      assert th.n in LimitsOf(s).names;
      forall n | n in th.rest
        ensures n in LimitsOf(s).names
      {
        assert t in s.threads && n in s.threads[t].rest;
      }
      forall c | c in th.todo
        ensures c in LimitsOf(s).conns
      {
        assert t in s.threads && c in s.threads[t].todo;
      }
    }
  }

  /** Thread `t` can step, and its step leads from `s` to `s'`. */
  ghost predicate Takes(shardOf: Name -> nat, s: State, t: Tid, ch: Choice, s': State) {
    Enabled(shardOf, s, t, ch) && s' == Step(shardOf, s, t, ch)
  }

  lemma TakesSpends(shardOf: Name -> nat, l: Limits, s: State, t: Tid, ch: Choice, s': State)
    requires Inv(shardOf, s) && Within(l, s) && Takes(shardOf, s, t, ch, s')
    ensures Within(l, s') && Budget(l, s') < Budget(l, s)
    ensures Next(shardOf, s, s')
  {
    hide Inv, Within, Budget, LockFree, OnceFree, Choosable, After, DoLock;
    StepSpends(shardOf, l, s, t, ch);
    assert Possible(shardOf, s, Action.Take(t, ch));
    assert s' == Apply(shardOf, s, Action.Take(t, ch));
  }

  /** From state `i` to state `j` the run only goes on with the calls there are. */
  ghost predicate Quiet(shardOf: Name -> nat, run: seq<State>, i: nat, j: nat) {
    j < |run| && forall m: nat :: i <= m < j ==> StepAt(shardOf, run, m)
  }

  ghost predicate StepAt(shardOf: Name -> nat, run: seq<State>, m: nat) {
    m + 1 < |run| && SomeTakes(shardOf, run[m], run[m + 1])
  }

  ghost predicate SomeTakes(shardOf: Name -> nat, s: State, s': State) {
    exists t, ch :: Takes(shardOf, s, t, ch, s')
  }

  /** However they are scheduled, the calls there are take at most as many steps as the budget says. */
  lemma {:induction false} QuietRunsEnd(shardOf: Name -> nat, run: seq<State>, i: nat, j: nat)
    requires Run(shardOf, run) && i <= j && Quiet(shardOf, run, i, j)
    ensures var l := LimitsOf(run[i]); Within(l, run[j]) && Budget(l, run[j]) + (j - i) <= Budget(l, run[i])
    decreases j
  {
    hide Within, Budget, LimitsOf, Run, Takes, Inv;
    if i == j {
      WithinLimits(run[i]);
    } else {
      QuietRunsEnd(shardOf, run, i, j - 1);
      assert StepAt(shardOf, run, j - 1);
      var t, ch :| Takes(shardOf, run[j - 1], t, ch, run[j]);
      InvAlways(shardOf, run, j - 1);
      TakesSpends(shardOf, LimitsOf(run[i]), run[j - 1], t, ch, run[j]);
    }
  }

  ghost predicate AllReturned(s: State) {
    forall t :: t in s.threads ==> s.threads[t].at.Finished?
  }

  /**
   The calls under way can all return: every run goes on, without a new call and within the budget, to a state
   in which every call has returned.
   */
  lemma AllReturn(shardOf: Name -> nat, run: seq<State>) returns (longer: seq<State>)
    requires Run(shardOf, run)
    ensures run <= longer && Run(shardOf, longer)
    ensures Quiet(shardOf, longer, |run| - 1, |longer| - 1)
    ensures |longer| - |run| <= Budget(LimitsOf(run[|run| - 1]), run[|run| - 1])
    ensures AllReturned(longer[|longer| - 1])
  {
    hide Within, Budget, LimitsOf, NextAt, AllReturned;
    var last := run[|run| - 1];
    WithinLimits(last);
    longer := Finishing(shardOf, run, |run| - 1, LimitsOf(last));
    QuietRunsEnd(shardOf, longer, |run| - 1, |longer| - 1);
  }

  lemma {:induction false} Finishing(shardOf: Name -> nat, run: seq<State>, i: nat, l: Limits)
      returns (longer: seq<State>)
    requires Run(shardOf, run) && i < |run| && Quiet(shardOf, run, i, |run| - 1) && Within(l, run[|run| - 1])
    ensures run <= longer && Run(shardOf, longer) && Quiet(shardOf, longer, i, |longer| - 1)
    ensures AllReturned(longer[|longer| - 1])
    decreases Budget(l, run[|run| - 1])
  {
    hide Within, Budget, Takes, Quiet, NextAt, AllReturned, Inv;
    var s := run[|run| - 1];
    if AllReturned(s) {
      longer := run;
    } else {
      var t, ch, s' := SomeStep(shardOf, run);
      InvAlways(shardOf, run, |run| - 1);
      TakesSpends(shardOf, l, s, t, ch, s');
      OneMore(shardOf, run, i, t, ch, s');
      longer := Finishing(shardOf, run + [s'], i, l);
    }
  }

  lemma SomeStep(shardOf: Name -> nat, run: seq<State>) returns (t: Tid, ch: Choice, s': State)
    requires Run(shardOf, run) && !AllReturned(run[|run| - 1])
    ensures Takes(shardOf, run[|run| - 1], t, ch, s')
  {
    hide Run, LockFree, OnceFree, Choosable, WriterWaits, After, DoLock;
    assert |run| > 0 by {
      Nonempty(shardOf, run);
    }
    var s := run[|run| - 1];
    var waiting :| waiting in s.threads && !s.threads[waiting].at.Finished?;
    NoDeadlock(shardOf, run, |run| - 1, waiting);
    t, ch :| Ready(shardOf, s, t, ch);
    s' := Step(shardOf, s, t, ch);
  }

  lemma Nonempty(shardOf: Name -> nat, run: seq<State>)
    requires Run(shardOf, run)
    ensures |run| > 0
  {
  }

  lemma OneMore(shardOf: Name -> nat, run: seq<State>, i: nat, t: Tid, ch: Choice, s': State)
    requires Run(shardOf, run) && i < |run| && Quiet(shardOf, run, i, |run| - 1)
    requires Takes(shardOf, run[|run| - 1], t, ch, s') && Next(shardOf, run[|run| - 1], s')
    ensures Run(shardOf, run + [s']) && Quiet(shardOf, run + [s'], i, |run|)
  {
    hide Takes, Next;
    var longer := run + [s'];
    forall m: nat | m + 1 < |longer|
      ensures NextAt(shardOf, longer, m)
      ensures i <= m ==> StepAt(shardOf, longer, m)
    {
      if m + 1 < |run| {
        assert NextAt(shardOf, run, m);
        if i <= m {
          assert StepAt(shardOf, run, m);
          assert SomeTakes(shardOf, longer[m], longer[m + 1]);
        }
      } else {
        assert Takes(shardOf, longer[m], t, ch, longer[m + 1]);
      }
    }
  }
}
