/**
 The outbound queue of a Go connection (server/go/conn.go): any number of `TrySend` callers, the
 `writePump` reader and `close(done)`, one channel operation a step. The channel `send` is never closed.
 */
module Outbox {
  import opened Finite

  type Tid = int

  /** Frames are only moved about here, so numbers stand for them. */
  type Frame = int

  datatype Strategy = DropSlowClient | DropOldest | DropNewest

  datatype Config = Config(capacity: nat, strategy: Strategy)

  /** A caller of `TrySend`: past its first look at `done`, past a full queue, past the eviction, back. */
  datatype Sender = Selecting(m: Frame) | Evicting(m: Frame) | Resending(m: Frame) | Returned(ok: bool)

  /** `writePump`: at its select, writing a frame, elsewhere (starting or pinging), or gone. */
  datatype Reader = Waiting | Writing(m: Frame) | Elsewhere | Gone

  /**
   The channel and the goroutines at it; then what has happened: the frames `TrySend` accepted, those the
   reader wrote to the socket, those evicted, and the one lost to a failing write; and how often the
   connection was told to close for being slow.
   */
  datatype State = State(
    queue: seq<Frame>,
    reader: Reader,
    closed: bool,
    cleaningUp: bool,
    senders: map<Tid, Sender>,
    accepted: seq<Frame>,
    wire: seq<Frame>,
    evicted: seq<Frame>,
    lost: seq<Frame>,
    closers: nat)

  const INIT := State([], Elsewhere, false, false, map[], [], [], [], [], 0)

  datatype Action =
    | Call(t: Tid, m: Frame)
    | SelectDone(t: Tid) | SelectSend(t: Tid) | SelectDefault(t: Tid)
    | Evict(t: Tid)
    | Resend(t: Tid)
    | Arrive | Receive | Wrote | WriteFailed | Tick | StopReader
    | Close

  /** A send on the channel succeeds at once: there is room, or the reader is waiting at an empty queue. */
  predicate CanSend(cfg: Config, s: State) {
    |s.queue| < cfg.capacity || (s.queue == [] && s.reader.Waiting?)
  }

  predicate Possible(cfg: Config, s: State, a: Action) {
    match a
    case Call(t, m) => t in s.senders ==> s.senders[t].Returned?
    case SelectDone(t) => t in s.senders && s.senders[t].Selecting? && s.closed
    case SelectSend(t) => t in s.senders && s.senders[t].Selecting? && CanSend(cfg, s)
    case SelectDefault(t) => t in s.senders && s.senders[t].Selecting? && !s.closed && !CanSend(cfg, s)
    case Evict(t) => t in s.senders && s.senders[t].Evicting?
    case Resend(t) => t in s.senders && s.senders[t].Resending?
    case Arrive => s.reader.Elsewhere?
    case Receive => s.reader.Waiting? && s.queue != []
    case Wrote => s.reader.Writing?
    case WriteFailed => s.reader.Writing?
    case Tick => s.reader.Waiting?
    case StopReader => (s.reader.Waiting? && s.closed) || s.reader.Elsewhere?
    case Close => !s.closed
  }

  function Move(s: State, t: Tid, to: Sender): State {
    s.(senders := s.senders[t := to])
  }

  /** The send itself: straight to a reader waiting at an empty queue, else to the back of the queue. */
  function Accept(s: State, t: Tid, m: Frame): State {
    var s' := Move(s, t, Returned(true)).(accepted := s.accepted + [m]);
    if s.queue == [] && s.reader.Waiting? then s'.(reader := Writing(m)) else s'.(queue := s.queue + [m])
  }

  /** The `default` branch of the send, by strategy (conn.go:133-166). */
  function OnFull(cfg: Config, s: State, t: Tid, m: Frame): State {
    match cfg.strategy
    case DropOldest => Move(s, t, Evicting(m))
    case DropNewest => Move(s, t, Returned(false))
    case DropSlowClient =>
      var s' := Move(s, t, Returned(false));
      if s.cleaningUp then s' else s'.(cleaningUp := true, closers := s.closers + 1)
  }

  function Apply(cfg: Config, s: State, a: Action): State
    requires Possible(cfg, s, a)
  {
    match a
    case Call(t, m) => Move(s, t, if s.closed then Returned(false) else Selecting(m))
    case SelectDone(t) => Move(s, t, Returned(false))
    case SelectSend(t) => Accept(s, t, s.senders[t].m)
    case SelectDefault(t) => OnFull(cfg, s, t, s.senders[t].m)
    case Evict(t) =>
      var s' := Move(s, t, Resending(s.senders[t].m));
      if s.queue == [] then s' else s'.(queue := s.queue[1..], evicted := s.evicted + [s.queue[0]])
    case Resend(t) => if CanSend(cfg, s) then Accept(s, t, s.senders[t].m) else Move(s, t, Returned(false))
    case Arrive => s.(reader := Waiting)
    case Receive => s.(reader := Writing(s.queue[0]), queue := s.queue[1..])
    case Wrote => s.(reader := Elsewhere, wire := s.wire + [s.reader.m])
    case WriteFailed => s.(reader := Gone, lost := s.lost + [s.reader.m])
    case Tick => s.(reader := Elsewhere)
    case StopReader => s.(reader := Gone)
    case Close => s.(closed := true)
  }

  /** Who acts: everyone, or only these goroutines send and the connection is not closed. */
  datatype Scope = Everyone | OpenTo(producers: set<Tid>)

  predicate Allowed(scope: Scope, a: Action) {
    scope.OpenTo? ==> !a.Close? && (a.Call? ==> a.t in scope.producers)
  }

  ghost predicate NextAt(cfg: Config, run: seq<State>, i: nat, scope: Scope) {
    && i + 1 < |run|
    && exists a :: Possible(cfg, run[i], a) && Allowed(scope, a) && run[i + 1] == Apply(cfg, run[i], a)
  }

  ghost predicate Run(cfg: Config, run: seq<State>, scope: Scope) {
    && |run| > 0
    && run[0] == INIT
    && forall i: nat :: i + 1 < |run| ==> NextAt(cfg, run, i, scope)
  }

  // ---------------------------------------------------------------- conservation and order

  /** `whole` is `a` and `b` merged, each in its own order. */
  predicate Interleaves(whole: seq<Frame>, a: seq<Frame>, b: seq<Frame>) {
    if whole == [] then a == [] && b == []
    else
      var n := |whole| - 1;
      || (a != [] && whole[n] == a[|a| - 1] && Interleaves(whole[..n], a[..|a| - 1], b))
      || (b != [] && whole[n] == b[|b| - 1] && Interleaves(whole[..n], a, b[..|b| - 1]))
  }

  lemma InterleaveNext(whole: seq<Frame>, a: seq<Frame>, b: seq<Frame>, x: Frame)
    requires Interleaves(whole, a, b)
    ensures Interleaves(whole + [x], a + [x], b) && Interleaves(whole + [x], a, b + [x])
  {
    assert (whole + [x])[..|whole|] == whole && (a + [x])[..|a|] == a && (b + [x])[..|b|] == b;
  }

  /** The frames the reader has taken, oldest first: written, being written, or lost to a failing write. */
  function Handed(s: State): seq<Frame> {
    s.wire + (if s.reader.Writing? then [s.reader.m] else []) + s.lost
  }

  /** The accepted frames that have left the queue. */
  function Taken(s: State): seq<Frame>
    requires |s.queue| <= |s.accepted|
  {
    s.accepted[..|s.accepted| - |s.queue|]
  }

  /** The accepted frames are those taken, in order but for the evicted ones, and then the queue. */
  ghost predicate Accounted(s: State)
    requires |s.queue| <= |s.accepted|
  {
    s.accepted == Taken(s) + s.queue && Interleaves(Taken(s), Handed(s), s.evicted)
  }

  ghost predicate Inv(cfg: Config, s: State) {
    && |s.queue| <= cfg.capacity
    && |s.queue| <= |s.accepted|
    && Accounted(s)
    && |s.lost| <= (if s.reader.Gone? then 1 else 0)
    && s.closers == (if s.cleaningUp then 1 else 0)
    && (cfg.strategy != DropOldest ==>
          s.evicted == [] && forall t :: t in s.senders ==> !s.senders[t].Evicting? && !s.senders[t].Resending?)
  }

  /** The next accepted frame leaves the queue, or skips it. */
  lemma TakeNext(s: State, s': State, x: Frame)
    requires |s.queue| <= |s.accepted| && Accounted(s)
    requires |s'.queue| <= |s'.accepted| && s'.accepted == Taken(s) + [x] + s'.queue
    requires (Handed(s') == Handed(s) + [x] && s'.evicted == s.evicted) ||
        (Handed(s') == Handed(s) && s'.evicted == s.evicted + [x])
    ensures Accounted(s')
  {
    hide Handed;
    InterleaveNext(Taken(s), Handed(s), s.evicted, x);
    assert Taken(s') == Taken(s) + [x];
  }

  lemma NoneTaken(s: State, s': State)
    requires |s.queue| <= |s.accepted| && Accounted(s)
    requires |s'.queue| <= |s'.accepted| && |s'.accepted| - |s'.queue| == |s.accepted| - |s.queue|
    requires Taken(s) <= s'.accepted && s'.accepted == Taken(s) + s'.queue
    requires Handed(s') == Handed(s) && s'.evicted == s.evicted
    ensures Accounted(s')
  {
    assert Taken(s') == Taken(s);
  }

  lemma AcceptKeeps(cfg: Config, s: State, t: Tid, m: Frame)
    requires Inv(cfg, s) && CanSend(cfg, s)
    ensures Inv(cfg, Accept(s, t, m))
  {
    hide Interleaves;
    var s' := Accept(s, t, m);
    if s.queue == [] && s.reader.Waiting? {
      TakeNext(s, s', m);
    } else {
      NoneTaken(s, s');
    }
  }

  lemma StepKeeps(cfg: Config, s: State, a: Action)
    requires Inv(cfg, s) && Possible(cfg, s, a)
    ensures Inv(cfg, Apply(cfg, s, a))
  {
    hide Interleaves, Accept, Accounted;
    var s' := Apply(cfg, s, a);
    match a
    case SelectSend(t) => AcceptKeeps(cfg, s, t, s.senders[t].m);
    case Resend(t) =>
      if CanSend(cfg, s) {
        AcceptKeeps(cfg, s, t, s.senders[t].m);
      } else {
        Unmoved(s, s');
      }
    case Evict(t) =>
      if s.queue != [] {
        TakeFront(s, s');
      } else {
        Unmoved(s, s');
      }
    case Receive => TakeFront(s, s');
    case _ => Unmoved(s, s');
  }

  /** The front of the queue is taken, by the reader or by an eviction. */
  lemma TakeFront(s: State, s': State)
    requires |s.queue| <= |s.accepted| && Accounted(s) && s.queue != []
    requires s'.accepted == s.accepted && s'.queue == s.queue[1..]
    requires (Handed(s') == Handed(s) + s.queue[..1] && s'.evicted == s.evicted)
          || (Handed(s') == Handed(s) && s'.evicted == s.evicted + s.queue[..1])
    ensures Accounted(s')
  {
    hide Interleaves, Handed;
    assert s.queue == [s.queue[0]] + s.queue[1..] && s.queue[..1] == [s.queue[0]];
    TakeNext(s, s', s.queue[0]);
  }

  lemma Unmoved(s: State, s': State)
    requires |s.queue| <= |s.accepted| && Accounted(s)
    requires s'.accepted == s.accepted && s'.queue == s.queue && Handed(s') == Handed(s) && s'.evicted == s.evicted
    ensures Accounted(s')
  {
    hide Interleaves, Handed;
    NoneTaken(s, s');
  }

  lemma {:induction false} InvAlways(cfg: Config, run: seq<State>, scope: Scope, i: nat)
    requires Run(cfg, run, scope) && i < |run|
    ensures Inv(cfg, run[i])
  {
    hide Inv, Possible, Apply;
    if i == 0 {
      InitInv(cfg);
    } else {
      InvAlways(cfg, run, scope, i - 1);
      assert NextAt(cfg, run, i - 1, scope);
      var a :| Possible(cfg, run[i - 1], a) && Allowed(scope, a) && run[i] == Apply(cfg, run[i - 1], a);
      StepKeeps(cfg, run[i - 1], a);
    }
  }

  lemma InitInv(cfg: Config)
    ensures Inv(cfg, INIT)
  {
    assert Taken(INIT) == [] && Handed(INIT) == [];
  }

  /** `part` is found in `whole` in order, at the places `at`. */
  ghost predicate FoundAt(part: seq<Frame>, whole: seq<Frame>, at: seq<nat>) {
    && |at| == |part|
    && (forall i :: 0 <= i < |at| ==> at[i] < |whole| && part[i] == whole[at[i]])
    && forall i, j :: 0 <= i < j < |at| ==> at[i] < at[j]
  }

  ghost predicate Subsequence(part: seq<Frame>, whole: seq<Frame>) {
    exists at :: FoundAt(part, whole, at)
  }

  lemma {:induction false} MergedInOrder(whole: seq<Frame>, a: seq<Frame>, b: seq<Frame>) returns (at: seq<nat>)
    requires Interleaves(whole, a, b)
    ensures FoundAt(a, whole, at)
  {
    at := [];
    if whole != [] {
      var n := |whole| - 1;
      if a != [] && whole[n] == a[|a| - 1] && Interleaves(whole[..n], a[..|a| - 1], b) {
        at := MergedInOrder(whole[..n], a[..|a| - 1], b);
        at := at + [n];
      } else {
        at := MergedInOrder(whole[..n], a, b[..|b| - 1]);
      }
    }
  }

  lemma {:induction false} MergedOnce(whole: seq<Frame>, a: seq<Frame>, b: seq<Frame>)
    requires Interleaves(whole, a, b)
    ensures multiset(whole) == multiset(a) + multiset(b)
  {
    if whole != [] {
      var n := |whole| - 1;
      assert whole == whole[..n] + [whole[n]];
      if a != [] && whole[n] == a[|a| - 1] && Interleaves(whole[..n], a[..|a| - 1], b) {
        MergedOnce(whole[..n], a[..|a| - 1], b);
        assert a == a[..|a| - 1] + [whole[n]];
      } else {
        MergedOnce(whole[..n], a, b[..|b| - 1]);
        assert b == b[..|b| - 1] + [whole[n]];
      }
    }
  }

  /**
   In every state of every run the queue holds the newest accepted frames, within the capacity; every
   accepted frame has been taken by the reader once, or evicted once, or is still queued; and what is
   written to the socket keeps the order of acceptance.
   */
  lemma Conservation(cfg: Config, run: seq<State>, i: nat)
    requires Run(cfg, run, Everyone) && i < |run|
    ensures var s := run[i];
            && |s.queue| <= cfg.capacity
            && |s.queue| <= |s.accepted| && s.queue == s.accepted[|s.accepted| - |s.queue|..]
            && multiset(s.accepted) == multiset(Handed(s)) + multiset(s.evicted) + multiset(s.queue)
            && Subsequence(s.wire, s.accepted)
            && |Handed(s)| <= |s.wire| + 1
            && s.closers <= 1
  {
    hide Interleaves;
    var s := run[i];
    InvAlways(cfg, run, Everyone, i);
    var at := MergedInOrder(Taken(s), Handed(s), s.evicted);
    MergedOnce(Taken(s), Handed(s), s.evicted);
    assert FoundAt(s.wire, s.accepted, at[..|s.wire|]);
  }

  /** Only `DropOldest` loses accepted frames: otherwise they are all taken in order or still queued. */
  lemma NothingEvicted(cfg: Config, run: seq<State>, i: nat)
    requires Run(cfg, run, Everyone) && i < |run| && cfg.strategy != DropOldest
    ensures run[i].accepted == Handed(run[i]) + run[i].queue
  {
    InvAlways(cfg, run, Everyone, i);
    OnlyHanded(Taken(run[i]), Handed(run[i]));
  }

  lemma {:induction false} OnlyHanded(whole: seq<Frame>, a: seq<Frame>)
    requires Interleaves(whole, a, [])
    ensures whole == a
  {
    if whole != [] {
      var n := |whole| - 1;
      OnlyHanded(whole[..n], a[..|a| - 1]);
      assert whole == whole[..n] + [whole[n]] && a == a[..|a| - 1] + [whole[n]];
    }
  }

  // ---------------------------------------------------------------- what a caller is told

  predicate Calling(s: State, t: Tid) {
    t in s.senders && !s.senders[t].Returned?
  }

  /** The call of `t` takes a step with its frame `m`: it begins, or it goes on. */
  predicate Steps(s: State, s': State, t: Tid, m: Frame) {
    && t in s'.senders && s'.senders == s.senders[t := s'.senders[t]]
    && (Calling(s, t) ==> s.senders[t].m == m)
    && (Calling(s', t) ==> s'.senders[t].m == m)
  }

  /** Nothing but the callers' places, and who is told to close, is touched. */
  predicate Ignored(s: State, s': State) {
    s' == s.(senders := s'.senders, cleaningUp := s'.cleaningUp, closers := s'.closers)
  }

  /**
   What a step of the call of `t` tells its caller. It answers true exactly if it hands `m` over. It answers
   false on an open connection only if there is no room; then it leaves everything alone, but that a slow
   client has been told to close, once, if that is the strategy. A call on a closed connection is refused.
   */
  predicate Tells(cfg: Config, s: State, s': State, t: Tid, m: Frame) {
    && Steps(s, s', t, m)
    && s'.accepted == s.accepted + (if s'.senders[t] == Returned(true) then [m] else [])
    && (s'.senders[t] == Returned(true) ==> Calling(s, t))
    && (s'.senders[t] == Returned(false) ==>
          && Ignored(s, s')
          && (s.closed || !CanSend(cfg, s))
          && (if !s.closed && cfg.strategy.DropSlowClient? then s'.cleaningUp && s'.closers == 1
              else s'.cleaningUp == s.cleaningUp && s'.closers == s.closers))
    && (s.closed && !Calling(s, t) ==> s'.senders[t] == Returned(false))
    && (Calling(s, t) ==> StepsLeft(s'.senders[t]) < StepsLeft(s.senders[t]))
  }

  /** A call is over after at most three steps. */
  function StepsLeft(c: Sender): nat {
    match c case Selecting(_) => 3 case Evicting(_) => 2 case Resending(_) => 1 case Returned(_) => 0
  }

  predicate GoesOn(s: State, a: Action, t: Tid) {
    Calling(s, t) && a in [SelectDone(t), SelectSend(t), SelectDefault(t), Evict(t), Resend(t)]
  }

  /** What an action tells the caller whose step it is; the reader's and the close tell nobody anything. */
  ghost predicate Truthful(cfg: Config, s: State, a: Action, s': State) {
    && (a.Call? ==> Tells(cfg, s, s', a.t, a.m))
    && (forall t :: GoesOn(s, a, t) ==> Tells(cfg, s, s', t, s.senders[t].m))
    && (!a.Call? && (forall t :: !GoesOn(s, a, t)) ==> s'.senders == s.senders && s'.accepted == s.accepted)
  }

  lemma AcceptTells(cfg: Config, s: State, t: Tid)
    requires Calling(s, t) && CanSend(cfg, s)
    ensures Tells(cfg, s, Accept(s, t, s.senders[t].m), t, s.senders[t].m)
  {
  }

  lemma FullTells(cfg: Config, s: State, t: Tid)
    requires Calling(s, t) && s.senders[t].Selecting? && !s.closed && !CanSend(cfg, s)
    requires s.closers == (if s.cleaningUp then 1 else 0)
    ensures Tells(cfg, s, OnFull(cfg, s, t, s.senders[t].m), t, s.senders[t].m)
  {
  }

  lemma CallTells(cfg: Config, s: State, a: Action, t: Tid, m: Frame)
    requires Inv(cfg, s) && Possible(cfg, s, a)
    requires a == Call(t, m) || (GoesOn(s, a, t) && m == s.senders[t].m)
    ensures Tells(cfg, s, Apply(cfg, s, a), t, m)
  {
    hide Accounted, Accept, OnFull;
    if a.SelectSend? || (a.Resend? && CanSend(cfg, s)) {
      AcceptTells(cfg, s, t);
    } else if a.SelectDefault? {
      FullTells(cfg, s, t);
    }
  }

  lemma StepTells(cfg: Config, s: State, a: Action)
    requires Inv(cfg, s) && Possible(cfg, s, a)
    ensures Truthful(cfg, s, a, Apply(cfg, s, a))
  {
    hide Inv, Tells;
    forall t | GoesOn(s, a, t)
      ensures Tells(cfg, s, Apply(cfg, s, a), t, s.senders[t].m)
    {
      CallTells(cfg, s, a, t, s.senders[t].m);
    }
    match a
    case Call(t, m) => CallTells(cfg, s, a, t, m);
    case SelectDone(t) => assert GoesOn(s, a, t);
    case SelectSend(t) => assert GoesOn(s, a, t);
    case SelectDefault(t) => assert GoesOn(s, a, t);
    case Evict(t) => assert GoesOn(s, a, t);
    case Resend(t) => assert GoesOn(s, a, t);
    case _ =>
  }

  /** Every step of every run tells its caller the truth. */
  lemma AnswersTrue(cfg: Config, run: seq<State>, i: nat)
    requires Run(cfg, run, Everyone) && i + 1 < |run|
    ensures exists a :: Possible(cfg, run[i], a) && Truthful(cfg, run[i], a, run[i + 1])
  {
    hide Inv, Possible, Apply, Truthful;
    InvAlways(cfg, run, Everyone, i);
    assert NextAt(cfg, run, i, Everyone);
    var a :| Possible(cfg, run[i], a) && Allowed(Everyone, a) && run[i + 1] == Apply(cfg, run[i], a);
    StepTells(cfg, run[i], a);
  }

  /** A caller never waits: it can always take its next step. */
  lemma NeverWaits(cfg: Config, s: State, t: Tid) returns (a: Action)
    requires Calling(s, t)
    ensures Possible(cfg, s, a) && GoesOn(s, a, t)
  {
    a := match s.senders[t]
      case Selecting(_) =>
        if s.closed then SelectDone(t) else if CanSend(cfg, s) then SelectSend(t) else SelectDefault(t)
      case Evicting(_) => Evict(t)
      case Resending(_) => Resend(t);
  }

  // ---------------------------------------------------------------- the reader gets on

  /** From `s` on, only the reader has acted; it is waiting, and all that was queued is written. */
  ghost predicate Drained(s: State, s': State) {
    s' == s.(reader := Waiting, queue := [], wire := s.wire + Reading(s) + s.queue)
  }

  function Reading(s: State): seq<Frame> {
    if s.reader.Writing? then [s.reader.m] else []
  }

  /** The reader's next step, of at most three a frame, and what is left of the draining after it. */
  lemma ReaderStep(cfg: Config, s: State) returns (a: Action)
    requires !s.reader.Gone? && !(s.reader.Waiting? && s.queue == [])
    ensures Possible(cfg, s, a) && Allowed(OpenTo({}), a)
    ensures var s' := Apply(cfg, s, a);
            && !s'.reader.Gone? && ReaderSteps(s') < ReaderSteps(s)
            && forall e :: Drained(s', e) ==> Drained(s, e)
  {
    a := if s.reader.Waiting? then Receive else if s.reader.Elsewhere? then Arrive else Wrote;
    assert s.queue != [] ==> s.queue == s.queue[..1] + s.queue[1..];
  }

  function ReaderSteps(s: State): nat {
    3 * |s.queue| + match s.reader case Writing(_) => 2 case Elsewhere => 1 case _ => 0
  }

  /** As long as the reader is there it can write the whole queue to the socket, oldest frame first. */
  lemma {:induction false} Drains(cfg: Config, run: seq<State>, scope: Scope) returns (longer: seq<State>)
    requires Run(cfg, run, scope) && |run| > 0 && !run[|run| - 1].reader.Gone?
    ensures run <= longer && Run(cfg, longer, scope) && Drained(run[|run| - 1], longer[|longer| - 1])
    decreases ReaderSteps(run[|run| - 1])
  {
    hide Run, Apply, Possible, ReaderSteps;
    var s := run[|run| - 1];
    if s.reader.Waiting? && s.queue == [] {
      longer := run;
    } else {
      var a := ReaderStep(cfg, s);
      Extend(cfg, scope, run, a);
      longer := Drains(cfg, run + [Apply(cfg, s, a)], scope);
    }
  }

  // ---------------------------------------------------------------- after the close

  predicate Quiet(s: State) {
    s.closed && forall t :: t in s.senders ==> s.senders[t].Returned?
  }

  /** Once `done` is closed and the sends under way have returned, nothing more is ever accepted. */
  lemma {:induction false} NothingAfterClose(cfg: Config, run: seq<State>, i: nat, j: nat)
    requires Run(cfg, run, Everyone) && i <= j < |run| && Quiet(run[i])
    ensures Quiet(run[j]) && run[j].accepted == run[i].accepted
    decreases j
  {
    if i < j {
      NothingAfterClose(cfg, run, i, j - 1);
      assert NextAt(cfg, run, j - 1, Everyone);
    }
  }

  /** And every run can come to that: the connection closes, and the reader stops. */
  lemma ClosesDown(cfg: Config, run: seq<State>) returns (longer: seq<State>)
    requires Run(cfg, run, Everyone) && |run| > 0
    ensures run <= longer && Run(cfg, longer, Everyone)
    ensures var s, s' := run[|run| - 1], longer[|longer| - 1];
            s'.closed && s'.reader.Gone? && s'.senders == s.senders && s'.accepted == s.accepted
  {
    hide Run;
    longer := run;
    if !longer[|longer| - 1].closed {
      longer := Longer(cfg, longer, Close);
    }
    if longer[|longer| - 1].reader.Writing? {
      longer := Longer(cfg, longer, Wrote);
    }
    if !longer[|longer| - 1].reader.Gone? {
      longer := Longer(cfg, longer, StopReader);
    }
  }

  /** A write may fail: the frame is lost, and the reader is gone. */
  lemma Fails(cfg: Config, run: seq<State>) returns (longer: seq<State>)
    requires Run(cfg, run, Everyone) && |run| > 0 && run[|run| - 1].reader.Writing?
    ensures run <= longer && Run(cfg, longer, Everyone)
    ensures var s := run[|run| - 1];
            longer[|longer| - 1] == s.(reader := Gone, lost := s.lost + [s.reader.m])
  {
    hide Run;
    longer := Longer(cfg, run, WriteFailed);
  }

  lemma Longer(cfg: Config, run: seq<State>, a: Action) returns (longer: seq<State>)
    requires Run(cfg, run, Everyone) && |run| > 0 && Possible(cfg, run[|run| - 1], a)
    ensures run <= longer && |longer| > 0 && Run(cfg, longer, Everyone)
    ensures longer[|longer| - 1] == Apply(cfg, run[|run| - 1], a)
  {
    Extend(cfg, Everyone, run, a);
    longer := run + [Apply(cfg, run[|run| - 1], a)];
  }

  // ---------------------------------------------------------------- when DropOldest refuses

  ghost predicate Refuses(run: seq<State>) {
    exists i: nat, t: Tid :: i < |run| && t in run[i].senders && run[i].senders[t] == Returned(false)
  }

  /** Room for the resend: nothing can fill the queue between one producer's eviction and its resend. */
  ghost predicate Alone(cfg: Config, p: Tid, s: State) {
    && !s.closed
    && s.senders.Keys <= {p}
    && (p in s.senders && s.senders[p].Resending? ==> |s.queue| < cfg.capacity)
    && !(p in s.senders && s.senders[p] == Returned(false))
    && |s.queue| <= cfg.capacity
  }

  lemma AloneKeeps(cfg: Config, producers: set<Tid>, p: Tid, s: State, a: Action)
    requires cfg.strategy == DropOldest && cfg.capacity >= 1 && producers <= {p}
    requires Alone(cfg, p, s) && Possible(cfg, s, a) && Allowed(OpenTo(producers), a)
    ensures Alone(cfg, p, Apply(cfg, s, a))
  {
  }

  lemma {:induction false} AloneAlways(cfg: Config, producers: set<Tid>, p: Tid, run: seq<State>, i: nat)
    requires cfg.strategy == DropOldest && cfg.capacity >= 1 && producers <= {p}
    requires Run(cfg, run, OpenTo(producers)) && i < |run|
    ensures Alone(cfg, p, run[i])
  {
    hide Alone, Possible, Apply;
    if i == 0 {
      InitAlone(cfg, p);
    } else {
      AloneAlways(cfg, producers, p, run, i - 1);
      assert NextAt(cfg, run, i - 1, OpenTo(producers));
      var a :| Possible(cfg, run[i - 1], a) && Allowed(OpenTo(producers), a) && run[i] == Apply(cfg, run[i - 1], a);
      AloneKeeps(cfg, producers, p, run[i - 1], a);
    }
  }

  lemma InitAlone(cfg: Config, p: Tid)
    ensures Alone(cfg, p, INIT)
  {
  }

  predicate AtMostOne(producers: set<Tid>) {
    forall t, u :: t in producers && u in producers ==> t == u
  }

  /** The run goes on with `a`. */
  lemma Extend(cfg: Config, scope: Scope, run: seq<State>, a: Action)
    requires Run(cfg, run, scope) && Possible(cfg, run[|run| - 1], a) && Allowed(scope, a)
    ensures Run(cfg, run + [Apply(cfg, run[|run| - 1], a)], scope)
  {
    hide Possible, Apply;
    var run' := run + [Apply(cfg, run[|run| - 1], a)];
    forall i: nat | i + 1 < |run'|
      ensures NextAt(cfg, run', i, scope)
    {
      if i + 1 < |run| {
        assert NextAt(cfg, run, i, scope);
      } else {
        assert run'[i + 1] == Apply(cfg, run'[i], a);
      }
    }
  }

  /** The reader has not arrived yet and `p` has queued `k` frames. */
  function Queued(p: Tid, k: nat): State {
    var frames := seq(k, i => 0);
    INIT.(queue := frames, accepted := frames, senders := if k == 0 then map[] else map[p := Returned(true)])
  }

  lemma {:induction false} FillQueue(cfg: Config, producers: set<Tid>, p: Tid, k: nat) returns (run: seq<State>)
    requires p in producers && k <= cfg.capacity
    ensures Run(cfg, run, OpenTo(producers)) && run[|run| - 1] == Queued(p, k)
  {
    if k == 0 {
      run := [INIT];
    } else {
      run := FillQueue(cfg, producers, p, k - 1);
      run := Take(cfg, producers, run, Call(p, 0));
      run := Take(cfg, producers, run, SelectSend(p));
      assert run[|run| - 1] == Queued(p, k);
    }
  }

  lemma Take(cfg: Config, producers: set<Tid>, run: seq<State>, a: Action) returns (run': seq<State>)
    requires Run(cfg, run, OpenTo(producers)) && Possible(cfg, run[|run| - 1], a) && Allowed(OpenTo(producers), a)
    ensures Run(cfg, run', OpenTo(producers)) && |run'| > 0
    ensures run'[|run'| - 1] == Apply(cfg, run[|run| - 1], a)
  {
    Extend(cfg, OpenTo(producers), run, a);
    run' := run + [Apply(cfg, run[|run| - 1], a)];
  }

  /** Two producers: the other one takes the room the eviction made. */
  lemma TwoProducersRefuse(cfg: Config, producers: set<Tid>, p: Tid, q: Tid) returns (run: seq<State>)
    requires cfg.strategy == DropOldest && cfg.capacity >= 1 && p in producers && q in producers && p != q
    ensures Run(cfg, run, OpenTo(producers)) && Refuses(run)
  {
    hide Run;
    run := FillQueue(cfg, producers, p, cfg.capacity);
    run := Take(cfg, producers, run, Call(p, 0));
    run := Take(cfg, producers, run, SelectDefault(p));
    run := Take(cfg, producers, run, Evict(p));
    run := Take(cfg, producers, run, Call(q, 0));
    run := Take(cfg, producers, run, SelectSend(q));
    run := Take(cfg, producers, run, Resend(p));
    assert run[|run| - 1].senders[p] == Returned(false);
  }

  /** No room at all: the eviction finds nothing. */
  lemma UnbufferedRefuses(cfg: Config, producers: set<Tid>, p: Tid) returns (run: seq<State>)
    requires cfg.strategy == DropOldest && cfg.capacity == 0 && p in producers
    ensures Run(cfg, run, OpenTo(producers)) && Refuses(run)
  {
    run := FillQueue(cfg, producers, p, 0);
    run := Take(cfg, producers, run, Call(p, 0));
    run := Take(cfg, producers, run, SelectDefault(p));
    run := Take(cfg, producers, run, Evict(p));
    run := Take(cfg, producers, run, Resend(p));
    assert run[|run| - 1].senders[p] == Returned(false);
  }

  /**
   On an open connection `DropOldest` never refuses a frame exactly if the queue has room for one and at
   most one goroutine sends.
   */
  lemma DropOldestNeverRefuses(cfg: Config, producers: set<Tid>)
    requires cfg.strategy == DropOldest && producers != {}
    ensures (forall run :: Run(cfg, run, OpenTo(producers)) ==> !Refuses(run)) <==>
        cfg.capacity >= 1 && AtMostOne(producers)
  {
    hide Run;
    var p := AnElement(producers);
    if AtMostOne(producers) {
      forall t: Tid | t in producers
        ensures t == p
      {
      }
      assert producers <= {p};
    }
    if cfg.capacity == 0 {
      var run := UnbufferedRefuses(cfg, producers, p);
    } else if !AtMostOne(producers) {
      var t, u :| t in producers && u in producers && t != u;
      var run := TwoProducersRefuse(cfg, producers, t, u);
    } else {
      forall run: seq<State> | Run(cfg, run, OpenTo(producers))
        ensures !Refuses(run)
      {
        forall i: nat, t: Tid | i < |run| && t in run[i].senders
          ensures run[i].senders[t] != Returned(false)
        {
          AloneAlways(cfg, producers, p, run, i);
        }
      }
    }
  }
}
