/**
 The token bucket that limits join and leave requests, in the three servers (server/go/conn.go,
 server/rust/src/conn.rs, server/node/conn.js). It keeps two numbers; its meaning is a check over
 every window of the past. Floats are modelled as reals and clock readings do not decrease.
 */
module TokenBucket {
  datatype Bucket = Bucket(tokens: real, last: real)

  const DEFAULT_RATE := 10.0
  const DEFAULT_BURST := 20.0

  function OrDefault(x: real, default: real): real {
    if x > 0.0 then x else default
  }

  // ---------------------------------------------------------------- specification

  /** What a bucket gains in `elapsed` seconds. */
  function Gain(rate: real, elapsed: real): real {
    elapsed * rate
  }

  /** Tokens at time `now`, before the attempt is charged. */
  function Refilled(b: Bucket, rate: real, burst: real, now: real): real {
    var t := b.tokens + Gain(rate, now - b.last);
    if t > burst then burst else t
  }

  function Attempt(b: Bucket, rate: real, burst: real, now: real): (Bucket, bool) {
    var t := Refilled(b, rate, burst, now);
    if t >= 1.0 then (Bucket(t - 1.0, now), true) else (Bucket(t, now), false)
  }

  /** The bucket after attempts at `times`, and the decisions made. */
  function Attempts(b: Bucket, rate: real, burst: real, times: seq<real>): (r: (Bucket, seq<bool>))
    ensures |r.1| == |times|
  {
    if |times| == 0 then (b, [])
    else
      var n := |times| - 1;
      var (b', before) := Attempts(b, rate, burst, times[..n]);
      var (b'', ok) := Attempt(b', rate, burst, times[n]);
      (b'', before + [ok])
  }

  function Decisions(b: Bucket, rate: real, burst: real, times: seq<real>): (d: seq<bool>)
    ensures |d| == |times|
  {
    Attempts(b, rate, burst, times).1
  }

  /** How many of the attempts `from`, ..., `to - 1` are admitted. */
  function Admitted(d: seq<bool>, from: nat, to: nat): nat
    requires to <= |d|
  {
    if to <= from then 0 else Admitted(d, from, to - 1) + (if d[to - 1] then 1 else 0)
  }

  ghost predicate Nondecreasing(start: real, times: seq<real>) {
    && (forall i :: 0 <= i < |times| ==> start <= times[i])
    && (forall i, j :: 0 <= i <= j < |times| ==> times[i] <= times[j])
  }

  /**
   One more admission at attempt `n` keeps the window that starts at attempt `j` within its allowance: the
   burst, and `rate` for every second the window lasts.
   */
  ghost predicate Fits(d: seq<bool>, rate: real, burst: real, times: seq<real>, j: nat, n: nat)
    requires j <= n < |times| <= |d|
  {
    Admitted(d, j, n) as real + 1.0 <= burst + rate * (times[n] - times[j])
  }

  /** The plain meaning of the limiter: one more admission keeps every window within its allowance. */
  ghost predicate FitsAllWindows(d: seq<bool>, rate: real, burst: real, times: seq<real>, n: nat)
    requires n < |times| <= |d|
  {
    forall j: nat :: j <= n ==> Fits(d, rate, burst, times, j, n)
  }

  // ---------------------------------------------------------------- the bucket is the tightest window

  /** What is left of the window that starts at attempt `j`, after `n` attempts. */
  ghost function Slack(d: seq<bool>, rate: real, burst: real, times: seq<real>, j: nat, n: nat, now: real): real
    requires j < n <= |times| && n <= |d|
  {
    burst + rate * (now - times[j]) - Admitted(d, j, n) as real
  }

  lemma AdmittedPrefix(d: seq<bool>, e: seq<bool>, j: nat, n: nat)
    requires n <= |d| && n <= |e| && (forall i :: 0 <= i < n ==> d[i] == e[i])
    ensures Admitted(d, j, n) == Admitted(e, j, n)
  {
  }

  lemma PrefixNondecreasing(start: real, times: seq<real>, n: nat)
    requires Nondecreasing(start, times) && n <= |times|
    ensures Nondecreasing(start, times[..n])
  {
    var p := times[..n];
    assert forall i :: 0 <= i < n ==> p[i] == times[i];
  }

  lemma Spread(rate: real, a: real, b: real, c: real)
    ensures rate * (c - a) == rate * (b - a) + Gain(rate, c - b)
  {
  }

  lemma Grows(rate: real, elapsed: real)
    requires rate > 0.0 && elapsed >= 0.0
    ensures Gain(rate, elapsed) >= 0.0
  {
  }

  /** The window that starts now is the whole burst, less this admission. */
  lemma NewWindow(d: seq<bool>, rate: real, burst: real, times: seq<real>, n: nat)
    requires |d| == |times| == n + 1
    ensures Slack(d, rate, burst, times, n, n + 1, times[n]) == burst - (if d[n] then 1.0 else 0.0)
    ensures Fits(d, rate, burst, times, n, n) <==> 1.0 <= burst
  {
    assert times[n] - times[n] == 0.0;
    assert Admitted(d, n, n) == 0;
    assert Admitted(d, n, n + 1) == if d[n] then 1 else 0;
  }

  ghost predicate Tight(b: Bucket, d: seq<bool>, rate: real, burst: real, times: seq<real>)
    requires |d| == |times|
  {
    var n := |times|;
    && (forall j: nat :: j < n ==> b.tokens <= Slack(d, rate, burst, times, j, n, b.last))
    && (if n == 0 then b.tokens == burst else exists j: nat ::
        j < n && b.tokens == Slack(d, rate, burst, times, j, n, b.last))
  }

  /** A bucket that started full always holds the smallest slack of all windows. */
  lemma {:induction false} BucketTight(start: real, rate: real, burst: real, times: seq<real>)
    requires Nondecreasing(start, times) && rate > 0.0
    ensures var (b, d) := Attempts(Bucket(burst, start), rate, burst, times);
            && b.last == (if |times| == 0 then start else times[|times| - 1])
            && Tight(b, d, rate, burst, times)
  {
    if |times| > 0 {
      var n := |times| - 1;
      PrefixNondecreasing(start, times, n);
      BucketTight(start, rate, burst, times[..n]);
      var (b, d) := Attempts(Bucket(burst, start), rate, burst, times[..n]);
      TightStep(b, d, rate, burst, times);
    }
  }

  lemma SlackMoves(d: seq<bool>, ok: bool, rate: real, burst: real, times: seq<real>, j: nat, last: real, now: real)
    requires j < |d| < |times|
    ensures Slack(d + [ok], rate, burst, times, j, |d| + 1, now)
         == Slack(d, rate, burst, times[..|d|], j, |d|, last) + Gain(rate, now - last) - (if ok then 1.0 else 0.0)
  {
    hide Gain;
    AdmittedPrefix(d, d + [ok], j, |d|);
    Spread(rate, times[j], last, now);
  }

  lemma TightStep(b: Bucket, d: seq<bool>, rate: real, burst: real, times: seq<real>)
    requires |times| == |d| + 1 && rate > 0.0
    requires Tight(b, d, rate, burst, times[..|d|])
    requires b.last <= times[|d|]
    ensures var (b', ok) := Attempt(b, rate, burst, times[|d|]);
            Tight(b', d + [ok], rate, burst, times)
  {
    var n := |d|;
    var now := times[n];
    var gain := Gain(rate, now - b.last);
    var (b', ok) := Attempt(b, rate, burst, now);
    var d' := d + [ok];
    hide Gain;
    Grows(rate, now - b.last);
    NewWindow(d', rate, burst, times, n);
    var m := n + 1;
    forall j: nat | j < m
      ensures b'.tokens <= Slack(d', rate, burst, times, j, m, now)
    {
      if j < n {
        SlackMoves(d, ok, rate, burst, times, j, b.last, now);
      }
    }
    if b.tokens + gain > burst || n == 0 {
      assert b'.tokens == Slack(d', rate, burst, times, n, n + 1, now);
    } else {
      var j: nat :| j < n && b.tokens == Slack(d, rate, burst, times[..n], j, n, b.last);
      SlackMoves(d, ok, rate, burst, times, j, b.last, now);
      assert b'.tokens == Slack(d', rate, burst, times, j, n + 1, now);
    }
  }

  lemma {:induction false} DecisionsPrefix(b: Bucket, rate: real, burst: real, times: seq<real>, n: nat)
    requires n <= |times|
    ensures Decisions(b, rate, burst, times)[..n] == Decisions(b, rate, burst, times[..n])
    decreases |times|
  {
    if n < |times| {
      var k := |times| - 1;
      DecisionsPrefix(b, rate, burst, times[..k], n);
      assert times[..k][..n] == times[..n];
      assert Decisions(b, rate, burst, times)[..k] == Decisions(b, rate, burst, times[..k]);
    } else {
      assert times[..n] == times;
    }
  }

  lemma FitsSlack(d: seq<bool>, ok: bool, rate: real, burst: real, times: seq<real>, j: nat, last: real, now: real)
    requires j < |d| && |times| == |d| + 1 && now == times[|d|]
    ensures Fits(d + [ok], rate, burst, times, j, |d|) <==>
              1.0 <= Slack(d, rate, burst, times[..|d|], j, |d|, last) + Gain(rate, now - last)
  {
    hide Gain;
    AdmittedPrefix(d, d + [ok], j, |d|);
    Spread(rate, times[j], last, now);
  }

  /** One attempt against a tight bucket is admitted exactly when every window allows it. */
  lemma AdmitExactly(b: Bucket, d: seq<bool>, rate: real, burst: real, times: seq<real>)
    requires |times| == |d| + 1 && rate > 0.0
    requires Tight(b, d, rate, burst, times[..|d|])
    requires b.last <= times[|d|]
    ensures var (_, ok) := Attempt(b, rate, burst, times[|d|]);
            ok <==> FitsAllWindows(d + [ok], rate, burst, times, |d|)
  {
    var n := |d|;
    var now := times[n];
    var gain := Gain(rate, now - b.last);
    var (_, ok) := Attempt(b, rate, burst, now);
    var d' := d + [ok];
    hide Gain;
    Grows(rate, now - b.last);
    NewWindow(d', rate, burst, times, n);
    var t := Refilled(b, rate, burst, now);
    assert t == (if b.tokens + gain > burst then burst else b.tokens + gain);
    assert ok <==> t >= 1.0;
    assert ok <==> (1.0 <= burst && 1.0 <= b.tokens + gain);
    hide Fits, Slack;
    forall j: nat | j < n
      ensures Fits(d', rate, burst, times, j, n) <==> 1.0 <= Slack(d, rate, burst, times[..n], j, n, b.last) + gain
    {
      FitsSlack(d, ok, rate, burst, times, j, b.last, now);
    }
    if n > 0 {
      var j: nat :| j < n && b.tokens == Slack(d, rate, burst, times[..n], j, n, b.last);
      assert Fits(d', rate, burst, times, j, n) <==> 1.0 <= b.tokens + gain;
    }
  }

  /**
   Exactness: attempt `n` is admitted exactly when, for every earlier attempt `j`, the admissions among
   `j`, ..., `n - 1` plus one are at most `burst + rate * (t_n - t_j)`.
   */
  lemma Exactness(start: real, rate: real, burst: real, times: seq<real>, n: nat)
    requires Nondecreasing(start, times) && rate > 0.0 && n < |times|
    ensures var d := Decisions(Bucket(burst, start), rate, burst, times);
            d[n] <==> FitsAllWindows(d, rate, burst, times, n)
  {
    var full := Bucket(burst, start);
    var upTo := times[..n + 1];
    assert upTo[..n] == times[..n];
    PrefixNondecreasing(start, times, n);
    BucketTight(start, rate, burst, times[..n]);
    var (b, before) := Attempts(full, rate, burst, times[..n]);
    AdmitExactly(b, before, rate, burst, upTo);
    DecisionsPrefix(full, rate, burst, times, n + 1);
    WindowsPrefix(Decisions(full, rate, burst, times), rate, burst, times, n);
  }

  lemma WindowsPrefix(d: seq<bool>, rate: real, burst: real, times: seq<real>, n: nat)
    requires n < |times| == |d|
    ensures FitsAllWindows(d, rate, burst, times, n) <==> FitsAllWindows(d[..n + 1], rate, burst, times[..n + 1], n)
  {
    var e, upTo := d[..n + 1], times[..n + 1];
    forall j: nat | j <= n
      ensures Fits(d, rate, burst, times, j, n) <==> Fits(e, rate, burst, upTo, j, n)
    {
      AdmittedPrefix(d, e, j, n);
    }
  }

  // ---------------------------------------------------------------- optimality

  lemma {:induction false} AdmittedSplit(d: seq<bool>, j: nat, n: nat)
    requires j <= n <= |d|
    ensures Admitted(d, 0, n) == Admitted(d, 0, j) + Admitted(d, j, n)
  {
    if j < n {
      AdmittedSplit(d, j, n - 1);
    }
  }

  /** A policy that admits no attempt some window does not allow. */
  ghost predicate Obeys(p: seq<bool>, rate: real, burst: real, times: seq<real>)
    requires |p| == |times|
  {
    forall n: nat :: n < |times| && p[n] ==> FitsAllWindows(p, rate, burst, times, n)
  }

  /** The limiter itself is such a policy. */
  lemma LimiterObeys(start: real, rate: real, burst: real, times: seq<real>)
    requires Nondecreasing(start, times) && rate > 0.0
    ensures Obeys(Decisions(Bucket(burst, start), rate, burst, times), rate, burst, times)
  {
    forall n: nat | n < |times|
      ensures var d := Decisions(Bucket(burst, start), rate, burst, times);
              d[n] ==> FitsAllWindows(d, rate, burst, times, n)
    {
      Exactness(start, rate, burst, times, n);
    }
  }

  /** And the best one: no obedient policy is ever ahead of it. */
  lemma {:induction false} Optimality(start: real, rate: real, burst: real, times: seq<real>, p: seq<bool>, n: nat)
    requires Nondecreasing(start, times) && rate > 0.0
    requires |p| == |times| && Obeys(p, rate, burst, times) && n <= |times|
    ensures Admitted(p, 0, n) <= Admitted(Decisions(Bucket(burst, start), rate, burst, times), 0, n)
    decreases n
  {
    var d := Decisions(Bucket(burst, start), rate, burst, times);
    if n > 0 {
      var k := n - 1;
      Optimality(start, rate, burst, times, p, k);
      if p[k] && !d[k] {
        Exactness(start, rate, burst, times, k);
        var j: nat :| j <= k && !Fits(d, rate, burst, times, j, k);
        assert Fits(p, rate, burst, times, j, k);
        Optimality(start, rate, burst, times, p, j);
        AdmittedSplit(p, j, k);
        AdmittedSplit(d, j, k);
      }
    }
  }

  // ---------------------------------------------------------------- the three implementations

  /**
   The limiter state of a connection. The three servers differ in how they start it; `times` and
   `admitted` record the attempts and decisions so far.
   */
  class ControlLimiter {
    var tokens: real
    var last: real
    const rate: real
    const burst: real
    ghost const first: Bucket
    ghost var times: seq<real>
    ghost var admitted: seq<bool>

    ghost predicate Valid()
      reads this
    {
      && rate > 0.0 && burst > 0.0
      && Attempts(first, rate, burst, times) == (Bucket(tokens, last), admitted)
    }

    /** newConnection (conn.go:402-416), with the defaults of conn.go:87-94; the burst is an integer. */
    constructor Go(controlRateLimit: real, controlBurst: int, now: real)
      ensures Valid() && times == [] && first == Bucket(burst, now)
      ensures rate == OrDefault(controlRateLimit, DEFAULT_RATE) &&
          burst == OrDefault(controlBurst as real, DEFAULT_BURST)
    {
      var b := controlBurst as real;
      if b <= 0.0 {
        b := 20.0;
      }
      rate := if controlRateLimit <= 0.0 then 10.0 else controlRateLimit;
      burst := b;
      tokens, last := b, now;
      first, times, admitted := Bucket(b, now), [], [];
    }

    /** with_rate_limit (conn.rs:98-124): the tokens start at the given burst, not at the one in force. */
    constructor Rust(givenRate: real, givenBurst: real, now: real)
      ensures Valid() && times == [] && first == Bucket(givenBurst, now)
      ensures rate == OrDefault(givenRate, DEFAULT_RATE) && burst == OrDefault(givenBurst, DEFAULT_BURST)
    {
      tokens, last := givenBurst, now;
      rate := if givenRate > 0.0 then givenRate else 10.0;
      burst := if givenBurst > 0.0 then givenBurst else 20.0;
      first, times, admitted := Bucket(givenBurst, now), [], [];
    }

    /** create_conn (conn.js:48-65). */
    constructor Node(controlRateLimit: real, controlBurst: real, now: real)
      ensures Valid() && times == [] && first == Bucket(burst, now)
      ensures rate == OrDefault(controlRateLimit, DEFAULT_RATE) && burst == OrDefault(controlBurst, DEFAULT_BURST)
    {
      var b := if controlBurst > 0.0 then controlBurst else 20.0;
      rate := if controlRateLimit > 0.0 then controlRateLimit else 10.0;
      burst := b;
      tokens, last := b, now;
      first, times, admitted := Bucket(b, now), [], [];
    }

    ghost predicate Next(ok: bool, now: real, oldTimes: seq<real>, oldAdmitted: seq<bool>)
      reads this
    {
      && Valid()
      && times == oldTimes + [now]
      && admitted == oldAdmitted + [ok]
    }

    /**
     allowControlEvent (conn.go:79-110); allow_control_event of the Node server (conn.js:99-115) is the
     same, with its milliseconds divided by 1000 in `now`.
     */
    method Allow(now: real) returns (ok: bool)
      requires Valid()
      modifies this
      ensures Next(ok, now, old(times), old(admitted))
      ensures first.tokens == burst && Nondecreasing(first.last, times) ==>
                (ok <==> FitsAllWindows(admitted, rate, burst, times, |old(times)|))
    {
      hide Gain, FitsAllWindows, Nondecreasing, Attempts;
      ghost var was := Bucket(tokens, last);
      ghost var gain := Gain(rate, now - last);
      ghost var t := Refilled(was, rate, burst, now);
      assert t == if tokens + gain > burst then burst else tokens + gain;
      Extend(now);
      var elapsed := now - last;
      last := now;
      tokens := tokens + Gain(rate, elapsed);
      assert tokens == was.tokens + gain;
      if tokens > burst {
        tokens := burst;
      }
      assert tokens == t;
      ok := false;
      if tokens >= 1.0 {
        tokens := tokens - 1.0;
        ok := true;
      }
      times, admitted := times + [now], admitted + [ok];
      LatestExact();
    }

    /** allow_control_event (conn.rs:128-141). */
    method AllowRust(now: real) returns (ok: bool)
      requires Valid()
      modifies this
      ensures Next(ok, now, old(times), old(admitted))
      ensures first.tokens == burst && Nondecreasing(first.last, times) ==>
                (ok <==> FitsAllWindows(admitted, rate, burst, times, |old(times)|))
    {
      hide Gain, FitsAllWindows, Nondecreasing, Attempts;
      ghost var was := Bucket(tokens, last);
      ghost var gain := Gain(rate, now - last);
      ghost var t := Refilled(was, rate, burst, now);
      assert t == if tokens + gain > burst then burst else tokens + gain;
      Extend(now);
      var refilled := tokens + Gain(rate, now - last);
      assert refilled == tokens + gain;
      last := now;
      tokens := if refilled < burst then refilled else burst;
      assert tokens == t;
      ok := tokens >= 1.0;
      if ok {
        tokens := tokens - 1.0;
      }
      times, admitted := times + [now], admitted + [ok];
      LatestExact();
    }

    lemma Extend(now: real)
      requires Valid()
      ensures Attempts(first, rate, burst, times + [now])
           == (Attempt(Bucket(tokens, last), rate, burst, now).0,
               admitted + [Attempt(Bucket(tokens, last), rate, burst, now).1])
    {
      assert (times + [now])[..|times|] == times;
    }

    /** Every decision a limiter that started full has made is the all-windows check. */
    lemma AlwaysExact(n: nat)
      requires Valid() && first.tokens == burst && Nondecreasing(first.last, times) && n < |times|
      ensures admitted[n] <==> FitsAllWindows(admitted, rate, burst, times, n)
    {
      Exactness(first.last, rate, burst, times, n);
    }

    lemma LatestExact()
      requires Valid() && |times| > 0
      ensures |admitted| == |times|
      ensures first.tokens == burst && Nondecreasing(first.last, times) ==>
                (admitted[|times| - 1] <==> FitsAllWindows(admitted, rate, burst, times, |times| - 1))
    {
      if first.tokens == burst && Nondecreasing(first.last, times) {
        AlwaysExact(|times| - 1);
      }
    }
  }

  /** Rust's decisions are the all-windows check, for all clock readings, exactly if the given burst is positive. */
  lemma RustExactIff(givenRate: real, givenBurst: real)
    ensures var rate, burst := OrDefault(givenRate, DEFAULT_RATE), OrDefault(givenBurst, DEFAULT_BURST);
            (forall start, times, n: nat :: Nondecreasing(start, times) && n < |times| ==>
                RustDecisionFits(givenBurst, rate, burst, start, times, n))
            <==> givenBurst > 0.0
  {
    var rate, burst := OrDefault(givenRate, DEFAULT_RATE), OrDefault(givenBurst, DEFAULT_BURST);
    if givenBurst > 0.0 {
      forall start, times, n: nat | Nondecreasing(start, times) && n < |times|
        ensures RustDecisionFits(givenBurst, rate, burst, start, times, n)
      {
        Exactness(start, rate, burst, times, n);
      }
    } else {
      RustRefusesFirst(givenBurst, rate);
      assert Nondecreasing(0.0, [0.0]);
      assert !RustDecisionFits(givenBurst, rate, burst, 0.0, [0.0], 0);
    }
  }

  ghost predicate RustDecisionFits(givenBurst: real, rate: real, burst: real, start: real, times: seq<real>, n: nat)
    requires n < |times|
  {
    var d := Decisions(Bucket(givenBurst, start), rate, burst, times);
    d[n] <==> FitsAllWindows(d, rate, burst, times, n)
  }

  /** With no burst given, an attempt at once is refused although every window allows it. */
  lemma RustRefusesFirst(givenBurst: real, rate: real)
    requires givenBurst <= 0.0
    ensures Decisions(Bucket(givenBurst, 0.0), rate, DEFAULT_BURST, [0.0]) == [false]
    ensures FitsAllWindows([false], rate, DEFAULT_BURST, [0.0], 0)
  {
    assert [0.0][..0] == [];
    assert Attempts(Bucket(givenBurst, 0.0), rate, DEFAULT_BURST, []) == (Bucket(givenBurst, 0.0), []);
  }
}
