/**
 Which orders of joining make an eviction cascade of the Node server throw and leak: there is one if and only
 if a chain of slow connections leads to a room with three of them; and small hubs in which it happens.
 */
module NodeOrders {
  import opened Finite
  import opened Wire
  import opened NodeRooms
  import opened NodeEviction

  // ---------------------------------------------------------------- the length of a chain

  lemma {:induction false} NearUp(k: Sockets, s: State, m: nat, n: nat, c: ConnId)
    requires m <= n
    ensures Near(k, s, m, c) ==> Near(k, s, n, c)
    decreases n
  {
    if m < n && Near(k, s, m, c) {
      NearUp(k, s, m, n - 1, c);
      InSomeRoom(k, s, n - 1, c);
    }
  }

  lemma InSomeRoom(k: Sockets, s: State, n: nat, c: ConnId)
    requires Near(k, s, n, c)
    ensures exists r :: c in Members(s, r)
  {
  }

  /** The length of the shortest chain, counted from `m` up. */
  ghost function Least(k: Sockets, s: State, m: nat, n: nat, c: ConnId): (d: nat)
    requires m <= n && Near(k, s, n, c) && forall j: nat :: j < m ==> !Near(k, s, j, c)
    ensures d <= n && Near(k, s, d, c) && forall j: nat :: j < d ==> !Near(k, s, j, c)
    decreases n - m
  {
    if Near(k, s, m, c) then m else Least(k, s, m + 1, n, c)
  }

  ghost function Dist(k: Sockets, s: State, n: nat, c: ConnId): (d: nat)
    requires Near(k, s, n, c)
    ensures d <= n && Near(k, s, d, c) && forall j: nat :: j < d ==> !Near(k, s, j, c)
  {
    Least(k, s, 0, n, c)
  }

  ghost predicate Onward(k: Sockets, s: State, d: nat, c: ConnId, r: Name) {
    c in Members(s, r) &&
    if d == 0 then Three(Due(k, s, r, None)) else exists x :: x in Members(s, r) && Near(k, s, d - 1, x)
  }

  /** The room a shortest chain goes through next. */
  ghost function Via(k: Sockets, s: State, n: nat, c: ConnId): (r: Name)
    requires Near(k, s, n, c)
    ensures Onward(k, s, Dist(k, s, n, c), c, r)
  {
    OnwardExists(k, s, Dist(k, s, n, c), c);
    var r :| Onward(k, s, Dist(k, s, n, c), c, r);
    r
  }

  lemma OnwardExists(k: Sockets, s: State, d: nat, c: ConnId)
    requires Near(k, s, d, c)
    ensures exists r :: Onward(k, s, d, c, r)
  {
    if d == 0 {
      var r :| c in Members(s, r) && Three(Due(k, s, r, None));
      assert Onward(k, s, d, c, r);
    } else {
      var r, x :| c in Members(s, r) && x in Members(s, r) && Near(k, s, d - 1, x);
      assert Onward(k, s, d, c, r);
    }
  }

  // ---------------------------------------------------------------- an order that lures

  /** Those with shorter chains join first, and each joins first the room its chain goes through. */
  ghost function Rank(k: Sockets, s: State, n: nat, p: (ConnId, Name)): nat {
    if !Near(k, s, n, p.0) then 2 * n + 2
    else 2 * Dist(k, s, n, p.0) + if p.1 == Via(k, s, n, p.0) then 0 else 1
  }

  ghost predicate Ordered(k: Sockets, s: State, n: nat, t: map<(ConnId, Name), nat>) {
    && t.Keys == s.tracked
    && (forall p, q :: p in t && q in t && p != q ==> t[p] != t[q])
    && forall p, q :: p in t && q in t && Rank(k, s, n, p) < Rank(k, s, n, q) ==> t[p] < t[q]
  }

  /** Nothing has happened to `x` since `s`. */
  ghost predicate Intact(s: State, u: State, x: ConnId) {
    && x !in u.closed
    && forall r :: ((x, r) in u.tracked <==> (x, r) in s.tracked) && (x in Members(u, r) <==> x in Members(s, r))
  }

  /** A cascade has come from `s` to `u`, and all with a chain as short as that of `c` are intact. */
  ghost predicate Reached(k: Sockets, s: State, n: nat, t: map<(ConnId, Name), nat>, u: State, c: ConnId)
    requires Near(k, s, n, c)
  {
    && u.since == t
    && (forall r :: Members(u, r) <= Members(s, r))
    && forall x :: Near(k, s, n, x) && Dist(k, s, n, x) <= Dist(k, s, n, c) ==> Intact(s, u, x)
  }

  /** In such an order, closing a connection with a chain lures the cascade along the chain to the crowd. */
  lemma {:induction false} Leads(k: Sockets, s: State, n: nat, t: map<(ConnId, Name), nat>, u: State, c: ConnId)
    requires Valid(k, s) && Near(k, s, n, c) && Ordered(k, s, n, t) && Reached(k, s, n, t, u, c)
    ensures Lures(k, u, Dist(k, s, n, c), c)
    decreases Dist(k, s, n, c)
  {
    hide Near, Ordered, Timed;
    var d, r := Dist(k, s, n, c), Via(k, s, n, c);
    assert Intact(s, u, c);
    ViaFirst(k, s, n, t, u, c);
    var shut := Shut(u, c);
    var v := Unjoined(shut, c, r);
    DueUnjoined(k, shut, r, c);
    DueShut(k, u, r, c);
    if d == 0 {
      CrowdMet(k, s, n, t, u, c);
    } else {
      var x := LuredOn(k, s, n, t, u, c);
      Leads(k, s, n, t, v, x);
      assert Lures(k, v, Dist(k, s, n, x), x);
    }
  }

  lemma ViaFirst(k: Sockets, s: State, n: nat, t: map<(ConnId, Name), nat>, u: State, c: ConnId)
    requires Valid(k, s) && Near(k, s, n, c) && Ordered(k, s, n, t) && u.since == t && Intact(s, u, c)
    ensures FirstRoom(Shut(u, c), c, Via(k, s, n, c))
  {
    hide Near, Timed, Due;
    var r := Via(k, s, n, c);
    forall q | (c, q) in u.tracked && q != r
      ensures Time(t, c, r) < Time(t, c, q)
    {
      assert Rank(k, s, n, (c, r)) < Rank(k, s, n, (c, q));
    }
  }

  /** At the end of the chain two others of the crowd are still open. */
  lemma CrowdMet(k: Sockets, s: State, n: nat, t: map<(ConnId, Name), nat>, u: State, c: ConnId)
    requires Near(k, s, n, c) && Dist(k, s, n, c) == 0 && Reached(k, s, n, t, u, c)
    ensures Two(Due(k, u, Via(k, s, n, c), Some(c)))
  {
    var r := Via(k, s, n, c);
    forall x | x in Due(k, s, r, None)
      ensures Intact(s, u, x)
    {
      assert Near(k, s, 0, x);
      NearUp(k, s, 0, n, x);
    }
    assert Due(k, s, r, None) - {c} <= Due(k, u, r, Some(c));
    ThreeLeavesTwo(Due(k, s, r, None), Due(k, u, r, Some(c)), c);
  }

  /** Before it, the member met first in the next room has a shorter chain. */
  lemma LuredOn(k: Sockets, s: State, n: nat, t: map<(ConnId, Name), nat>, u: State, c: ConnId) returns (x: ConnId)
    requires Valid(k, s) && Near(k, s, n, c) && Dist(k, s, n, c) > 0
    requires Ordered(k, s, n, t) && Reached(k, s, n, t, u, c)
    ensures Near(k, s, n, x) && Dist(k, s, n, x) < Dist(k, s, n, c)
    ensures var v := Unjoined(Shut(u, c), c, Via(k, s, n, c));
            && FirstMember(v, Via(k, s, n, c), Some(c), x) && Slow(k, v, x)
            && Reached(k, s, n, t, v, x)
  {
    hide Timed, Due, Ordered, Reached, FirstMember, Near;
    var r := Via(k, s, n, c);
    var v := Unjoined(Shut(u, c), c, r);
    var y := Shorter(k, s, n, t, u, c);
    x := EarliestMember(t, r, Members(v, r));
    RanksDecide(k, s, n, t, u, c, x, y);
    StillReached(k, s, n, t, u, c, x);
    FirstByTime(k, s, n, t, v, r, Some(c), x);
    SlowNear(k, s, n, x);
    assert Intact(s, v, x) by {
      IntactIfReached(k, s, n, t, v, x);
    }
  }

  lemma IntactIfReached(k: Sockets, s: State, n: nat, t: map<(ConnId, Name), nat>, u: State, c: ConnId)
    requires Near(k, s, n, c) && Reached(k, s, n, t, u, c)
    ensures Intact(s, u, c)
  {
  }

  lemma Shorter(k: Sockets, s: State, n: nat, t: map<(ConnId, Name), nat>, u: State, c: ConnId) returns (y: ConnId)
    requires Near(k, s, n, c) && Dist(k, s, n, c) > 0 && Reached(k, s, n, t, u, c)
    ensures Near(k, s, n, y) && Dist(k, s, n, y) < Dist(k, s, n, c)
    ensures y in Members(Unjoined(Shut(u, c), c, Via(k, s, n, c)), Via(k, s, n, c))
  {
    hide Near, Due;
    var d, r := Dist(k, s, n, c), Via(k, s, n, c);
    y :| y in Members(s, r) && Near(k, s, d - 1, y);
    NearUp(k, s, d - 1, n, y);
    assert Dist(k, s, n, y) <= d - 1;
    assert Intact(s, u, y);
    assert Members(Shut(u, c), r) == Members(u, r);
  }

  /** A member that is not met later than one with a shorter chain has a shorter chain itself. */
  lemma RanksDecide(k: Sockets, s: State, n: nat, t: map<(ConnId, Name), nat>, u: State, c: ConnId, x: ConnId,
      y: ConnId)
    requires Valid(k, s) && Near(k, s, n, c) && Ordered(k, s, n, t) && Reached(k, s, n, t, u, c)
    requires Near(k, s, n, y) && Dist(k, s, n, y) < Dist(k, s, n, c)
    requires var r := Via(k, s, n, c);
             && x in Members(Unjoined(Shut(u, c), c, r), r) && y in Members(Unjoined(Shut(u, c), c, r), r)
             && Time(t, x, r) <= Time(t, y, r)
    ensures Near(k, s, n, x) && Dist(k, s, n, x) < Dist(k, s, n, c)
  {
    hide Near, Timed, Due;
    var r := Via(k, s, n, c);
    assert Members(Shut(u, c), r) == Members(u, r);
    assert (x, r) in s.tracked && (y, r) in s.tracked;
    assert Rank(k, s, n, (y, r)) <= 2 * Dist(k, s, n, c) - 1;
    assert Rank(k, s, n, (x, r)) <= Rank(k, s, n, (y, r));
  }

  /** Times differ, so the earliest of the members is met first. */
  lemma FirstByTime(k: Sockets, s: State, n: nat, t: map<(ConnId, Name), nat>, u: State, r: Name,
      except: Option<ConnId>, x: ConnId)
    requires Valid(k, s) && Ordered(k, s, n, t) && u.since == t && Members(u, r) <= Members(s, r)
    requires x in Members(u, r) && Some(x) != except
    requires forall y :: y in Members(u, r) && Some(y) != except ==> Time(t, x, r) <= Time(t, y, r)
    ensures FirstMember(u, r, except, x)
  {
    hide Timed, Rank;
    forall z | z in Members(u, r) && z != x && Some(z) != except
      ensures Time(t, x, r) < Time(t, z, r)
    {
      assert (x, r) in s.tracked && (z, r) in s.tracked && (z, r) != (x, r);
    }
  }

  lemma StillReached(k: Sockets, s: State, n: nat, t: map<(ConnId, Name), nat>, u: State, c: ConnId, x: ConnId)
    requires Near(k, s, n, c) && Reached(k, s, n, t, u, c)
    requires Near(k, s, n, x) && Dist(k, s, n, x) < Dist(k, s, n, c)
    ensures var v := Unjoined(Shut(u, c), c, Via(k, s, n, c));
            v.since == t && (forall r :: Members(v, r) <= Members(s, r)) && Reached(k, s, n, t, v, x)
  {
    hide Near;
    var v := Unjoined(Shut(u, c), c, Via(k, s, n, c));
    assert forall q :: Members(Shut(u, c), q) == Members(u, q);
    forall z | Near(k, s, n, z) && Dist(k, s, n, z) <= Dist(k, s, n, x)
      ensures Intact(s, v, z)
    {
      assert Intact(s, u, z) && z != c;
    }
  }

  /** The same hub with its connections having joined at other times. */
  function Rejoined(s: State, t: map<(ConnId, Name), nat>): State {
    s.(since := t, clock := |t|)
  }

  ghost predicate Lurable(k: Sockets, s: State, name: Name, except: Option<ConnId>, t: map<(ConnId, Name), nat>) {
    && t.Keys == s.tracked && Valid(k, Rejoined(s, t))
    && exists d :: LuredBy(k, Rejoined(s, t), name, except, d)
  }

  lemma LuringOrder(k: Sockets, s: State, name: Name, except: Option<ConnId>) returns (t: map<(ConnId, Name), nat>)
    requires Valid(k, s) && !Calm(k, s, Due(k, s, name, except))
    ensures Lurable(k, s, name, except, t)
  {
    hide Near, Ordered, LuredBy;
    var n: nat, b :| b in Due(k, s, name, except) && Near(k, s, n, b);
    t := AnOrder(k, s, n);
    assert t.Keys == s.tracked by {
      OrderedKeys(k, s, n, t);
    }
    var d := LuredFirst(k, s, n, t, name, except, b);
  }

  lemma LuredFirst(k: Sockets, s: State, n: nat, t: map<(ConnId, Name), nat>, name: Name, except: Option<ConnId>,
      b: ConnId)
    returns (d: ConnId)
    requires Valid(k, s) && Ordered(k, s, n, t) && b in Due(k, s, name, except) && Near(k, s, n, b)
    ensures LuredBy(k, Rejoined(s, t), name, except, d)
  {
    hide Near, Ordered, FirstMember, Timed, Reached, Lures;
    var s' := Rejoined(s, t);
    assert forall r :: Members(s', r) == Members(s, r);
    var others := set c | c in Members(s, name) && Some(c) != except;
    assert b in others;
    d := EarliestMember(t, name, others);
    RankedNear(k, s, n, t, name, d, b);
    Untouched(k, s, n, t, d);
    Leads(k, s, n, t, s', d);
    assert forall y :: y in Members(s', name) && Some(y) != except ==> y in others;
    FirstByTime(k, s, n, t, s', name, except, d);
    SlowNear(k, s, n, d);
  }

  lemma OrderedKeys(k: Sockets, s: State, n: nat, t: map<(ConnId, Name), nat>)
    requires Ordered(k, s, n, t)
    ensures t.Keys == s.tracked
  {
  }

  lemma AnOrder(k: Sockets, s: State, n: nat) returns (t: map<(ConnId, Name), nat>)
    requires Valid(k, s)
    ensures Ordered(k, s, n, t) && Valid(k, Rejoined(s, t))
  {
    hide Near, Rank, Valid;
    var ranks := map p | p in s.tracked :: Rank(k, s, n, p);
    t := Linearize(ranks);
    assert forall p :: p in s.tracked ==> ranks[p] == Rank(k, s, n, p);
    RejoinedValid(k, s, t);
  }

  lemma RejoinedValid(k: Sockets, s: State, t: map<(ConnId, Name), nat>)
    requires Valid(k, s) && t.Keys == s.tracked && (forall p :: p in t ==> t[p] < |t|)
    requires forall p, q :: p in t && q in t && p != q ==> t[p] != t[q]
    ensures Valid(k, Rejoined(s, t))
  {
    assert forall r :: Members(Rejoined(s, t), r) == Members(s, r);
  }

  lemma RankedNear(k: Sockets, s: State, n: nat, t: map<(ConnId, Name), nat>, r: Name, d: ConnId, b: ConnId)
    requires Valid(k, s) && Ordered(k, s, n, t) && Near(k, s, n, b)
    requires d in Members(s, r) && b in Members(s, r) && Time(t, d, r) <= Time(t, b, r)
    ensures Near(k, s, n, d)
  {
    hide Near, Timed;
    assert (b, r) in s.tracked && (d, r) in s.tracked;
    assert Rank(k, s, n, (d, r)) <= Rank(k, s, n, (b, r)) <= 2 * n + 1;
  }

  lemma SlowNear(k: Sockets, s: State, n: nat, c: ConnId)
    requires Near(k, s, n, c)
    ensures Slow(k, s, c)
  {
  }

  lemma Untouched(k: Sockets, s: State, n: nat, t: map<(ConnId, Name), nat>, c: ConnId)
    requires Near(k, s, n, c)
    ensures Reached(k, s, n, t, Rejoined(s, t), c)
  {
    var s' := Rejoined(s, t);
    assert forall r :: Members(s', r) == Members(s, r);
    forall x | Near(k, s, n, x)
      ensures Intact(s, s', x)
    {
      SlowNear(k, s, n, x);
    }
  }

  /** Conversely, where an order lures there is a chain. */
  lemma {:induction false} LuresNear(k: Sockets, s: State, n: nat, c: ConnId) returns (m: nat)
    requires (forall r, x :: (x, r) in s.tracked ==> x in Members(s, r)) && Slow(k, s, c) && Lures(k, s, n, c)
    ensures Near(k, s, m, c)
    decreases n
  {
    hide Near, Lures;
    var shut := Shut(s, c);
    var r := LuringRoom(k, s, n, c);
    var u := Unjoined(shut, c, r);
    assert forall q :: Members(shut, q) == Members(s, q);
    DueUnjoined(k, shut, r, c);
    DueShut(k, s, r, c);
    if Two(Due(k, u, r, Some(c))) {
      TwoMakesThree(Due(k, s, r, None), Due(k, s, r, Some(c)), c);
      m := 0;
      NearAtOnce(k, s, r, c);
    } else {
      var d, j: nat :| j < n && FirstMember(u, r, Some(c), d) && Slow(k, u, d) && Lures(k, u, j, d);
      var i := LuresNear(k, u, j, d);
      NearOn(k, s, u, i, d);
      NearMore(k, s, i, r, c, d);
      m := i + 1;
    }
  }

  lemma NearAtOnce(k: Sockets, s: State, r: Name, c: ConnId)
    requires Slow(k, s, c) && c in Members(s, r) && Three(Due(k, s, r, None))
    ensures Near(k, s, 0, c)
  {
  }

  lemma LuringRoom(k: Sockets, s: State, n: nat, c: ConnId) returns (r: Name)
    requires (forall r, x :: (x, r) in s.tracked ==> x in Members(s, r)) && Lures(k, s, n, c)
    ensures c in Members(s, r)
    ensures var u := Unjoined(Shut(s, c), c, r);
            || Two(Due(k, u, r, Some(c)))
            || exists d, m: nat {:trigger Lures(k, u, m, d)} ::
                 m < n && FirstMember(u, r, Some(c), d) && Slow(k, u, d) && Lures(k, u, m, d)
  {
    hide Near, Due, FirstMember;
    var shut := Shut(s, c);
    assert LuresOut(k, shut, n, c);
    r :| FirstRoom(shut, c, r) && (
      var u := Unjoined(shut, c, r);
      || Two(Due(k, u, r, Some(c)))
      || exists d, m: nat {:trigger Lures(k, u, m, d)} ::
           m < n && FirstMember(u, r, Some(c), d) && Slow(k, u, d) && Lures(k, u, m, d));
    assert (c, r) in s.tracked;
    var u := Unjoined(shut, c, r);
    if !Two(Due(k, u, r, Some(c))) {
      var d, m: nat :| m < n && FirstMember(u, r, Some(c), d) && Slow(k, u, d) && Lures(k, u, m, d);
      assert Lures(k, u, m, d);
    }
  }

  /**
   Whatever the order of joining, a fan-out leaks nobody, and throws only if two members are due, if no chain
   of slow connections leads from those due to a room with three (`EmitLocal`); and if one does, there is an
   order in which it throws and leaks.
   */
  lemma LeaksInSomeOrder(k: Sockets, s: State, name: Name, except: Option<ConnId>)
    requires Valid(k, s)
    ensures (exists t :: Lurable(k, s, name, except, t)) <==> !Calm(k, s, Due(k, s, name, except))
  {
    hide Near, Lures, Timed;
    if !Calm(k, s, Due(k, s, name, except)) {
      var t := LuringOrder(k, s, name, except);
    }
    if t :| Lurable(k, s, name, except, t) {
      var s' := Rejoined(s, t);
      var d :| LuredBy(k, s', name, except, d);
      var n: nat :| Lures(k, s', n, d);
      var m := LuresNear(k, s', n, d);
      assert forall r :: Members(s', r) == Members(s, r);
      NearOn(k, s, s', m, d);
      assert d in Due(k, s, name, except);
    }
  }

  // ---------------------------------------------------------------- small hubs

  /** Where no room at all has three slow members there is no chain to one. */
  lemma {:induction false} NoCrowdNoChain(k: Sockets, s: State, n: nat, c: ConnId)
    requires forall r :: !Three(Due(k, s, r, None))
    ensures !Near(k, s, n, c)
  {
    if n > 0 {
      var m: nat := n - 1;
      forall d
        ensures !Near(k, s, m, d)
      {
        NoCrowdNoChain(k, s, m, d);
      }
    }
  }

  /** Two slow clients in the root room: the fan-out throws, and nobody is leaked. */
  method TwoSlowClients() returns (hub: Hub, threw: bool)
    ensures threw && forall c :: !Leaked(hub.Now(), c)
  {
    hide Near, Lures, Due, Crowd, Valid, Joined, Added, Shrinks;
    var both := {"a", "b"};
    hub := new Hub(Sockets(both, both, both, both, true));
    hub.AddConn("a");
    hub.JoinRoom("root", "a");
    hub.AddConn("b");
    hub.JoinRoom("root", "b");
    ghost var s := hub.Now();
    TwoInRoot(hub.k, s);
    threw := hub.EmitLocal("root", None, Raw(0));
    GoneNotLeaked(hub.k, s, hub.Now());
  }

  lemma TwoInRoot(k: Sockets, s: State)
    requires k == Sockets({"a", "b"}, {"a", "b"}, {"a", "b"}, {"a", "b"}, true)
    requires s == Joined(Added(Joined(Added(EMPTY, "a"), "root", "a"), "b"), "root", "b")
    ensures s.closed == {} && Two(Due(k, s, "root", None)) && Calm(k, s, Due(k, s, "root", None))
  {
    hide Near;
    assert "a" in Due(k, s, "root", None) && "b" in Due(k, s, "root", None) && "a" != "b";
    forall r
      ensures !Three(Due(k, s, r, None))
    {
      ThreeNotInTwo(Due(k, s, r, None), "a", "b");
    }
    forall n: nat, c
      ensures !Near(k, s, n, c)
    {
      NoCrowdNoChain(k, s, n, c);
    }
  }

  lemma ThreeNotInTwo(due: set<ConnId>, a: ConnId, b: ConnId)
    requires due <= {a, b}
    ensures !Three(due)
  {
  }

  lemma GoneNotLeaked(k: Sockets, s: State, s': State)
    requires s.closed == {} && Finished(k, s, s')
    ensures forall c :: !Leaked(s', c)
  {
    assert forall c :: c in s'.closed ==> c in Closed(s, s');
  }

  /**
   One slow client is due, in a room of its own; but it shares the root room, which it joined first, with two
   others. The fan-out throws, and the client is closed and stays registered.
   */
  method CrowdInRoot() returns (hub: Hub, threw: bool)
    ensures threw && Leaked(hub.Now(), "a")
  {
    hide Near, Lures, Due, Crowd, Valid, Joined, Added, Shrinks;
    var all := {"a", "b", "c"};
    hub := new Hub(Sockets(all, all, all, all, true));
    hub.AddConn("a");
    hub.JoinRoom("root", "a");
    hub.AddConn("b");
    hub.JoinRoom("root", "b");
    hub.AddConn("c");
    hub.JoinRoom("root", "c");
    hub.JoinRoom("chat", "a");
    ThreeInRoot(hub.Now());
    RootLures(hub.k, hub.Now());
    threw := hub.EmitLocal("chat", None, Raw(0));
  }

  lemma ThreeInRoot(s: State)
    requires var two := Joined(Added(Joined(Added(EMPTY, "a"), "root", "a"), "b"), "root", "b");
             s == Joined(Joined(Added(two, "c"), "root", "c"), "chat", "a")
    ensures Members(s, "root") == {"a", "b", "c"} && Members(s, "chat") == {"a"} && s.closed == {} && "a" in s.conns
    ensures s.tracked == {("a", "root"), ("b", "root"), ("c", "root"), ("a", "chat")}
    ensures Time(s.since, "a", "root") < Time(s.since, "a", "chat")
  {
  }

  lemma RootLures(k: Sockets, s: State)
    requires {"a", "b", "c"} <= k.made && {"a", "b", "c"} <= k.ready * k.over * k.evicts && s.closed == {}
    requires Members(s, "root") == {"a", "b", "c"} && Members(s, "chat") == {"a"}
    requires s.tracked == {("a", "root"), ("b", "root"), ("c", "root"), ("a", "chat")}
    requires Time(s.since, "a", "root") < Time(s.since, "a", "chat")
    ensures LuredBy(k, s, "chat", None, "a")
  {
    hide Near;
    var shut := Shut(s, "a");
    assert FirstRoom(shut, "a", "root");
    DueShut(k, s, "root", "a");
    DueUnjoined(k, shut, "root", "a");
    assert "b" in Due(k, s, "root", Some("a")) && "c" in Due(k, s, "root", Some("a")) && "b" != "c";
    assert LuresOut(k, shut, 0, "a");
    assert Lures(k, s, 0, "a");
    assert FirstMember(s, "chat", None, "a");
  }
}
