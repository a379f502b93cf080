/**
 The tables of the Node server's hub (server/node/hub.js, room.js, conn.js) as one value, and what an
 eviction cascade does to them.
 */
module NodeRooms {
  import opened Wire

  type ConnId = string
  type Name = string

  datatype Frame = Raw(n: nat) | MemberLeft(room: Name, who: ConnId)

  /**
   Every connection there is; those whose socket is open, those over their buffer limit, and those to be
   closed for it; and whether buffers stay as they are. If not, any send may find any buffer full.
   */
  datatype Sockets = Sockets(made: set<ConnId>, ready: set<ConnId>, over: set<ConnId>, evicts: set<ConnId>,
      steady: bool)

  /**
   The hub's tables and the captured variables of its connections. `since` is when a connection joined a
   room: object keys come back in the order they were added, so it orders the members of a room and the
   rooms of a connection.
   */
  datatype State = State(
    conns: set<ConnId>,
    rooms: map<Name, set<ConnId>>,
    tracked: set<(ConnId, Name)>,
    since: map<(ConnId, Name), nat>,
    clock: nat,
    closed: set<ConnId>,
    closeSent: set<ConnId>,
    hungUp: set<ConnId>,
    log: seq<(ConnId, Frame)>)

  const EMPTY := State({}, map[], {}, map[], 0, {}, {}, {}, [])

  function Members(s: State, r: Name): set<ConnId> {
    if r in s.rooms then s.rooms[r] else {}
  }

  /** Join times are recorded, lie in the past and are all different. */
  ghost predicate Timed(s: State) {
    && s.tracked <= s.since.Keys
    && (forall p :: p in s.since ==> s.since[p] < s.clock)
    && forall p, q :: p in s.since && q in s.since && p != q ==> s.since[p] != s.since[q]
  }

  ghost predicate Valid(k: Sockets, s: State) {
    && s.closed <= k.made
    && s.closeSent <= s.closed
    && Timed(s)
    && (forall r :: Members(s, r) <= k.made)
    && forall r, c :: c in Members(s, r) <==> (c, r) in s.tracked
  }

  /** A send to this connection now would close it. */
  predicate Slow(k: Sockets, s: State, c: ConnId) {
    c in k.made && c !in s.closed && c in k.ready && c in k.over && c in k.evicts
  }

  /** Nothing of the connection is left in the hub. */
  ghost predicate Gone(k: Sockets, s: State, c: ConnId) {
    && c !in s.conns
    && (forall r :: (c, r) !in s.tracked)
    && (c in k.ready ==> c in s.hungUp)
  }

  /** Closed for good, and still registered: every later close returns at once. */
  predicate Leaked(s: State, c: ConnId) {
    c in s.closed && c in s.conns
  }

  // ---------------------------------------------------------------- how a cascade changes the tables

  /** The connections closed in between. */
  function Closed(s: State, s': State): set<ConnId> {
    s'.closed - s.closed
  }

  /** A cascade only closes slow connections and only takes from those it closes, or from `c` if it is leaving. */
  ghost predicate Shrinks(k: Sockets, s: State, s': State, c: Option<ConnId>) {
    && s.closed <= s'.closed
    && (k.steady ==> forall x :: x in Closed(s, s') ==> Slow(k, s, x) || Some(x) == c)
    && s'.tracked <= s.tracked
    && (forall x, r :: (x, r) in s.tracked && (x, r) !in s'.tracked ==> Some(x) == c || x in Closed(s, s'))
    && (forall r :: Members(s', r) <= Members(s, r))
    && (forall x, r :: x in Members(s, r) && x !in Members(s', r) ==> Some(x) == c || x in Closed(s, s'))
    && s'.conns <= s.conns
    && (forall x :: x in s.conns && x !in s'.conns ==> x in Closed(s, s'))
    && s.closeSent <= s'.closeSent <= s.closeSent + Closed(s, s')
    && s.hungUp <= s'.hungUp <= s.hungUp + Closed(s, s') * k.ready
    && s.log <= s'.log
    && s'.since == s.since && s'.clock == s.clock
  }

  /** The connections a cascade closes are gone when it ends. */
  ghost predicate Finished(k: Sockets, s: State, s': State) {
    forall x :: x in Closed(s, s') ==> Gone(k, s', x)
  }

  lemma ShrinksOn(k: Sockets, a: State, b: State, d: State, c: Option<ConnId>)
    requires Shrinks(k, a, b, c) && Shrinks(k, b, d, c)
    ensures Shrinks(k, a, d, c)
  {
    assert Closed(a, d) == Closed(a, b) + Closed(b, d);
  }

  lemma FinishedOn(k: Sockets, a: State, b: State, d: State, c: Option<ConnId>)
    requires Finished(k, a, b) && Shrinks(k, b, d, c) && Finished(k, b, d)
    ensures Finished(k, a, d)
  {
    assert Closed(a, d) <= Closed(a, b) + Closed(b, d);
  }

  lemma ShrinksAnyway(k: Sockets, a: State, b: State, c: Option<ConnId>)
    requires Shrinks(k, a, b, None)
    ensures Shrinks(k, a, b, c)
  {
  }

  lemma Nothing(k: Sockets, s: State)
    ensures Shrinks(k, s, s, None) && Finished(k, s, s)
  {
  }

  lemma OpenShrinks(k: Sockets, s: State, s': State)
    requires exists c :: Shrinks(k, s, s', c)
    ensures s.closed <= s'.closed && k.made - s'.closed <= k.made - s.closed && s'.tracked <= s.tracked
    ensures s'.since == s.since
  {
  }

  lemma Logged(k: Sockets, s: State, s': State)
    requires s' == s.(log := s'.log) && s.log <= s'.log
    ensures Shrinks(k, s, s', None) && Finished(k, s, s')
  {
  }

  // ---------------------------------------------------------------- single steps of a cascade

  /** `close_with` has marked `c`. */
  function Shut(s: State, c: ConnId): State {
    s.(closed := s.closed + {c}, closeSent := s.closeSent + {c})
  }

  lemma SameRooms(k: Sockets, s: State, s': State)
    requires Valid(k, s) && s' == s.(conns := s'.conns, closed := s'.closed, closeSent := s'.closeSent, log := s'.log)
    requires s'.closeSent <= s'.closed <= k.made
    ensures Valid(k, s') && forall r :: Members(s', r) == Members(s, r)
  {
    assert forall r :: Members(s', r) == Members(s, r);
  }

  /** `add_conn` has registered `c`. */
  function Added(s: State, c: ConnId): State {
    s.(conns := s.conns + {c})
  }

  /** `join_room` has put `c` into room `name`; a connection that is in it keeps its place. */
  function Joined(s: State, name: Name, c: ConnId): (s': State)
    ensures forall r :: Members(s', r) == Members(s, r) + if r == name then {c} else {}
  {
    var first := (c, name) !in s.tracked;
    s.(rooms := s.rooms[name := Members(s, name) + {c}],
       tracked := s.tracked + {(c, name)},
       since := if first then s.since[(c, name) := s.clock] else s.since,
       clock := if first then s.clock + 1 else s.clock)
  }

  lemma JoinedValid(k: Sockets, s: State, name: Name, c: ConnId)
    requires Valid(k, s) && c in k.made
    ensures Valid(k, Joined(s, name, c))
  {
  }

  /** `leave_room` has taken `c` out of room `r`, and the room away if nobody is left. */
  function Unjoined(s: State, c: ConnId, r: Name): (s': State)
    ensures forall q :: Members(s', q) == if q == r then Members(s, q) - {c} else Members(s, q)
  {
    var left := Members(s, r) - {c};
    s.(tracked := s.tracked - {(c, r)},
       rooms := if r !in s.rooms then s.rooms else if left == {} then s.rooms - {r} else s.rooms[r := left])
  }

  lemma UnjoinedShrinks(k: Sockets, s: State, c: ConnId, r: Name)
    requires Valid(k, s)
    ensures Valid(k, Unjoined(s, c, r))
    ensures Shrinks(k, s, Unjoined(s, c, r), Some(c)) && Finished(k, s, Unjoined(s, c, r))
  {
  }

  /** `c` is marked as closed and then leaves its rooms. */
  lemma Closing(k: Sockets, s: State, before: State, after: State, c: ConnId)
    requires before == s.(closed := s.closed + {c}, closeSent := before.closeSent) && c !in s.closed
    requires s.closeSent <= before.closeSent <= s.closeSent + {c}
    requires Shrinks(k, before, after, Some(c))
    ensures Shrinks(k, s, after, Some(c))
    ensures !k.steady || Slow(k, s, c) ==> Shrinks(k, s, after, None)
  {
    assert Closed(s, after) == Closed(before, after) + {c};
    assert forall r :: Members(before, r) == Members(s, r);
  }

  /** And then it is gone. */
  lemma ClosedNow(k: Sockets, s: State, before: State, after: State, s': State, c: ConnId)
    requires Valid(k, after) && c in k.made
    requires before == s.(closed := s.closed + {c}, closeSent := before.closeSent) && c !in s.closed
    requires Shrinks(k, before, after, Some(c)) && Finished(k, before, after) && forall r :: (c, r) !in after.tracked
    requires Shrinks(k, s, after, Some(c)) && (!k.steady || Slow(k, s, c) ==> Shrinks(k, s, after, None))
    requires s' == after.(conns := after.conns - {c}, closeSent := s'.closeSent, hungUp := s'.hungUp)
    requires s'.hungUp == after.hungUp + {c} * k.ready
    requires after.closeSent <= s'.closeSent <= after.closeSent + {c}
    ensures Valid(k, s') && Gone(k, s', c) && Finished(k, s, s')
    ensures Shrinks(k, s, s', Some(c))
    ensures !k.steady || Slow(k, s, c) ==> Shrinks(k, s, s', None)
  {
    assert Closed(s, s') == Closed(before, after) + {c};
    assert forall r :: Members(s', r) == Members(after, r);
  }

  // ---------------------------------------------------------------- who is due to be closed

  /** The members a fan-out to a room would close. */
  function Due(k: Sockets, s: State, name: Name, except: Option<ConnId>): set<ConnId> {
    set c | c in Members(s, name) && Slow(k, s, c) && Some(c) != except
  }

  predicate Two(due: set<ConnId>) {
    exists x, y :: x in due && y in due && x != y
  }

  predicate Three(due: set<ConnId>) {
    exists x, y, z :: x in due && y in due && z in due && x != y && y != z && z != x
  }

  /** The members a fan-out owes the frame: open, ready and not over their limit. */
  function Owed(k: Sockets, s: State, name: Name, except: Option<ConnId>): set<ConnId> {
    set c | c in Members(s, name) && c !in s.closed && c in k.ready && c !in k.over && Some(c) != except
  }

  /** Who was due to be closed either is closed or still is due. */
  lemma DueOn(k: Sockets, s: State, s': State, c: Option<ConnId>, name: Name, except: Option<ConnId>)
    requires Shrinks(k, s, s', c) && (c.Some? ==> c == except || c.value in s.closed)
    ensures Due(k, s, name, except) <= Due(k, s', name, except) + s'.closed
    ensures Due(k, s', name, except) <= Due(k, s, name, except)
  {
  }

  lemma DueUnjoined(k: Sockets, s: State, name: Name, c: ConnId)
    ensures Due(k, Unjoined(s, c, name), name, Some(c)) == Due(k, s, name, Some(c))
  {
  }

  lemma DueShut(k: Sockets, s: State, r: Name, c: ConnId)
    ensures Due(k, Shut(s, c), r, Some(c)) == Due(k, s, r, Some(c))
  {
    assert Members(Shut(s, c), r) == Members(s, r);
  }

  lemma ThreeLeavesTwo(due: set<ConnId>, others: set<ConnId>, id: ConnId)
    requires due - {id} <= others
    ensures Three(due) ==> Two(others)
  {
    if Three(due) {
      var x, y, z :| x in due && y in due && z in due && x != y && y != z && z != x;
      var u, v := if x == id then z else x, if y == id then z else y;
      assert u in others && v in others && u != v;
    }
  }

  lemma TwoMakesThree(due: set<ConnId>, others: set<ConnId>, id: ConnId)
    requires others <= due && id in due && id !in others
    ensures Two(others) ==> Three(due)
  {
    if Two(others) {
      var x, y :| x in others && y in others && x != y;
      assert x in due && y in due && id in due && x != y && y != id && id != x;
    }
  }

  lemma OneIsNotTwo(due: set<ConnId>, f: ConnId)
    ensures due - {f} <= {} ==> !Two(due) && !Three(due)
  {
    if due - {f} <= {} {
      forall x | x in due
        ensures x == f
      {
        assert x == f || x in due - {f};
      }
    }
  }

  lemma MoreIsThree(due: set<ConnId>, more: set<ConnId>)
    requires due <= more
    ensures Three(due) ==> Three(more)
    ensures Two(due) ==> Two(more)
  {
    if Three(due) {
      var x, y, z :| x in due && y in due && z in due && x != y && y != z && z != x;
      assert x in more && y in more && z in more;
    }
    if Two(due) {
      var x, y :| x in due && y in due && x != y;
      assert x in more && y in more;
    }
  }

  // ---------------------------------------------------------------- chains of slow connections

  /** `n` shared rooms lead from the slow connection `c`, by way of slow ones, to a room with three of them. */
  ghost predicate Near(k: Sockets, s: State, n: nat, c: ConnId) {
    && Slow(k, s, c)
    && if n == 0 then exists r :: c in Members(s, r) && Three(Due(k, s, r, None))
       else exists r, d :: c in Members(s, r) && d in Members(s, r) && Near(k, s, n - 1, d)
  }

  /** No chain leads from these connections to a room with three slow members. */
  ghost predicate Calm(k: Sockets, s: State, cs: set<ConnId>) {
    forall n: nat, c {:trigger Near(k, s, n, c)} :: c in cs ==> !Near(k, s, n, c)
  }

  /** As rooms lose members and connections are closed, chains break and none appears. */
  lemma {:induction false} NearOn(k: Sockets, s: State, s': State, n: nat, c: ConnId)
    requires s.closed <= s'.closed && forall r :: Members(s', r) <= Members(s, r)
    ensures Near(k, s', n, c) ==> Near(k, s, n, c)
  {
    if Near(k, s', n, c) {
      if n == 0 {
        var r :| c in Members(s', r) && Three(Due(k, s', r, None));
        MoreIsThree(Due(k, s', r, None), Due(k, s, r, None));
        assert c in Members(s, r);
      } else {
        var r, d :| c in Members(s', r) && d in Members(s', r) && Near(k, s', n - 1, d);
        NearOn(k, s, s', n - 1, d);
        assert c in Members(s, r) && d in Members(s, r);
      }
    }
  }

  lemma CalmOn(k: Sockets, s: State, s': State, cs: set<ConnId>, cs': set<ConnId>)
    requires s.closed <= s'.closed && (forall r :: Members(s', r) <= Members(s, r)) && Calm(k, s, cs) && cs' <= cs
    ensures Calm(k, s', cs')
  {
    hide Near;
    forall n: nat, c | c in cs'
      ensures !Near(k, s', n, c)
    {
      NearOn(k, s, s', n, c);
    }
  }

  /** A chain grows by the connection it is met through. */
  lemma NearMore(k: Sockets, s: State, n: nat, r: Name, c: ConnId, d: ConnId)
    requires Slow(k, s, c) && c in Members(s, r) && d in Members(s, r)
    ensures Near(k, s, n, d) ==> Near(k, s, n + 1, c)
  {
  }

  /** Leaving all its rooms, `c` meets at most one slow member in each, and no chain to a crowd. */
  ghost predicate Safe(k: Sockets, s: State, c: ConnId) {
    forall r {:trigger Due(k, s, r, Some(c))} :: c in Members(s, r) ==>
        !Two(Due(k, s, r, Some(c))) && Calm(k, s, Due(k, s, r, Some(c)))
  }

  /** A slow connection that no chain leads from is safe to close. */
  lemma CalmSafe(k: Sockets, s: State, c: ConnId)
    requires Slow(k, s, c) && Calm(k, s, {c})
    ensures Safe(k, s, c)
  {
    forall r | c in Members(s, r)
      ensures !Two(Due(k, s, r, Some(c))) && Calm(k, s, Due(k, s, r, Some(c)))
    {
      TwoMakesThree(Due(k, s, r, None), Due(k, s, r, Some(c)), c);
      assert !Near(k, s, 0, c);
      forall n: nat, d | d in Due(k, s, r, Some(c))
        ensures !Near(k, s, n, d)
      {
        NearMore(k, s, n, r, c, d);
        assert !Near(k, s, n + 1, c);
      }
    }
  }

  lemma SafeOn(k: Sockets, s: State, s': State, c: ConnId)
    requires s.closed <= s'.closed && (forall r :: Members(s', r) <= Members(s, r)) && Safe(k, s, c)
    ensures Safe(k, s', c)
  {
    hide Calm;
    forall r | c in Members(s', r)
      ensures !Two(Due(k, s', r, Some(c))) && Calm(k, s', Due(k, s', r, Some(c)))
    {
      assert Due(k, s', r, Some(c)) <= Due(k, s, r, Some(c));
      MoreIsThree(Due(k, s', r, Some(c)), Due(k, s, r, Some(c)));
      CalmOn(k, s, s', Due(k, s, r, Some(c)), Due(k, s', r, Some(c)));
    }
  }

  // ---------------------------------------------------------------- orders in which a cascade throws

  function Time(since: map<(ConnId, Name), nat>, c: ConnId, r: Name): nat {
    if (c, r) in since then since[(c, r)] else 0
  }

  /** The room `joined_rooms` lists first. */
  ghost predicate FirstRoom(s: State, c: ConnId, r: Name) {
    (c, r) in s.tracked && forall q :: (c, q) in s.tracked && q != r ==> Time(s.since, c, r) < Time(s.since, c, q)
  }

  /** The member a fan-out meets first. */
  ghost predicate FirstMember(s: State, r: Name, except: Option<ConnId>, d: ConnId) {
    && d in Members(s, r) && Some(d) != except
    && forall y :: y in Members(s, r) && y != d && Some(y) != except ==> Time(s.since, d, r) < Time(s.since, y, r)
  }

  /** The order of keys leads the closing of `c`, within `n` more closings, to a fan-out that meets two slow members. */
  ghost predicate Lures(k: Sockets, s: State, n: nat, c: ConnId)
    decreases n, 1
  {
    LuresOut(k, Shut(s, c), n, c)
  }

  /** The same once `c` is marked as closed and about to leave its rooms. */
  ghost predicate LuresOut(k: Sockets, s: State, n: nat, c: ConnId)
    decreases n, 0
  {
    exists r {:trigger FirstRoom(s, c, r)} :: FirstRoom(s, c, r) && (
      var u := Unjoined(s, c, r);
      || Two(Due(k, u, r, Some(c)))
      || exists d, m: nat {:trigger Lures(k, u, m, d)} ::
          m < n && FirstMember(u, r, Some(c), d) && Slow(k, u, d) && Lures(k, u, m, d))
  }

  /** The first member a fan-out meets is slow, and the order of keys leads its closing to a throw. */
  ghost predicate LuredBy(k: Sockets, s: State, name: Name, except: Option<ConnId>, d: ConnId) {
    FirstMember(s, name, except, d) && Slow(k, s, d) && exists n :: Lures(k, s, n, d)
  }

  lemma FirstIsOne(s: State, c: ConnId, r: Name, q: Name)
    requires FirstRoom(s, c, r) && FirstRoom(s, c, q)
    ensures r == q
  {
  }

  // ---------------------------------------------------------------- what the operations come to

  predicate OnlyRoom(s: State, c: ConnId, name: Name) {
    forall p :: p in s.tracked && p.0 == c ==> p.1 == name
  }

  /** At least three members are due, and they are in this room only. */
  predicate Crowd(s: State, due: set<ConnId>, name: Name) {
    due <= s.conns && Three(due) && forall c :: c in due ==> OnlyRoom(s, c, name)
  }

  /**
   A fan-out. If no chain leads from those due to a room with three slow members, it throws if and only if
   two are due, and even then everybody it closed is gone.
   */
  ghost predicate FannedOut(k: Sockets, s: State, s': State, name: Name, except: Option<ConnId>, raw: Frame,
      threw: bool) {
    var due := Due(k, s, name, except);
    && (Calm(k, s, due) ==> (threw <==> Two(due)) && Finished(k, s, s'))
    && (Two(due) ==> threw)
    && (!threw ==> due <= s'.closed)
    && (!threw ==> forall c :: c in Owed(k, s, name, except) ==> (c, raw) in s'.log)
    && (Crowd(s, due, name) ==> exists c :: c in due && Leaked(s', c))
    && (forall d :: LuredBy(k, s, name, except, d) ==> threw && (d in s.conns ==> Leaked(s', d)))
  }

  /** Leaving a room. */
  ghost predicate LeftRoom(k: Sockets, s: State, s': State, name: Name, c: ConnId, threw: bool) {
    var due := Due(k, s, name, Some(c));
    && (Calm(k, s, due) ==> (threw <==> Two(due)))
    && (Two(due) ==> threw)
    && (!threw ==> due <= s'.closed)
    && (forall d :: LuredBy(k, Unjoined(s, c, name), name, Some(c), d) ==> threw)
  }

  /** A closed connection leaves all rooms. */
  ghost predicate LeftAll(k: Sockets, s: State, s': State, c: ConnId, threw: bool) {
    && (Safe(k, s, c) ==> !threw)
    && (!threw ==> forall r :: (c, r) in s.tracked ==> Due(k, s, r, Some(c)) <= s'.closed)
    && (forall n :: LuresOut(k, s, n, c) ==> threw)
  }

  /** Closing a connection. */
  ghost predicate Evicted(k: Sockets, s: State, s': State, c: ConnId, threw: bool) {
    && c in s'.closed
    && (Safe(k, s, c) ==> !threw)
    && (threw && c in s.conns ==> c in s'.conns)
    && (!threw ==> forall r :: c in Members(s, r) ==> Due(k, s, r, Some(c)) <= s'.closed)
    && (forall n :: Lures(k, s, n, c) ==> threw)
  }
}
