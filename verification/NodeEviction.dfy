/**
 The Node server's re-entrant eviction of slow clients (server/node/room.js, conn.js, hub.js): a fan-out
 that meets a slow client closes it, which makes it leave its rooms, which fans out to those rooms, which may
 meet more slow clients. All of it is synchronous. A thrown TypeError is `threw`.
 */
module NodeEviction {
  import opened Wire
  import opened NodeRooms
  import opened NodeFrames

  /** Of a nonempty set of members, one that joined the room first. */
  lemma {:induction false} EarliestMember(since: map<(ConnId, Name), nat>, r: Name, todo: set<ConnId>)
      returns (d: ConnId)
    requires todo != {}
    ensures d in todo && forall y :: y in todo ==> Time(since, d, r) <= Time(since, y, r)
  {
    d :| d in todo;
    var rest := todo - {d};
    assert forall y :: y in todo ==> y == d || y in rest;
    if rest != {} {
      var e := EarliestMember(since, r, rest);
      if Time(since, e, r) < Time(since, d, r) {
        d := e;
      }
    }
  }

  /** Of a nonempty set of rooms, one that the connection joined first. */
  lemma {:induction false} EarliestRoom(since: map<(ConnId, Name), nat>, c: ConnId, todo: set<Name>) returns (r: Name)
    requires todo != {}
    ensures r in todo && forall q :: q in todo ==> Time(since, c, r) <= Time(since, c, q)
  {
    r :| r in todo;
    var rest := todo - {r};
    assert forall q :: q in todo ==> q == r || q in rest;
    if rest != {} {
      var e := EarliestRoom(since, c, rest);
      if Time(since, c, e) < Time(since, c, r) {
        r := e;
      }
    }
  }

  class Hub {
    const k: Sockets
    var conns: set<ConnId>
    var rooms: map<Name, set<ConnId>>
    var tracked: set<(ConnId, Name)>
    var since: map<(ConnId, Name), nat>
    var clock: nat
    var closed: set<ConnId>
    var closeSent: set<ConnId>
    var hungUp: set<ConnId>
    var log: seq<(ConnId, Frame)>

    ghost function Now(): State
      reads this
    {
      State(conns, rooms, tracked, since, clock, closed, closeSent, hungUp, log)
    }

    constructor (k: Sockets)
      ensures this.k == k && Now() == EMPTY && Valid(k, Now())
    {
      this.k := k;
      conns, rooms, tracked, since, clock := {}, map[], {}, map[], 0;
      closed, closeSent, hungUp, log := {}, {}, {}, [];
    }

    /** add_conn (hub.js:113-117). */
    method AddConn(c: ConnId)
      requires Valid(k, Now())
      modifies this
      ensures Valid(k, Now()) && Now() == Added(old(Now()), c)
    {
      conns := conns + {c};
      assert forall r :: Members(Now(), r) == old(Members(Now(), r));
    }

    /** The synchronous part of join_room (hub.js:146-155), which does not ask whether the connection is closed. */
    method JoinRoom(name: Name, c: ConnId)
      requires Valid(k, Now()) && c in k.made
      modifies this
      ensures Valid(k, Now()) && Now() == Joined(old(Now()), name, c)
    {
      hide Valid, Timed;
      JoinedValid(k, Now(), name, c);
      if (c, name) !in tracked {
        since, clock := since[(c, name) := clock], clock + 1;
      }
      rooms := rooms[name := (if name in rooms then rooms[name] else {}) + {c}];
      tracked := tracked + {(c, name)};
    }

    /**
     emit_local (room.js:23-29). With steady buffers, unless a chain of slow connections leads from those due
     to a room with three, it throws if and only if two members are due, and everybody it closes is gone. If it
     does not throw, each member owed the frame has it once.
     */
    method EmitLocal(name: Name, except: Option<ConnId>, raw: Frame) returns (threw: bool)
      requires Valid(k, Now())
      modifies this
      ensures Valid(k, Now()) && Shrinks(k, old(Now()), Now(), None)
      ensures !threw ==> Finished(k, old(Now()), Now())
      ensures k.steady ==> FannedOut(k, old(Now()), Now(), name, except, raw, threw)
      ensures k.steady && !threw ==> FanTold(k, old(Now()), Now(), name, except, raw, {})
      decreases k.made - closed, 2
    {
      hide Shrinks, Finished, FannedOut, Evicted, Progress, Due, Owed, Timed, FanTold, LeavesTold;
      var todo := if name in rooms then rooms[name] else {};
      threw := false;
      ghost var start := Now();
      ghost var first: Option<ConnId> := None;
      Nothing(k, start);
      Begins(k, start, name, except, raw);
      FanBegins(k, start, name, except, raw);
      while todo != {}
        invariant Valid(k, Now()) && Shrinks(k, start, Now(), None) && Finished(k, start, Now())
        invariant todo <= Members(start, name)
        invariant k.steady ==> Progress(k, start, Now(), name, except, raw, first, todo)
        invariant k.steady ==> FanTold(k, start, Now(), name, except, raw, todo)
        decreases |todo|
      {
        var earliest := EarliestMember(since, name, todo);
        var id :| id in todo && forall y :: y in todo ==> Time(since, id, name) <= Time(since, y, name);
        ghost var before, still := Now(), todo;
        OpenShrinks(k, start, before);
        todo := todo - {id};
        if Some(id) != except {
          if !(name in rooms && id in rooms[name]) {
            if k.steady {
              Missing(k, start, before, name, except, raw, first, still, id);
            }
            return true;
          }
          assert id in Members(before, name);
          threw := TrySend(id, raw);
          ShrinksOn(k, start, before, Now(), None);
          if k.steady && threw {
            Thrown(k, start, before, Now(), name, except, raw, first, still, id);
          }
          if threw {
            return;
          }
          FinishedOn(k, start, before, Now(), None);
          if k.steady {
            first := Visited(k, start, before, Now(), name, except, raw, first, still, id);
            if Slow(k, before, id) {
              EvictedClosed(k, before, Now(), id);
              FanCloses(k, start, before, Now(), name, except, raw, still, id);
            } else {
              FanSends(k, start, before, Now(), name, except, raw, still, id);
            }
          }
        } else if k.steady {
          Skipped(k, start, before, name, except, raw, first, still, id);
          FanSkips(k, start, before, name, except, raw, still, id);
        }
      }
      if k.steady {
        Ends(k, start, Now(), name, except, raw, first);
      }
    }

    /** try_send (conn.js:171-195). */
    method TrySend(c: ConnId, raw: Frame) returns (threw: bool)
      requires Valid(k, Now()) && c in k.made
      modifies this
      ensures Valid(k, Now()) && Shrinks(k, old(Now()), Now(), None)
      ensures !threw ==> Finished(k, old(Now()), Now())
      ensures k.steady && Slow(k, old(Now()), c) ==> Evicted(k, old(Now()), Now(), c, threw)
      ensures k.steady && Slow(k, old(Now()), c) && !threw ==> LeavesTold(k, Shut(old(Now()), c), Now(), c, {})
      ensures k.steady && !Slow(k, old(Now()), c) ==> !threw && Now() == old(Now()).(log := log)
      ensures k.steady && !Slow(k, old(Now()), c) ==>
                log == old(log) + if c !in old(closed) && c in k.ready && c !in k.over then [(c, raw)] else []
      decreases k.made - closed, 1
    {
      hide Shrinks, Finished, Evicted, Timed, LeavesTold;
      Nothing(k, Now());
      if c in closed || c !in k.ready {
        return false;
      }
      var full := c in k.over;
      if !k.steady {
        full := *;
      }
      if full {
        if c !in k.evicts {
          return false;
        }
        threw := CloseWith(c);
        return;
      }
      log := log + [(c, raw)];
      SameRooms(k, old(Now()), Now());
      Logged(k, old(Now()), Now());
      threw := false;
    }

    /** close_with (conn.js:149-169), of a slow client or of any other. */
    method CloseWith(c: ConnId) returns (threw: bool)
      requires Valid(k, Now()) && c in k.made
      modifies this
      ensures Valid(k, Now()) && Shrinks(k, old(Now()), Now(), Some(c))
      ensures !k.steady || Slow(k, old(Now()), c) ==> Shrinks(k, old(Now()), Now(), None)
      ensures !threw ==> Finished(k, old(Now()), Now())
      ensures c in old(closed) ==> !threw && Now() == old(Now())
      ensures c !in old(closed) && !threw ==> Gone(k, Now(), c) && c in closeSent
      ensures k.steady && c !in old(closed) ==> Evicted(k, old(Now()), Now(), c, threw)
      ensures k.steady && c !in old(closed) && !threw ==> LeavesTold(k, Shut(old(Now()), c), Now(), c, {})
      decreases k.made - closed, 0
    {
      hide Shrinks, Finished, LeftAll, Evicted, Timed, LeavesTold;
      Nothing(k, Now());
      ShrinksAnyway(k, Now(), Now(), Some(c));
      if c in closed || c in closeSent {
        return false;
      }
      closeSent := closeSent + {c};
      closed := closed + {c};
      ghost var before := Now();
      SameRooms(k, old(Now()), before);
      assert c in old(k.made - closed) && c !in k.made - closed;
      threw := LeaveAllRooms(c);
      Closing(k, old(Now()), before, Now(), c);
      ghost var after := Now();
      KeepsClosed(k, before, after, c);
      if k.steady {
        ClosingEvicts(k, old(Now()), after, c, threw);
      }
      if threw {
        return;
      }
      conns := conns - {c};
      if c in k.ready {
        hungUp := hungUp + {c};
      }
      ClosedNow(k, old(Now()), before, after, Now(), c);
      if k.steady {
        StillEvicted(k, old(Now()), after, Now(), c);
        ToldAnyway(k, before, after, before, Now(), c);
      }
    }

    /** disconnect (hub.js:104-111): whether there was such a connection. */
    method Disconnect(c: ConnId) returns (found: bool, threw: bool)
      requires Valid(k, Now()) && conns <= k.made
      modifies this
      ensures Valid(k, Now()) && found == (c in old(conns))
      ensures !found ==> Now() == old(Now())
      ensures found && c !in old(closed) && !threw ==> Gone(k, Now(), c)
      ensures found && c !in old(closed) && k.steady && Safe(k, old(Now()), c) ==> !threw
      ensures found && c !in old(closed) && k.steady && !threw ==> LeavesTold(k, Shut(old(Now()), c), Now(), c, {})
    {
      found, threw := c in conns, false;
      if found {
        threw := CloseWith(c);
      }
    }

    /** cleanup (conn.js:128-147): the same for a connection whose socket went away. */
    method Cleanup(c: ConnId) returns (threw: bool)
      requires Valid(k, Now()) && c in k.made
      modifies this
      ensures Valid(k, Now()) && Shrinks(k, old(Now()), Now(), Some(c))
      ensures c in old(closed) ==> !threw && Now() == old(Now())
      ensures c !in old(closed) && !threw ==> Gone(k, Now(), c) && Finished(k, old(Now()), Now())
      ensures c !in old(closed) && !threw ==> (c in closeSent <==> c in k.ready)
      ensures c !in old(closed) && k.steady && Safe(k, old(Now()), c) ==> !threw
      ensures c !in old(closed) && k.steady && !threw ==> LeavesTold(k, Shut(old(Now()), c), Now(), c, {})
      decreases k.made - closed, 0
    {
      hide Shrinks, Finished, LeftAll, Safe, Timed, LeavesTold;
      Nothing(k, Now());
      ShrinksAnyway(k, Now(), Now(), Some(c));
      if c in closed {
        return false;
      }
      closed := closed + {c};
      ghost var before := Now();
      SameRooms(k, old(Now()), before);
      assert c in old(k.made - closed) && c !in k.made - closed;
      threw := LeaveAllRooms(c);
      Closing(k, old(Now()), before, Now(), c);
      LeftSafe(k, old(Now()), before, Now(), c, threw);
      if threw {
        return;
      }
      ghost var after := Now();
      SentOnlyByClosing(k, before, after, c);
      conns := conns - {c};
      if c !in closeSent && c in k.ready {
        closeSent := closeSent + {c};
        hungUp := hungUp + {c};
      }
      ClosedNow(k, old(Now()), before, after, Now(), c);
      if k.steady {
        ToldAnyway(k, before, after, Shut(old(Now()), c), Now(), c);
      }
    }

    /** leave_all_rooms (hub.js:180-184), over the names joined_rooms copies. */
    method LeaveAllRooms(c: ConnId) returns (threw: bool)
      requires Valid(k, Now()) && c in closed
      modifies this
      ensures Valid(k, Now()) && Shrinks(k, old(Now()), Now(), Some(c))
      ensures !threw ==> Finished(k, old(Now()), Now()) && forall r :: (c, r) !in tracked
      ensures k.steady ==> LeftAll(k, old(Now()), Now(), c, threw)
      ensures k.steady && !threw ==> LeavesTold(k, old(Now()), Now(), c, {})
      decreases k.made - closed, 5
    {
      hide Shrinks, Finished, LeftAll, LeftRoom, Leaving, Timed, LeavesTold, RoomTold;
      var todo := set p | p in tracked && p.0 == c :: p.1;
      threw := false;
      ghost var start := Now();
      Nothing(k, start);
      ShrinksAnyway(k, start, start, Some(c));
      StartsLeaving(k, start, c, todo);
      LeavesBegin(k, start, c, todo);
      while todo != {}
        invariant Valid(k, Now()) && Shrinks(k, start, Now(), Some(c)) && Finished(k, start, Now())
        invariant c in closed && forall r :: (c, r) in tracked ==> r in todo
        invariant k.steady ==> Leaving(k, start, Now(), c, todo)
        invariant k.steady ==> LeavesTold(k, start, Now(), c, todo)
        decreases |todo|
      {
        var earliest := EarliestRoom(since, c, todo);
        var name :| name in todo && forall q :: q in todo ==> Time(since, c, name) <= Time(since, c, q);
        ghost var before, still := Now(), todo;
        todo := todo - {name};
        OpenShrinks(k, start, before);
        threw := LeaveRoom(name, c);
        ShrinksOn(k, start, before, Now(), Some(c));
        OpenShrinks(k, before, Now());
        if k.steady {
          LeavesOne(k, start, before, Now(), c, still, name, threw);
        }
        if threw {
          return;
        }
        FinishedOn(k, start, before, Now(), Some(c));
        if k.steady {
          TracksLeft(k, start, before, c, still, name);
          LeavesTell(k, start, before, Now(), c, still, name);
        }
      }
      if k.steady {
        HasLeft(k, start, Now(), c);
      }
    }

    /** leave_room (hub.js:163-178), of a connection that is being closed or of one that asks to leave. */
    method LeaveRoom(name: Name, c: ConnId) returns (threw: bool)
      requires Valid(k, Now())
      modifies this
      ensures Valid(k, Now()) && Shrinks(k, old(Now()), Now(), Some(c))
      ensures !threw ==> Finished(k, old(Now()), Now())
      ensures (c, name) !in tracked
      ensures k.steady ==> LeftRoom(k, old(Now()), Now(), name, c, threw)
      ensures k.steady && !threw ==> RoomTold(k, old(Now()), Now(), name, c)
      decreases k.made - closed, 4
    {
      hide Shrinks, Finished, LeftRoom, FannedOut, Timed, FanTold;
      UnjoinedShrinks(k, Now(), c, name);
      tracked := tracked - {(c, name)};
      threw := false;
      var found := name in rooms;
      if found {
        var left := rooms[name] - {c};
        rooms := if left == {} then rooms - {name} else rooms[name := left];
      }
      ghost var before := Now();
      assert before == Unjoined(old(Now()), c, name);
      if found {
        threw := Broadcast(name, c, MemberLeft(name, c));
        ShrinksAnyway(k, before, Now(), Some(c));
        ShrinksOn(k, old(Now()), before, Now(), Some(c));
        OpenShrinks(k, before, Now());
        if !threw {
          FinishedOn(k, old(Now()), before, Now(), Some(c));
        }
        if k.steady {
          LeavingFansOut(k, old(Now()), Now(), name, c, threw);
        }
      } else {
        NobodyThere(k, old(Now()), before, name, c);
        NobodyHears(k, old(Now()), name, c);
      }
    }

    /** broadcast_room (hub.js:131-136). */
    method Broadcast(name: Name, except: ConnId, raw: Frame) returns (threw: bool)
      requires Valid(k, Now())
      modifies this
      ensures Valid(k, Now()) && Shrinks(k, old(Now()), Now(), None)
      ensures !threw ==> Finished(k, old(Now()), Now())
      ensures k.steady ==> FannedOut(k, old(Now()), Now(), name, Some(except), raw, threw)
      ensures k.steady && !threw ==> FanTold(k, old(Now()), Now(), name, Some(except), raw, {})
      decreases k.made - closed, 3
    {
      hide Shrinks, Finished, Near, Lures, Timed;
      threw := false;
      Nothing(k, Now());
      if name in rooms {
        threw := EmitLocal(name, Some(except), raw);
      } else {
        FanBegins(k, Now(), name, Some(except), raw);
        OneIsNotTwo(Due(k, Now(), name, Some(except)), "");
      }
    }
  }

  lemma EvictedClosed(k: Sockets, s: State, s': State, c: ConnId)
    requires Evicted(k, s, s', c, false)
    ensures c in s'.closed
  {
  }

  lemma TracksLeft(k: Sockets, start: State, s: State, c: ConnId, todo: set<Name>, name: Name)
    requires Leaving(k, start, s, c, todo) && name in todo
    ensures (c, name) in start.tracked
  {
  }

  lemma LeftSafe(k: Sockets, s: State, before: State, s': State, c: ConnId, threw: bool)
    requires before == s.(closed := s.closed + {c})
    ensures (k.steady ==> LeftAll(k, before, s', c, threw)) && k.steady && Safe(k, s, c) ==> !threw
  {
    assert forall r :: Members(before, r) == Members(s, r);
    if Safe(k, s, c) {
      SafeOn(k, s, before, c);
    }
  }

  lemma KeepsClosed(k: Sockets, s: State, s': State, c: ConnId)
    requires Shrinks(k, s, s', Some(c)) && c in s.closed
    ensures c in s'.closed && s'.conns <= s.conns && (c in s.conns ==> c in s'.conns)
    ensures s.closeSent <= s'.closeSent
  {
  }

  lemma SentOnlyByClosing(k: Sockets, s: State, s': State, c: ConnId)
    requires Shrinks(k, s, s', Some(c)) && c in s.closed && c !in s.closeSent
    ensures c !in s'.closeSent && s.closed <= s'.closed
  {
  }

  // ---------------------------------------------------------------- the fan-out loop, with steady buffers

  /**
   Where the loop of a fan-out stands. Either it has met nobody who was due, and nothing but the log has
   changed; or it has met `first`, and everybody who was due is closed and out of the room.
   */
  ghost predicate Progress(k: Sockets, start: State, s: State, name: Name, except: Option<ConnId>, raw: Frame,
                           first: Option<ConnId>, todo: set<ConnId>) {
    var due := Due(k, start, name, except);
    && (forall c :: c in Owed(k, start, name, except) && c !in todo ==> (c, raw) in s.log)
    && (forall d :: FirstMember(start, name, except, d) ==> d !in todo || s == start)
    && (forall d :: LuredBy(k, start, name, except, d) ==> d in todo)
    && match first
       case None => s == start.(log := s.log) && due <= todo
       case Some(f) =>
         && f in due && f !in todo && due - {f} <= todo
         && due <= s.closed && (forall c :: c in due ==> c !in Members(s, name))
         && !Crowd(start, due, name)
  }

  /** The next key is one of those left, and none of those left is earlier. */
  ghost predicate Next(start: State, name: Name, todo: set<ConnId>, id: ConnId) {
    && id in todo && todo <= Members(start, name)
    && forall y :: y in todo ==> Time(start.since, id, name) <= Time(start.since, y, name)
  }

  lemma Begins(k: Sockets, s: State, name: Name, except: Option<ConnId>, raw: Frame)
    ensures Progress(k, s, s, name, except, raw, None, Members(s, name))
  {
    hide Lures;
  }

  lemma Skipped(k: Sockets, start: State, s: State, name: Name, except: Option<ConnId>, raw: Frame,
                first: Option<ConnId>, todo: set<ConnId>, id: ConnId)
    requires Progress(k, start, s, name, except, raw, first, todo) && Some(id) == except
    ensures Progress(k, start, s, name, except, raw, first, todo - {id})
  {
    hide Lures;
  }

  /** A key whose member is missing: two members were due. */
  lemma Missing(k: Sockets, start: State, s: State, name: Name, except: Option<ConnId>, raw: Frame,
                first: Option<ConnId>, todo: set<ConnId>, id: ConnId)
    requires k.steady && Progress(k, start, s, name, except, raw, first, todo) && Shrinks(k, start, s, None)
    requires Finished(k, start, s) && Next(start, name, todo, id) && id !in Members(s, name) && Some(id) != except
    ensures FannedOut(k, start, s, name, except, raw, true)
  {
    hide Lures, Near, FirstMember, Finished;
    assert id in Closed(start, s);
    assert id in Due(k, start, name, except) && first.value in Due(k, start, name, except);
    assert forall d :: LuredBy(k, start, name, except, d) ==> s == start;
  }

  /** A member due that is not yet met, met next: nothing has happened before. */
  lemma MeetsFirst(k: Sockets, start: State, s: State, name: Name, except: Option<ConnId>, raw: Frame,
                   first: Option<ConnId>, todo: set<ConnId>, id: ConnId, d: ConnId)
    requires Progress(k, start, s, name, except, raw, first, todo) && Next(start, name, todo, id) && Some(id) != except
    ensures FirstMember(start, name, except, d) && d in todo ==> d == id && s == start
  {
    hide Lures;
  }

  /** The send that closes the first member due throws. */
  lemma Thrown(k: Sockets, start: State, before: State, s: State, name: Name, except: Option<ConnId>, raw: Frame,
               first: Option<ConnId>, todo: set<ConnId>, id: ConnId)
    requires k.steady && Progress(k, start, before, name, except, raw, first, todo) && Shrinks(k, start, before, None)
    requires Next(start, name, todo, id) && id in Members(before, name) && Some(id) != except
    requires Slow(k, before, id) && Evicted(k, before, s, id, true)
    ensures FannedOut(k, start, s, name, except, raw, true)
  {
    hide Lures, Near, Shrinks, Owed, Safe, FirstMember;
    ShrinksFrame(k, start, before);
    assert id in Due(k, start, name, except);
    assert first == None;
    if Calm(k, start, Due(k, start, name, except)) {
      CalmOn(k, start, before, Due(k, start, name, except), {id});
      CalmSafe(k, before, id);
    }
    forall d | LuredBy(k, start, name, except, d)
      ensures d == id
    {
      MeetsFirst(k, start, before, name, except, raw, first, todo, id, d);
    }
    assert id in start.conns ==> Leaked(s, id);
    assert Crowd(start, Due(k, start, name, except), name) ==> Leaked(s, id);
  }

  lemma ShrinksFrame(k: Sockets, s: State, s': State)
    requires Shrinks(k, s, s', None)
    ensures s.closed <= s'.closed && (forall r :: Members(s', r) <= Members(s, r)) && s'.since == s.since
  {
  }

  lemma Visited(k: Sockets, start: State, before: State, s: State, name: Name, except: Option<ConnId>, raw: Frame,
                first: Option<ConnId>, todo: set<ConnId>, id: ConnId) returns (first': Option<ConnId>)
    requires k.steady && Progress(k, start, before, name, except, raw, first, todo) && Shrinks(k, start, before, None)
    requires Valid(k, before) && Valid(k, s) && Shrinks(k, before, s, None) && Finished(k, before, s)
    requires Next(start, name, todo, id) && id in Members(before, name) && Some(id) != except
    requires Slow(k, before, id) ==> Evicted(k, before, s, id, false)
    requires !Slow(k, before, id) ==> s == before.(log := s.log)
    requires id !in before.closed && id in k.ready && id !in k.over ==> (id, raw) in s.log
    ensures Progress(k, start, s, name, except, raw, first', todo - {id})
  {
    hide Lures, Finished, FirstMember, Timed, Owed;
    if Slow(k, before, id) {
      first' := Some(id);
      MetFirst(k, start, before, s, name, except, id);
    } else {
      first' := first;
    }
    VisitedOwed(k, start, before, s, name, except, raw, first, todo, id);
    forall d
      ensures FirstMember(start, name, except, d) ==> d !in todo - {id} || s == start
      ensures LuredBy(k, start, name, except, d) ==> d in todo - {id}
    {
      MeetsFirst(k, start, before, name, except, raw, first, todo, id, d);
    }
  }

  /** Nobody owed the frame is closed before it is met. */
  lemma VisitedOwed(k: Sockets, start: State, before: State, s: State, name: Name, except: Option<ConnId>, raw: Frame,
                    first: Option<ConnId>, todo: set<ConnId>, id: ConnId)
    requires k.steady && Progress(k, start, before, name, except, raw, first, todo) && Shrinks(k, start, before, None)
    requires before.log <= s.log
    requires id !in before.closed && id in k.ready && id !in k.over ==> (id, raw) in s.log
    ensures forall c :: c in Owed(k, start, name, except) && c !in todo - {id} ==> (c, raw) in s.log
  {
    hide Lures, LuredBy, FirstMember, Due;
    forall c | c in Owed(k, start, name, except) && c !in todo - {id}
      ensures (c, raw) in s.log
    {
      assert c in before.closed ==> c in Closed(start, before);
    }
  }

  lemma MetFirst(k: Sockets, start: State, before: State, s: State, name: Name, except: Option<ConnId>, id: ConnId)
    requires before == start.(log := before.log)
    requires Valid(k, before) && Valid(k, s) && Finished(k, before, s)
    requires id in Members(start, name) && Some(id) != except && Slow(k, start, id)
    requires Evicted(k, before, s, id, false)
    ensures var due := Due(k, start, name, except);
            && id in due && due <= s.closed && (forall c :: c in due ==> c !in Members(s, name))
            && !Crowd(start, due, name)
  {
    hide Safe, Lures, Timed;
    var due := Due(k, start, name, except);
    var others := Due(k, before, name, Some(id));
    assert due - {id} <= others;
    forall c | c in due
      ensures c in s.closed && c !in Members(s, name)
    {
      assert c == id || c in others;
      assert c in Closed(before, s);
    }
    ThreeLeavesTwo(due, others, id);
    assert Crowd(start, due, name) ==> OnlyRoom(start, id, name);
    OnlyRoomLures(k, before, name, id);
    assert OnlyRoom(start, id, name) ==> OnlyRoom(before, id, name);
    assert !Lures(k, before, 0, id);
  }

  /** With one room only, that room comes first. */
  lemma OnlyRoomLures(k: Sockets, s: State, name: Name, c: ConnId)
    requires (c, name) in s.tracked
    ensures OnlyRoom(s, c, name) && Two(Due(k, s, name, Some(c))) ==> Lures(k, s, 0, c)
  {
    if OnlyRoom(s, c, name) {
      var shut := Shut(s, c);
      assert forall q :: (c, q) in shut.tracked ==> (c, q).1 == name;
      assert FirstRoom(shut, c, name);
      DueShut(k, s, name, c);
      DueUnjoined(k, shut, name, c);
    }
  }

  lemma Ends(k: Sockets, start: State, s: State, name: Name, except: Option<ConnId>, raw: Frame, first: Option<ConnId>)
    requires Progress(k, start, s, name, except, raw, first, {}) && Finished(k, start, s)
    ensures FannedOut(k, start, s, name, except, raw, false)
  {
    hide Lures, Near, Finished;
    var due := Due(k, start, name, except);
    OneIsNotTwo(due, if first.Some? then first.value else "");
  }

  // ---------------------------------------------------------------- leaving and closing, with steady buffers

  lemma LeavingFansOut(k: Sockets, s: State, s': State, name: Name, c: ConnId, threw: bool)
    requires FannedOut(k, Unjoined(s, c, name), s', name, Some(c), MemberLeft(name, c), threw)
    ensures LeftRoom(k, s, s', name, c, threw)
  {
    hide Near, Lures, LuredBy, Finished, Due, Owed;
    var u := Unjoined(s, c, name);
    DueUnjoined(k, s, name, c);
    var due := Due(k, s, name, Some(c));
    if Calm(k, s, due) {
      CalmOn(k, s, u, due, due);
    }
  }

  lemma NobodyThere(k: Sockets, s: State, s': State, name: Name, c: ConnId)
    requires name !in s.rooms
    ensures LeftRoom(k, s, s', name, c, false)
  {
    hide Near, Lures;
    assert Due(k, s, name, Some(c)) == {};
    assert Members(Unjoined(s, c, name), name) == {};
  }

  /** While `c` leaves: who was due in the rooms it has left is closed. */
  ghost predicate Leaving(k: Sockets, start: State, s: State, c: ConnId, todo: set<Name>) {
    && (forall r :: (c, r) in start.tracked && r !in todo ==> Due(k, start, r, Some(c)) <= s.closed)
    && (forall r :: r in todo ==> (c, r) in start.tracked)
    && (forall r :: FirstRoom(start, c, r) ==> r !in todo || s == start)
    && (forall r, n :: FirstRoom(start, c, r) && LuresOut(k, start, n, c) ==> r in todo)
  }

  lemma StartsLeaving(k: Sockets, s: State, c: ConnId, todo: set<Name>)
    requires todo == set p | p in s.tracked && p.0 == c :: p.1
    ensures Leaving(k, s, s, c, todo)
  {
    hide LuresOut;
  }

  lemma LeavesOne(k: Sockets, start: State, before: State, s: State, c: ConnId, todo: set<Name>, name: Name,
      threw: bool)
    requires k.steady && Valid(k, start) && c in start.closed
    requires Shrinks(k, start, before, Some(c)) && Shrinks(k, before, s, Some(c))
    requires Leaving(k, start, before, c, todo) && LeftRoom(k, before, s, name, c, threw)
    requires name in todo && forall q :: q in todo ==> Time(start.since, c, name) <= Time(start.since, c, q)
    ensures threw ==> LeftAll(k, start, s, c, true)
    ensures !threw ==> Leaving(k, start, s, c, todo - {name})
  {
    hide LuresOut, Near, LuredBy, Timed;
    if threw {
      if Safe(k, start, c) {
        SafeOn(k, start, before, c);
        SafeLeaves(k, start, before, name, c);
      }
    } else {
      DueOn(k, start, before, Some(c), name, Some(c));
      forall r, n | FirstRoom(start, c, r)
        ensures LuresOut(k, start, n, c) ==> r in todo - {name}
      {
        LuresThrow(k, start, s, n, c, r);
      }
    }
  }

  /** Even if `c` is out of the room already, who is due there was due when it was in. */
  lemma SafeLeaves(k: Sockets, start: State, before: State, name: Name, c: ConnId)
    requires Safe(k, start, c) && c in Members(start, name)
    requires start.closed <= before.closed && forall r :: Members(before, r) <= Members(start, r)
    ensures var due := Due(k, before, name, Some(c)); !Two(due) && Calm(k, before, due)
  {
    hide Near;
    var due, due' := Due(k, start, name, Some(c)), Due(k, before, name, Some(c));
    assert due' <= due;
    MoreIsThree(due', due);
    CalmOn(k, start, before, due, due');
  }

  /** Where the order of keys lures, leaving the first room throws. */
  lemma LuresThrow(k: Sockets, s: State, s': State, n: nat, c: ConnId, r: Name)
    requires FirstRoom(s, c, r)
    ensures LuresOut(k, s, n, c) ==> !LeftRoom(k, s, s', r, c, false)
  {
    hide Near, Lures, Due;
    if LuresOut(k, s, n, c) {
      LuresLures(k, s, n, c, r);
    }
  }

  /** The room that lures is the first one. */
  lemma LuresLures(k: Sockets, s: State, n: nat, c: ConnId, r: Name)
    requires LuresOut(k, s, n, c) && FirstRoom(s, c, r)
    ensures Two(Due(k, s, r, Some(c))) || exists d :: LuredBy(k, Unjoined(s, c, r), r, Some(c), d)
  {
    hide Near, Lures, Due;
    var q :| FirstRoom(s, c, q) && (
      var u := Unjoined(s, c, q);
      || Two(Due(k, u, q, Some(c)))
      || exists d, m: nat {:trigger Lures(k, u, m, d)} ::
          m < n && FirstMember(u, q, Some(c), d) && Slow(k, u, d) && Lures(k, u, m, d));
    FirstIsOne(s, c, r, q);
    DueUnjoined(k, s, r, c);
    var u := Unjoined(s, c, r);
    if !Two(Due(k, u, r, Some(c))) {
      var d, m: nat :| m < n && FirstMember(u, r, Some(c), d) && Slow(k, u, d) && Lures(k, u, m, d);
      assert LuredBy(k, u, r, Some(c), d);
    }
  }

  lemma HasLeft(k: Sockets, start: State, s: State, c: ConnId)
    requires Leaving(k, start, s, c, {})
    ensures LeftAll(k, start, s, c, false)
  {
    hide Lures;
    forall n
      ensures !LuresOut(k, start, n, c)
    {
    }
  }

  lemma ClosingEvicts(k: Sockets, s: State, after: State, c: ConnId, threw: bool)
    requires Valid(k, s) && c in after.closed && after.conns <= s.conns
    requires c in s.conns ==> c in after.conns
    requires LeftAll(k, Shut(s, c), after, c, threw)
    ensures Evicted(k, s, after, c, threw)
  {
    hide Near, Due, Timed;
    var before := Shut(s, c);
    assert forall r :: Members(before, r) == Members(s, r);
    if Safe(k, s, c) {
      SafeOn(k, s, before, c);
    }
    forall r
      ensures Due(k, before, r, Some(c)) == Due(k, s, r, Some(c))
    {
      DueShut(k, s, r, c);
    }
    forall n
      ensures Lures(k, s, n, c) ==> threw
    {
      assert Lures(k, s, n, c) ==> LuresOut(k, before, n, c);
    }
  }

  lemma StillEvicted(k: Sockets, s: State, after: State, s': State, c: ConnId)
    requires Evicted(k, s, after, c, false) && s'.closed == after.closed
    ensures Evicted(k, s, s', c, false)
  {
    hide Near, Lures;
  }
}
