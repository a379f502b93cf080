/**
 Which frames a cascade of the Node server sends, and how often: if nothing is thrown, each member that is owed
 a frame gets it once, and of everybody who is closed each room hears once.
 */
module NodeFrames {
  import opened Wire
  import opened NodeRooms

  function Count(s: State, d: ConnId, f: Frame): nat {
    multiset(s.log)[(d, f)]
  }

  /** What `d` hears of those who are closed on the way from `s` to `s'`: for each that they leave its rooms. */
  function Heard(k: Sockets, s: State, s': State, d: ConnId, f: Frame): nat {
    if f.MemberLeft? && f.who in Closed(s, s') then LeavesHeard(k, s, f.who, {}, d, f) else 0
  }

  /** And of `c` when it leaves its rooms, but those still to leave. */
  function LeavesHeard(k: Sockets, s: State, c: ConnId, todo: set<Name>, d: ConnId, f: Frame): nat {
    if f.MemberLeft? && f.who == c && (c, f.room) in s.tracked && f.room !in todo && d in Owed(k, s, f.room, Some(c))
    then 1 else 0
  }

  /** And of a fan-out to room `name`, but for the members still to be met. */
  function FanHeard(k: Sockets, s: State, name: Name, except: Option<ConnId>, raw: Frame, todo: set<ConnId>,
      d: ConnId, f: Frame): nat {
    if f == raw && d in Owed(k, s, name, except) && d !in todo then 1 else 0
  }

  /** A fan-out has sent what it owes, as far as it has come, and its cascade what there is to hear of it. */
  ghost predicate FanTold(k: Sockets, s: State, s': State, name: Name, except: Option<ConnId>, raw: Frame,
      todo: set<ConnId>) {
    forall d, f :: Count(s', d, f) ==
      Count(s, d, f) + Heard(k, s, s', d, f) + FanHeard(k, s, name, except, raw, todo, d, f)
  }

  /** So has a connection that is closed and leaves its rooms. */
  ghost predicate LeavesTold(k: Sockets, s: State, s': State, c: ConnId, todo: set<Name>) {
    forall d, f :: Count(s', d, f) == Count(s, d, f) + Heard(k, s, s', d, f) + LeavesHeard(k, s, c, todo, d, f)
  }

  /** A connection that leaves one room: what is heard of it there. */
  ghost predicate RoomTold(k: Sockets, s: State, s': State, name: Name, c: ConnId) {
    FanTold(k, Unjoined(s, c, name), s', name, Some(c), MemberLeft(name, c), {})
  }

  /** With steady buffers a cascade closes nobody who is owed a frame. */
  lemma OwedOn(k: Sockets, s: State, s': State, c: Option<ConnId>, r: Name, except: Option<ConnId>)
    requires k.steady && Shrinks(k, s, s', c) && (c.Some? ==> c.value in s.closed)
    ensures Owed(k, s', r, except) == Owed(k, s, r, except)
  {
  }

  /** What is heard adds up. */
  lemma HeardOn(k: Sockets, a: State, b: State, e: State, c: Option<ConnId>, d: ConnId, f: Frame)
    requires k.steady && Shrinks(k, a, b, c) && Shrinks(k, b, e, c) && (c.Some? ==> c.value in a.closed)
    ensures Heard(k, a, e, d, f) == Heard(k, a, b, d, f) + Heard(k, b, e, d, f)
  {
    hide Owed;
    if f.MemberLeft? {
      OwedOn(k, a, b, c, f.room, Some(f.who));
    }
  }

  lemma Silent(k: Sockets, s: State, d: ConnId, f: Frame)
    ensures Heard(k, s, s, d, f) == 0
  {
  }

  lemma CountNext(s: State, s': State, x: (ConnId, Frame))
    requires s'.log == s.log + [x]
    ensures forall d, f :: Count(s', d, f) == Count(s, d, f) + if (d, f) == x then 1 else 0
  {
  }

  // ---------------------------------------------------------------- a fan-out

  lemma FanBegins(k: Sockets, s: State, name: Name, except: Option<ConnId>, raw: Frame)
    ensures FanTold(k, s, s, name, except, raw, Members(s, name))
  {
  }

  /** The next member is met, and it is not slow. */
  lemma FanSends(k: Sockets, start: State, before: State, s: State, name: Name, except: Option<ConnId>, raw: Frame,
                 todo: set<ConnId>, id: ConnId)
    requires k.steady && Shrinks(k, start, before, None) && FanTold(k, start, before, name, except, raw, todo)
    requires id in todo && id in Members(before, name) && Some(id) != except
    requires s == before.(log := before.log +
                 if id !in before.closed && id in k.ready && id !in k.over then [(id, raw)] else [])
    ensures FanTold(k, start, s, name, except, raw, todo - {id})
  {
    OwedOn(k, start, before, None, name, except);
    assert id in Owed(k, start, name, except) <==> id !in before.closed && id in k.ready && id !in k.over;
    hide Owed, Shrinks;
    if id in Owed(k, start, name, except) {
      CountNext(before, s, (id, raw));
    } else {
      assert s.log == before.log;
    }
    assert Closed(start, s) == Closed(start, before);
  }

  /** The next member is met and closed. */
  lemma FanCloses(k: Sockets, start: State, before: State, s: State, name: Name, except: Option<ConnId>, raw: Frame,
                  todo: set<ConnId>, id: ConnId)
    requires k.steady && Shrinks(k, start, before, None) && FanTold(k, start, before, name, except, raw, todo)
    requires Shrinks(k, before, s, None) && Slow(k, before, id) && id in s.closed
    requires LeavesTold(k, Shut(before, id), s, id, {})
    ensures FanTold(k, start, s, name, except, raw, todo - {id})
  {
    hide Shrinks;
    NotOwed(k, start, before, name, except, id);
    forall d, f
      ensures Count(s, d, f) ==
        Count(start, d, f) + Heard(k, start, s, d, f) + FanHeard(k, start, name, except, raw, todo - {id}, d, f)
    {
      HeardOn(k, start, before, s, None, d, f);
      ClosedHeard(k, before, s, id, d, f);
    }
  }

  lemma NotOwed(k: Sockets, start: State, before: State, name: Name, except: Option<ConnId>, id: ConnId)
    requires Slow(k, before, id)
    ensures id !in Owed(k, start, name, except)
  {
  }

  /** What is heard of a slow connection that is closed is what is heard when it leaves its rooms. */
  lemma ClosedHeard(k: Sockets, s: State, s': State, c: ConnId, d: ConnId, f: Frame)
    requires Slow(k, s, c) && c in s'.closed
    ensures var before := Shut(s, c);
            && Heard(k, s, s', d, f) == Heard(k, before, s', d, f) + LeavesHeard(k, before, c, {}, d, f)
            && Count(before, d, f) == Count(s, d, f)
  {
    var before := Shut(s, c);
    assert forall r :: Members(before, r) == Members(s, r);
    assert forall r, e :: Owed(k, before, r, e) == Owed(k, s, r, e);
  }

  lemma FanSkips(k: Sockets, start: State, s: State, name: Name, except: Option<ConnId>, raw: Frame,
                 todo: set<ConnId>, id: ConnId)
    requires FanTold(k, start, s, name, except, raw, todo) && Some(id) == except
    ensures FanTold(k, start, s, name, except, raw, todo - {id})
  {
  }

  // ---------------------------------------------------------------- leaving

  lemma LeavesBegin(k: Sockets, s: State, c: ConnId, todo: set<Name>)
    requires todo == set p | p in s.tracked && p.0 == c :: p.1
    ensures LeavesTold(k, s, s, c, todo)
  {
    forall d, f
      ensures LeavesHeard(k, s, c, todo, d, f) == 0
    {
      if f.MemberLeft? && (c, f.room) in s.tracked {
        assert (c, f.room).1 in todo;
      }
    }
  }

  lemma LeavesTell(k: Sockets, start: State, before: State, s: State, c: ConnId, todo: set<Name>, name: Name)
    requires k.steady && c in start.closed && (c, name) in start.tracked && name in todo
    requires Shrinks(k, start, before, Some(c)) && Shrinks(k, before, s, Some(c))
    requires LeavesTold(k, start, before, c, todo) && RoomTold(k, before, s, name, c)
    ensures LeavesTold(k, start, s, c, todo - {name})
  {
    hide Shrinks;
    var u := Unjoined(before, c, name);
    StillClosed(k, start, before, c);
    forall d, f
      ensures Count(s, d, f) ==
        Count(start, d, f) + Heard(k, start, s, d, f) + LeavesHeard(k, start, c, todo - {name}, d, f)
    {
      HeardOn(k, start, before, s, Some(c), d, f);
      UnjoinedHeard(k, before, s, name, c, d, f);
      OwedOn(k, start, before, Some(c), name, Some(c));
      hide Owed;
    }
  }

  lemma StillClosed(k: Sockets, s: State, s': State, c: ConnId)
    requires Shrinks(k, s, s', Some(c)) && c in s.closed
    ensures c in s'.closed
  {
  }

  /** A closed connection out of a room is not owed anything more or less. */
  lemma UnjoinedHeard(k: Sockets, s: State, s': State, name: Name, c: ConnId, d: ConnId, f: Frame)
    requires c in s.closed
    ensures var u := Unjoined(s, c, name);
            && Heard(k, u, s', d, f) == Heard(k, s, s', d, f)
            && Count(u, d, f) == Count(s, d, f)
            && Owed(k, u, name, Some(c)) == Owed(k, s, name, Some(c))
  {
    var u := Unjoined(s, c, name);
    assert forall r, e :: Owed(k, u, r, e) == Owed(k, s, r, e);
  }

  lemma NobodyHears(k: Sockets, s: State, name: Name, c: ConnId)
    requires name !in s.rooms
    ensures RoomTold(k, s, Unjoined(s, c, name), name, c)
  {
    assert Members(Unjoined(s, c, name), name) == {};
  }

  /** What is told does not depend on who is registered, who was hung up on and who was sent a close. */
  lemma ToldAnyway(k: Sockets, s: State, s': State, t: State, t': State, c: ConnId)
    requires LeavesTold(k, s, s', c, {})
    requires t == s.(closeSent := t.closeSent)
    requires t' == s'.(conns := t'.conns, closeSent := t'.closeSent, hungUp := t'.hungUp)
    ensures LeavesTold(k, t, t', c, {})
  {
    assert forall r :: Members(t, r) == Members(s, r);
    forall d, f
      ensures Count(t', d, f) == Count(t, d, f) + Heard(k, t, t', d, f) + LeavesHeard(k, t, c, {}, d, f)
    {
      assert Count(s', d, f) == Count(s, d, f) + Heard(k, s, s', d, f) + LeavesHeard(k, s, c, {}, d, f);
      assert forall r, e :: Owed(k, t, r, e) == Owed(k, s, r, e);
    }
  }
}
