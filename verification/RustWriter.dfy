/**
 A Rust connection's outbound side: the senders of server/rust/src/conn.rs and the coalescing writer task
 of server/rust/src/handler.rs, joined by a bounded channel. What the other tasks do in between, atomic step
 by atomic step, what the socket and the clock do, and whether the task is aborted at an await, is arbitrary.
 */
module RustWriter {
  import opened Wire

  datatype Outbound = Binary(data: Bytes) | Close(code: nat)

  datatype WireFrame = BinaryFrame(data: Bytes) | PingFrame | CloseFrame(code: nat)

  datatype Strategy = DropSlowClient | DropOldest | DropNewest

  // ---------------------------------------------------------------- the binary frames among others

  function Binaries(s: seq<Outbound>): seq<Bytes> {
    if s == [] then []
    else Binaries(s[..|s| - 1]) + (if s[|s| - 1].Binary? then [s[|s| - 1].data] else [])
  }

  function BinariesOf(w: seq<WireFrame>): seq<Bytes> {
    if w == [] then []
    else BinariesOf(w[..|w| - 1]) + (if w[|w| - 1].BinaryFrame? then [w[|w| - 1].data] else [])
  }

  predicate NoClose(w: seq<WireFrame>) {
    forall i :: 0 <= i < |w| ==> !w[i].CloseFrame?
  }

  /** A close frame is the last thing written: section 5.5.1 of RFC 6455. */
  predicate CloseLast(w: seq<WireFrame>) {
    forall i :: 0 <= i < |w| && w[i].CloseFrame? ==> i == |w| - 1
  }

  lemma BinariesNext(s: seq<Outbound>, x: Outbound)
    ensures Binaries(s + [x]) == Binaries(s) + (if x.Binary? then [x.data] else [])
  {
    assert (s + [x])[..|s|] == s;
  }

  lemma FedNext(w: seq<WireFrame>, x: WireFrame)
    ensures NoClose(w) ==> CloseLast(w) && CloseLast(w + [x])
    ensures NoClose(w) && !x.CloseFrame? ==> NoClose(w + [x])
    ensures BinariesOf(w + [x]) == BinariesOf(w) + (if x.BinaryFrame? then [x.data] else [])
  {
    assert (w + [x])[..|w|] == w;
  }

  lemma {:induction false} BinariesPrefix(s: seq<Outbound>, k: nat)
    requires k <= |s|
    ensures Binaries(s[..k]) <= Binaries(s)
  {
    if k < |s| {
      BinariesPrefix(s[..|s| - 1], k);
      assert s[..|s| - 1][..k] == s[..k];
    } else {
      assert s[..k] == s;
    }
  }

  function Closes(s: seq<Outbound>): nat {
    if s == [] then 0 else Closes(s[..|s| - 1]) + (if s[|s| - 1].Close? then 1 else 0)
  }

  lemma ClosesNext(s: seq<Outbound>, x: Outbound)
    ensures Closes(s + [x]) == Closes(s) + (if x.Close? then 1 else 0)
  {
    assert (s + [x])[..|s|] == s;
  }

  lemma {:induction false} FedPrefix(w: seq<WireFrame>, k: nat)
    requires k <= |w|
    ensures BinariesOf(w[..k]) <= BinariesOf(w)
  {
    if k < |w| {
      FedPrefix(w[..|w| - 1], k);
      assert w[..|w| - 1][..k] == w[..k];
    } else {
      assert w[..k] == w;
    }
  }

  // ---------------------------------------------------------------- the connection

  /**
   What happens while a call is between two of its atomic steps: how many messages the writer takes, what
   other tasks enqueue, and whether other tasks do anything at all.
   */
  datatype Gap = Gap(freed: nat, filled: seq<Outbound>, others: bool)

  const NO_GAP := Gap(0, [], false)

  function Plus(a: Gap, b: Gap): Gap {
    Gap(a.freed + b.freed, a.filled + b.filled, a.others || b.others)
  }

  /**
   `Conn` with its channel: what was ever enqueued, and how much of it the writer has taken. `closing` is the
   state of the one call that has set `close_sent` and is about to enqueue its close frame.
   */
  class Conn {
    const capacity: nat
    const backpressure: Strategy
    var queue: seq<Outbound>
    var receiverOpen: bool
    var isAborted: bool
    var closeSent: bool
    var closing: Option<nat>
    ghost var enqueued: seq<Outbound>
    ghost var taken: nat
    /** The payloads for which `try_send` answered true, in order. */
    ghost var accepted: seq<Bytes>

    ghost predicate Valid()
      reads this
    {
      && taken <= |enqueued|
      && queue == enqueued[taken..]
      && |queue| <= capacity
      && Binaries(enqueued) == accepted
      && Closes(enqueued) + (if closing.Some? then 1 else 0) <= (if closeSent then 1 else 0)
    }

    constructor (capacity: nat, backpressure: Strategy)
      ensures Valid() && this.capacity == capacity && this.backpressure == backpressure
      ensures enqueued == [] && taken == 0 && receiverOpen && !isAborted && !closeSent
    {
      this.capacity, this.backpressure := capacity, backpressure;
      queue, receiverOpen, isAborted, closeSent, closing := [], true, false, false, None;
      enqueued, taken, accepted := [], 0, [];
    }

    /** What no sender undoes: the channel only grows, at its end, and flags are only raised. */
    twostate predicate Grows()
      reads this
    {
      && old(enqueued) <= enqueued
      && old(accepted) <= accepted
      && (old(closeSent) ==> closeSent)
      && (old(isAborted) ==> isAborted)
    }

    // -------------------------------------------------------------- atomic steps

    /** mpsc::Sender::try_send. */
    method ChannelSend(m: Outbound) returns (ok: bool)
      requires Valid()
      requires m.Close? ==> Closes(enqueued) == 0 && closeSent && closing.None?
      modifies this`queue, this`enqueued, this`accepted
      ensures Valid() && (ok <==> receiverOpen && old(|queue|) < capacity)
      ensures enqueued == if ok then old(enqueued) + [m] else old(enqueued)
      ensures accepted == if ok && m.Binary? then old(accepted) + [m.data] else old(accepted)
    {
      ok := receiverOpen && |queue| < capacity;
      if ok {
        BinariesNext(enqueued, m);
        ClosesNext(enqueued, m);
        queue, enqueued := queue + [m], enqueued + [m];
        accepted := if m.Binary? then accepted + [m.data] else accepted;
      }
    }

    /** close_sent.swap(true): only the first call goes on to enqueue its close frame. */
    method WinClose(code: nat) returns (first: bool)
      requires Valid()
      modifies this`closeSent, this`closing
      ensures Valid() && closeSent && first == !old(closeSent)
      ensures closing == if first then Some(code) else old(closing)
    {
      first := !closeSent;
      closeSent := true;
      if first {
        closing := Some(code);
      }
    }

    /** And enqueues it if there is room. */
    method EnqueueClose() returns (ok: bool)
      requires Valid() && closing.Some?
      modifies this`queue, this`enqueued, this`accepted, this`closing
      ensures Valid() && closing.None? && (ok <==> receiverOpen && old(|queue|) < capacity)
      ensures enqueued == if ok then old(enqueued) + [Close(old(closing).value)] else old(enqueued)
      ensures accepted == old(accepted)
    {
      var code := closing.value;
      closing := None;
      ok := ChannelSend(Close(code));
    }

    /** mpsc::Receiver::try_recv, and recv once there is something. */
    method Take() returns (m: Option<Outbound>)
      requires Valid()
      modifies this`queue, this`taken
      ensures Valid()
      ensures m.Some? <==> old(queue) != []
      ensures taken == if m.Some? then old(taken) + 1 else old(taken)
      ensures m.Some? ==> enqueued[..taken] == enqueued[..old(taken)] + [m.value]
    {
      if queue == [] {
        return None;
      }
      m := Some(queue[0]);
      queue, taken := queue[1..], taken + 1;
    }

    /**
     One atomic step of a call by another task: of try_send, try_send_close or close_with, wherever that call
     stands. If the pending close frame is `mine`, only its own call enqueues it.
     */
    method OtherStep(mine: bool)
      requires Valid()
      modifies this`queue, this`enqueued, this`accepted, this`isAborted, this`closeSent, this`closing
      ensures Valid() && Grows() && (mine && old(closing).Some? ==> closing == old(closing))
    {
      var which: nat, data: Bytes, code: nat := *, *, *;
      if which == 0 {
        var ok := ChannelSend(Binary(data));
      } else if which == 1 {
        isAborted := true;
      } else if which == 2 {
        var first := WinClose(code);
      } else if closing.Some? && !mine {
        var ok := EnqueueClose();
      }
    }

    /** Any number of steps of other tasks. */
    method Others()
      requires Valid()
      modifies this`queue, this`enqueued, this`accepted, this`isAborted, this`closeSent, this`closing
      ensures Valid() && Grows()
    {
      var steps: nat := *;
      while steps > 0
        invariant Valid() && Grows()
      {
        OtherStep(false);
        steps := steps - 1;
      }
    }

    /** Between two steps of a sender: any number of steps of the writer and of other tasks. */
    method Meanwhile(mine: bool) returns (ghost gap: Gap)
      requires Valid()
      modifies this
      ensures Valid() && Grows() && (mine && old(closing).Some? ==> closing == old(closing))
      ensures enqueued == old(enqueued) + gap.filled && taken == old(taken) + gap.freed
      ensures receiverOpen ==> old(receiverOpen)
      ensures !gap.others ==>
                && gap.filled == [] && accepted == old(accepted) && receiverOpen == old(receiverOpen)
                && closeSent == old(closeSent) && isAborted == old(isAborted) && closing == old(closing)
    {
      gap := NO_GAP;
      var steps: nat := *;
      while steps > 0
        invariant Valid() && Grows() && (mine && old(closing).Some? ==> closing == old(closing))
        invariant enqueued == old(enqueued) + gap.filled && taken == old(taken) + gap.freed
        invariant receiverOpen ==> old(receiverOpen)
        invariant !gap.others ==>
                    && gap.filled == [] && accepted == old(accepted) && receiverOpen == old(receiverOpen)
                    && closeSent == old(closeSent) && isAborted == old(isAborted) && closing == old(closing)
      {
        var which: nat := *;
        if which == 0 {
          var m := Take();
          gap := gap.(freed := gap.freed + if m.Some? then 1 else 0);
        } else if which == 1 {
          receiverOpen := false;
          gap := gap.(others := true);
        } else {
          OtherStep(mine);
          gap := gap.(filled := enqueued[|old(enqueued)|..], others := true);
        }
        steps := steps - 1;
      }
    }

    // -------------------------------------------------------------- whole calls

    /**
     try_send (conn.rs:144-174). A full queue that refuses the payload of a slow client gets its close frame
     if and only if the call is the first to abort and to close and, before the second attempt, the writer has
     freed more places than other tasks have filled.
     */
    method TrySend(data: Bytes) returns (ok: bool, ghost told: bool, ghost first: bool, ghost gap: Gap)
      requires Valid()
      modifies this
      ensures Valid() && Grows()
      ensures ok <==> !old(isAborted) && old(receiverOpen) && old(|queue|) < capacity
      ensures ok ==> accepted == old(accepted) + [data] && isAborted == old(isAborted) && closeSent == old(closeSent)
      ensures enqueued == old(enqueued) + (if ok then [Binary(data)] else [])
                          + gap.filled + (if told then [Close(1008)] else [])
      ensures taken == old(taken) + gap.freed
      ensures var full := !old(isAborted) && old(receiverOpen) && !ok;
              && (!(full && backpressure.DropSlowClient?) ==> gap == NO_GAP && !told)
              && (full && backpressure.DropSlowClient? ==>
                    && isAborted && (first ==> closeSent)
                    && (told <==> first && receiverOpen && gap.freed > |gap.filled|)
                    && (old(closeSent) ==> !first)
                    && (!gap.others ==> first == !old(closeSent) && gap.filled == [] && receiverOpen))
      ensures !old(receiverOpen) ==> isAborted
      ensures !(backpressure.DropSlowClient? && old(receiverOpen)) ==> closeSent == old(closeSent)
      ensures !(backpressure.DropSlowClient?) && old(receiverOpen) ==> isAborted == old(isAborted)
    {
      hide Binaries, Closes;
      told, first, gap := false, false, NO_GAP;
      if isAborted {
        return false, told, first, gap;
      }
      if !receiverOpen {
        isAborted := true;
        return false, told, first, gap;
      }
      ok := ChannelSend(Binary(data));
      if !ok {
        match backpressure {
          case DropSlowClient =>
            told, first, gap := Abort();
          case DropOldest | DropNewest =>
        }
      }
    }

    /** The branch of a full queue for a slow client (conn.rs:160-163), once the payload is refused. */
    method Abort() returns (ghost told: bool, ghost first: bool, ghost gap: Gap)
      requires Valid() && |queue| == capacity && receiverOpen && !isAborted
      modifies this
      ensures Valid() && Grows() && isAborted && (first ==> closeSent)
      ensures told <==> first && receiverOpen && gap.freed > |gap.filled|
      ensures enqueued == old(enqueued) + gap.filled + (if told then [Close(1008)] else [])
      ensures taken == old(taken) + gap.freed
      ensures (old(closeSent) ==> !first) && (!gap.others ==> first == !old(closeSent) && gap.filled == [])
      ensures !gap.others ==> receiverOpen
    {
      hide Binaries, Closes;
      told, first := false, false;
      gap := Meanwhile(false);
      if !isAborted {
        isAborted := true;
        ghost var next := Meanwhile(false);
        var sent;
        ghost var more;
        sent, first, more := TrySendClose(1008);
        told, gap := sent, Plus(Plus(gap, next), more);
      }
    }

    /** try_send_close (conn.rs:177-184). */
    method TrySendClose(code: nat) returns (ok: bool, ghost first: bool, ghost gap: Gap)
      requires Valid()
      modifies this
      ensures Valid() && Grows() && closeSent && first == !old(closeSent)
      ensures !first ==> !ok && gap == NO_GAP && closing == old(closing) && receiverOpen == old(receiverOpen)
      ensures ok <==> first && receiverOpen && old(|queue|) + |gap.filled| - gap.freed < capacity
      ensures enqueued == old(enqueued) + gap.filled + (if ok then [Close(code)] else [])
      ensures taken == old(taken) + gap.freed && (receiverOpen ==> old(receiverOpen))
      ensures !gap.others ==> gap.filled == [] && isAborted == old(isAborted) && receiverOpen == old(receiverOpen)
    {
      gap := NO_GAP;
      var won := WinClose(code);
      first := won;
      if !won {
        return false, first, gap;
      }
      gap := Meanwhile(true);
      ok := EnqueueClose();
    }

    /** close_with (conn.rs:187-193): aborts the connection if no close frame could be enqueued. */
    method CloseWith(code: nat) returns (sent: bool, ghost first: bool, ghost gap: Gap)
      requires Valid()
      modifies this
      ensures Valid() && Grows() && closeSent && first == !old(closeSent)
      ensures sent <==> first && receiverOpen && old(|queue|) + |gap.filled| - gap.freed < capacity
      ensures enqueued == old(enqueued) + gap.filled + (if sent then [Close(code)] else [])
      ensures !sent ==> isAborted
      ensures !first ==> gap == NO_GAP
      ensures sent && !gap.others ==> isAborted == old(isAborted)
    {
      sent, first, gap := TrySendClose(code);
      if !sent && !isAborted {
        isAborted := true;
      }
    }

    /**
     What a slow client gets to know. With only the writer at work, it is told why it is closed if and only if
     the writer frees a place between the refused payload and the close frame; if it is not, the caller's own
     close does not tell it later either.
     */
    method DropSlow(data: Bytes, code: nat) returns (later: bool, ghost told: bool, ghost gap: Gap)
      requires Valid() && backpressure.DropSlowClient? && receiverOpen && |queue| == capacity
      requires !isAborted && !closeSent
      modifies this
      ensures Valid() && isAborted && closeSent
      ensures !gap.others ==> gap.filled == [] && (told <==> gap.freed > 0) && !later
      ensures told ==> !later && Close(1008) in enqueued
      ensures !told && !later ==> enqueued == old(enqueued) + gap.filled
    {
      hide Binaries, Closes;
      var ok;
      ghost var first, again, more;
      ok, told, first, gap := TrySend(data);
      later, again, more := CloseWith(code);
      gap := Plus(gap, more);
    }
  }

  // ---------------------------------------------------------------- the socket

  /** How an await ends: the task may be aborted there. */
  datatype Status = Done | Failed | Cancelled

  /**
   The frames fed to the sink, how many of them are known to be flushed to the peer, and how the last await on
   it ended.
   */
  class Socket {
    var fed: seq<WireFrame>
    var flushed: nat
    var last: Status

    constructor ()
      ensures fed == [] && flushed == 0 && last.Done?
    {
      fed, flushed, last := [], 0, Done;
    }

    /** SinkExt::feed: waits for the sink, and only then hands the frame over. */
    method Feed(f: WireFrame) returns (status: Status)
      modifies this`fed, this`last
      ensures fed == if status.Done? then old(fed) + [f] else old(fed)
      ensures last == status
    {
      status := *;
      last := status;
      if status.Done? {
        fed := fed + [f];
      }
    }

    /** SinkExt::flush: if it does not complete, anything from nothing to all may have gone out. */
    method Flush() returns (status: Status)
      requires flushed <= |fed|
      modifies this`flushed, this`last
      ensures old(flushed) <= flushed <= |fed| && (status.Done? ==> flushed == |fed|)
      ensures last == status
    {
      status := *;
      last := status;
      var upTo: nat := *;
      if status.Done? {
        flushed := |fed|;
      } else if flushed <= upTo <= |fed| {
        flushed := upTo;
      }
    }

    /** SinkExt::send: feed, then flush. */
    method Send(f: WireFrame) returns (status: Status)
      requires flushed <= |fed|
      modifies this
      ensures fed == old(fed) || fed == old(fed) + [f]
      ensures old(flushed) <= flushed <= |fed|
      ensures status.Done? ==> fed == old(fed) + [f] && flushed == |fed|
      ensures last == status
    {
      status := Feed(f);
      if status.Done? {
        status := Flush();
      }
    }
  }

  // ---------------------------------------------------------------- the writer task

  /** How the task stands: still looping, returned from one of its exits, or aborted at an await. */
  datatype End = Looping | Closed | WriteFailed | TimedOut | Aborted

  /** Everything taken so far is fed, and not closed. */
  ghost predicate Written(conn: Conn, socket: Socket)
    reads conn, socket
  {
    && conn.Valid()
    && BinariesOf(socket.fed) == Binaries(conn.enqueued[..conn.taken])
    && NoClose(socket.fed)
    && socket.last.Done?
  }

  /** All but the last frame taken is fed. */
  ghost predicate LastLost(conn: Conn, socket: Socket)
    reads conn, socket
  {
    && 0 < conn.taken <= |conn.enqueued|
    && BinariesOf(socket.fed) == Binaries(conn.enqueued[..conn.taken - 1])
  }

  /** The socket has taken `f` as its last frame, and all is flushed, unless the write of it has failed. */
  ghost predicate LastFlushed(socket: Socket, f: WireFrame)
    reads socket
  {
    || socket.last.Failed?
    || (&& socket.last.Done? && socket.fed != []
        && socket.fed[|socket.fed| - 1] == f && socket.flushed == |socket.fed|)
  }

  /** The task has come to its end for the reason it gives. */
  ghost predicate Reason(conn: Conn, socket: Socket, end: End)
    reads conn, socket
  {
    match end
    case Closed =>
      && 0 < conn.taken <= |conn.enqueued| && conn.enqueued[conn.taken - 1].Close?
      && LastFlushed(socket, CloseFrame(conn.enqueued[conn.taken - 1].code))
    case TimedOut => conn.closeSent || LastFlushed(socket, CloseFrame(1000))
    case WriteFailed => socket.last.Failed?
    case Aborted => true
    case Looping => socket.last.Done?
  }

  /** What holds when the task stands at `end`. */
  ghost predicate Outcome(conn: Conn, socket: Socket, end: End)
    reads conn, socket
  {
    && conn.Valid()
    && Reason(conn, socket, end)
    && CloseLast(socket.fed)
    && socket.flushed <= |socket.fed| <= socket.flushed + 1024
    && (end.Looping? ==> Written(conn, socket))
    && (|| BinariesOf(socket.fed) == Binaries(conn.enqueued[..conn.taken])
        || ((end.WriteFailed? || end.Aborted?) && LastLost(conn, socket)))
  }

  function EndOf(status: Status): End {
    match status case Done => Looping case Failed => WriteFailed case Cancelled => Aborted
  }

  /**
   One message taken from the channel, fed to the sink (handler.rs:226-239). A close message is sent, flushed,
   and ends the task.
   */
  method Write(conn: Conn, socket: Socket, current: Outbound) returns (end: End)
    requires conn.Valid() && conn.taken > 0 && conn.enqueued[conn.taken - 1] == current
    requires LastLost(conn, socket) && NoClose(socket.fed) && socket.last.Done?
    requires socket.flushed <= |socket.fed| < socket.flushed + 1024
    modifies socket
    ensures Outcome(conn, socket, end) && !end.TimedOut?
    ensures end.Looping? ==> |socket.fed| == old(|socket.fed|) + 1 && socket.flushed == old(socket.flushed)
    ensures current.Close? ==> end.Closed? || end.Aborted?
    ensures end.Aborted? <==> socket.last.Cancelled?
  {
    assert conn.enqueued[..conn.taken] == conn.enqueued[..conn.taken - 1] + [current];
    BinariesNext(conn.enqueued[..conn.taken - 1], current);
    hide BinariesOf, Binaries, Closes, NoClose, CloseLast;
    match current
    case Binary(data) =>
      FedNext(socket.fed, BinaryFrame(data));
      var status := socket.Feed(BinaryFrame(data));
      end := EndOf(status);
    case Close(code) =>
      FedNext(socket.fed, CloseFrame(code));
      var status := socket.Send(CloseFrame(code));
      end := if status.Cancelled? then Aborted else Closed;
  }

  /** The coalescing loop (handler.rs:222-254): up to 1024 frames, then a flush. */
  method Coalesce(conn: Conn, socket: Socket, outbound: Outbound) returns (end: End)
    requires conn.Valid() && conn.taken > 0 && conn.enqueued[conn.taken - 1] == outbound
    requires LastLost(conn, socket) && NoClose(socket.fed) && socket.last.Done? && socket.flushed == |socket.fed|
    modifies conn, socket
    ensures Outcome(conn, socket, end) && !end.TimedOut?
    ensures end.Looping? ==> socket.flushed == |socket.fed|
    ensures end.Looping? ==> conn.queue == [] || conn.taken == old(conn.taken) + 1023
    ensures end.Aborted? <==> socket.last.Cancelled?
    ensures old(conn.enqueued) <= conn.enqueued
    ensures old(conn.taken) <= conn.taken < old(conn.taken) + 1024 && conn.receiverOpen == old(conn.receiverOpen)
  {
    hide BinariesOf, Binaries, Closes;
    var current := outbound;
    var count := 0;
    while true
      invariant conn.Valid() && conn.taken > 0 && conn.enqueued[conn.taken - 1] == current
      invariant LastLost(conn, socket) && NoClose(socket.fed) && socket.last.Done?
      invariant 0 <= count < 1024 && |socket.fed| == socket.flushed + count && conn.taken == old(conn.taken) + count
      invariant conn.receiverOpen == old(conn.receiverOpen) && old(conn.enqueued) <= conn.enqueued
      decreases 1024 - count
    {
      end := Write(conn, socket, current);
      if !end.Looping? {
        return;
      }
      count := count + 1;
      if count >= 1024 {
        break;
      }
      OthersKeep(conn, socket);
      var next := conn.Take();
      if next.None? {
        break;
      }
      current := next.value;
    }
    var status := socket.Flush();
    end := EndOf(status);
  }

  /** A point at which other tasks get on. */
  method OthersKeep(conn: Conn, socket: Socket)
    requires Written(conn, socket)
    modifies conn
    ensures Written(conn, socket) && conn.taken == old(conn.taken) && conn.receiverOpen == old(conn.receiverOpen)
    ensures old(conn.enqueued) <= conn.enqueued
  {
    hide BinariesOf, Binaries, Closes;
    ghost var was := conn.enqueued;
    conn.Others();
    assert conn.enqueued[..conn.taken] == was[..conn.taken];
  }

  /** The heartbeat (handler.rs:256-278), by the clock's two verdicts. */
  method Heartbeat(conn: Conn, socket: Socket, timedOut: bool, pingDue: bool) returns (end: End)
    requires Written(conn, socket) && socket.flushed == |socket.fed|
    modifies socket
    ensures Outcome(conn, socket, end)
    ensures end.Looping? ==> socket.flushed == |socket.fed|
    ensures if timedOut then end.TimedOut? || end.Aborted? else !end.TimedOut? && !end.Closed?
    ensures end.Looping? || (timedOut && conn.closeSent) ==>
              socket.fed == old(socket.fed) + (if pingDue && !timedOut then [PingFrame] else [])
    ensures !timedOut && !pingDue ==> end.Looping?
    ensures end.Aborted? <==> socket.last.Cancelled?
  {
    hide BinariesOf, Binaries, Closes, NoClose, CloseLast;
    FedNext(socket.fed, PingFrame);
    if timedOut {
      if !conn.closeSent {
        FedNext(socket.fed, CloseFrame(1000));
        var status := socket.Send(CloseFrame(1000));
        if status.Cancelled? {
          return Aborted;
        }
      }
      return TimedOut;
    }
    end := Looping;
    if pingDue {
      var status := socket.Send(PingFrame);
      end := EndOf(status);
    }
  }

  /** One turn of the biased select, at whose own await the task may be aborted: the channel first. */
  method Turn(conn: Conn, socket: Socket, aborted: bool) returns (end: End)
    requires Written(conn, socket) && socket.flushed == |socket.fed|
    modifies conn, socket
    ensures Outcome(conn, socket, end)
    ensures end.Looping? ==> socket.flushed == |socket.fed|
    ensures conn.receiverOpen == old(conn.receiverOpen)
    ensures old(conn.enqueued) <= conn.enqueued && old(conn.taken) <= conn.taken
    ensures end.Looping? ==> conn.queue == [] || conn.taken == old(conn.taken) + 1024
    ensures end.Aborted? <==> aborted || socket.last.Cancelled?
  {
    hide BinariesOf, Binaries, Closes, NoClose, CloseLast;
    OthersKeep(conn, socket);
    FedNext(socket.fed, PingFrame);
    if aborted {
      return Aborted;
    }
    var outbound := conn.Take();
    if outbound.Some? {
      end := Coalesce(conn, socket, outbound.value);
    } else {
      var timedOut, pingDue: bool := *, *;
      end := Heartbeat(conn, socket, timedOut, pingDue);
    }
  }

  /**
   The writer task (handler.rs:212-282) through any number of turns of its loop, with the abort of
   handler.rs:340-357 at any of its awaits. The binary frames fed are the first ones accepted, in order, pings
   apart; none that was taken is missing unless a write failed or the task was aborted, and then at most the
   last one; no more than 1024 are fed and not flushed; a close frame ends it all. As long as it loops it gets
   on: what was enqueued at the start is written, or 1024 messages in every turn.
   */
  method WriterTask(conn: Conn, socket: Socket, turns: nat) returns (end: End)
    requires conn.Valid() && conn.taken == 0 && conn.receiverOpen
    requires socket.fed == [] && socket.flushed == 0 && socket.last.Done?
    modifies conn, socket
    ensures Outcome(conn, socket, end)
    ensures BinariesOf(socket.fed[..socket.flushed]) <= BinariesOf(socket.fed) <= conn.accepted
    ensures end.Looping? ==> socket.flushed == |socket.fed|
    ensures conn.receiverOpen <==> end.Looping?
    ensures end.Looping? && turns > 0 ==> old(|conn.enqueued|) <= conn.taken || 1024 * turns <= conn.taken
  {
    assert conn.enqueued[..0] == [];
    var turn := 0;
    end := Looping;
    while turn < turns && end.Looping?
      invariant Outcome(conn, socket, end) && conn.receiverOpen
      invariant end.Looping? ==> socket.flushed == |socket.fed|
      invariant old(|conn.enqueued|) <= |conn.enqueued|
      invariant end.Looping? && turn > 0 ==> old(|conn.enqueued|) <= conn.taken || 1024 * turn <= conn.taken
      invariant end.Looping? ==> turn <= turns
    {
      var aborted: bool := *;
      end := Turn(conn, socket, aborted);
      turn := turn + 1;
    }
    FedAccepted(conn, socket, end);
    if !end.Looping? {
      conn.receiverOpen := false;
    }
  }

  lemma FedAccepted(conn: Conn, socket: Socket, end: End)
    requires Outcome(conn, socket, end)
    ensures BinariesOf(socket.fed[..socket.flushed]) <= BinariesOf(socket.fed) <= conn.accepted
  {
    FedPrefix(socket.fed, socket.flushed);
    BinariesPrefix(conn.enqueued, conn.taken);
    if conn.taken > 0 {
      BinariesPrefix(conn.enqueued, conn.taken - 1);
    }
  }
}
