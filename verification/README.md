# A verified model of Roomer

Roomer is a room-based WebSocket framework: servers in Go, Rust and Node, clients for the browser and for
Python, and an abstract TLA+ specification. This project models its hardest parts and proves what they
guarantee, for any number of connections, rooms, threads, messages and nodes.

`dafny verify dfyconfig.toml` checks everything.

## What is modelled

**The Go hub as a concurrent protocol** (`Hub`, `HubLocks`, `HubInvariant`, `HubRefinement`, `HubTheorems`,
`HubCalls`, `HubFanout`, `HubEndings`, `HubProgress`, `RoomerSpec`, with `Finite` for sets). Every call of
`joinRoom`, `leaveRoom` and `cleanup` and every fan-out is a thread with a program counter; a step takes or
releases one lock or makes one access to shared memory. The shard function is arbitrary. Every interleaving
refines the abstract specification, leaves no zombie members and no orphan rooms, keeps the room gauge exact,
and never deadlocks. Whatever the other threads do, each call has its effect: a join makes a member, a leave
ends a membership, a fan-out reaches every member once, `cleanup` ends a connection, and a room that empties is
removed. Once no new call starts, every schedule uses up a finite budget of steps, and all calls can return.

**The token bucket** (`TokenBucket`). Two numbers updated per attempt decide exactly what a check over every
window of the past would decide, and no policy that respects the windows is ever ahead of it.

**The wire format** (`Wire`, `Utf8`, `GoCodec`, `RustCodec`, `ScriptCodecs`, `ByteCursor`, `BrowserCodec`,
`CodecAgreement`). One serializer and one scanner, inverse to each other and prefix-free; five encoders and five
decoders in the form of their sources, proved against them, and set side by side. Text is exactly what encodes a
sequence of Unicode scalar values.

**Delivery** (`Outbox`, `RustWriter`, `Cluster`, `ClusterRuns`, `NodeRooms`, `NodeFrames`, `NodeEviction`,
`NodeOrders`, `ClientView`, `ConnRegistry`). The Go outbound queue under every interleaving of senders,
evictions and the reader; the Rust senders and the coalescing writer, which may be aborted at any await; cluster
fan-out and unicast from the envelope bytes up to runs of many nodes; Node's re-entrant eviction of slow
clients; the client's replicated member list; the sharded registry.

Where interleavings are the point, a part is a state machine over values with one step per lock action, channel
operation or frame; everything sequential is a class or a method with its source's loops, proved against
functions that the lemmas are about.

## Where the code falls short

Each of these is a lemma or a contract of the model, and where the promise can be kept the exact condition is
proved.

- With `DropOldest`, Go refuses a frame if a second producer takes the room the eviction made, or if the queue
  has no buffer (`Outbox.TwoProducersRefuse`, `Outbox.UnbufferedRefuses`); otherwise never
  (`Outbox.DropOldestNeverRefuses`). The README of the repository (line 44) promises eviction in every server;
  Rust's `DropOldest` drops the newest frame instead (`RustWriter.Conn.TrySend`).
- A Rust limiter configured with no burst starts empty although its burst in force is 20
  (`TokenBucket.RustRefusesFirst`, `TokenBucket.RustExactIff`).
- A slow Rust client that is aborted counts as told why. With only the writer at work it is told if and only if
  the writer frees a place between the refused payload and the close frame, and otherwise never
  (`RustWriter.Conn.DropSlow`); among other senders, the one that is first to abort and to close tells it if and
  only if the writer frees more places than they fill (`RustWriter.Conn.TrySend`).
- The format the servers are said to share (line 36 there) has exceptions: Node reads version 0 as 1 and keeps
  malformed UTF-8, the browser also ignores what follows a frame (`CodecAgreement.Decode`); Go and Rust cut a
  length that does not fit its prefix where the others refuse (`CodecAgreement.Encode`), and what they write can
  be a well-formed frame of another message (`CodecAgreement.CutFrameMisread`).
- The browser's byte cursor takes NaN for a position or a size, and then is no longer in its view; it has always
  been in its view if and only if no move was given NaN (`ByteCursor.RangeIff`).
- A room whose name starts with `room:` or `node:` is not reached on other nodes (`Cluster.FanoutIdentity`), and
  a direct message to the empty ID is fanned out to the whole root room (`ClusterRuns.EmptyDestination`).
- A client that calls `leave()` twice and joins again loses its room object while the server counts it as a
  member (`ClientView.DoubleLeaveLosesRoom`); `ClientView.ViewAgrees` says exactly when a view is right.
- In Node, closing a slow client makes it leave its rooms, which fans out to them, which may close more. Whether
  that goes well depends on chains of slow clients, neighbours sharing a room, that end in a room with three of
  them. If no chain starts at the members a fan-out is due to close, it throws a TypeError if and only if two
  are due, and even then everybody it closed is gone from the hub (`NodeEviction.Hub.EmitLocal`). If one does,
  and only then, there is an order of joining in which it throws and leaves a registered client registered for
  ever although closed (`NodeOrders.LeaksInSomeOrder`). Every client joins the root room
  (server/node/server.js:130), so two slow clients are enough for a throw (`NodeOrders.TwoSlowClients`) and
  three for a leak (`NodeOrders.CrowdInRoot`).
- A join that finds its connection closed leaves its room registered, and counted by the gauge, though nobody is
  in it (`HubEndings.EmptyRoomStays`). Rooms without members stay only where a join has failed in this way
  (`HubEndings.NoEmptyRooms`).
- Keys that differ only above the low five bits of their bytes share a shard (`ConnRegistry.LowBitsDecide`).

## Model

| member | source | states |
|---|---|---|
| `HubRefinement.HubRefinesSpec` | server/go/hub.go:141-288 | every run of the hub's fine-grained steps is, state by state, a run of the abstract specification on connections and memberships |
| `HubRefinement.StepRefines` | spec/roomer.tla:58-97 | one hub step is a Connect, Disconnect, JoinRoom or LeaveRoom (with a refill first if needed) or stutters |
| `HubRefinement.HiddenStep` | server/go/conn.go:274-283 | removals after `done` is closed, and every step that does not touch a live membership, are invisible |
| `HubRefinement.NoUnconnectedMembers` | spec/roomer.tla:155-157 | in every state of the hub, live members of the registered room are connected |
| `RoomerSpec.SpecStepKeeps` | spec/roomer.tla:58-132 | every action keeps the specification's invariants |
| `RoomerSpec.SpecInvAlways` | spec/roomer.tla:153-173 | the invariants hold in every run, for any number of clients and rooms |
| `HubLocks.LocksKept` | server/go/hub.go:200-281 | who holds which lock follows from the program counters: mutual exclusion at every lock, in every step |
| `HubInvariant.InvAlways` | server/go/hub.go:200-288 | the whole invariant holds in every state of every run |
| `HubInvariant.NextKeeps` | server/go/hub.go:200-288 | every action keeps the whole invariant |
| `HubInvariant.OnceKept` | server/go/conn.go:274-283 | one thread at a time is inside a connection's `cleanup`, and it is the one `sync.Once` let in |
| `HubInvariant.PinnedKept` | server/go/hub.go:224-252 | a room object found or made under the shard lock stays the registered one until the member is in |
| `HubInvariant.OrphansKept` | server/go/hub.go:200-214 | an object with a member is never unregistered: emptiness is looked at again under both locks |
| `HubInvariant.TrackedKept` | server/go/hub.go:254-267 | a member is tracked by its connection or is about to be removed by a leave under way |
| `HubInvariant.JoinsKept` | server/go/hub.go:235-237 | a connection about to be added to a room is tracked, or a leave will still look the room up |
| `HubInvariant.SnapshotsKept` | server/go/conn.go:37-68 | what a closed connection still tracks is in the snapshot `leaveAllRooms` works through: no join slips in after the read |
| `HubInvariant.GaugeKept` | server/go/hub.go:204-232 | registry size and gauge differ by the creations and deletions not yet counted |
| `HubTheorems.NoOrphanRooms` | server/go/hub.go:200-252 | a member is in the object registered under the room's name, so at most one object of a name has members |
| `HubTheorems.GaugeExact` | server/go/hub.go:204-232 | the gauge is the registry size whenever no shard lock is held for writing |
| `HubTheorems.NothingTracked` | server/go/hub.go:283-288 | after `leaveAllRooms` nothing is tracked, and a membership left is one a leave is about to remove |
| `HubTheorems.StaysGone` | server/go/hub.go:216-252 | a connection gone from the hub stays gone, whatever joins are attempted |
| `HubTheorems.NoZombies` | server/go/conn.go:274-283 | once cleanup has passed `leaveAllRooms` and no leave is in flight, the connection is in no room in every later state |
| `HubTheorems.ShardHolders` | server/go/hub.go:224-251 | who holds a shard lock waits at most for a room lock or `roomsMu` |
| `HubTheorems.LockWaiter` | server/go/hub.go:200-281 | while a thread waits for a lock, somebody can step, even if readers queue behind a waiting writer |
| `HubTheorems.NoDeadlock` | server/go/hub.go:200-281 | in every reachable state with an unfinished call some thread can step |
| `HubCalls.JoinTakesEffect` | server/go/hub.go:216-252 | in every run, between the start of a join and its fan-out or return its connection was a live member of the room, unless it was closed; a join that returns has come to the fan-out of that room |
| `HubCalls.ClosedJoinReturns` | server/go/hub.go:218-222 | a join that starts when its connection is closed already returns at once, without making a room or asking for a lock |
| `HubCalls.JoinIsSpecified` | spec/roomer.tla:84-92 | in every run of the specification that a run of the hub refines, the connection becomes a member in between |
| `HubCalls.InsertedAlways` | server/go/room.go:25-29 | a join that has written its member and still holds the room lock finds it among the members |
| `HubCalls.NamedAlways` | server/go/hub.go:200-281 | the room object a call has looked up keeps the name it was looked up by |
| `HubCalls.LeaveTakesEffect` | server/go/hub.go:254-281 | when a leave returns, its connection was, in between, not tracking the room and no live member of it; and the rest of the room has been told, unless there was no room |
| `HubFanout.CastTakesEffect` | server/go/hub.go:190-197 | a fan-out to a room by name comes to its members, unless there was no room |
| `HubFanout.FanoutReachesAll` | server/go/room.go:39-66 | a fan-out sends to every member of the room but the one it is for, to each once and to nobody else, and the members stay the same while it does |
| `HubEndings.CleanupTakesEffect` | server/go/conn.go:274-283 | when any call of `cleanup` returns the connection is closed, unregistered and, but for leaves under way, in no room |
| `HubEndings.EmptyRoomsMinded` | server/go/hub.go:200-214 | in every run a registered room has members, or some thread is about to fill it or to look whether to remove it, or a join has failed in it |
| `HubEndings.NoEmptyRooms` | server/go/hub.go:200-252 | with all calls returned, a registered room without members is one a join has failed in |
| `HubEndings.EmptyRoomStays` | server/go/hub.go:226-251 | a run after which all calls have returned and a room without members is registered and counted |
| `HubProgress.StepSpends` | server/go/hub.go:200-288 | every step of every thread spends some of a finite budget, also one that starts the eviction of a slow client |
| `HubProgress.QuietRunsEnd` | server/go/hub.go:200-288 | without new calls, however the threads are scheduled, there are no more steps than the budget says |
| `HubProgress.AllReturn` | server/go/hub.go:200-288 | from every reachable state the run goes on, without a new call and within the budget, until all calls have returned |
| `TokenBucket.BucketTight` | server/go/conn.go:79-110 | the tokens are the smallest slack of all windows of the past |
| `TokenBucket.AdmitExactly` | server/go/conn.go:96-104 | one attempt is admitted exactly if every window allows it |
| `TokenBucket.Exactness` | server/go/conn.go:79-110 | attempt n is admitted exactly if every window up to n stays within burst + rate * elapsed |
| `TokenBucket.LimiterObeys` | server/node/conn.js:99-115 | the limiter's decisions respect every window |
| `TokenBucket.Optimality` | server/rust/src/conn.rs:128-141 | no policy that respects the windows has admitted more at any prefix |
| `TokenBucket.ControlLimiter.Go` | server/go/conn.go:402-416 | starts full, with the defaults for settings that are not positive |
| `TokenBucket.ControlLimiter.Rust` | server/rust/src/conn.rs:98-124 | starts at the given burst, not at the one in force |
| `TokenBucket.ControlLimiter.Node` | server/node/conn.js:48-65 | starts full, with the defaults for settings that are not positive |
| `TokenBucket.ControlLimiter.Allow` | server/go/conn.go:79-110 | in-place update refines the attempt function; a limiter that started full makes the all-windows check |
| `TokenBucket.ControlLimiter.AllowRust` | server/rust/src/conn.rs:128-141 | the same for the Rust order of operations |
| `TokenBucket.ControlLimiter.AlwaysExact` | server/go/conn.go:79-110 | every recorded decision was the all-windows check |
| `TokenBucket.RustExactIff` | server/rust/src/conn.rs:117-122 | Rust makes the all-windows check for all clock readings if and only if the given burst is positive |
| `TokenBucket.RustRefusesFirst` | server/rust/src/conn.rs:117-122 | with no burst given, an immediate attempt every window allows is refused |
| `Wire.PrefixInverse` | README.md:103-117 | a big-endian length reads as n exactly if its bytes are n's prefix, for 1, 2 and 4 bytes |
| `Wire.FieldInverse` | README.md:97-100 | scanning a field gives v exactly if v's serialized field is there |
| `Wire.ScanExact` | README.md:93-117 | the scanner finds a message up to an offset exactly if the bytes start with its frame, which ends there |
| `Wire.PrefixFree` | README.md:93-117 | no frame is a prefix of another: a byte string starts with the frame of one message only |
| `Wire.FrameLength` | README.md:95-100 | a frame is 12 bytes longer than its fields |
| `Wire.StrictExact` | server/go/message.go:100-136 | whole-string reading of text frames, as a function, accepts exactly the frames |
| `Utf8.TextExact` | server/go/message.go:52-54 | a string passes the text check exactly if it is the encoding of a sequence of Unicode scalar values, defined by their bits |
| `Utf8.OneReading` | server/go/message.go:52-54 | and of one sequence only |
| `GoCodec.ReadString16` | server/go/message.go:42-58 | succeeds exactly on a complete, well-formed text field, and returns it and the offset after it |
| `GoCodec.ReadString8` | server/go/message.go:61-77 | the same with a one-byte length |
| `GoCodec.ReadPayload32` | server/go/message.go:80-92 | the same with a four-byte length and any bytes |
| `GoCodec.BytesToMessageWithLimit` | server/go/message.go:100-136 | accepts exactly the text frames within the limit, with their fields |
| `GoCodec.PutField` | server/go/message.go:150-171 | extends the filled part of the buffer by exactly one serialized field, in bounds |
| `GoCodec.Encode` | server/go/message.go:139-173 | the buffer is filled exactly with the serialized message; a version of 0 becomes 1 |
| `GoCodec.RoundTrip` | server/go/message.go:100-173 | a message decodes to itself if and only if lengths fit, text is UTF-8 and the version is not 0 |
| `GoCodec.Reencode` | server/go/message.go:100-173 | re-encoding an accepted frame gives it back, up to a version byte of 0 |
| `RustCodec.Buf.GetField` | server/rust/src/message.rs:170-262 | consuming the buffer reads the same field as scanning at the offset, or fails exactly when that does |
| `RustCodec.DecodeStrictWithLimit` | server/rust/src/message.rs:155-275 | accepts exactly the text frames within the limit; reports trailing bytes, and how many, exactly when a text frame is followed by more |
| `RustCodec.Encode` | server/rust/src/message.rs:283-317 | appends the serialized message, the version as it is |
| `RustCodec.RoundTrip` | server/rust/src/message.rs:155-317 | a message decodes to itself if and only if lengths fit and text is UTF-8 |
| `RustCodec.Reencode` | server/rust/src/message.rs:155-317 | re-encoding an accepted frame gives it back |
| `ScriptCodecs.NodeEncode` | server/node/message.js:95-157 | refuses exactly what does not fit, and otherwise fills the buffer with the serialized message |
| `ScriptCodecs.NodeDecode` | server/node/message.js:213-297 | accepts exactly the frames within the limit, whatever bytes the text holds, version 0 read as 1 |
| `ScriptCodecs.PythonEncode` | client/python/roomer.py:69-156 | refuses exactly what does not fit, and otherwise fills the buffer with the serialized message |
| `ScriptCodecs.PythonDecode` | client/python/roomer.py:159-227 | accepts exactly the text frames |
| `ByteCursor.IntInverse` | client/bytecursor.js:480-704 | reading and writing an integer are inverse, in both directions, for all widths, signs and byte orders |
| `ByteCursor.NaturalInverse` | client/bytecursor.js:480-704 | a byte string stands for n exactly if it is n's digits |
| `ByteCursor.BytesAre` | client/bytecursor.js:480-704 | byte k, in order of significance, is digit k of the integer to base 256, in two's complement, and little-endian starts with the least significant |
| `ByteCursor.Cursor.Make` | client/bytecursor.js:179-220 | accepts exactly the views inside the buffer; the length defaults to the rest |
| `ByteCursor.Cursor.Check` | client/bytecursor.js:236-252 | of two numbers accepts exactly the ranges inside the view; NaN always passes |
| `ByteCursor.Cursor.Advance` | client/bytecursor.js:262-267 | gives the old position and moves on by the size, if the check passes, or does not move; it stays in the view unless the size is NaN (`MovedInView`) |
| `ByteCursor.Cursor.Seek` | client/bytecursor.js:300-304 | moves exactly to the positions of the view, its end included, and to NaN |
| `ByteCursor.Cursor.Skip` | client/bytecursor.js:315-319 | moves either way, exactly if the new position is in the view or NaN |
| `ByteCursor.Cursor.Eof` | client/bytecursor.js:327-329 | true exactly at the end, for a cursor in the view; never for NaN |
| `ByteCursor.Cursor.GetBytes` | client/bytecursor.js:381-391 | a window on the shared buffer, not a copy, exactly if the check passes; from the start of the buffer if the cursor is NaN |
| `ByteCursor.MovedInView` | client/bytecursor.js:236-319 | a move from inside the view ends inside the view if and only if it is not given NaN |
| `ByteCursor.RangeIff` | client/bytecursor.js:236-319 | through any sequence of moves the cursor has always been in the view if and only if none was given NaN |
| `ByteCursor.Cursor.WriteBytes` | client/bytecursor.js:400-411 | writes what the source held before, even if it overlaps, and nothing else |
| `ByteCursor.Cursor.GetInt` | client/bytecursor.js:480-558 | reads the integer at the cursor, or fails and moves nothing |
| `ByteCursor.Cursor.WriteInt` | client/bytecursor.js:594-704 | range before position; writes exactly the integer's bytes, or fails and changes nothing |
| `ByteCursor.Cursor.Reread` | client/bytecursor.js:480-704 | what is written is read back, and only those bytes change |
| `BrowserCodec.PrefixWritten` | client/roomer.js:162-173 | the cursor's big-endian integers are the format's length prefixes |
| `BrowserCodec.NewMessage` | client/roomer.js:106-181 | throws exactly if a length or the flags do not fit, and otherwise fills its buffer to the end with the frame |
| `BrowserCodec.GetField` | client/roomer.js:392-396 | a length and what it counts is the field at the cursor, or fails exactly when there is none |
| `BrowserCodec.OnMessage` | client/roomer.js:384-407 | reads the message at the start of the data, ignoring what follows and malformed text |
| `CodecAgreement.Decode` | README.md:36-36 | Go, Rust and Python agree on every byte string; Node and the browser differ from them exactly as stated |
| `CodecAgreement.Encode` | README.md:93-117 | the five encoders write the same bytes for a current message that fits; what does not fit is refused, or is not read back as the same message by a strict decoder |
| `CodecAgreement.CutFrameMisread` | server/go/message.go:139-173 | a text message whose length does not fit can be written as a well-formed frame of another message |
| `Outbox.StepKeeps` | server/go/conn.go:113-168 | every channel operation keeps the account of accepted, taken, evicted and queued frames |
| `Outbox.Conservation` | server/go/conn.go:113-168 | in every run the queue is the newest accepted frames within capacity, accepted = taken + evicted + queued, and the socket sees them in order |
| `Outbox.NothingEvicted` | server/go/conn.go:149-166 | other strategies never lose an accepted frame: those taken, then the queue, are the accepted ones |
| `Outbox.AnswersTrue` | server/go/conn.go:113-168 | in every step of every run a caller is told true exactly if its frame is accepted in that step, and false on an open connection only if there is no room; a refusal changes nothing, but that `DropSlowClient` has then started one close; a call ends after at most three steps |
| `Outbox.NeverWaits` | server/go/conn.go:113-168 | a call can always take its next step |
| `Outbox.Drains` | server/go/conn.go:338-364 | as long as the reader is there, every run can go on until the whole queue is written, in order |
| `Outbox.ClosesDown` | server/go/conn.go:365-376 | every run can go on until the connection is closed and the reader has stopped |
| `Outbox.Fails` | server/go/conn.go:361-364 | a write may fail at any time: that frame alone is lost, and the reader is gone |
| `Outbox.NothingAfterClose` | server/go/conn.go:113-118 | once `done` is closed and the sends under way are back, nothing more is accepted |
| `Outbox.MergedInOrder` | server/go/conn.go:345-364 | what is taken is found in the accepted frames at increasing places |
| `Outbox.DropOldestNeverRefuses` | server/go/conn.go:134-147 | on an open connection never refuses if and only if the capacity is positive and at most one goroutine sends |
| `Outbox.TwoProducersRefuse` | server/go/conn.go:134-147 | a run in which a second producer takes the room the eviction made |
| `Outbox.UnbufferedRefuses` | server/go/conn.go:134-147 | a run in which an unbuffered queue refuses |
| `RustWriter.Conn.TrySend` | server/rust/src/conn.rs:144-174 | when it accepts, and what a refusal does by strategy; a slow client gets its close frame if and only if the call is the first to abort and to close and the writer frees more places than others fill before the second attempt |
| `RustWriter.Conn.TrySendClose` | server/rust/src/conn.rs:177-184 | only the first call enqueues a close frame, and exactly if there is room by then |
| `RustWriter.Conn.CloseWith` | server/rust/src/conn.rs:187-193 | the connection is aborted afterwards if no close frame was enqueued, and not by this call otherwise |
| `RustWriter.Conn.Abort` | server/rust/src/conn.rs:157-165 | the slow client is aborted, and told by this call if and only if no other is first and the writer frees more places than others fill in between |
| `RustWriter.Conn.DropSlow` | server/rust/src/conn.rs:157-193 | with only the writer at work, a slow client is told if and only if a place is freed in between; a later close by the caller does not tell it |
| `RustWriter.Conn.OtherStep` | server/rust/src/conn.rs:144-193 | one atomic step of any other call: the channel only grows at its end, holds at most one close frame and keeps its capacity |
| `RustWriter.Conn.Others` | server/rust/src/conn.rs:144-193 | the same for any number of steps |
| `RustWriter.Conn.Meanwhile` | server/rust/src/conn.rs:144-193 | the same with the writer among them: what is enqueued and taken adds up |
| `RustWriter.Write` | server/rust/src/handler.rs:226-239 | a taken message is fed to the sink, or the write failed, or the task was aborted there; a close message is sent with its code, flushed, as the last frame |
| `RustWriter.Coalesce` | server/rust/src/handler.rs:221-254 | at most 1024 frames between flushes, and none taken without being fed unless a write fails or the task is aborted; it goes on until the channel is empty or 1024 are fed |
| `RustWriter.Heartbeat` | server/rust/src/handler.rs:256-278 | sends a ping exactly when one is due; a timeout ends the task, with a close frame unless one was sent before |
| `RustWriter.WriterTask` | server/rust/src/handler.rs:212-282 | the binary frames fed to the sink are an in-order prefix of the accepted ones, those flushed a prefix of these, with at most 1024 frames in between; of those taken at most the last is missing, and only after a failed write or an abort (lines 340-357); a close frame comes last; and every turn empties the channel or writes 1024 messages |
| `Cluster.EncodeEnvelope` | server/go/adapter/redis/redis.go:147-154 | fills the buffer with length, node ID and message |
| `Cluster.EnvelopeInverse` | server/go/adapter/redis/redis.go:147-167 | an envelope opens to what was packed if and only if the node ID is not empty and its length fits |
| `Cluster.RoomChannelReach` | server/go/adapter/redis/redis.go:284-297 | a room channel matches every node's pattern and no node's own channel: one copy each |
| `Cluster.NodeChannelReach` | server/go/adapter/redis/redis.go:284-297 | a node channel matches no pattern and is that node's channel alone |
| `Cluster.RoutedByRoom` | server/go/adapter/redis/redis.go:406-432 | a copy on a room channel is dropped at its origin and handled under the room's name elsewhere |
| `Cluster.RoutedByNode` | server/go/hub.go:85-93 | a copy on a node channel is only ever for one connection |
| `Cluster.FanoutIdentity` | server/go/hub.go:103-107 | a broadcast reaches the room of its own name on another node if and only if the name starts with neither `room:` nor `node:` |
| `Cluster.Node.FanOut` | server/go/room.go:56-66 | the loop over members offers the frame once to each but one, in any order |
| `Cluster.Node.Emit` | server/go/room.go:39-54 | offers to the members here but the sender, and publishes the enveloped frame on the room's channel |
| `Cluster.Node.OnPublication` | server/go/hub.go:79-107 | makes exactly the offers the routing function says |
| `ClusterRuns.CopiesOnce` | server/go/adapter/redis/redis.go:284-297 | a publication has at most one copy for a node, and a broadcast has one for each |
| `ClusterRuns.HandledAs` | server/go/adapter/redis/redis.go:413-416 | from envelope bytes to routing: dropped at the origin, a direct message or a fan-out of its room elsewhere |
| `ClusterRuns.StepKeeps` | server/go/hub.go:79-107 | every step of the cluster keeps the account of offers, copies and fan-outs |
| `ClusterRuns.FanoutExactlyOnce` | server/go/room.go:39-66 | in every run a broadcast to a plainly named room is offered once to each member present at its node's fan-out, never to the sender, and every node fans out once its copy is in |
| `ClusterRuns.PresentAtFanout` | server/go/room.go:42-48 | who counts as present is the room's membership at the moment of the node's fan-out |
| `ClusterRuns.NodeChannelIsolated` | server/go/adapter/redis/redis.go:192-216 | a copy on a node's channel is only ever held for that node |
| `ClusterRuns.UnicastExactlyOnce` | server/go/hub.go:321-349 | in every run a direct message has been offered once to its destination if it was found on the sender's node or by the copy that came to its own, and to nobody else, by local lookup, node channel or root fallback |
| `ClusterRuns.ReachedAtDelivery` | server/go/hub.go:85-101 | a direct message is counted as found by its copy in exactly the step that delivers the copy to its destination's node, if that is not the origin and the destination is registered |
| `ClusterRuns.LocalAtSend` | server/go/conn.go:246-253 | a direct message is settled on the sender's node exactly if its destination is registered there when it is sent |
| `ClusterRuns.CopiesAtPublish` | server/go/adapter/redis/redis.go:169-216 | a publication puts a copy with the broker for every node if it is on a room channel, and for the one node otherwise |
| `ClusterRuns.ChangedBy` | server/go/room.go:25-37 | membership changes by joins and leaves alone, registration by connects and disconnects |
| `ClusterRuns.UnicastArrives` | server/go/hub.go:321-349 | from every state of every run a direct message can be delivered |
| `ClusterRuns.FanoutArrives` | server/go/room.go:39-66 | and a broadcast to a plainly named room, to any connection in it |
| `ClusterRuns.EmptyDestination` | server/go/conn.go:178-186 | the root fallback is for one connection if and only if the destination is not empty |
| `ClientView.Room.Parse` | client/roomer.js:647-696 | in-place update of the member list refines the frame function; the Python room at client/python/roomer.py:442-478 does the same for the IDs servers give |
| `ClientView.Room.Remove` | client/roomer.js:684-691 | removes the first occurrence and nothing else |
| `ClientView.Room.ForceClose` | client/roomer.js:550-563 | closes and empties an open room; only a disconnect keeps it in the table |
| `ClientView.WithoutExact` | client/roomer.js:684-691 | removing from an exact, duplicate-free list gives the exact list of the rest |
| `ClientView.StepKeeps` | server/go/conn.go:215-241 | every step of clients and server keeps what members will see |
| `ClientView.ViewAgrees` | client/roomer.js:647-696 | a member's list after its pending frames is exactly the server's set without duplicates, if and only if the room is listed, open or about to be, and no leave ack is pending |
| `ClientView.PatientViewsAgree` | server/go/hub.go:217-319 | with clients that await their leave acks every member's view agrees, in every state of every run |
| `ClientView.JoinsCount` | client/roomer.js:820-835 | if no request is refused, a client whose requests are served is a member exactly if it has the room and no leave ack pending |
| `ClientView.DoubleLeaveLosesRoom` | client/roomer.js:676-682 | a run in which the second leave ack deletes the new room object |
| `NodeEviction.Hub.EmitLocal` | server/node/room.js:23-29 | terminates for any slow clients; with no chain from those due to a room with three slow members it throws if and only if two are due, and nobody is leaked; an order that lures makes it throw and leak; if it does not throw each member owed the frame gets it once, and each room hears once of everybody closed |
| `NodeEviction.Hub.TrySend` | server/node/conn.js:171-195 | closes exactly a slow client, otherwise sends the frame exactly if the socket is ready, and changes nothing else |
| `NodeEviction.Hub.CloseWith` | server/node/conn.js:149-169 | of any connection, slow or not: unless something was thrown it and whoever the cascade closes is gone from every table, and each of their rooms has heard of it once |
| `NodeEviction.Hub.Disconnect` | server/node/hub.js:104-111 | finds exactly the registered connections; an open one is gone unless something was thrown, and nothing is if each of its rooms has at most one other slow member and no chain to a crowd |
| `NodeEviction.Hub.Cleanup` | server/node/conn.js:128-147 | the same for a connection whose socket went away |
| `NodeEviction.Hub.LeaveAllRooms` | server/node/hub.js:180-184 | the connection is in no room afterwards, and whoever was due in them is closed |
| `NodeEviction.Hub.LeaveRoom` | server/node/hub.js:163-178 | of an open or a closed connection: it leaves one room, which fans out to the rest |
| `NodeEviction.Hub.Broadcast` | server/node/hub.js:131-136 | fans out to the room of that name, if there is one |
| `NodeEviction.Hub.AddConn` | server/node/hub.js:113-117 | registers the connection and nothing else |
| `NodeEviction.Hub.JoinRoom` | server/node/hub.js:146-155 | puts the connection into the room and on its own list, after those already there |
| `NodeEviction.Missing` | server/node/room.js:24-26 | a key whose member is gone means that two members were due to be closed |
| `NodeEviction.MetFirst` | server/node/room.js:23-29 | closing the first member due without a throw closes all the others due |
| `NodeFrames.HeardOn` | server/node/room.js:23-29 | what rooms hear of the connections closed adds up over a cascade: nothing is said twice |
| `NodeRooms.NearOn` | server/node/room.js:13-20 | as members leave and connections close, chains break and none appears |
| `NodeRooms.CalmSafe` | server/node/conn.js:149-169 | a slow client that no chain starts at has, in each room, at most one other slow member, and no chain starts at that one |
| `NodeOrders.Leads` | server/node/hub.js:180-184 | if those with shorter chains joined first, closing a client leads the cascade along its chain into the crowd |
| `NodeOrders.LuringOrder` | server/node/room.js:23-29 | where a chain starts at a member due there is an order of joining in which the fan-out throws and leaks |
| `NodeOrders.LuresNear` | server/node/hub.js:180-184 | wherever an order leads a cascade into two slow members there is a chain |
| `NodeOrders.LeaksInSomeOrder` | server/node/room.js:23-29 | an order of joining in which the fan-out's first member lures it into a throw and a leak exists if and only if a chain starts at a member due |
| `NodeOrders.NoCrowdNoChain` | server/node/room.js:23-29 | where no room has three slow members there is no chain |
| `NodeOrders.TwoSlowClients` | server/node/room.js:23-29 | a run from the empty hub: two slow clients in root, the fan-out throws and nobody is leaked |
| `NodeOrders.CrowdInRoot` | server/node/room.js:23-29 | a run from the empty hub: one member due, three slow clients in root, the fan-out throws and the client is leaked |
| `ConnRegistry.GetShardIndex` | server/go/hub.go:42-49 | the loop computes the 32-bit FNV-1a hash with wrap-around, modulo 32 |
| `ConnRegistry.ShardExact` | server/go/hub.go:42-49 | the shard is what five-bit arithmetic gives: from 5, each byte's low bits are combined by exclusive or, times 19 |
| `ConnRegistry.LowBitsDecide` | server/go/hub.go:42-49 | the shard depends on the low five bits of each byte alone |
| `ConnRegistry.SplitAdd` | server/go/hub.go:141-145 | each key lives in its own shard only, after an insert |
| `ConnRegistry.SplitRemove` | server/go/hub.go:164-168 | and after a removal |
| `ConnRegistry.Registry.GetConn` | server/go/hub.go:122-129 | a lookup agrees with the flat map |
| `ConnRegistry.Registry.AddConn` | server/go/hub.go:141-145 | an insert in one shard is an insert in the flat map |
| `ConnRegistry.Registry.RemoveConn` | server/go/hub.go:164-188 | a removal in one shard is a removal from the flat map, and tells whether there was something |
| `ConnRegistry.Registry.Collect` | server/go/hub.go:373-382 | the shutdown loops collect every registered connection exactly once |

## Left out

- HubRefinement.HubRefinesSpec: covers connections and memberships; the specification's tokens, presence sets and buffers are only shown to exist, because presence in Go is written after the shard unlock and removed in a goroutine (server/go/hub.go:235-278) and is not always a subset of the connections.
- HubTheorems.NoOrphanRooms: says nothing of rooms without members; `HubEndings.EmptyRoomsMinded` does.
- HubCalls.JoinTakesEffect: the join is one whose connection is open in the state looked at; a connection that is closed meanwhile may have been a member or not.
- HubFanout.FanoutReachesAll: a send is the step that takes a member off the list; what `TrySend` does with the frame is `Outbox`, and whether it finds the member slow is arbitrary.
- HubTheorems.NoDeadlock: is about the room shard locks, room locks, `roomsMu` and `cleanupOnce`; the connection shards, `cfgMu`, `closeMu`, `writeMu` and the adapter's own lock are held for one access at a time or around I/O and are not threads' steps here.
- TokenBucket.Exactness: floats are reals and clock readings do not decrease; rounding and clock steps are not modelled.
- GoCodec.Encode: a length that does not fit its prefix is cut as in the source; the theorems about reading it back require lengths that fit.
- ByteCursor.Cursor.GetInt: the float accessors, `slice` and `writeString` are left out; numbers are exact reals or NaN, and an infinite one is refused like any that is out of range.
- BrowserCodec.OnMessage: text is the bytes given to `TextDecoder`, which replaces malformed sequences and strips a leading byte-order mark.
- BrowserCodec.NewMessage: starts from the encoded strings and integer flags; the conversion of payload values to bytes is left out.
- Outbox.Conservation: one channel operation a step; deadlines and the metrics are left out, and what makes a write fail is arbitrary.
- RustWriter.Conn.TrySend: its load and its first attempt to enqueue are one step of its own contract; `OtherStep` enqueues payloads after an abort too, so the channel and the writer are covered.
- RustWriter.Conn.OtherStep: a call of another task is any interleaving of its atomic steps, also in orders no single call would take.
- RustWriter.WriterTask: the clock's verdicts, write failures, aborts and the other tasks' steps are arbitrary at every await point; what the peer has received of a flush that did not complete is arbitrary.
- ClusterRuns.FanoutExactlyOnce: publishing does not fail, the broker gives one copy a subscription, connection IDs are unique, and messages fit the format; a publish that fails after it took effect would be sent twice by the root fallback.
- ClusterRuns.UnicastExactlyOnce: requires a destination that is not empty, for the reason `ClusterRuns.EmptyDestination` gives.
- ClientView.ViewAgrees: one room, server operations one at a time, presence up to date and lossless queues; listeners that call back into the client are left out.
- NodeEviction.Hub.EmitLocal: when it throws is stated for buffers that stay as they are during one cascade; termination and what is gone afterwards hold for buffers that change at any send. Which frames are sent is stated for calls that do not throw. Presence and cluster publication are left out.
- NodeEviction.Hub.JoinRoom: the fan-out after the presence write is a later call of `Broadcast`; keys are listed in the order of joining, and names that look like array indices, which JavaScript lists first, are not set apart (what is proved without a chain does not depend on the order).
- ConnRegistry.Registry.Collect: for a registry no one else updates meanwhile; the closing of the connections collected is that of the hub's `cleanup`.
- WebSocket upgrade, sockets, ping timers, HTTP routes, logging, configuration and authentication: input and output without a provable core.
- The Redis client, key expiry and the reconnect loops: a library and timing.
- The membership races of the Rust and Node hubs: they lack the Go hub's guarantees (server/rust/src/hub.rs:186-197).
- `LocalAdapter`, `InMemoryMetrics` beyond the room gauge, event emitters and reconnect delays: easy members only.
