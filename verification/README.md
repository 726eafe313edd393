# A verified model of rust-yamux

rust-yamux multiplexes many byte streams over one ordered connection. Each endpoint keeps a table
of streams, limits what the peer may send by credit, announces and closes streams with flags, and
reads and writes frames on a socket that may move any number of bytes per call. This project models
both endpoints, the frame codec, the receive buffer and the end of a connection, and proves what two
endpoints that run this code promise each other in every run, and what one endpoint keeps against
any remote at all.

## How the model is built

| module | what it holds |
|---|---|
| `Basics`, `Header`, `Frames` | constants, 32-bit and byte types, headers with their bits and bytes, frame constructors |
| `Streams` | one stream at one endpoint as values; one function per lock-scoped region of the source |
| `StreamLaws` | what each frame, end marker and write means for the two tasks of a stream, whatever state it is in |
| `Link`, `LinkProofs` | one stream across both endpoints and everything on its way between them; its inductive invariant |
| `Endpoint` | one endpoint as values: table, two one-frame slots, ping state, graceful close; a step is one lock-scoped region or one socket call |
| `Pair`, `PairProofs` | two endpoints and two wires; every step of the pair is, for every stream id, one step of its link or none |
| `Runs`, `Guarantees` | runs of the pair and the promises that hold in every reachable state |
| `LinkNotices`, `Notices` | what an end tells its peer about itself, an end of writing, a reset, an acknowledgement, is under way or has arrived |
| `Settling`, `Progress` | what a pair can always bring to an end: everything under way, every written byte, a closed or dropped stream, an acknowledgement, a sender without credit |
| `Backpressure`, `Jam` | the pair over sockets of bounded capacity, and when its two ends wait for each other for ever |
| `AnyRemote`, `Endings` | one endpoint against arbitrary frames: table bounds, wake-ups, and who is left parked when it ends |
| `Handles` | `Stream` (the user's handle) as a class; each poll method is a run of steps of `Streams` |
| `EndpointRuns` | runs of one endpoint on its socket |
| `Active` | the running connection as a class; `on_frame`, `poll` and the rest, each proved to be steps of `Endpoint` |
| `Settings`, `FlowControl`, `Budget` | configuration, the flow controller class, and the counter all streams share with reserve and assign as separate steps |
| `Chunks` | the receive buffer as a class over a deque of partly read vectors |
| `Codec`, `Schedules`, `FrameIo` | the whole-buffer codec, what a socket may do call after call, and the resumable reader and writer classes that refine the codec |
| `Lattice` | `update_state` as a join |
| `Shutdown`, `GracefulClose`, `Lifecycle` | tagged receivers and cleanup, the closing machine as a run of its endpoint, and the phases of a connection object |
| `Witnesses` | concrete runs of the pair |

The pair interleaves everything: a `poll_write` that leaves the lock, sets its flag and queues its
frame is three steps, and frames may arrive between any two of them. The choices of the environment
are parameters: how many bytes a socket call moves, whether it blocks, which receiver is polled next,
whether a ping is due, whether credit was used up within two round trips. In the pair a window may
grow by any amount up to doubling; `Handles.StreamHandle.SendWindowUpdate` shows that the controller
stays inside that choice, and `Budget` proves what the controllers of a connection do together.

Each stream carries two logs that no code reads: every byte `poll_write` took from its caller, and
every byte a read handed out. Delivery is stated about these logs.

The main results build on each other. `LinkProofs.StepKeeps` keeps the invariant of one stream;
`PairProofs.StepFollows` shows that the pair of whole endpoints refines it, stream by stream;
`Guarantees` draws the conclusions and `Notices` their converses; `Active.PollKeepsReachable`, `Active.CallKeepsReachable` and
`Active.CloseKeepsReachable` tie the imperative connection, handle and closing machine back to the
runs the conclusions are about; and
`Guarantees.WireDecodes` with `FrameIo.Transfer` covers the bytes below. The wires of `Pair` hold any
number of frames; `Backpressure.ReachableForgets` carries every promise over to bounded sockets, where
a frame may be partly written and partly read.

### Assumptions of the pair

Both ends run this code; the wires are ordered and lose nothing; `split_send_size` is at most 1 MiB,
because a longer frame would be refused by the reader (yamux/src/frame/io.rs:239). A connection may
still fail at any moment at either end, losing what is not on the wire. A configuration is valid when
`max_num_streams * DEFAULT_CREDIT`, computed without wrap, is at most the connection limit.

### What the code does, where it surprises

* `next_window_update` computes the connection limit in `usize`. The sum fits exactly if at least one
  stream is allowed or the configured limit leaves room for one more default window
  (`FlowControl.LimitFitsExactly`). With no stream allowed and no limit set it would overflow, but no
  stream exists then (`Budget.ArithmeticIsSafe`).
* `poll_next` may return an empty packet: exactly when the first chunk was used up in place
  (`Chunks.Chunks.PollNext`). A `poll_read` leaves such a chunk only if it filled its caller's slice
  (`Chunks.Chunks.PollRead`), and it does happen (`Chunks.EmptyPacket`).
* `poll_read` with an empty slice parks its caller even though bytes are waiting
  (`Handles.StreamHandle.PollRead`).
* Asking for an outbound stream when the table is full, or when the ids are used up, ends the whole
  connection (`Active.Active.PollNewOutbound`).
* A `poll_close` on a stream that is only closed for sending queues another FIN
  (`Handles.StreamHandle.PollClose`); the pair is proved safe with that.
* A stream closed before its first frame sends a FIN without a SYN. Its peer never hears of it, in no
  run (`Progress.NeverHeardOf`); every other end of writing is seen (`Progress.ReachesEndOfFile`).
* An endpoint whose table is full answers the SYN of a data frame with an internal error. Two
  conforming endpoints can reach this (`Witnesses.FullTableRefuses`), for no other reason
  (`Guarantees.RefusesExactly`), and send no other go-away besides the normal one
  (`Guarantees.NeverAccused`).
* A graceful close wakes nobody, whatever is left to send: a task that does not poll again is parked
  after it exactly if it was parked when the close began (`Endings.CloseParksExactly`). So when a
  connection is gone, a reader is parked exactly if it was when the connection was closed gracefully
  (`Endings.GoneParksExactly`), and a run does strand one (`Endings.GracefulCloseStrands`). Every other
  end wakes all (`Endings.GoneWakesAll`).
* Neither end reads while it holds an answer, and neither writes the answer before the frame it is
  writing. With sockets of bounded capacity two conforming ends can therefore wait for each other for
  ever: both in the middle of a frame that does not fit, both with an unsent answer
  (`Jam.JamReachable`). Two running ends that can do nothing for each other are in this state or have
  nothing to do (`Backpressure.StalledExactly`), and only the end of a connection leaves it
  (`Backpressure.JamLasts`).
* In a build that does not check `usize` products for overflow, an absurd number of streams passes the
  configuration's assertion (`Settings.WrapPasses`); `Settings.PassesExactly` says when the assertion
  means what it should.

## Model

| member | source | states |
|---|---|---|
| `Guarantees.ReachableHolds` | yamux/src/connection.rs:401-491 | every run of two conforming endpoints, in any interleaving of streams, users, wires and failures, keeps the invariant of the pair |
| `Guarantees.CreditConserved` | yamux/src/connection/stream/flow_control.rs:172-194 | per stream and direction: send window, bytes on the way and credit on the way together never exceed the receiver's window, and equal it while both connections run and neither end has given the stream up, also before its SYN arrives; the window and the buffered bytes never exceed the maximum |
| `Guarantees.NeverAccused` | yamux/src/connection.rs:617-825 | no frame of a conforming peer is ever answered with a protocol error; every go-away on its way is the normal one or reports a full table |
| `Guarantees.RefusesExactly` | yamux/src/connection.rs:638-654 | a frame of a conforming peer is answered with an internal error if and only if it is the SYN of a data frame and the table is full |
| `Witnesses.FullTableRefuses` | yamux/src/connection.rs:651-654 | a run of two conforming endpoints that reaches this internal error |
| `Guarantees.AcknowledgedIsKnown` | yamux/src/connection.rs:575-583 | a stream its opener counts as acknowledged is known to the peer, and its SYN was sent |
| `Notices.AckIsSeen` | yamux/src/connection.rs:575-583 | conversely: once the end that accepted a stream has sent a first frame and no ACK is under way, the opener does not count the stream as unacknowledged |
| `Progress.LeavesBacklog` | yamux/src/connection.rs:499-503 | from every reachable calm pair in which the acceptor has sent a first frame, some run takes the stream out of the opener's backlog |
| `AnyRemote.BacklogByFrame` | yamux/src/connection.rs:575-583 | against any remote: a frame takes exactly its own stream out of the backlog, and exactly if it acknowledges, resets or finishes it, and puts none into it |
| `Guarantees.PrefixDelivered` | yamux/src/connection/stream.rs:314-413 | bytes read are a prefix of the bytes written at the other end, in every reachable state |
| `Guarantees.EndOfFileIsComplete` | yamux/src/connection/stream.rs:352-357 | while both connections run, a reader that sees end of file has read everything its peer wrote |
| `Notices.EndIsSeen` | yamux/src/connection.rs:687-714 | conversely: whoever can write no more, because it closed, dropped its handle or was reset, has told a peer that knows the stream; with no end under way the peer's reader expects nothing more |
| `Notices.EndSeenExactly` | yamux/src/connection.rs:687-714 | between two live handles with no end under way: one side may still read if and only if the other may still write |
| `Progress.ReachesEndOfFile` | yamux/src/connection/stream.rs:352-357 | from every reachable calm pair: once an end has stopped writing, some run brings its peer's reader to end of file with every byte read, unless the opener stopped before its first frame |
| `Progress.NeverHeardOf` | yamux/src/connection/stream.rs:421-443 | that exception: the peer does not know such a stream after any run |
| `Progress.DropIsSeen` | yamux/src/connection.rs:516-564 | from every reachable calm pair: some run clears away a stream whose handle was dropped and ends its peer's reading |
| `LinkNotices.StepTold` | yamux/src/connection.rs:516-564 | every step of one end keeps: an end of writing, the reset of a forgotten stream and an acknowledgement are under way or known |
| `Guarantees.CannotWedge` | yamux/src/connection/stream/flow_control.rs:47-54 | a sender without credit and with nothing on the way faces a receiver that has bytes buffered or owes an update of at least the default window |
| `Guarantees.GrantRefills` | yamux/src/connection/stream.rs:227-249 | an update is always possible in a reachable state and, if granted, window and buffered bytes fill the maximum exactly |
| `Guarantees.NoFrameLost` | yamux/src/connection.rs:424-452 | unless the connection fails, a step adds at most one frame at the end of what a stream still has to deliver, up to and including the last step of a graceful close, and only the peer takes frames away, from the front; the start of a graceful close drops only what a handle has not queued |
| `Guarantees.LinkLosesNothing` | yamux/src/connection.rs:516-564 | the same for every step of one stream; the frame for a dropped handle comes after all its commands |
| `Guarantees.PingUnderWay` | yamux/src/connection/rtt.rs:46-92 | an awaited ping is on its way exactly once as ping or pong, nothing is when none is awaited, and every pong that arrives is the awaited one |
| `Guarantees.WireDecodes` | yamux/src/frame/io.rs:236-245 | the bytes of everything on a wire decode to exactly those frames: no decode error and no frame too large |
| `Guarantees.OutgoingFits` | yamux/src/frame.rs:93-124 | every frame under way has the body its header announces, at most 1 MiB |
| `Guarantees.RunExtends` | yamux/src/connection.rs:401-491 | whatever a reachable pair runs to is reachable |
| `Settling.MoveKeeps` | yamux/src/connection.rs:401-491 | a step that moves a frame of a calm pair keeps it calm, leaves less to do, and keeps every stream what it wrote, its handles and whether it can go on |
| `Settling.Settles` | yamux/src/connection.rs:401-491 | from every calm pair the connections alone, without a step of any handle, can deliver every frame and answer every ping |
| `Progress.DeliversAll` | yamux/src/connection/stream.rs:314-413 | from every reachable calm pair some run hands every byte written on a stream to its reader, unless its SYN was refused |
| `Witnesses.ByteArrives` | yamux/src/connection/stream.rs:314-413 | a reachable calm pair with an unsent byte, and the run that hands it to its reader |
| `Progress.RegainsCredit` | yamux/src/connection/stream.rs:227-249 | from every reachable calm pair some run gives a sender that may still write, and whose reader is there, credit to write with |
| `Backpressure.ReachableForgets` | yamux/src/frame/io.rs:88-163 | every state of the pair with bounded sockets is one of the unbounded pair, so every promise holds there too |
| `Backpressure.StepSound` | yamux/src/frame/io.rs:88-291 | no byte is made up or lost between writer, socket and reader, and no socket holds more than it can |
| `Backpressure.StalledExactly` | yamux/src/connection.rs:403-487 | two running ends have no byte, frame or command to move if and only if no receiver has anything to take and either nothing is under way or both are in the middle of a frame their socket has no room for while they hold an answer |
| `Backpressure.JamLasts` | yamux/src/connection.rs:460-487 | in every run from such a jam both ends stay in it with both wires as they are, until one connection is closed or fails |
| `Jam.JamReachable` | yamux/src/connection.rs:403-460 | a run of two conforming endpoints, each with a ping and one write, that ends in a jam |
| `LinkProofs.StepKeeps` | yamux/src/connection/stream.rs:211-249 | every step of one end keeps the invariant of a stream: credit, delivery, order, the opening |
| `LinkProofs.NeverAccused` | yamux/src/connection.rs:687-694 | in a stream that satisfies the invariant the next frame fits the window, opens at most once, and does not overflow the send window |
| `LinkProofs.RefusedExactly` | yamux/src/connection.rs:651-654 | the same if-and-only-if for one stream |
| `LinkProofs.SwapKeeps` | yamux/src/connection.rs:47-55 | the invariant does not depend on which end opened the stream |
| `LinkProofs.HandleProgress` | yamux/src/connection/stream.rs:366-443 | a step of the handle adds at most one frame, pays for its bytes, grants its credit, and sends a SYN before anything else |
| `LinkProofs.MarkerProgress` | yamux/src/connection.rs:516-564 | a dropped handle adds at most one reset or FIN, after all its frames; which one, and when, is `StreamLaws.MarkerMeans` |
| `LinkProofs.ReceiveEffect` | yamux/src/connection.rs:572-799 | a frame is absorbed into window and buffer, or leaves the record alone because the stream is unknown or refused; what it does to the state is `StreamLaws.ReceiveMeans` |
| `StreamLaws.ReceiveMeans` | yamux/src/connection.rs:572-799 | any frame for a known stream: an overflow is the one reason for an error; FIN and RST end reading, RST alone ends writing, the entry goes exactly if both directions have ended, ACK ends the wait for one, and the task concerned is woken |
| `StreamLaws.ReceiveBrings` | yamux/src/connection.rs:687-799 | its bytes are buffered and use up window, its credit is added, and nothing else of the record changes |
| `StreamLaws.OpeningMeans` | yamux/src/connection.rs:638-681 | a SYN opens a stream exactly if the id is the remote's and unknown, the table has room and the frame fits; which error it is otherwise |
| `StreamLaws.OpenedMeans` | yamux/src/connection.rs:656-681 | the stream it opens is writable, readable unless the frame has FIN, owes an ACK, and counts the bytes and the credit of the frame |
| `StreamLaws.CloseFrameMeans` | yamux/src/frame.rs:93-124 | the frame of a close ends the receiver's reading, leaves its writing, brings no byte, and acknowledges exactly if an ACK was owed |
| `StreamLaws.MarkerMeans` | yamux/src/connection.rs:516-564 | a dropped handle shuts and wakes its stream; a frame is owed exactly if the peer may still expect bytes; it ends the peer's reading, and its writing exactly if this end would still have read |
| `PairProofs.StepFollows` | yamux/src/connection.rs:401-491 | a step of an endpoint is, for every stream id at once, one step of that stream's link or nothing |
| `PairProofs.TokensKeep` | yamux/src/connection.rs:801-825 | every step keeps the one ping or pong per awaited nonce |
| `PairProofs.SoundKeeps` | yamux/src/connection.rs:866-877 | ids not handed out yet stay unknown, and the two slots hold frames of their own kind |
| `PairProofs.WindowsKeep` | yamux/src/connection/stream/flow_control.rs:81-86 | no window grows before a round trip was measured, in any step and for any frame |
| `PairProofs.NoAccusation` | yamux/src/connection.rs:617-825 | an endpoint of a pair that satisfies the invariant never reports a protocol error |
| `PairProofs.StepKeeps` | yamux/src/connection.rs:401-491 | every step of either endpoint keeps the invariant of the pair |
| `PairProofs.StartHolds` | yamux/src/connection.rs:358-380 | two new endpoints satisfy it |
| `AnyRemote.TableBounds` | yamux/src/connection.rs:493-514 | against any remote: at most the configured number of streams, at most 256 unacknowledged outbound ones, the next id is new and of the right parity and above every stream of that parity in the table; a parked reader that offered room has nothing to read and its stream is in the table, a parked writer has no credit |
| `AnyRemote.EventKeeps` | yamux/src/connection.rs:516-799 | every local step, every frame and every late end marker keeps these bounds and the condition on parked tasks |
| `AnyRemote.ReceiveAwake` | yamux/src/connection.rs:617-799 | after any frame a parked reader that offered room has an empty buffer and may still get bytes, and a parked writer has no credit |
| `AnyRemote.HandleAwake` | yamux/src/connection/stream.rs:298-443 | a poll method that offers room parks its caller only if there is nothing to do |
| `AnyRemote.EntersByOrigin` | yamux/src/connection.rs:640-681 | a stream comes into the table only by being opened: here under the next id, or by a SYN of the remote under an id of the remote's parity |
| `Endings.CleanupWakes` | yamux/src/connection.rs:912-923 | tearing down a running connection empties the table and leaves no reader parked, and no writer of a stream in it |
| `Endings.GoneWakesAll` | yamux/src/connection.rs:395-399 | in every run without a graceful close, once the connection is gone no reader is parked and no writer but one that closed its stream itself |
| `Endings.CloseParksExactly` | yamux/src/connection.rs:383-390 | from a graceful close on, with anything in the slots and queues and in every continuation: a stream whose handle does not poll again has its reader, or its writer, parked if and only if it was parked when the close began |
| `Endings.GoneParksExactly` | yamux/src/connection.rs:383-399 | in every run against any remote, once the connection is gone: a reader that did not poll again after the close is parked if and only if there was a graceful close and it was parked then |
| `Endings.GracefulCloseStrands` | yamux/src/connection.rs:383-390 | a run with a graceful close after which a reader stays parked on a connection that is gone |
| `AnyRemote.ReceiveTable` | yamux/src/connection.rs:640-681 | only a SYN on an id of the remote, into a table with room, adds an entry; no frame makes an old stream unacknowledged |
| `AnyRemote.RunKeeps` | yamux/src/connection.rs:572-825 | all of it in every run |
| `Active.RttProbe.NextPing` | yamux/src/connection/rtt.rs:46-65 | a ping goes out only when due and none is awaited; its id is the counter, which wraps around |
| `Active.RttProbe.HandlePong` | yamux/src/connection/rtt.rs:67-92 | only the awaited pong is accepted and measured; any other ends the connection and changes nothing |
| `Active.Active.constructor` | yamux/src/connection.rs:358-380 | a new connection is the initial endpoint |
| `Active.Active.NextStreamId` | yamux/src/connection.rs:866-877 | ids go up by two, odd for a client and even for a server, and run out instead of wrapping |
| `Active.Active.PollNewOutbound` | yamux/src/connection.rs:493-514 | waits exactly when there is room and the backlog is full, fails exactly when the table is full or the ids are used up, and otherwise hands out the one stream it adds to table and backlog |
| `Active.Active.OnDropStream` | yamux/src/connection.rs:516-564 | the entry is closed and removed; a frame is owed exactly if the stream was known and writable, a reset if it was readable and a FIN if not |
| `Active.Active.Reset` | yamux/src/connection.rs:617-635 | a reset closes the record, wakes both tasks and removes the entry |
| `Active.Active.OnData` | yamux/src/connection.rs:617-714 | the new state and the action are the verdict on the frame, whose meaning is fixed by `StreamLaws.ReceiveMeans`, `ReceiveBrings`, `OpeningMeans` and `OpenedMeans` |
| `Active.Active.OnWindowUpdate` | yamux/src/connection.rs:716-799 | the same for window updates |
| `Active.Active.OnPing` | yamux/src/connection.rs:801-825 | a ping of the session or of a known stream is answered by its pong, any other by nothing; the awaited pong ends the wait, any other is an error |
| `Active.Active.OnFrame` | yamux/src/connection.rs:572-615 | a frame and the action it asks for are one read step of the endpoint; a new stream is reported exactly if the frame opened one, under its id |
| `Active.Active.DropAllStreams` | yamux/src/connection.rs:912-923 | every stream of the table is closed and woken, every queue emptied |
| `Active.Active.Cleanup` | yamux/src/connection.rs:395-399 | the connection is gone and nothing unsent survives |
| `Active.Active.WriteOne` | yamux/src/connection.rs:403-421 | a writer with room gets a due ping, else a pong or go-away, else a stream frame |
| `Active.Active.TakeOne` | yamux/src/connection.rs:428-452 | the oldest command goes to the free slot, or a dropped handle is dealt with |
| `Active.Active.ReadOne` | yamux/src/connection.rs:460-481 | one frame is read and its answer put into the slot; a stream is handed out exactly if this frame opened it |
| `Active.Active.PollSocket` | yamux/src/connection.rs:459-487 | nothing is read while an answer waits; otherwise a frame that is there is read and the end of the socket ends the connection; a stream is handed out exactly if the frame read opened it |
| `Active.Active.OneTurn` | yamux/src/connection.rs:402-491 | a turn of the loop is the one step its environment and the priorities pick, goes on exactly if there was something to do, and hands out a stream exactly if that step opened it |
| `Active.Active.Poll` | yamux/src/connection.rs:401-491 | the loop takes exactly the step its priorities pick, turn after turn, and is a run of the endpoint; it waits only when no frame, ping or command can move and nothing that arrived may be read; it returns the one stream the remote opened in the call |
| `Active.ChosenExactly` | yamux/src/connection.rs:402-491 | a turn does nothing exactly if no frame waits for a writer with room, no due ping can go, the ready receiver cannot be served and nothing from the socket may be read; otherwise its step is possible |
| `Active.ChosenFirst` | yamux/src/connection.rs:402-491 | which step it is: ping before answer before stream frame, writing before commands, commands before reading, for every turn |
| `Active.IdleIsStuck` | yamux/src/connection.rs:402-491 | a turn with nothing to do is one in which no step the environment offers is enabled |
| `EndpointRuns.ArrivalIsNew` | yamux/src/connection.rs:640-681 | a stream handed out was not in the table before the frame, is in it afterwards and has an id of the remote |
| `Active.StepsAreRun` | yamux/src/connection.rs:401-491 | the steps of one endpoint on its socket are a run of the pair |
| `Active.PollKeepsReachable` | yamux/src/connection.rs:401-491 | after any poll the pair is reachable, so every promise holds |
| `Active.CallIsSteps` | yamux/src/connection/stream.rs:314-443 | a poll method of a handle is a run of steps of its endpoint; its premise on untuned windows is discharged in `Active.CallKeepsReachable` |
| `Active.CallKeepsReachable` | yamux/src/connection/stream.rs:314-443 | a poll method of a handle leads a reachable pair to a reachable pair |
| `Active.Active.Close` | yamux/src/connection.rs:383-390 | the graceful close starts with the frame in the read slot, then the one in the write slot, then the queues of all receivers |
| `Active.ReachableQueues` | yamux/src/connection.rs:383-390 | in a reachable pair every queue holds frames of its own stream, so any running connection can be closed this way |
| `Active.CloseKeepsReachable` | yamux/src/connection/closing.rs:47-92 | what a closing connection does and sends is a run of the pair, so every promise holds on the way |
| `Handles.StreamHandle.constructor` | yamux/src/connection/stream.rs:128-178 | a new handle owes a SYN or an ACK and has the default windows |
| `Handles.StreamHandle.AddFlag` | yamux/src/connection/stream.rs:211-223 | the flag owed goes onto one frame and is then no longer owed |
| `Handles.StreamHandle.UpdateStateTo` | yamux/src/connection/stream.rs:485-518 | the state becomes the join, the old one is returned |
| `Handles.StreamHandle.SendWindowUpdate` | yamux/src/connection/stream.rs:227-249 | nothing happens unless the stream is readable, the channel has room and half a window is due; then the window is full again, its maximum grown as far as allowed, and the credit this takes is queued as one frame |
| `Handles.StreamHandle.PollWrite` | yamux/src/connection/stream.rs:367-413 | the most bytes that credit, buffer and split size allow leave as one frame with the flag owed and are paid for; without credit the caller is parked |
| `StreamLaws.WriteSizeIsLargest` | yamux/src/connection/stream.rs:386-391 | the size of a write is the largest that credit, buffer and split size all allow |
| `Handles.StreamHandle.PollClose` | yamux/src/connection/stream.rs:421-443 | a FIN with the ACK owed is queued and writing ends, unless the channel is full, gone or the stream is closed |
| `Handles.StreamHandle.PollRead` | yamux/src/connection/stream.rs:314-363 | first the credit that is due is granted and queued; then the caller gets the oldest buffered bytes exactly if there are any, it offered room and no window update that is due was refused; otherwise end of file, an error exactly if a due update found its connection closed, or it is parked because there is nothing yet or it offered no room; every case is a run of steps of the stream |
| `Handles.StreamHandle.PollNext` | yamux/src/connection/stream.rs:265-308 | the same credit first; then exactly if there is a chunk and no due update was refused its unread bytes leave as the packet; otherwise end of file, the same error, or parked; no byte is lost or repeated |
| `Settings.Config.constructor` | yamux/src/lib.rs:86-95 | the defaults are valid |
| `Settings.Config.SetMaxConnectionReceiveWindow` | yamux/src/lib.rs:126-137 | with overflow checks, or on a product that fits, the setter goes through exactly if every stream can have the default window; without them exactly if the wrapped product is covered |
| `Settings.Config.SetMaxNumStreams` | yamux/src/lib.rs:140-151 | the same for the number of streams |
| `Settings.Config.SetSplitSendSize` | yamux/src/lib.rs:162-165 | sets the size and nothing else; validity does not depend on it |
| `Settings.Config.SetReadAfterClose` | yamux/src/lib.rs:155-158 | sets the choice and nothing else; validity does not depend on it |
| `Settings.PassesExactly` | yamux/src/lib.rs:126-151 | a setter passes exactly for valid settings if and only if the build checks overflow, or the product fits, or its remainder exceeds the limit |
| `Settings.WrapsExactly` | yamux/src/lib.rs:126-151 | where products wrap, the assertion means validity if and only if the product fits or its remainder exceeds the limit |
| `Settings.WrapPasses` | yamux/src/lib.rs:140-151 | a number of streams for which it does, on 64 bits |
| `FlowControl.TuningBounds` | yamux/src/connection/stream/flow_control.rs:87-116 | a maximum never shrinks, at most doubles and stays inside the connection's budget; when credit is used up fast it doubles unless 32 bits or the whole budget stop it, and otherwise it stays |
| `FlowControl.GrantFillsWindow` | yamux/src/connection/stream/flow_control.rs:44-130 | an update is granted exactly if at least half the window is used up and read, fills the window, and takes from the budget what it adds to the maximum |
| `FlowControl.UpdateKeepsAssertions` | yamux/src/connection/stream/flow_control.rs:132-166 | an update keeps everything the source asserts |
| `FlowControl.LimitFitsExactly` | yamux/src/connection/stream/flow_control.rs:93-104 | the connection limit fits into `usize` for every stream if and only if a stream is allowed or the limit leaves one default window |
| `FlowControl.LimitOverflowsWithoutStreams` | yamux/src/connection/stream/flow_control.rs:93-104 | a valid configuration for which it would not fit |
| `FlowControl.FlowController.constructor` | yamux/src/connection/stream/flow_control.rs:22-40 | the maximum starts at the default |
| `FlowControl.FlowController.NextWindowUpdate` | yamux/src/connection/stream/flow_control.rs:44-130 | granted exactly if half the window is used up and read; then the window is full, the maximum has grown as far as budget and 32 bits allow if credit was used up fast, and the counter by as much; no operation leaves its width and every assertion passes |
| `FlowControl.FlowController.ConsumeSendWindow` | yamux/src/connection/stream/flow_control.rs:172-178 | fails without change instead of going below zero |
| `FlowControl.FlowController.IncreaseSendWindowBy` | yamux/src/connection/stream/flow_control.rs:180-186 | fails without change instead of leaving 32 bits |
| `FlowControl.FlowController.ConsumeReceiveWindow` | yamux/src/connection/stream/flow_control.rs:188-194 | fails without change instead of going below zero |
| `FlowControl.FlowController.Drop` | yamux/src/connection/stream/flow_control.rs:197-209 | the growth goes back to the counter, which stays non-negative |
| `Budget.CounterIsSum` | yamux/src/connection/stream/flow_control.rs:107-116 | in every run of any number of streams the counter is the sum of their growth, reserved or assigned, and within the budget |
| `Budget.ConnectionLimitHolds` | yamux/src/lib.rs:126-151 | the maxima of the streams in the table together never exceed the configured limit |
| `Budget.ArithmeticIsSafe` | yamux/src/connection/stream/flow_control.rs:44-166 | in every reachable state no sum or difference leaves its width and every assertion holds, also between reserve and assign |
| `Budget.ReserveAssignIsUpdate` | yamux/src/connection/stream/flow_control.rs:105-118 | reserve followed by assign is the update of the controller |
| `Budget.ArriveCounts` | yamux/src/connection.rs:687-714 | the controller of a stream counts what its record holds, when a data frame arrives |
| `Budget.ConsumeCounts` | yamux/src/connection/stream.rs:331-345 | the same when bytes are read |
| `Budget.GrantCounts` | yamux/src/connection/stream/flow_control.rs:44-130 | an update is due for a stream exactly if it is for its controller, and is the same for both |
| `Budget.TuneCounts` | yamux/src/connection/stream/flow_control.rs:87-118 | a tuned update is one of those the stream may make in the pair |
| `Budget.NextKeeps` | yamux/src/connection/stream/flow_control.rs:197-209 | creating, receiving, reading, tuning, granting and dropping keep the balance |
| `Chunks.Chunks.Len` | yamux/src/chunks.rs:34-36 | the length is that of the unread bytes |
| `Chunks.Chunks.Push` | yamux/src/chunks.rs:39-46 | bytes join at the end as one chunk; an empty vector leaves no chunk |
| `Chunks.Chunks.Pop` | yamux/src/chunks.rs:49-53 | the first chunk leaves with its unread bytes |
| `Chunks.Chunks.AdvanceFront` | yamux/src/chunks.rs:90-100 | the first bytes count as read |
| `Chunks.Chunks.PollRead` | yamux/src/connection/stream.rs:331-345 | the copy loop fills the slice with the oldest bytes, as many as fit, and no other byte of it changes; a slice that is not filled leaves no chunk, and one used up in place is left only by a filled slice |
| `Chunks.Chunks.PollNext` | yamux/src/connection/stream.rs:279-295 | the rest of the first chunk is the packet, empty exactly if that chunk was used up in place |
| `Chunks.EmptyPacket` | yamux/src/connection/stream.rs:279-295 | arrival, a read that fills its slice, and the empty packet this leaves |
| `Chunks.UseAll` | yamux/src/chunks.rs:24-106 | under any mix of arrivals, reads and packets, what was returned and what is unread is what arrived |
| `Header.DecodeEncode` | yamux/src/frame/header.rs:357-389 | decoding inverts encoding for every header, unassigned flag bits included |
| `Header.EncodeDecode` | yamux/src/frame/header.rs:368-389 | decoding succeeds exactly for version 0 and the four types, encoding inverts it, and a wrong version is reported before a wrong type |
| `Header.WireFormat` | yamux/src/frame/header.rs:357-389 | the twelve bytes: version 0, the number of the type, the flag bits with their values, stream id and length, high byte first |
| `Frames.OpenLayouts` | yamux/src/frame.rs:93-133 | type and flags of data frames and window updates, as they stand on the wire |
| `Frames.EndLayouts` | yamux/src/frame.rs:101-109 | the same for the frames that close or reset a stream |
| `Frames.SessionLayouts` | yamux/src/frame.rs:135-170 | the same for pings, pongs and go-aways |
| `Frames.GoAwayCodes` | yamux/src/frame/header.rs:187-200 | the three reasons of a go-away by the number they have on the wire |
| `Header.FlagsOfVal` | yamux/src/frame/header.rs:329-351 | testing and setting flag bits are inverse |
| `Header.FlagsValOf` | yamux/src/frame/header.rs:329-351 | the other direction, for every 16-bit word |
| `Codec.ParseEncodeAll` | yamux/src/frame/header.rs:357-389 | any list of well-formed frames is read back from its encoding, whatever follows |
| `Codec.EncodeParse` | yamux/src/frame/io.rs:209-291 | what is read accounts for every byte it was read from |
| `Codec.CutIsPrefix` | yamux/src/frame/io.rs:218-230 | a wire cut anywhere yields the frames before the cut and never a malformed one |
| `FrameIo.Reader.PollNext` | yamux/src/frame/io.rs:209-291 | a poll returns the next frame of the bytes still to come, their exact end or error, or waits only because the socket does |
| `FrameIo.ReadAll` | yamux/src/frame/io.rs:209-291 | for every byte string and every schedule of short reads and waits: the frames and the error of the whole-buffer parser; all of them if the socket never fails, has more moves than bytes, and is polled more often than there are frames and waits |
| `FrameIo.Reader.PollBody` | yamux/src/frame/io.rs:258-288 | a body is complete, still missing, or cut off |
| `FrameIo.Reader.HeaderComplete` | yamux/src/frame/io.rs:221-249 | a complete header ends a frame, starts a body, or is refused |
| `FrameIo.Writer.StartSend` | yamux/src/frame/io.rs:165-174 | the frame's encoding is what remains to be written |
| `FrameIo.Writer.PollReady` | yamux/src/frame/io.rs:88-163 | from any point of a frame, bytes written and bytes held never change as a whole, an unfinished write waits or blames the last socket call, and a socket that claims too much poisons the writer for good |
| `FrameIo.WriteAll` | yamux/src/frame/io.rs:88-174 | polled again after every wait, the writer puts the encodings on the wire in order; all of them if the socket never fails or misbehaves, has more moves than bytes, and is polled more often than there are frames and waits |
| `FrameIo.WriteNext` | yamux/src/frame/io.rs:88-174 | one poll of the writer, and the next frame if it is clear, continues the encodings exactly where they stopped |
| `FrameIo.Transfer` | yamux/src/frame/io.rs:88-291 | writer and reader under any two schedules of short moves and waits: a prefix of the frames and never a malformed one; all of them and a clean end if both sockets deliver and are polled often enough |
| `Lattice.UpdateJoins` | yamux/src/connection/stream.rs:485-518 | an update closes what it says is closed and opens nothing |
| `Lattice.ReplayIsSummary` | yamux/src/connection/stream.rs:485-518 | the result of any sequence of updates is determined by which of them occurred |
| `Lattice.OpennessLost` | yamux/src/connection/stream.rs:64-74 | reading ends if and only if a closing of it occurred, writing likewise, and neither comes back |
| `Lattice.OrderIrrelevant` | yamux/src/connection.rs:575-583 | local and remote updates may come in any order and repeat |
| `Shutdown.TaggedStream.PollNext` | yamux/src/tagged_stream.rs:36-51 | items come out once and in order, then exactly one end marker |
| `GracefulClose.Closing.constructor` | yamux/src/connection/closing.rs:27-38 | the close starts with the two slots of the connection, read slot first, and its queues, behind what the writer still holds |
| `GracefulClose.Closing.Drain` | yamux/src/connection/closing.rs:62-76 | all commands are collected, each stream's in order, and the go-away comes last |
| `GracefulClose.Closing.Poll` | yamux/src/connection/closing.rs:47-92 | it is complete only when everything is written: what was under way, the slots, every queued command in per-stream order, one go-away, nothing else; an error means the last socket call failed or claimed too much, a wait that the schedule made it wait, and every byte written comes off what is owed |
| `GracefulClose.CloseIsRun` | yamux/src/connection/closing.rs:47-92 | any order of draining all queues is a run of the endpoint from the close to its end, and what it sends is the complete plan |
| `GracefulClose.CloseFully` | yamux/src/connection/closing.rs:77-89 | from wherever the socket stands: if it delivers, has more moves than bytes owed and the close is polled more often than it is made to wait, the close completes |
| `GracefulClose.DrainedStep` | yamux/src/connection/closing.rs:62-76 | taking one command keeps what is collected plus what is queued equal, per stream, to what was queued |
| `Shutdown.Cleanup.Poll` | yamux/src/connection/cleanup.rs:35-60 | every queue is emptied and the error is handed over; it asks that there is an error left, which `Lifecycle` provides at every call |
| `Lifecycle.Connection.Drive` | yamux/src/connection.rs:99-205 | `poll_new_outbound` and `poll_next_inbound`: a cleanup is polled only with its error in place, the phase is never lost and only goes forward, each answer is determined by the phase and its poll |
| `Lifecycle.Connection.Close` | yamux/src/connection.rs:207-247 | closing ends in closing or closed, succeeds or reports the error of the close; a cleanup in progress is finished and its error dropped |
| `Lifecycle.Script` | yamux/src/connection.rs:99-247 | in every sequence of the three calls: no phase is lost, no cleanup is polled after completion, and after the first final answer every call gets that of a closed connection |

## Left out

- Sharing of a stream's record through `Arc<Mutex<_>>`: the table entry, the record and the handle are one map entry; a lock-scoped region is one step.
- A remote that reuses the id of a stream whose old handle is still alive: the model keeps one record per id, so the old handle's record is replaced; `AnyRemote` still admits the old receiver's end marker. Two conforming endpoints never reuse an id.
- Sockets of bounded capacity are in `Backpressure`; `Pair` itself has unbounded wires.
- Channel capacity: queues in the pair are unbounded; `Handles` models a full channel as a call that does nothing.
- The select over the receivers and the channels' internals: any receiver with a command may come next, and a drain ends when no receiver holds a command.
- Waker identity and `new_outbound_stream_waker`: a waker is a flag; the backlog's waker is not claimed to be woken in time.
- Wall-clock time: the ping interval and the two-round-trips test are choices of the environment.
- Socket errors inside the pair: an error at an endpoint is the failure of its connection; `FrameIo` treats errors of single calls.
- `AnyRemote.TableBounds`: for a reader that offered no room only that its stream is in the table; what happens to parked tasks in a graceful close is said in `Endings`.
- `Progress.DeliversAll`, `Progress.RegainsCredit`, `Progress.ReachesEndOfFile`, `Progress.DropIsSeen`, `Progress.LeavesBacklog`: for pairs in which no go-away is under way and each table has room for every stream the peer is opening, as otherwise an end may be told to go away; they speak of handles that are in no call.
- `Active.Active.Poll`: other tasks' steps between two turns of the loop are not part of the call; the pair interleaves them.
- `Handles.StreamHandle.PollWrite`: `poll_ready` and the two locked parts run without interruption here; `Streams` has them as separate steps that the pair interleaves.
- The shared counter inside the pair: a window update may grow a window by any amount up to doubling there; the counter and its limit are proved in `Budget`.
- The end marker of a receiver in `Endpoint` may be reported again after it was reported; it then has no effect. `Shutdown.TaggedStream` proves that it comes once.
- The version byte of a header is not stored, because only version 0 can be built or decoded.
- `Drop` of a connection object, `Display` and `Debug`, logging, connection ids and the phantom types of frames: nothing to prove beyond the constructors.
- The test harness, benches and fuzzing helpers of the repository.
