/**
  One endpoint of a connection: the stream table, the two one-frame slots, the ping state
  and the life of the connection. A step is one lock-scoped region or one socket call;
  which step comes next is the environment's choice.
*/
module Endpoint {
  import opened Basics
  import opened Header
  import opened Frames
  import opened Streams

  datatype Mode = Client | Server

  /** Clients open odd ids, servers even ones. */
  predicate Local(mode: Mode, id: u32) {
    match mode
    case Client => id % 2 != 0
    case Server => id % 2 == 0
  }

  datatype Limits = Limits(maxNumStreams: nat, splitSendSize: nat)

  datatype Rtt = Rtt(awaiting: Option<u32>, nextNonce: u32, measured: bool)

  datatype Phase =
    | Active
    | Draining   // `Closing`, collecting the commands still queued
    | Flushing   // `Closing`, writing the collected frames
    | Gone       // closed or torn down

  datatype Endpoint = Endpoint(
    mode: Mode,
    limits: Limits,
    nextId: u32,
    streams: map<u32, Stream>,     // every stream ever known here; the table is `Table`
    pendingRead: Option<Frame>,    // a pong or a go-away waiting for the writer
    pendingWrite: Option<Frame>,   // a stream frame waiting for the writer
    outbox: seq<Frame>,            // `Closing::pending_frames`
    rtt: Rtt,
    phase: Phase
  )

  function Init(mode: Mode, limits: Limits): Endpoint {
    Endpoint(mode, limits, if mode.Client? then 1 else 2, map[], None, None, [], Rtt(None, 0, false), Active)
  }

  /** The stream `id` as this endpoint knows it; untouched if it never heard of it. */
  function View(e: Endpoint, id: u32): Stream {
    if id in e.streams then e.streams[id] else Fresh(if Local(e.mode, id) then OweSyn else OweAck)
  }

  /** The keys of `Active::streams`. */
  function Table(e: Endpoint): set<u32> {
    set id | id in e.streams && e.streams[id].status.InTable?
  }

  predicate PendingAck(s: Stream) {
    s.status.InTable? && s.state == Open(false)
  }

  /** `Active::ack_backlog`: our own streams the remote has not acknowledged. */
  function AckBacklog(e: Endpoint): set<u32> {
    set id | id in e.streams && Local(e.mode, id) && PendingAck(e.streams[id])
  }

  // ---------------------------------------------------------------- steps

  datatype Act =
    | NewOutbound
    | OnHandle(id: u32, op: HandleOp)
    | SendPing
    | FlushPendingRead
    | FlushPendingWrite
    | PollReceiver(id: u32)
    | ReadFrame
    | StartClose
    | DrainReceiver(id: u32)
    | FinishDrain
    | FlushOutbox
    | CloseSocket
    | Fail

  /** An endpoint after a step, what is left of its inbox, and what it put on the wire. */
  datatype After = After(e: Endpoint, inbox: seq<Frame>, sent: seq<Frame>)

  predicate Enabled(e: Endpoint, inbox: seq<Frame>, act: Act) {
    match act
    case NewOutbound => e.phase.Active? && (|Table(e)| >= e.limits.maxNumStreams || |AckBacklog(e)| < MAX_ACK_BACKLOG)
    case OnHandle(id, op) =>
      && id in e.streams && HandleEnabled(e.streams[id], op)
      && (op.WriteBegin? ==> op.split == e.limits.splitSendSize)
      && (op.UpdateGrant? && !e.rtt.measured ==> op.newMax == e.streams[id].maxReceiveWindow)
    case SendPing => e.phase.Active? && e.rtt.awaiting.None?
    case FlushPendingRead => e.phase.Active? && e.pendingRead.Some?
    case FlushPendingWrite => e.phase.Active? && e.pendingRead.None? && e.pendingWrite.Some?
    case PollReceiver(id) =>
      e.phase.Active? && e.pendingWrite.None? && id in e.streams && (e.streams[id].queue != [] || e.streams[id].dropped)
    case ReadFrame => e.phase.Active? && e.pendingRead.None? && inbox != []
    case StartClose => e.phase.Active?
    case DrainReceiver(id) => e.phase.Draining? && id in e.streams && e.streams[id].queue != []
    case FinishDrain => e.phase.Draining? && forall id :: id in e.streams ==> e.streams[id].queue == []
    case FlushOutbox => e.phase.Flushing? && e.outbox != []
    case CloseSocket => e.phase.Flushing? && e.outbox == []
    case Fail => !e.phase.Gone?
  }

  function Step(e: Endpoint, inbox: seq<Frame>, act: Act): After
    requires Enabled(e, inbox, act)
  {
    match act
    case NewOutbound => After(OpenOutbound(e), inbox, [])
    case OnHandle(id, op) => After(With(e, id, Handle(e.streams[id], id, op, e.phase.Active?)), inbox, [])
    case SendPing =>
      After(e.(rtt := e.rtt.(awaiting := Some(e.rtt.nextNonce), nextNonce := NextNonce(e.rtt.nextNonce))),
            inbox, [PingFrame(e.rtt.nextNonce)])
    case FlushPendingRead => After(e.(pendingRead := None), inbox, [e.pendingRead.value])
    case FlushPendingWrite => After(e.(pendingWrite := None), inbox, [e.pendingWrite.value])
    case PollReceiver(id) => After(TakeCommand(e, id), inbox, [])
    case ReadFrame => After(OnFrame(e, inbox[0]), inbox[1..], [])
    case StartClose =>
      After(e.(phase := Draining, outbox := Opt(e.pendingRead) + Opt(e.pendingWrite), pendingRead := None, pendingWrite := None),
            inbox, [])
    case DrainReceiver(id) =>
      var s := e.streams[id];
      After(With(e, id, s.(queue := s.queue[1..])).(outbox := e.outbox + [s.queue[0]]), inbox, [])
    case FinishDrain => After(e.(phase := Flushing, outbox := e.outbox + [GoAwayFrame(TERM)]), inbox, [])
    case FlushOutbox => After(e.(outbox := e.outbox[1..]), inbox, [e.outbox[0]])
    case CloseSocket => After(e.(phase := Gone), inbox, [])
    case Fail => After(Cleanup(e), inbox, [])
  }

  function With(e: Endpoint, id: u32, s: Stream): Endpoint {
    e.(streams := e.streams[id := s])
  }

  /** The same, but a stream nobody has touched gets no record. */
  function Put(e: Endpoint, id: u32, s: Stream): Endpoint {
    if View(e, id) == s then e else With(e, id, s)
  }

  /** `AtomicU32::fetch_add` wraps around. */
  function NextNonce(n: u32): u32 {
    if n == U32_MAX then 0 else n + 1
  }

  /** `Active::poll_new_outbound`; running out of streams or ids tears the connection down. */
  function OpenOutbound(e: Endpoint): Endpoint {
    if |Table(e)| >= e.limits.maxNumStreams then Cleanup(e)
    else if e.nextId + 2 > U32_MAX then Cleanup(e)
    else With(e, e.nextId, Fresh(OweSyn).(status := InTable)).(nextId := e.nextId + 2)
  }

  /** The connection takes a command off a queue, or learns that the handle is gone. */
  function TakeCommand(e: Endpoint, id: u32): Endpoint
    requires id in e.streams
  {
    var s := e.streams[id];
    if s.queue != [] then With(e, id, s.(queue := s.queue[1..])).(pendingWrite := Some(s.queue[0]))
    else
      var (t, out) := EndMarker(s, id);
      With(e, id, t).(pendingWrite := if out == [] then e.pendingWrite else Some(out[0]))
  }

  predicate Full(e: Endpoint) {
    |Table(e)| == e.limits.maxNumStreams
  }

  /** `Active::on_frame` and what `Active::poll` does with its result. */
  function OnFrame(e: Endpoint, f: Frame): Endpoint {
    match f.header.tag
    case Ping => OnPing(e, f)
    case GoAway => Cleanup(e)
    case _ =>
      var id := f.header.streamId;
      var (verdict, t) := Receive(View(e, id), f, !Local(e.mode, id), Full(e));
      var e1 := Put(e, id, t);
      match verdict
      case Ignored => e
      case ProtocolError => e1.(pendingRead := Some(GoAwayFrame(PROTOCOL_ERROR)))
      case InternalError => e1.(pendingRead := Some(GoAwayFrame(INTERNAL_ERROR)))
      case _ => e1
  }

  function OnPing(e: Endpoint, f: Frame): Endpoint {
    if f.Ack() then
      if e.rtt.awaiting == Some(f.header.length) then e.(rtt := e.rtt.(awaiting := None, measured := true))
      else e.(pendingRead := Some(GoAwayFrame(PROTOCOL_ERROR)))
    else if f.header.streamId == 0 || f.header.streamId in Table(e) then
      e.(pendingRead := Some(PongFrame(f.header.length)))
    else e
  }

  /** The connection is over: streams are closed and everything unsent is lost. */
  function Cleanup(e: Endpoint): Endpoint {
    e.(phase := Gone, pendingRead := None, pendingWrite := None, outbox := [],
       streams := map id | id in e.streams :: if e.phase.Active? then TearDown(e.streams[id]) else e.streams[id].(queue := []))
  }
}
