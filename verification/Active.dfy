/**
  `Active`: the running connection, in place. Each method is the source's method of that name
  and is proved against the step of `Endpoint` it stands for; `Poll` is the connection's loop.
*/
module Active {
  import opened Basics
  import opened Header
  import opened Frames
  import opened Streams
  import opened Endpoint
  import opened EndpointRuns
  import E = Endpoint
  import G = Guarantees
  import H = Handles
  import GC = GracefulClose
  import F = FrameIo
  import P = Pair
  import PairProofs

  /** What `on_frame` asks `poll` to do. */
  datatype Action = Nothing | NewStream(id: u32) | Pong(frame: Frame) | Terminate(frame: Frame) | Disconnected

  /** The connection's round-trip probe; at most one ping is outstanding. */
  class RttProbe {
    var awaiting: Option<u32>
    var nextNonce: u32
    var measured: bool

    function Value(): Rtt
      reads this
    {
      Rtt(awaiting, nextNonce, measured)
    }

    constructor ()
      ensures Value() == Rtt(None, 0, false)
    {
      awaiting, nextNonce, measured := None, 0, false;
    }

    /** `due`: the interval since the last pong is over. */
    method NextPing(due: bool) returns (ping: Option<Frame>)
      modifies this
      ensures ping.Some? <==> old(awaiting).None? && due
      ensures ping.None? ==> Value() == old(Value())
      ensures ping.Some? ==> ping.value == PingFrame(old(nextNonce))
      ensures ping.Some? ==> Value() == Rtt(Some(old(nextNonce)), NextNonce(old(nextNonce)), old(measured))
      ensures ping.Some? ==> nextNonce == (old(nextNonce) + 1) % 0x1_0000_0000
    {
      if awaiting.Some? || !due {
        return None;
      }
      var id := nextNonce;
      nextNonce := if nextNonce == U32_MAX then 0 else nextNonce + 1;
      awaiting := Some(id);
      ping := Some(PingFrame(id));
    }

    method HandlePong(received: u32) returns (action: Action)
      modifies this
      ensures action == if old(awaiting) == Some(received) then Nothing else Terminate(GoAwayFrame(PROTOCOL_ERROR))
      ensures Value() == if old(awaiting) == Some(received) then Rtt(None, old(nextNonce), true) else old(Value())
    {
      if awaiting.None? {
        return Terminate(GoAwayFrame(PROTOCOL_ERROR));
      }
      if awaiting.value != received {
        return Terminate(GoAwayFrame(PROTOCOL_ERROR));
      }
      measured := true;
      awaiting := None;
      action := Nothing;
    }
  }

  /** What the environment does during one turn of the loop in `Active::poll`. */
  datatype Turn = Turn(
    writable: bool,          // the socket takes a frame
    pingDue: bool,           // the ping interval is over
    flushFails: bool,        // flushing reports an error
    picked: Option<u32>,     // the receiver `SelectAll` yields, if any is ready
    socket: Incoming)

  datatype Incoming = Blocked | Arrives | Broken

  datatype Outcome = Pending | Opened(id: u32) | Failed

  /** What the connection becomes once `poll` has done what an action says. */
  function Perform(e: Endpoint, action: Action): Endpoint {
    match action
    case Pong(f) => e.(pendingRead := Some(f))
    case Terminate(f) => e.(pendingRead := Some(f))
    case _ => e
  }

  function ActionFor(verdict: Verdict, id: u32): Action {
    match verdict
    case New => NewStream(id)
    case ProtocolError => Terminate(GoAwayFrame(PROTOCOL_ERROR))
    case InternalError => Terminate(GoAwayFrame(INTERNAL_ERROR))
    case _ => Nothing
  }

  /** `action` and the state `after` are what the frame `f` means for its stream in the state `before`. */
  predicate Decided(before: Endpoint, f: Frame, after: Endpoint, action: Action)
    requires f.OfStream()
  {
    var id := f.header.streamId;
    var (verdict, t) := Dispatch(View(before, id), f, !Local(before.mode, id), Full(before));
    && after == Put(before, id, t)
    && action == ActionFor(verdict, id)
  }

  /** The same for a frame as it comes off the wire, its ACK flag included. */
  predicate Judged(before: Endpoint, f: Frame, after: Endpoint, action: Action)
    requires f.OfStream()
  {
    var id := f.header.streamId;
    var (verdict, t) := Receive(View(before, id), f, !Local(before.mode, id), Full(before));
    && after == Put(before, id, t)
    && action == ActionFor(verdict, id)
  }

  /** Acknowledging a stream does not change which streams are in the table. */
  lemma TableAfterAck(e: Endpoint, id: u32, s: Stream)
    requires s.status == View(e, id).status && (s == View(e, id) || id in e.streams)
    ensures Table(Put(e, id, s)) == Table(e)
  {
  }

  lemma DecidedThenJudged(before: Endpoint, acknowledged: Endpoint, f: Frame, after: Endpoint, action: Action)
    requires f.OfStream() && (f.Syn() || View(before, f.header.streamId).status.InTable?)
    requires acknowledged == Put(before, f.header.streamId, Acknowledge(View(before, f.header.streamId), f))
    requires Full(acknowledged) == Full(before)
    requires Decided(acknowledged, f, after, action)
    ensures Judged(before, f, after, action)
  {
    var id := f.header.streamId;
    var s := Acknowledge(View(before, id), f);
    PutTwice(before, id, s, Dispatch(s, f, !Local(before.mode, id), Full(before)).1);
  }

  /** The last of two records for the same stream counts. */
  lemma PutTwice(e: Endpoint, id: u32, s: Stream, t: Stream)
    requires s == View(e, id) || id in e.streams
    ensures View(Put(e, id, s), id) == s && Put(Put(e, id, s), id, t) == Put(e, id, t)
  {
    if s != View(e, id) {
      assert e.streams[id := s][id := t] == e.streams[id := t];
      if t == View(e, id) {
        assert e.streams[id := t] == e.streams;
      }
    }
  }

  lemma JudgedIsOnFrame(before: Endpoint, f: Frame, after: Endpoint, action: Action)
    requires f.OfStream() && Judged(before, f, after, action)
    ensures Perform(after, action) == E.OnFrame(before, f)
    ensures action.NewStream? <==> Opens(before, f)
    ensures action.NewStream? ==> action.id == f.header.streamId
    ensures !action.Disconnected? && after.pendingRead == before.pendingRead
  {
  }

  /** A receiver `SelectAll` may yield: it holds a command or its handle is gone. */
  predicate Ready(e: Endpoint, id: u32) {
    id in e.streams && (e.streams[id].queue != [] || e.streams[id].dropped)
  }

  /** What a writer with room is given: a due ping, then a pong or go-away, then a frame of a stream. */
  function ToWrite(e: Endpoint, pingDue: bool): Option<Act> {
    if pingDue && e.rtt.awaiting.None? then Some(SendPing)
    else if e.pendingRead.Some? then Some(FlushPendingRead)
    else if e.pendingWrite.Some? then Some(FlushPendingWrite)
    else None
  }

  /** The step a turn of the loop takes, if any. */
  function Chosen(e: Endpoint, inbox: seq<Frame>, turn: Turn): Option<Act> {
    if turn.writable && ToWrite(e, turn.pingDue).Some? then ToWrite(e, turn.pingDue)
    else if turn.flushFails then Some(Fail)
    else if e.pendingWrite.None? && turn.picked.Some? && Ready(e, turn.picked.value) then Some(PollReceiver(turn.picked.value))
    else ToRead(e, inbox, turn.socket)
  }

  /** Turn for turn, the steps are the ones the environment and the priorities pick. */
  predicate Obeys(e: Endpoint, socket: Socket, turns: seq<Turn>, acts: seq<Act>)
    requires Steps(e, socket, acts).Some?
    decreases acts
  {
    if acts == [] then true
    else
      && turns != [] && Chosen(e, socket.inbox, turns[0]) == Some(acts[0])
      && var after := Step(e, socket.inbox, acts[0]);
         Obeys(after.e, Socket(after.inbox, socket.sent + after.sent), turns[1..], acts[1..])
  }

  lemma {:induction false} ObeysAppend(e: Endpoint, socket: Socket, turns: seq<Turn>, acts: seq<Act>, act: Act)
    requires Steps(e, socket, acts).Some? && Steps(e, socket, acts + [act]).Some?
    requires Obeys(e, socket, turns, acts) && |acts| < |turns|
    requires var (e1, s1) := Steps(e, socket, acts).value; Chosen(e1, s1.inbox, turns[|acts|]) == Some(act)
    ensures Obeys(e, socket, turns, acts + [act])
    decreases acts
  {
    if acts == [] {
      assert ([] + [act])[1..] == [];
    } else {
      var after := Step(e, socket.inbox, acts[0]);
      assert (acts + [act])[1..] == acts[1..] + [act];
      assert turns[1..][|acts[1..]|] == turns[|acts|];
      ObeysAppend(after.e, Socket(after.inbox, socket.sent + after.sent), turns[1..], acts[1..], act);
    }
  }

  /** While a pong or a go-away waits for the writer nothing is read. */
  function ToRead(e: Endpoint, inbox: seq<Frame>, incoming: Incoming): Option<Act> {
    if e.pendingRead.Some? then None
    else if incoming.Broken? then Some(Fail)
    else if incoming.Arrives? && inbox != [] then Some(ReadFrame)
    else None
  }

  /**
    Nothing is left to do in this turn: the writer has room only if no frame waits and no ping is
    both due and possible, flushing is fine, the receiver that is ready cannot be served, and what
    the socket has to say, a frame or its end, waits for an answer to go out first.
  */
  predicate Idles(e: Endpoint, inbox: seq<Frame>, turn: Turn) {
    && (turn.writable ==> e.pendingRead.None? && e.pendingWrite.None? && !(turn.pingDue && e.rtt.awaiting.None?))
    && !turn.flushFails
    && (turn.picked.Some? && Ready(e, turn.picked.value) ==> e.pendingWrite.Some?)
    && (turn.socket.Broken? || (turn.socket.Arrives? && inbox != []) ==> e.pendingRead.Some?)
  }

  /** A turn of a running connection does nothing exactly then, and otherwise a step that is possible. */
  lemma ChosenExactly(e: Endpoint, inbox: seq<Frame>, turn: Turn)
    requires e.phase.Active?
    ensures Chosen(e, inbox, turn).None? <==> Idles(e, inbox, turn)
    ensures Chosen(e, inbox, turn).Some? ==> Enabled(e, inbox, Chosen(e, inbox, turn).value)
  {
  }

  /** And then none of the steps the environment offers is possible. */
  lemma IdleIsStuck(e: Endpoint, inbox: seq<Frame>, turn: Turn)
    requires e.phase.Active?
    ensures Idles(e, inbox, turn) <==>
              && (turn.writable ==>
                    && !Enabled(e, inbox, FlushPendingRead) && !Enabled(e, inbox, FlushPendingWrite)
                    && !(turn.pingDue && Enabled(e, inbox, SendPing)))
              && !turn.flushFails
              && (turn.picked.Some? ==> !Enabled(e, inbox, PollReceiver(turn.picked.value)))
              && (turn.socket.Arrives? ==> !Enabled(e, inbox, ReadFrame))
              && (turn.socket.Broken? ==> e.pendingRead.Some?)
  {
  }

  /**
    Which step it is: a writer with room gets a due ping before an answer and an answer before a
    frame of a stream; what is written comes before commands, and commands before what is read.
  */
  lemma ChosenFirst(e: Endpoint, inbox: seq<Frame>, turn: Turn)
    requires e.phase.Active?
    ensures var act := Chosen(e, inbox, turn);
            var writes := turn.writable && exists a :: Writes(a, turn.pingDue) && Enabled(e, inbox, a);
            var serves := turn.picked.Some? && Enabled(e, inbox, PollReceiver(turn.picked.value));
            && (act == Some(SendPing) <==> turn.writable && turn.pingDue && Enabled(e, inbox, SendPing))
            && (act == Some(FlushPendingRead) <==>
                  turn.writable && Enabled(e, inbox, FlushPendingRead) && !(turn.pingDue && Enabled(e, inbox, SendPing)))
            && (act == Some(FlushPendingWrite) <==>
                  turn.writable && Enabled(e, inbox, FlushPendingWrite) && !(turn.pingDue && Enabled(e, inbox, SendPing)))
            && (act.Some? && act.value.PollReceiver? <==> !writes && !turn.flushFails && serves)
            && (act.Some? && act.value.PollReceiver? ==> Some(act.value.id) == turn.picked)
            && (act == Some(ReadFrame) <==>
                  !writes && !turn.flushFails && !serves && turn.socket.Arrives? && Enabled(e, inbox, ReadFrame))
            && (act == Some(Fail) <==>
                  !writes && (turn.flushFails || (!serves && turn.socket.Broken? && e.pendingRead.None?)))
  {
    assert Writes(FlushPendingRead, turn.pingDue) && Writes(FlushPendingWrite, turn.pingDue);
    assert turn.pingDue ==> Writes(SendPing, turn.pingDue);
  }

  /** A step that hands a frame to the writer. */
  predicate Writes(act: Act, pingDue: bool) {
    act.FlushPendingRead? || act.FlushPendingWrite? || (act.SendPing? && pingDue)
  }

  /** The endpoint as `poll` leaves it with an outcome. */
  predicate Left(out: Outcome, e: Endpoint) {
    match out
    case Pending => e.phase.Active?
    case Opened(id) => e.phase.Active? && id in Table(e) && !Local(e.mode, id)
    case Failed => e.phase.Gone?
  }

  /** The stream an outcome hands to the caller. */
  function HandedOut(out: Outcome): Option<u32> {
    if out.Opened? then Some(out.id) else None
  }

  /** In the course of these steps the remote opens no stream. */
  predicate Quiet(e: Endpoint, socket: Socket, acts: seq<Act>) {
    Steps(e, socket, acts).Some? && Arrivals(e, socket, acts) == []
  }

  /** What a loop that made the steps `acts` and stopped with `out` has done. */
  predicate Looped(e: Endpoint, socket: Socket, turns: seq<Turn>, acts: seq<Act>, after: Endpoint, left: Socket, out: Outcome) {
    && Steps(e, socket, acts) == Some((after, left))
    && Obeys(e, socket, turns, acts)
    && Arrivals(e, socket, acts) == Opt(HandedOut(out))
    && (out.Opened? ==> acts != [] && Quiet(e, socket, acts[..|acts| - 1]))
  }

  lemma LoopedOn(e: Endpoint, socket: Socket, turns: seq<Turn>, acts: seq<Act>, after: Endpoint, left: Socket,
                 act: Act, after2: Endpoint, left2: Socket, out: Outcome)
    requires Looped(e, socket, turns, acts, after, left, Pending) && |acts| < |turns|
    requires Chosen(after, left.inbox, turns[|acts|]) == Some(act) && Took(after, left, Some(act), after2, left2)
    requires HandedOut(out) == Arrival(after, left.inbox, Some(act))
    ensures Looped(e, socket, turns, acts + [act], after2, left2, out)
  {
    StepsAppend(e, socket, acts, act);
    ArrivalsAppend(e, socket, acts, act);
    ObeysAppend(e, socket, turns, acts, act);
    assert (acts + [act])[..|acts|] == acts;
    assert [] + Opt(HandedOut(out)) == Opt(HandedOut(out));
  }

  /** `after` and `left` are what the step `act` of the endpoint makes of `before` and its socket. */
  predicate Took(before: Endpoint, socket: Socket, act: Option<Act>, after: Endpoint, left: Socket) {
    if act.None? then after == before && left == socket
    else
      && Enabled(before, socket.inbox, act.value)
      && var r := Step(before, socket.inbox, act.value);
         after == r.e && left == Socket(r.inbox, socket.sent + r.sent)
  }

  /** The queues of an endpoint hold frames of their own streams. */
  predicate OwnQueues(e: Endpoint) {
    forall id, k :: id in e.streams && 0 <= k < |e.streams[id].queue| ==> P.Matches(P.OfId(id), e.streams[id].queue[k])
  }

  /** A new unacknowledged stream of our own joins the table and the backlog. */
  lemma OpenedSets(e: Endpoint, id: u32, s: Stream)
    requires Local(e.mode, id) && PendingAck(s)
    ensures Table(With(e, id, s)) == Table(e) + {id} && AckBacklog(With(e, id, s)) == AckBacklog(e) + {id}
  {
  }

  class Active {
    const mode: Mode
    const limits: Limits
    const rtt: RttProbe
    var nextId: u32
    var streams: map<u32, Stream>
    var pendingRead: Option<Frame>
    var pendingWrite: Option<Frame>
    var phase: Phase
    var socket: Socket

    function Value(): Endpoint
      reads this, rtt
    {
      Endpoint(mode, limits, nextId, streams, pendingRead, pendingWrite, [], rtt.Value(), phase)
    }

    constructor (mode: Mode, limits: Limits, inbox: seq<Frame>)
      ensures Value() == Init(mode, limits) && fresh(rtt) && socket == Socket(inbox, [])
      ensures nextId == (if mode.Client? then 1 else 2) && streams == map[] && phase.Active?
    {
      this.mode, this.limits, streams, phase := mode, limits, map[], Phase.Active;
      nextId := if mode.Client? then 1 else 2;
      pendingRead, pendingWrite := None, None;
      socket := Socket(inbox, []);
      rtt := new RttProbe();
    }

    // -------------------------------------------------------------- opening

    /** `next_stream_id`; `None` when the ids are used up. */
    method NextStreamId() returns (id: Option<u32>)
      requires Local(mode, nextId)
      modifies this`nextId
      ensures id.Some? <==> old(nextId) + 2 <= U32_MAX
      ensures id.Some? ==> id.value == old(nextId) && Local(mode, id.value) && nextId == old(nextId) + 2
      ensures id.Some? ==> id.value % 2 == if mode.Client? then 1 else 0
      ensures id.None? ==> nextId == old(nextId)
      ensures Local(mode, nextId)
    {
      var proposed := nextId;
      if nextId + 2 > U32_MAX {
        return None;
      }
      nextId := nextId + 2;
      assert Local(mode, proposed);
      id := Some(proposed);
    }

    /** `poll_new_outbound`: a full table or the last id tears the connection down, a full backlog waits. */
    method PollNewOutbound() returns (out: Outcome)
      requires phase.Active? && Local(mode, nextId)
      modifies this
      ensures out.Pending? <==> !Enabled(old(Value()), [], NewOutbound)
      ensures Value() == if out.Pending? then old(Value()) else OpenOutbound(old(Value()))
      ensures out.Failed? <==> phase.Gone?
      ensures out.Failed? <==> |Table(old(Value()))| >= limits.maxNumStreams
                               || (|AckBacklog(old(Value()))| < MAX_ACK_BACKLOG && old(nextId) + 2 > U32_MAX)
      ensures out.Pending? <==> |Table(old(Value()))| < limits.maxNumStreams && |AckBacklog(old(Value()))| >= MAX_ACK_BACKLOG
      ensures out.Opened? ==> AckBacklog(Value()) == AckBacklog(old(Value())) + {out.id}
      ensures out.Opened? ==> out.id == old(nextId) && Local(mode, out.id) && Table(Value()) == Table(old(Value())) + {out.id}
    {
      if |Table(Value())| >= limits.maxNumStreams {
        Cleanup();
        return Failed;
      }
      if |AckBacklog(Value())| >= MAX_ACK_BACKLOG {
        return Pending;
      }
      var id := NextStreamId();
      if id.None? {
        Cleanup();
        return Failed;
      }
      OpenedSets(Value(), id.value, Fresh(OweSyn).(status := InTable));
      streams := streams[id.value := Fresh(OweSyn).(status := InTable)];
      out := Opened(id.value);
    }

    // -------------------------------------------------------------- dropped handles

    /** `on_drop_stream`: forget the stream and tell the peer if it does not know yet. */
    method OnDropStream(id: u32) returns (frame: Option<Frame>)
      requires id in streams
      modifies this`streams
      ensures streams == old(streams)[id := EndMarker(old(streams)[id], id).0]
      ensures Opt(frame) == EndMarker(old(streams)[id], id).1
      ensures frame.Some? <==> old(streams)[id].status.InTable? && old(streams)[id].state.CanWrite()
      ensures frame.Some? ==> if old(streams)[id].state.CanRead() then frame.value.Rst() else frame.value.Fin() && !frame.value.Rst()
      ensures id !in Table(Value())
    {
      var s := streams[id];
      if !s.status.InTable? {
        return None;
      }
      match s.state {
        case Open(_) => frame := Some(ResetFrame(id));
        case RecvClosed => frame := Some(CloseFrame(id, false));
        case SendClosed => frame := None;
        case Closed => frame := None;
      }
      streams := streams[id := s.(state := Streams.Closed, reader := false, writer := false, status := Removed)];
    }

    // -------------------------------------------------------------- incoming frames

    predicate Knows(id: u32)
      reads this`streams
    {
      id in streams && streams[id].status.InTable?
    }

    /** A reset closes the stream for both tasks and removes it. */
    method Reset(f: Frame) returns (action: Action)
      requires f.OfStream() && f.Rst()
      modifies this`streams
      ensures Decided(old(Value()), f, Value(), action)
    {
      var id := f.header.streamId;
      if Knows(id) {
        streams := streams[id := Shut(streams[id])];
      }
      action := Nothing;
    }

    /** `on_data`; the ACK flag is dealt with and frames of unknown streams are gone. */
    method OnData(f: Frame) returns (action: Action)
      requires f.header.tag.Data? && (f.Syn() || Knows(f.header.streamId))
      modifies this`streams
      ensures Decided(old(Value()), f, Value(), action)
    {
      if f.Rst() {
        action := Reset(f);
      } else if f.Syn() {
        action := OpenedByData(f);
      } else {
        action := MoreData(f);
      }
    }

    method OpenedByData(f: Frame) returns (action: Action)
      requires f.header.tag.Data? && f.Syn() && !f.Rst()
      modifies this`streams
      ensures Decided(old(Value()), f, Value(), action)
    {
      var id := f.header.streamId;
      if Local(mode, id) {
        return Terminate(GoAwayFrame(PROTOCOL_ERROR));
      }
      if Knows(id) {
        return Terminate(GoAwayFrame(PROTOCOL_ERROR));
      }
      if |Table(Value())| == limits.maxNumStreams {
        return Terminate(GoAwayFrame(INTERNAL_ERROR));
      }
      if |f.body| > DEFAULT_CREDIT {
        return Terminate(GoAwayFrame(PROTOCOL_ERROR));
      }
      var n := Fresh(OweAck).(status := InTable);
      if f.Fin() {
        n := n.(state := UpdateState(n.state, RecvClosed));
      }
      n := n.(receiveWindow := n.receiveWindow - |f.body|);
      n := n.(buffer := n.buffer + f.body);
      assert n == Accept(f, DEFAULT_CREDIT);
      streams := streams[id := n];
      action := NewStream(id);
    }

    method MoreData(f: Frame) returns (action: Action)
      requires f.header.tag.Data? && !f.Syn() && !f.Rst() && Knows(f.header.streamId)
      modifies this`streams
      ensures Decided(old(Value()), f, Value(), action)
    {
      var id := f.header.streamId;
      var s := streams[id];
      if |f.body| > s.receiveWindow {
        return Terminate(GoAwayFrame(PROTOCOL_ERROR));
      }
      s := Buffered(s, f);
      streams := streams[id := s];
      action := Nothing;
    }

    /** The record of a stream in the table after a data frame within its window. */
    static method Buffered(before: Stream, f: Frame) returns (s: Stream)
      requires |f.body| <= before.receiveWindow
      ensures s == Streams.OnData(before, f).1
    {
      s := before.(receiveWindow := before.receiveWindow - |f.body|);
      if f.Fin() {
        s := s.(state := UpdateState(s.state, RecvClosed));
      }
      s := s.(buffer := s.buffer + f.body, reader := false);
      if f.Fin() && s.state.Closed? {
        s := s.(status := Removed);
      }
    }

    /** `on_window_update`, under the same conditions. */
    method OnWindowUpdate(f: Frame) returns (action: Action)
      requires f.header.tag.WindowUpdate? && (f.Syn() || Knows(f.header.streamId))
      modifies this`streams
      ensures Decided(old(Value()), f, Value(), action)
    {
      if f.Rst() {
        action := Reset(f);
      } else if f.Syn() {
        action := OpenedByWindowUpdate(f);
      } else {
        action := MoreCredit(f);
      }
    }

    method OpenedByWindowUpdate(f: Frame) returns (action: Action)
      requires f.header.tag.WindowUpdate? && f.Syn() && !f.Rst()
      modifies this`streams
      ensures Decided(old(Value()), f, Value(), action)
    {
      var id := f.header.streamId;
      if Local(mode, id) {
        return Terminate(GoAwayFrame(PROTOCOL_ERROR));
      }
      if Knows(id) {
        return Terminate(GoAwayFrame(PROTOCOL_ERROR));
      }
      if |Table(Value())| == limits.maxNumStreams {
        return Terminate(GoAwayFrame(PROTOCOL_ERROR));
      }
      if f.header.length + DEFAULT_CREDIT > U32_MAX {
        return Terminate(GoAwayFrame(PROTOCOL_ERROR));
      }
      var n := Fresh(OweAck).(status := InTable, sendWindow := f.header.length + DEFAULT_CREDIT);
      if f.Fin() {
        n := n.(state := UpdateState(n.state, RecvClosed));
      }
      assert n == Accept(f, f.header.length + DEFAULT_CREDIT);
      streams := streams[id := n];
      action := NewStream(id);
    }

    method MoreCredit(f: Frame) returns (action: Action)
      requires f.header.tag.WindowUpdate? && !f.Syn() && !f.Rst() && Knows(f.header.streamId)
      modifies this`streams
      ensures Decided(old(Value()), f, Value(), action)
    {
      var id := f.header.streamId;
      var s := streams[id];
      if s.sendWindow + f.header.length > U32_MAX {
        return Terminate(GoAwayFrame(PROTOCOL_ERROR));
      }
      s := Credited(s, f);
      streams := streams[id := s];
      action := Nothing;
    }

    /** The record of a stream in the table after credit that does not overflow. */
    static method Credited(before: Stream, f: Frame) returns (s: Stream)
      requires before.sendWindow + f.header.length <= U32_MAX
      ensures s == Streams.OnWindowUpdate(before, f).1
    {
      s := before.(sendWindow := before.sendWindow + f.header.length);
      if f.Fin() {
        s := s.(state := UpdateState(s.state, RecvClosed), reader := false);
      }
      s := s.(writer := false);
      if f.Fin() && s.state.Closed? {
        s := s.(status := Removed);
      }
    }

    method OnPing(f: Frame) returns (action: Action)
      requires f.header.tag.Ping?
      modifies rtt
      ensures Perform(Value(), action) == E.OnPing(old(Value()), f)
      ensures !f.Ack() ==> rtt.Value() == old(rtt.Value())
                           && action == if f.header.streamId == 0 || Knows(f.header.streamId) then Pong(PongFrame(f.header.length)) else Nothing
      ensures f.Ack() ==> if old(rtt.awaiting) == Some(f.header.length) then action.Nothing? && rtt.awaiting.None? && rtt.measured
                          else action == Terminate(GoAwayFrame(PROTOCOL_ERROR)) && rtt.Value() == old(rtt.Value())
      ensures !action.NewStream? && !action.Disconnected?
    {
      if f.Ack() {
        action := rtt.HandlePong(f.header.length);
        return;
      }
      if f.header.streamId == 0 || Knows(f.header.streamId) {
        return Pong(PongFrame(f.header.length));
      }
      action := Nothing;
    }

    /** `on_frame` for a data or window update frame. */
    method OnStreamFrame(f: Frame) returns (action: Action)
      requires f.OfStream()
      modifies this`streams
      ensures Judged(old(Value()), f, Value(), action)
    {
      var id := f.header.streamId;
      if f.Ack() && Knows(id) {
        streams := streams[id := Acknowledge(streams[id], f)];
      }
      ghost var acknowledged := Value();
      assert acknowledged == Put(old(Value()), id, Acknowledge(View(old(Value()), id), f));
      if !f.Syn() && !Knows(id) {
        return Nothing;
      }
      TableAfterAck(old(Value()), id, Acknowledge(View(old(Value()), id), f));
      if f.header.tag.Data? {
        action := OnData(f);
      } else {
        action := OnWindowUpdate(f);
      }
      DecidedThenJudged(old(Value()), acknowledged, f, Value(), action);
    }

    /** `on_frame`; the caller does what the action says. */
    method OnFrame(f: Frame) returns (action: Action)
      modifies this`streams, rtt
      ensures action.Disconnected? <==> f.header.tag.GoAway?
      ensures action.NewStream? <==> Opens(old(Value()), f)
      ensures action.NewStream? ==> action.id == f.header.streamId
      ensures action.Disconnected? ==> Value() == old(Value())
      ensures !action.Disconnected? ==> Perform(Value(), action) == E.OnFrame(old(Value()), f)
    {
      match f.header.tag {
        case Data =>
          action := OnStreamFrame(f);
          JudgedIsOnFrame(old(Value()), f, Value(), action);
        case WindowUpdate =>
          action := OnStreamFrame(f);
          JudgedIsOnFrame(old(Value()), f, Value(), action);
        case Ping => action := OnPing(f);
        case GoAway => action := Disconnected;
      }
    }

    // -------------------------------------------------------------- the end

    /** `drop_all_streams`: every stream is closed and both its tasks are woken; its receiver is drained. */
    method DropAllStreams()
      modifies this`streams
      ensures streams == map id | id in old(streams) :: TearDown(old(streams)[id])
    {
      var todo := streams.Keys;
      while todo != {}
        invariant todo <= streams.Keys == old(streams).Keys
        invariant forall id :: id in streams ==> streams[id] == if id in todo then old(streams)[id] else TearDown(old(streams)[id])
        decreases |todo|
      {
        var id :| id in todo;
        todo := todo - {id};
        var s := streams[id];
        if s.status.InTable? {
          s := Shut(s);
        }
        streams := streams[id := s.(queue := [])];
      }
    }

    /** `cleanup`: nothing of what is queued or waiting for the writer is sent. */
    method Cleanup()
      requires phase.Active?
      modifies this
      ensures Value() == E.Cleanup(old(Value())) && socket == old(socket)
    {
      DropAllStreams();
      pendingRead, pendingWrite, phase := None, None, Gone;
    }

    /** `close`: the frames in the two slots go first, then what the receivers still hold. */
    method Close(writer: F.Writer) returns (c: GC.Closing)
      requires phase.Active? && OwnQueues(Value()) && writer.Valid() && !writer.state.Poisoned?
      ensures fresh(c) && c.Valid() && c.state.ClosingReceivers? && c.writer == writer
      ensures c.slots == Opt(pendingRead) + Opt(pendingWrite) == GC.SlotsOf(Value()) && c.pendingFrames == c.slots
      ensures c.initial == c.queues == GC.QueuesOf(Value()) && c.base == writer.sink.written + writer.Unsent()
    {
      var receivers: GC.Queues := map id | id in streams :: streams[id].queue;
      var slots: seq<Frame> := [];
      if pendingRead.Some? {
        slots := slots + [pendingRead.value];
      }
      if pendingWrite.Some? {
        slots := slots + [pendingWrite.value];
      }
      c := new GC.Closing(receivers, slots, writer);
    }

    // -------------------------------------------------------------- the loop

    method Send(f: Frame)
      modifies this`socket
      ensures socket == Socket(old(socket).inbox, old(socket).sent + [f])
    {
      socket := socket.(sent := socket.sent + [f]);
    }

    /** The first half of a turn: hand one frame to a writer that has room. */
    method WriteOne(pingDue: bool) returns (wrote: bool)
      requires phase.Active?
      modifies this, rtt
      ensures wrote == ToWrite(old(Value()), pingDue).Some?
      ensures Took(old(Value()), old(socket), ToWrite(old(Value()), pingDue), Value(), socket)
    {
      var ping := rtt.NextPing(pingDue);
      if ping.Some? {
        Send(ping.value);
        return true;
      }
      if pendingRead.Some? {
        Send(pendingRead.value);
        pendingRead := None;
        return true;
      }
      if pendingWrite.Some? {
        Send(pendingWrite.value);
        pendingWrite := None;
        return true;
      }
      wrote := false;
    }

    /** The next command of a receiver, or the news that its handle is gone. */
    method TakeOne(id: u32)
      requires phase.Active? && pendingWrite.None? && Ready(Value(), id)
      modifies this`streams, this`pendingWrite
      ensures Value() == TakeCommand(old(Value()), id)
    {
      var s := streams[id];
      if s.queue != [] {
        streams := streams[id := s.(queue := s.queue[1..])];
        pendingWrite := Some(s.queue[0]);
      } else {
        var frame := OnDropStream(id);
        if frame.Some? {
          pendingWrite := frame;
        }
      }
    }

    /** The next frame from the socket. */
    method ReadOne() returns (out: Outcome, more: bool)
      requires phase.Active? && pendingRead.None? && socket.inbox != []
      modifies this, rtt
      ensures Value() == E.OnFrame(old(Value()), old(socket).inbox[0])
      ensures socket == Socket(old(socket).inbox[1..], old(socket).sent)
      ensures more == out.Pending?
      ensures Left(out, Value())
      ensures HandedOut(out) == Arrival(old(Value()), old(socket).inbox, Some(ReadFrame))
    {
      out, more := Pending, true;
      if Opens(Value(), socket.inbox[0]) {
        ArrivalIsNew(Value(), socket.inbox[0]);
      }
      var action := OnFrame(socket.inbox[0]);
      socket := socket.(inbox := socket.inbox[1..]);
      match action {
        case Nothing =>
        case NewStream(id) => out, more := Opened(id), false;
        case Pong(f) => pendingRead := Some(f);
        case Terminate(f) => pendingRead := Some(f);
        case Disconnected =>
          Cleanup();
          out, more := Failed, false;
      }
    }

    /** The last part of a turn: look at the socket unless an answer still waits for the writer. */
    method PollSocket(incoming: Incoming) returns (out: Outcome, more: bool)
      requires phase.Active?
      modifies this, rtt
      ensures Took(old(Value()), old(socket), ToRead(old(Value()), old(socket).inbox, incoming), Value(), socket)
      ensures Left(out, Value())
      ensures more ==> out.Pending?
      ensures out.Pending? ==> more == ToRead(old(Value()), old(socket).inbox, incoming).Some?
      ensures incoming.Arrives? && Enabled(old(Value()), old(socket).inbox, ReadFrame) ==> socket.inbox == old(socket).inbox[1..]
      ensures incoming.Broken? && old(pendingRead).None? ==> out.Failed?
      ensures HandedOut(out) == Arrival(old(Value()), old(socket).inbox, ToRead(old(Value()), old(socket).inbox, incoming))
    {
      if pendingRead.None? {
        if incoming.Broken? {
          Cleanup();
          return Failed, false;
        }
        if incoming.Arrives? && socket.inbox != [] {
          out, more := ReadOne();
          return;
        }
      }
      out, more := Pending, false;
    }

    /** One turn of the loop in `poll`; `more`: the loop goes round again. */
    method OneTurn(turn: Turn) returns (out: Outcome, more: bool)
      requires phase.Active?
      modifies this, rtt
      ensures Took(old(Value()), old(socket), Chosen(old(Value()), old(socket).inbox, turn), Value(), socket)
      ensures Left(out, Value())
      ensures more ==> out.Pending?
      ensures out.Pending? ==> (more <==> !Idles(old(Value()), old(socket).inbox, turn))
      ensures HandedOut(out) == Arrival(old(Value()), old(socket).inbox, Chosen(old(Value()), old(socket).inbox, turn))
    {
      ChosenExactly(Value(), socket.inbox, turn);
      out, more := Pending, true;
      if turn.writable {
        var wrote := WriteOne(turn.pingDue);
        if wrote {
          return;
        }
      }
      if turn.flushFails {
        Cleanup();
        return Failed, false;
      }
      if pendingWrite.None? && turn.picked.Some? && Ready(Value(), turn.picked.value) {
        TakeOne(turn.picked.value);
        return;
      }
      out, more := PollSocket(turn.socket);
    }

    /**
      `poll`: turn after turn until a stream arrives, the connection ends or nothing moves. The
      loop is a run of single steps of the endpoint, and it stops only when none is possible. Every
      stream the remote opens is handed out, at once.
    */
    method Poll(turns: seq<Turn>) returns (out: Outcome, ghost acts: seq<Act>)
      requires phase.Active?
      modifies this, rtt
      ensures Looped(old(Value()), old(socket), turns, acts, Value(), socket, out)
      ensures Left(out, Value())
      ensures out.Pending? ==> |acts| == |turns| || (|acts| < |turns| && Idles(Value(), socket.inbox, turns[|acts|]))
    {
      out, acts := Pending, [];
      var i, more := 0, true;
      while i < |turns| && more
        invariant 0 <= i <= |turns|
        invariant Looped(old(Value()), old(socket), turns, acts, Value(), socket, out)
        invariant Left(out, Value())
        invariant more ==> out.Pending? && |acts| == i
        invariant out.Pending? && !more ==> |acts| < |turns| && Idles(Value(), socket.inbox, turns[|acts|])
      {
        ghost var before, left := Value(), socket;
        ghost var act := Chosen(before, left.inbox, turns[i]);
        ChosenExactly(before, left.inbox, turns[i]);
        out, more := OneTurn(turns[i]);
        if act.Some? {
          LoopedOn(old(Value()), old(socket), turns, acts, before, left, act.value, Value(), socket, out);
          acts := acts + [act.value];
        }
        i := i + 1;
      }
    }
  }

  // ---------------------------------------------------------------- the loop inside a pair

  /** The steps of one side as events of a pair. */
  function By(side: P.Side, acts: seq<Act>): (run: seq<G.Event>)
    ensures |run| == |acts|
  {
    seq(|acts|, i requires 0 <= i < |acts| => G.Event(side, acts[i]))
  }

  /** What a loop does with its socket is a run of the pair its socket belongs to. */
  lemma {:induction false} StepsAreRun(p: P.Pair, side: P.Side, acts: seq<Act>)
    requires var v := G.From(p, side); Steps(v.a, Socket(v.ba, v.ab), acts).Some?
    ensures var v := G.From(p, side);
            var (e, socket) := Steps(v.a, Socket(v.ba, v.ab), acts).value;
            G.Run(p, By(side, acts)) == Some(G.From(P.Pair(e, v.b, socket.sent, socket.inbox), side))
    decreases acts
  {
    var v := G.From(p, side);
    if acts != [] {
      var q := P.PairStep(p, side, acts[0]);
      assert G.From(q, side) == P.AStep(v, acts[0]);
      StepsAreRun(q, side, acts[1..]);
      assert By(side, acts)[1..] == By(side, acts[1..]);
    }
  }

  /** So one `poll` leads a reachable pair to a reachable pair, whatever its environment does. */
  lemma PollKeepsReachable(p: P.Pair, side: P.Side, acts: seq<Act>)
    requires G.Reachable(p)
    requires var v := G.From(p, side); Steps(v.a, Socket(v.ba, v.ab), acts).Some?
    ensures var v := G.From(p, side);
            var (e, socket) := Steps(v.a, Socket(v.ba, v.ab), acts).value;
            G.Reachable(G.From(P.Pair(e, v.b, socket.sent, socket.inbox), side))
  {
    StepsAreRun(p, side, acts);
    G.RunExtends(p, By(side, acts));
  }

  // ---------------------------------------------------------------- a call of a handle

  /** The steps of a handle as steps of its endpoint. */
  function OnHandles(id: u32, ops: seq<HandleOp>): (acts: seq<Act>)
    ensures |acts| == |ops|
  {
    seq(|ops|, i requires 0 <= i < |ops| => OnHandle(id, ops[i]))
  }

  /** What a poll method of a handle does is a run of its endpoint, which may be split up anywhere. */
  lemma {:induction false} CallIsSteps(e: Endpoint, socket: Socket, id: u32, ops: seq<HandleOp>)
    requires id in e.streams && H.Plays(e.streams[id], id, ops, e.phase.Active?).Some?
    requires H.Allowed(ops, e.limits.splitSendSize, e.rtt.measured)
    requires !e.rtt.measured ==> e.streams[id].maxReceiveWindow == DEFAULT_CREDIT
    ensures Steps(e, socket, OnHandles(id, ops)) == Some((With(e, id, H.Plays(e.streams[id], id, ops, e.phase.Active?).value), socket))
    decreases ops
  {
    if ops == [] {
      assert e.streams[id := e.streams[id]] == e.streams;
    } else {
      var next := Handle(e.streams[id], id, ops[0], e.phase.Active?);
      var acts, e1 := OnHandles(id, ops), With(e, id, next);
      CallIsSteps(e1, socket, id, ops[1..]);
      assert acts[1..] == OnHandles(id, ops[1..]) && acts[0] == OnHandle(id, ops[0]);
      assert socket.sent + [] == socket.sent;
      assert Enabled(e, socket.inbox, acts[0]) && Step(e, socket.inbox, acts[0]) == After(e1, socket.inbox, []);
      assert With(e1, id, H.Plays(next, id, ops[1..], e.phase.Active?).value).streams
          == e.streams[id := H.Plays(next, id, ops[1..], e.phase.Active?).value];
    }
  }

  /** So a call of a handle leads a reachable pair to a reachable pair. */
  lemma CallKeepsReachable(p: P.Pair, side: P.Side, id: u32, ops: seq<HandleOp>)
    requires G.Reachable(p)
    requires var v := G.From(p, side);
             id in v.a.streams && H.Plays(v.a.streams[id], id, ops, v.a.phase.Active?).Some?
             && H.Allowed(ops, v.a.limits.splitSendSize, v.a.rtt.measured)
    ensures var v := G.From(p, side);
            var t := H.Plays(v.a.streams[id], id, ops, v.a.phase.Active?).value;
            G.Reachable(G.From(P.Pair(With(v.a, id, t), v.b, v.ab, v.ba), side))
  {
    var v := G.From(p, side);
    G.FromHolds(p, side);
    CallIsSteps(v.a, Socket(v.ba, v.ab), id, ops);
    PollKeepsReachable(p, side, OnHandles(id, ops));
  }

  // ---------------------------------------------------------------- a graceful close inside a pair

  /** In a reachable pair every queue holds frames of its own stream, so a connection can always be closed. */
  lemma ReachableQueues(p: P.Pair, side: P.Side)
    requires G.Reachable(p)
    ensures OwnQueues(G.From(p, side).a)
  {
    G.FromHolds(p, side);
    var v := G.From(p, side);
    forall id, k | id in v.a.streams && 0 <= k < |v.a.streams[id].queue|
      ensures P.Matches(P.OfId(id), v.a.streams[id].queue[k])
    {
      PairProofs.QueuedFrame(P.LinkOf(v, id), k);
    }
  }

  /** What a closing connection does and sends is a run of the pair. */
  lemma CloseKeepsReachable(p: P.Pair, side: P.Side, t: GC.Trace)
    requires G.Reachable(p) && GC.Follows(t)
    requires var v := G.From(p, side); t.before == v.a && t.inbox == v.ba
    ensures var v := G.From(p, side); G.Reachable(G.From(P.Pair(t.now, v.b, v.ab + t.sent, v.ba), side))
  {
    var v := G.From(p, side);
    StepsAfter(v.a, v.ba, v.ab, [], t.acts);
    assert v.ab + [] == v.ab;
    PollKeepsReachable(p, side, t.acts);
  }
}
