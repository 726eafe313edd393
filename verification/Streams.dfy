/**
  One stream as one endpoint holds it: the shared record (state, windows, receive
  buffer, wakers), the user's handle with its position inside the current poll call,
  and the command queue from the handle to the connection.

  Every function is one lock-scoped region of the source, so a poll call that takes the
  lock twice is two steps and anything may happen in between.
*/
module Streams {
  import opened Basics
  import opened Header
  import opened Frames

  datatype State = Open(acknowledged: bool) | SendClosed | RecvClosed | Closed {
    predicate CanRead() { !RecvClosed? && !Closed? }
    predicate CanWrite() { !SendClosed? && !Closed? }
  }

  /** `Shared::update_state`. */
  function UpdateState(current: State, next: State): State {
    match current
    case Closed => Closed
    case Open(_) => next
    case RecvClosed => if next.Closed? || next.SendClosed? then Closed else RecvClosed
    case SendClosed => if next.Closed? || next.RecvClosed? then Closed else SendClosed
  }

  datatype Flag = NoFlag | OweSyn | OweAck

  datatype Status =
    | Absent   // never created at this endpoint
    | InTable  // in `Active::streams`
    | Removed  // no longer in `Active::streams`; the handle may keep the record alive

  /** Where the handle stands inside a poll call. */
  datatype Position =
    | Idle
    | Wrote(body: seq<byte>)     // poll_write left the lock with `body` and its credit taken
    | Sending(frame: Frame)      // a frame is built but not yet in the queue
    | UpdateChecked              // send_window_update saw a readable state
    | CloseChecked               // poll_close saw a state other than Closed
    | CloseQueued                // poll_close queued the FIN, the state is not yet updated

  datatype Stream = Stream(
    status: Status,
    state: State,
    sendWindow: int,
    receiveWindow: int,
    maxReceiveWindow: int,
    buffer: seq<byte>,
    reader: bool,         // the waker of a read that had to wait
    room: bool,           // that read offered room for at least one byte
    writer: bool,
    flag: Flag,
    position: Position,
    dropped: bool,
    queue: seq<Frame>,    // `CloseStream { ack }` stands as the frame it is turned into
    wrote: seq<byte>,     // log: every byte poll_write took from its caller
    got: seq<byte>        // log: every byte a read handed to its caller
  )

  /** A stream nobody has touched; `flag` says which end opens it. */
  function Fresh(flag: Flag): Stream {
    Stream(Absent, Open(false), DEFAULT_CREDIT, DEFAULT_CREDIT, DEFAULT_CREDIT, [], false, false, false, flag, Idle, false, [], [], [])
  }

  /** `Stream::add_flag` on the header of a frame about to be sent. */
  function WithFlag(f: Frame, flag: Flag): Frame {
    match flag
    case NoFlag => f
    case OweSyn => f.(header := f.header.(flags := f.header.flags.(syn := true)))
    case OweAck => f.(header := f.header.(flags := f.header.flags.(ack := true)))
  }

  // ---------------------------------------------------------------- the handle

  datatype HandleOp =
    | WriteBegin(buf: seq<byte>, split: nat)
    | WriteFlag
    | Send
    | UpdateCheck
    | UpdateGrant(newMax: int)
    | CloseCheck
    | CloseSend
    | CloseMark
    | Read(n: nat)
    | ReadNothing          // a read into an empty slice
    | DropHandle

  /** Bytes poll_write takes: bounded by the credit, the caller's buffer and the split size. */
  function WriteSize(sendWindow: int, len: nat, split: nat): int {
    Min(Min(sendWindow, len), split)
  }

  /** Credit a window update would grant for a given maximum. */
  function Due(s: Stream, max: int): int {
    max - s.receiveWindow - |s.buffer|
  }

  predicate UpdateIsDue(s: Stream) {
    Due(s, s.maxReceiveWindow) >= s.maxReceiveWindow / 2
  }

  /** The growth `next_window_update` may choose: none, or up to twice the old maximum. */
  predicate GrowthAllowed(s: Stream, newMax: int) {
    s.maxReceiveWindow <= newMax <= Min(2 * s.maxReceiveWindow, U32_MAX)
  }

  predicate HandleEnabled(s: Stream, op: HandleOp) {
    && !s.status.Absent?
    && !s.dropped
    && match op
       case WriteBegin(_, _) => s.position.Idle? && 0 <= s.sendWindow
       case WriteFlag => s.position.Wrote? && |s.position.body| <= U32_MAX
       case Send => s.position.Sending?
       case UpdateCheck => s.position.Idle?
       case UpdateGrant(newMax) => s.position.UpdateChecked? && GrowthAllowed(s, newMax) && 0 <= Due(s, newMax) <= U32_MAX
       case CloseCheck => s.position.Idle?
       case CloseSend => s.position.CloseChecked?
       case CloseMark => s.position.CloseQueued?
       case Read(n) => s.position.Idle? && n <= |s.buffer| && (n == 0 ==> s.buffer == [])
       case ReadNothing => s.position.Idle?
       case DropHandle => s.position.Idle?
  }

  /** One step of the user's handle. `up`: the connection still accepts commands. */
  function Handle(s: Stream, id: u32, op: HandleOp, up: bool): Stream
    requires HandleEnabled(s, op)
  {
    match op
    case WriteBegin(buf, split) =>
      if !s.state.CanWrite() then s
      else if s.sendWindow == 0 then s.(writer := true)
      else
        var k := WriteSize(s.sendWindow, |buf|, split);
        s.(sendWindow := s.sendWindow - k, position := Wrote(buf[..k]), wrote := s.wrote + buf[..k])
    case WriteFlag =>
      var f := WithFlag(DataFrame(id, s.position.body), s.flag);
      s.(position := Sending(f), flag := NoFlag,
         state := if s.flag.OweAck? then UpdateState(s.state, Open(true)) else s.state)
    case Send =>
      s.(position := Idle, queue := if up then s.queue + [s.position.frame] else s.queue)
    case UpdateCheck =>
      if s.state.CanRead() then s.(position := UpdateChecked) else s
    case UpdateGrant(newMax) =>
      if !UpdateIsDue(s) then s.(position := Idle)
      else
        var credit := Due(s, newMax);
        s.(maxReceiveWindow := newMax, receiveWindow := s.receiveWindow + credit,
           position := Sending(WithFlag(WindowUpdateFrame(id, credit), s.flag)), flag := NoFlag)
    case CloseCheck =>
      if s.state.Closed? then s else s.(position := CloseChecked)
    case CloseSend =>
      var ack := s.flag.OweAck?;
      var s1 := s.(flag := if ack then NoFlag else s.flag);
      if up then s1.(queue := s.queue + [CloseFrame(id, ack)], position := CloseQueued)
      else s1.(position := Idle)
    case CloseMark =>
      s.(state := UpdateState(s.state, SendClosed), position := Idle)
    case Read(n) =>
      if |s.buffer| > 0 then s.(buffer := s.buffer[n..], got := s.got + s.buffer[..n])
      else if s.state.CanRead() then s.(reader := true, room := true)
      else s
    case ReadNothing =>
      if s.state.CanRead() then s.(reader := true, room := false) else s
    case DropHandle =>
      s.(dropped := true)
  }

  // ---------------------------------------------------------------- the connection

  /** `Active::on_drop_stream`: the queue of a dropped handle has run dry. */
  function EndMarker(s: Stream, id: u32): (Stream, seq<Frame>) {
    if !s.status.InTable? then (s, [])
    else
      (Shut(s), match s.state
                case Open(_) => [ResetFrame(id)]
                case RecvClosed => [CloseFrame(id, false)]
                case SendClosed => []
                case Closed => [])
  }

  /** Close the record, wake both tasks and take it out of the table. */
  function Shut(s: Stream): Stream {
    s.(state := Closed, reader := false, writer := false, status := Removed)
  }

  /** What `on_frame` decides about a stream frame. */
  datatype Verdict = Ignored | Handled | New | ProtocolError | InternalError

  /** An ACK flag acknowledges a stream in the table. */
  function Acknowledge(s: Stream, f: Frame): Stream {
    if f.Ack() && s.status.InTable? then s.(state := UpdateState(s.state, Open(true))) else s
  }

  /** `Active::on_frame` for a data or window update frame, seen from its stream. */
  function Receive(s: Stream, f: Frame, remoteId: bool, full: bool): (Verdict, Stream)
    requires f.OfStream()
  {
    var s0 := Acknowledge(s, f);
    if !f.Syn() && !s.status.InTable? then (Ignored, s0) else Dispatch(s0, f, remoteId, full)
  }

  /** `on_data` and `on_window_update`, once a frame for an unknown stream has been dropped. */
  function Dispatch(s: Stream, f: Frame, remoteId: bool, full: bool): (Verdict, Stream)
    requires f.OfStream()
  {
    if f.Rst() then (Handled, if s.status.InTable? then Shut(s) else s)
    else if f.Syn() then OnSyn(s, f, remoteId, full)
    else if f.header.tag.Data? then OnData(s, f)
    else OnWindowUpdate(s, f)
  }

  /** The remote opens a stream. */
  function OnSyn(s: Stream, f: Frame, remoteId: bool, full: bool): (Verdict, Stream) {
    if !remoteId || s.status.InTable? then (ProtocolError, s)
    else if f.header.tag.Data? then
      if full then (InternalError, s)
      else if |f.body| > DEFAULT_CREDIT then (ProtocolError, s)
      else (New, Accept(f, DEFAULT_CREDIT))
    else
      if full || f.header.length + DEFAULT_CREDIT > U32_MAX then (ProtocolError, s)
      else (New, Accept(f, f.header.length + DEFAULT_CREDIT))
  }

  function OnData(s: Stream, f: Frame): (Verdict, Stream) {
    if |f.body| > s.receiveWindow then (ProtocolError, s)
    else (Handled, Finish(s.(receiveWindow := s.receiveWindow - |f.body|, buffer := s.buffer + f.body, reader := false), f))
  }

  function OnWindowUpdate(s: Stream, f: Frame): (Verdict, Stream) {
    if s.sendWindow + f.header.length > U32_MAX then (ProtocolError, s)
    else (Handled, Finish(s.(sendWindow := s.sendWindow + f.header.length, writer := false), f))
  }

  /** A FIN closes the receiving side; if the sending side was closed too the entry goes. */
  function Finish(s: Stream, f: Frame): Stream {
    if !f.Fin() then s
    else
      var s1 := s.(state := UpdateState(s.state, RecvClosed), reader := false);
      if s1.state.Closed? then s1.(status := Removed) else s1
  }

  /** A new inbound stream; its first frame may carry data and FIN. */
  function Accept(f: Frame, credit: int): Stream {
    Fresh(OweAck).(status := InTable, sendWindow := credit,
                   state := if f.Fin() then RecvClosed else Open(false),
                   receiveWindow := if f.header.tag.Data? then DEFAULT_CREDIT - |f.body| else DEFAULT_CREDIT,
                   buffer := if f.header.tag.Data? then f.body else [])
  }

  /** The connection is torn down: `drop_all_streams`, then the queues are drained and dropped. */
  function TearDown(s: Stream): Stream {
    (if s.status.InTable? then Shut(s) else s).(queue := [])
  }
}
