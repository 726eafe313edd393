/**
  One stream across both endpoints. `x` and `y` are the two ends; `xy` holds the stream's
  frames that left `x`'s queue and have not reached `y` (connection slot, writer, socket).

  The invariants are stated for one direction, a `Lane`, and hold for its `Swap` as well.
*/
module Link {
  import opened Basics
  import opened Header
  import opened Frames
  import opened Streams

  datatype Link = Link(id: u32, xOpens: bool, x: Stream, y: Stream, xy: seq<Frame>, yx: seq<Frame>, xUp: bool, yUp: bool) {
    function Swap(): Link {
      Link(id, !xOpens, y, x, yx, xy, yUp, xUp)
    }

    /** Everything `x` has committed to send, oldest first. */
    function PipeX(): seq<Frame> { Pipe(x, id, xy, xUp) }

    function PipeY(): seq<Frame> { Pipe(y, id, yx, yUp) }
  }

  /** The frame a handle is about to queue. */
  function Held(s: Stream, id: u32): seq<Frame> {
    match s.position
    case Wrote(body) => if |body| <= U32_MAX then [WithFlag(DataFrame(id, body), s.flag)] else []
    case Sending(f) => [f]
    case _ => []
  }

  /** In flight, then queued, then held; a closed connection loses what is only held. */
  function Pipe(s: Stream, id: u32, flight: seq<Frame>, up: bool): seq<Frame> {
    flight + s.queue + if up then Held(s, id) else []
  }

  function Bytes(p: seq<Frame>): seq<byte> {
    if p == [] then [] else p[0].body + Bytes(p[1..])
  }

  function Credits(p: seq<Frame>): (c: int) {
    if p == [] then 0 else (if p[0].header.tag.WindowUpdate? then p[0].header.length else 0) + Credits(p[1..])
  }

  predicate Ends(f: Frame) { f.Fin() || f.Rst() }

  predicate HasEnd(p: seq<Frame>) {
    exists f :: f in p && Ends(f)
  }

  predicate HasSyn(p: seq<Frame>) {
    exists f :: f in p && f.Syn()
  }

  /** No byte follows a FIN or a reset. */
  predicate EndsLast(p: seq<Frame>) {
    p == [] || ((Ends(p[0]) ==> Bytes(p[1..]) == []) && EndsLast(p[1..]))
  }

  /** The frames a conforming endpoint sends on stream `id`. */
  predicate Conforming(f: Frame, id: u32) {
    && f.header.streamId == id
    && match f.header.tag
       case Data => f.header.length == |f.body| <= MAX_FRAME_BODY_LEN && (Ends(f) ==> f.body == [] && !f.Syn())
       case WindowUpdate => f.body == [] && !f.Syn() && !Ends(f)
       case _ => false
  }

  /** `s` will never add another byte to its pipe. */
  predicate Quiet(s: Stream) {
    || s.dropped
    || s.position.CloseQueued?
    || (!s.state.CanWrite() && !s.position.Wrote? && !(s.position.Sending? && s.position.frame.header.tag.Data?))
  }

  predicate WellFormed(s: Stream) {
    && s.receiveWindow + |s.buffer| <= s.maxReceiveWindow <= U32_MAX
    && DEFAULT_CREDIT <= s.maxReceiveWindow
    && 0 <= s.sendWindow <= U32_MAX && 0 <= s.receiveWindow
    && (s.status.Removed? ==> s.state.Closed?)
    && (s.status.Absent? ==> s == Fresh(s.flag))
    && (s.dropped ==> s.position.Idle?)
    && (s.position.Wrote? ==> |s.position.body| <= MAX_FRAME_BODY_LEN)
    && (s.position.Sending? ==> s.flag.NoFlag? && !Ends(s.position.frame))
  }

  /** A reader at `s` sees end of file once its buffer is empty. */
  predicate ReadShut(s: Stream) {
    !s.status.Absent? && !s.state.CanRead() && (s.status.InTable? || !s.dropped)
  }

  /** One direction: `p` is all that `x` has committed to send, `q` all that `y` has. */
  datatype Lane = Lane(id: u32, x: Stream, y: Stream, p: seq<Frame>, q: seq<Frame>, xUp: bool, yUp: bool, refused: bool) {
    function Swap(): Lane {
      Lane(id, y, x, q, p, yUp, xUp, refused)
    }

    /** `y` still keeps every byte it is sent. */
    predicate Keeps() { !(y.status.Removed? && y.dropped) && !refused }

    predicate BothHold() { xUp && yUp && !x.status.Removed? && !y.status.Removed? && !refused }

    function Owed(): int { x.sendWindow + |Bytes(p)| + Credits(q) }
  }

  /** Shape of what `x` sends. */
  predicate Order(v: Lane) {
    && (forall f :: f in v.p ==> Conforming(f, v.id))
    && EndsLast(v.p)
    && (HasEnd(v.p) ==> Quiet(v.x))
    && (v.yUp && ReadShut(v.y) ==> Bytes(v.p) == [] && Quiet(v.x))
  }

  /** What `y` holds of the bytes written at `x`. */
  predicate Delivery(v: Lane) {
    && v.y.got + v.y.buffer <= v.x.wrote
    && (v.Keeps() ==> v.y.got + v.y.buffer + Bytes(v.p) <= v.x.wrote)
    && (v.Keeps() && v.xUp ==> v.y.got + v.y.buffer + Bytes(v.p) == v.x.wrote)
  }

  /** Credit conservation from `x` to `y`. */
  predicate Credit(v: Lane) {
    v.Owed() <= v.y.receiveWindow && (v.BothHold() ==> v.Owed() == v.y.receiveWindow)
  }

  predicate Half(v: Lane) {
    WellFormed(v.x) && Order(v) && Delivery(v) && Credit(v)
  }

  predicate Both(v: Lane) {
    Half(v) && Half(v.Swap())
  }

  /** The acceptor will never know this stream: its SYN was refused or lost. `o` opens. */
  predicate Refused(o: Stream, a: Stream, p: seq<Frame>) {
    a.status.Absent? && !o.flag.OweSyn? && !HasSyn(p)
  }

  /**
    One SYN at most, ahead of everything else. `o` opens; `p` is all it has committed to
    send, `queued` the part of it that has left the handle, `q` what the acceptor sends.
  */
  predicate Opening(o: Stream, a: Stream, p: seq<Frame>, queued: seq<Frame>, q: seq<Frame>) {
    && (forall i :: 0 < i < |p| ==> !p[i].Syn())
    && (p != [] && p[0].Syn() ==> a.status.Absent?)
    && !o.flag.OweAck? && !a.flag.OweSyn? && !HasSyn(q)
    && (o.flag.OweSyn? ==> a.status.Absent? && !HasSyn(queued) && Bytes(queued) == [] && (queued == [] || Quiet(o)))
    && (o.status.Absent? ==> queued == [] && o.flag.OweSyn?)
    && (a.status.Absent? ==>
          && a == Fresh(OweAck) && q == []
          && o.receiveWindow == o.maxReceiveWindow == DEFAULT_CREDIT && o.buffer == []
          && Credits(p) == 0 && o.state != Open(true))
  }

  function LaneOf(l: Link): Lane {
    Lane(l.id, l.x, l.y, l.PipeX(), l.PipeY(), l.xUp, l.yUp,
         if l.xOpens then Refused(l.x, l.y, l.PipeX()) else Refused(l.y, l.x, l.PipeY()))
  }

  predicate Opened(l: Link) {
    if l.xOpens then Opening(l.x, l.y, l.PipeX(), l.xy + l.x.queue, l.PipeY())
    else Opening(l.y, l.x, l.PipeY(), l.yx + l.y.queue, l.PipeX())
  }

  predicate Inv(l: Link) {
    Both(LaneOf(l)) && Opened(l)
  }

  // ---------------------------------------------------------------- steps of end x

  datatype LinkOp =
    | LOpen                    // poll_new_outbound
    | LHandle(op: HandleOp)    // one step of the handle
    | LEnqueue                 // the connection takes the oldest command
    | LMarker                  // the connection sees the handle gone
    | LReceive(full: bool)     // the connection reads the oldest frame; `full`: no room for a new stream
    | LClose                   // the connection starts its graceful close
    | LFail(keep: nat)         // the connection is torn down, keeping `keep` frames already written

  predicate LinkEnabled(l: Link, op: LinkOp) {
    match op
    case LOpen => l.xOpens && l.x.status.Absent? && l.xUp
    case LHandle(h) => HandleEnabled(l.x, h) && (h.WriteBegin? ==> h.split <= MAX_FRAME_BODY_LEN)
    case LEnqueue => l.x.queue != []
    case LMarker => l.x.dropped && l.x.queue == [] && l.xUp
    case LReceive(_) => l.yx != [] && l.yx[0].OfStream() && l.xUp
    case LClose => l.xUp
    case LFail(keep) => keep <= |l.xy|
  }

  /** The verdict on the frame at the head of `yx`. */
  function Judge(l: Link, full: bool): (Verdict, Stream)
    requires l.yx != [] && l.yx[0].OfStream()
  {
    Receive(l.x, l.yx[0], !l.xOpens, full)
  }

  function LinkStep(l: Link, op: LinkOp): Link
    requires LinkEnabled(l, op)
  {
    match op
    case LOpen => l.(x := l.x.(status := InTable))
    case LHandle(h) => l.(x := Handle(l.x, l.id, h, l.xUp))
    case LEnqueue => l.(x := l.x.(queue := l.x.queue[1..]), xy := l.xy + [l.x.queue[0]])
    case LMarker => l.(x := EndMarker(l.x, l.id).0, xy := l.xy + EndMarker(l.x, l.id).1)
    case LReceive(full) => l.(x := Judge(l, full).1, yx := l.yx[1..])
    case LClose => l.(xUp := false)
    case LFail(keep) => l.(x := if l.xUp then TearDown(l.x) else l.x.(queue := []), xy := l.xy[..keep], xUp := false)
  }
}
