/** Two endpoints joined by two ordered, loss-free wires. */
module Pair {
  import opened Basics
  import opened Header
  import opened Frames
  import opened Streams
  import opened Endpoint
  import L = Link

  datatype Pair = Pair(a: Endpoint, b: Endpoint, ab: seq<Frame>, ba: seq<Frame>) {
    function Swap(): Pair { Pair(b, a, ba, ab) }
  }

  datatype Side = A | B

  /** A step of the endpoint `a`. */
  predicate AEnabled(p: Pair, act: Act) {
    Enabled(p.a, p.ba, act)
  }

  function AStep(p: Pair, act: Act): Pair
    requires AEnabled(p, act)
  {
    var after := Step(p.a, p.ba, act);
    Pair(after.e, p.b, p.ab + after.sent, after.inbox)
  }

  predicate PairEnabled(p: Pair, side: Side, act: Act) {
    AEnabled(if side.A? then p else p.Swap(), act)
  }

  function PairStep(p: Pair, side: Side, act: Act): Pair
    requires PairEnabled(p, side, act)
  {
    if side.A? then AStep(p, act) else AStep(p.Swap(), act).Swap()
  }

  // ---------------------------------------------------------------- one stream of the pair

  datatype Kind = OfId(id: u32) | Pings | Pongs

  predicate Matches(k: Kind, f: Frame) {
    match k
    case OfId(id) => f.OfStream() && f.header.streamId == id
    case Pings => f.header.tag.Ping? && !f.Ack()
    case Pongs => f.header.tag.Ping? && f.Ack()
  }

  /** The frames of one kind, in order. */
  function Pick(w: seq<Frame>, k: Kind): seq<Frame> {
    if w == [] then [] else (if Matches(k, w[0]) then [w[0]] else []) + Pick(w[1..], k)
  }

  /** Everything between the queues of `e` and its peer, oldest first. */
  function Outgoing(e: Endpoint, wire: seq<Frame>): seq<Frame> {
    wire + e.outbox + Opt(e.pendingRead) + Opt(e.pendingWrite)
  }

  /** Stream `id` of the pair, seen from `a`. */
  function LinkOf(p: Pair, id: u32): L.Link {
    L.Link(id, Local(p.a.mode, id), View(p.a, id), View(p.b, id),
           Pick(Outgoing(p.a, p.ab), OfId(id)), Pick(Outgoing(p.b, p.ba), OfId(id)),
           p.a.phase.Active?, p.b.phase.Active?)
  }

  /** What a step of `a` is for stream `id`: one step of its link, or nothing. */
  function Projected(p: Pair, act: Act, id: u32): Option<L.LinkOp>
    requires AEnabled(p, act)
  {
    var down := Some(L.LFail(|Pick(p.ab, OfId(id))|));
    match act
    case NewOutbound =>
      if |Table(p.a)| >= p.a.limits.maxNumStreams || p.a.nextId + 2 > U32_MAX then down
      else if id == p.a.nextId then Some(L.LOpen) else None
    case OnHandle(i, op) => if i == id then Some(L.LHandle(op)) else None
    case PollReceiver(i) => if i != id then None else if p.a.streams[i].queue != [] then Some(L.LEnqueue) else Some(L.LMarker)
    case ReadFrame =>
      if p.ba[0].header.tag.GoAway? then down
      else if Matches(OfId(id), p.ba[0]) then Some(L.LReceive(Full(p.a)))
      else None
    case StartClose => Some(L.LClose)
    case DrainReceiver(i) => if i == id then Some(L.LEnqueue) else None
    case Fail => down
    case _ => None
  }

  // ---------------------------------------------------------------- invariant

  predicate SessionFrame(f: Frame) {
    match f.header.tag
    case Ping => f == PingFrame(f.header.length) || f == PongFrame(f.header.length)
    case GoAway => f == GoAwayFrame(TERM) || f == GoAwayFrame(INTERNAL_ERROR)
    case _ => true
  }

  /** What holds at one endpoint by itself. */
  predicate Sound(e: Endpoint) {
    && (Local(e.mode, e.nextId))
    && (forall id: u32 :: Local(e.mode, id) && id >= e.nextId ==> View(e, id).status.Absent?)
    && (e.pendingRead.Some? ==> !e.pendingRead.value.OfStream())
    && (e.pendingWrite.Some? ==> e.pendingWrite.value.OfStream())
    && (e.phase.Active? ==> e.outbox == [])
    && (!e.phase.Active? ==> e.pendingRead.None? && e.pendingWrite.None?)
    && e.limits.splitSendSize <= MAX_FRAME_BODY_LEN
    && (!e.rtt.measured ==> DefaultWindows(e))
  }

  /** No window was ever tuned. */
  predicate DefaultWindows(e: Endpoint) {
    forall id :: id in e.streams ==> e.streams[id].maxReceiveWindow == DEFAULT_CREDIT
  }

  /** The awaited ping is on its way exactly once, as a ping out or as a pong back. */
  predicate OneToken(awaiting: Option<u32>, pongs: seq<Frame>, pings: seq<Frame>, bothUp: bool) {
    match awaiting
    case None => pongs == [] && pings == []
    case Some(n) =>
      || (pongs == [] && pings == [] && !bothUp)
      || (pongs == [PongFrame(n)] && pings == [])
      || (pongs == [] && pings == [PingFrame(n)])
  }

  predicate PingToken(p: Pair) {
    OneToken(p.a.rtt.awaiting, Pick(Outgoing(p.b, p.ba), Pongs), Pick(Outgoing(p.a, p.ab), Pings),
             p.a.phase.Active? && p.b.phase.Active?)
  }

  predicate AllLinks(p: Pair) {
    forall id: u32 :: L.Inv(LinkOf(p, id))
  }

  predicate AllSession(w: seq<Frame>) {
    forall f :: f in w ==> SessionFrame(f)
  }

  predicate Inv(p: Pair) {
    && p.a.mode != p.b.mode
    && Sound(p.a) && Sound(p.b)
    && AllLinks(p)
    && PingToken(p) && PingToken(p.Swap())
    && AllSession(Outgoing(p.a, p.ab)) && AllSession(Outgoing(p.b, p.ba))
  }

  function Start(a: Limits, b: Limits): Pair {
    Pair(Init(Client, a), Init(Server, b), [], [])
  }
}
