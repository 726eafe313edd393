/**
  One endpoint against any remote at all: the table invariant and the wake-ups need no
  conforming peer. Frames are arbitrary, and the end marker of an old receiver may arrive
  for an id the remote has reused.
*/
module AnyRemote {
  import opened Basics
  import opened Runs
  import opened Header
  import opened Frames
  import opened Streams
  import opened StreamLaws
  import opened Endpoint

  datatype Event = Own(act: Act, inbox: seq<Frame>) | Stale(id: u32)

  predicate EventEnabled(e: Endpoint, event: Event) {
    match event
    case Own(act, inbox) => Enabled(e, inbox, act)
    case Stale(id) => e.phase.Active? && id in e.streams
  }

  function Apply(e: Endpoint, event: Event): Endpoint
    requires EventEnabled(e, event)
  {
    match event
    case Own(act, inbox) => Step(e, inbox, act).e
    case Stale(id) => With(e, id, EndMarker(e.streams[id], id).0)
  }

  // ---------------------------------------------------------------- wake-ups

  /**
    A parked reader belongs to a stream of the table that may yet bring bytes, and if it offered
    room there is nothing to read. A parked writer has no credit, and unless it closed the stream
    itself the connection still knows the stream.
  */
  predicate Awake(s: Stream) {
    && (s.status.Removed? ==> s.state.Closed?)
    && (s.reader ==> s.state.CanRead() && s.status.InTable? && (s.room ==> s.buffer == []))
    && (s.writer ==> s.sendWindow == 0)
    && (s.writer && s.state.CanWrite() ==> s.status.InTable?)
  }

  lemma HandleAwake(s: Stream, id: u32, op: HandleOp, up: bool)
    requires Awake(s) && HandleEnabled(s, op)
    ensures Awake(Handle(s, id, op, up))
  {
    if op.Read? || op.ReadNothing? {
      ReaderAwake(s, id, op, up);
    } else {
      WriterAwake(s, id, op, up);
    }
  }

  lemma ReaderAwake(s: Stream, id: u32, op: HandleOp, up: bool)
    requires Awake(s) && HandleEnabled(s, op) && (op.Read? || op.ReadNothing?)
    ensures Awake(Handle(s, id, op, up))
  {
  }

  lemma WriterAwake(s: Stream, id: u32, op: HandleOp, up: bool)
    requires Awake(s) && HandleEnabled(s, op) && !op.Read? && !op.ReadNothing?
    ensures Awake(Handle(s, id, op, up))
  {
  }

  lemma FinishAwake(s: Stream, f: Frame)
    requires Awake(s) && s.status.InTable?
    ensures Awake(Finish(s, f))
  {
  }

  lemma AcknowledgeAwake(s: Stream, f: Frame)
    requires Awake(s)
    ensures Awake(Acknowledge(s, f)) && Acknowledge(s, f).status == s.status
  {
  }

  lemma AcceptAwake(s: Stream, f: Frame, remoteId: bool, full: bool)
    requires Awake(s)
    ensures Awake(OnSyn(s, f, remoteId, full).1)
  {
  }

  lemma DataAwake(s: Stream, f: Frame)
    requires Awake(s) && s.status.InTable?
    ensures Awake(OnData(s, f).1)
  {
    FinishAwake(s.(receiveWindow := s.receiveWindow - |f.body|, buffer := s.buffer + f.body, reader := false), f);
  }

  lemma CreditAwake(s: Stream, f: Frame)
    requires Awake(s) && s.status.InTable?
    ensures Awake(OnWindowUpdate(s, f).1)
  {
    FinishAwake(s.(sendWindow := s.sendWindow + f.header.length, writer := false), f);
  }

  lemma DispatchAwake(s: Stream, f: Frame, remoteId: bool, full: bool)
    requires Awake(s) && f.OfStream() && (f.Syn() || s.status.InTable?)
    ensures Awake(Dispatch(s, f, remoteId, full).1)
  {
    if f.Rst() {
      assert Awake(Shut(s));
    } else if f.Syn() {
      AcceptAwake(s, f, remoteId, full);
    } else if f.header.tag.Data? {
      DataAwake(s, f);
    } else {
      CreditAwake(s, f);
    }
  }

  /** Whatever frame arrives, whoever is parked and has something to do now is woken. */
  lemma ReceiveAwake(s: Stream, f: Frame, remoteId: bool, full: bool)
    requires Awake(s) && f.OfStream()
    ensures Awake(Receive(s, f, remoteId, full).1)
  {
    AcknowledgeAwake(s, f);
    if f.Syn() || s.status.InTable? {
      DispatchAwake(Acknowledge(s, f), f, remoteId, full);
    }
  }

  // ---------------------------------------------------------------- the table

  predicate TableInv(e: Endpoint) {
    && |Table(e)| <= e.limits.maxNumStreams
    && |AckBacklog(e)| <= MAX_ACK_BACKLOG
    && Local(e.mode, e.nextId)
    && (forall id :: id in Table(e) && Local(e.mode, id) ==> id < e.nextId)
  }

  predicate AllAwake(e: Endpoint) {
    forall id :: id in e.streams ==> Awake(e.streams[id])
  }

  /** A stream that owes a SYN was opened here, one that owes an ACK by the remote. */
  predicate OwnParity(e: Endpoint, id: u32, s: Stream) {
    (s.flag.OweSyn? ==> Local(e.mode, id)) && (s.flag.OweAck? ==> !Local(e.mode, id))
  }

  predicate AllParity(e: Endpoint) {
    forall id :: id in e.streams ==> OwnParity(e, id, e.streams[id])
  }

  predicate Inv(e: Endpoint) {
    TableInv(e) && AllAwake(e) && AllParity(e)
  }

  lemma SubsetSize<T>(a: set<T>, b: set<T>)
    requires a <= b
    ensures |a| <= |b|
  {
    if a != b {
      assert b == a + (b - a);
    }
  }

  /** Replacing one entry by one that is no more in the table, and no more unacknowledged. */
  lemma EntryKeeps(e: Endpoint, id: u32, t: Stream)
    requires Inv(e) && Awake(t) && OwnParity(e, id, t)
    requires t.status.InTable? ==> id in Table(e)
    requires PendingAck(t) && Local(e.mode, id) ==> id in AckBacklog(e)
    ensures Inv(With(e, id, t))
  {
    SubsetSize(Table(With(e, id, t)), Table(e));
    SubsetSize(AckBacklog(With(e, id, t)), AckBacklog(e));
  }

  /** A new entry when there is room for it. */
  lemma NewEntryKeeps(e: Endpoint, id: u32, t: Stream, nextId: u32)
    requires Inv(e) && Awake(t) && OwnParity(e, id, t) && id !in Table(e) && |Table(e)| < e.limits.maxNumStreams
    requires Local(e.mode, nextId) && e.nextId <= nextId && (Local(e.mode, id) ==> id < nextId && |AckBacklog(e)| < MAX_ACK_BACKLOG)
    ensures Inv(With(e, id, t).(nextId := nextId))
  {
    NewEntrySizes(e, id, t, nextId);
  }

  lemma NewEntrySizes(e: Endpoint, id: u32, t: Stream, nextId: u32)
    requires id !in Table(e)
    ensures var n := With(e, id, t).(nextId := nextId);
            && Table(n) <= Table(e) + {id} && |Table(n)| <= |Table(e)| + 1
            && |AckBacklog(n)| <= |AckBacklog(e)| + (if Local(e.mode, id) then 1 else 0)
  {
    var n := With(e, id, t).(nextId := nextId);
    SubsetSize(Table(n), Table(e) + {id});
    SubsetSize(AckBacklog(n), AckBacklog(e) + if Local(e.mode, id) then {id} else {});
  }

  lemma CleanupKeeps(e: Endpoint)
    requires Inv(e)
    ensures Inv(Cleanup(e))
  {
    SubsetSize(Table(Cleanup(e)), Table(e));
    SubsetSize(AckBacklog(Cleanup(e)), AckBacklog(e));
  }

  lemma OpenKeeps(e: Endpoint)
    requires Inv(e) && (|Table(e)| >= e.limits.maxNumStreams || |AckBacklog(e)| < MAX_ACK_BACKLOG)
    ensures Inv(OpenOutbound(e))
  {
    if |Table(e)| >= e.limits.maxNumStreams || e.nextId + 2 > U32_MAX {
      CleanupKeeps(e);
    } else {
      NewEntryKeeps(e, e.nextId, Fresh(OweSyn).(status := InTable), e.nextId + 2);
    }
  }

  /** What a verdict says about the table entry. */
  predicate EntryRule(s: Stream, verdict: Verdict, t: Stream, remoteId: bool, full: bool) {
    && (verdict.New? ==> remoteId && !full && !s.status.InTable? && t.flag.OweAck?)
    && (!verdict.New? ==> t.flag == s.flag)
    && (!verdict.New? && t.status.InTable? ==> s.status.InTable?)
    && (!verdict.New? && PendingAck(t) ==> PendingAck(s))
  }

  lemma DispatchTable(s: Stream, f: Frame, remoteId: bool, full: bool)
    requires f.OfStream() && (f.Syn() || s.status.InTable?)
    ensures EntryRule(s, Dispatch(s, f, remoteId, full).0, Dispatch(s, f, remoteId, full).1, remoteId, full)
  {
  }

  /** A frame never makes an old stream unacknowledged, and only a SYN on a remote id adds one. */
  lemma ReceiveTable(s: Stream, f: Frame, remoteId: bool, full: bool)
    requires f.OfStream()
    ensures EntryRule(s, Receive(s, f, remoteId, full).0, Receive(s, f, remoteId, full).1, remoteId, full)
  {
    if f.Syn() || s.status.InTable? {
      DispatchTable(Acknowledge(s, f), f, remoteId, full);
    }
  }

  lemma StreamFrameKeeps(e: Endpoint, f: Frame)
    requires Inv(e) && f.OfStream()
    ensures var (verdict, t) := Receive(View(e, f.header.streamId), f, !Local(e.mode, f.header.streamId), Full(e));
            verdict == Ignored || Inv(With(e, f.header.streamId, t))
  {
    var id := f.header.streamId;
    var s := View(e, id);
    ReceiveAwake(s, f, !Local(e.mode, id), Full(e));
    ReceiveTable(s, f, !Local(e.mode, id), Full(e));
    var (verdict, t) := Receive(s, f, !Local(e.mode, id), Full(e));
    if verdict.New? {
      NewEntryKeeps(e, id, t, e.nextId);
    } else {
      EntryKeeps(e, id, t);
    }
  }

  lemma AnswerKeeps(e: Endpoint, answer: Option<Frame>, rtt: Rtt)
    requires Inv(e)
    ensures Inv(e.(pendingRead := answer)) && Inv(e.(rtt := rtt))
  {
    assert Table(e.(pendingRead := answer)) == Table(e) == Table(e.(rtt := rtt));
    assert AckBacklog(e.(pendingRead := answer)) == AckBacklog(e) == AckBacklog(e.(rtt := rtt));
  }

  lemma PutKeeps(e: Endpoint, id: u32, t: Stream)
    requires Inv(e) && Inv(With(e, id, t))
    ensures Inv(Put(e, id, t))
  {
  }

  /** What a stream frame changes: at most one entry, and the answer. */
  lemma StreamFrameChanges(e: Endpoint, f: Frame, t: Stream)
    requires f.OfStream() && t == Receive(View(e, f.header.streamId), f, !Local(e.mode, f.header.streamId), Full(e)).1
    ensures var n := OnFrame(e, f); n == e || n == Put(e, f.header.streamId, t).(pendingRead := n.pendingRead)
  {
  }

  lemma FrameKeeps(e: Endpoint, f: Frame)
    requires Inv(e)
    ensures Inv(OnFrame(e, f))
  {
    if f.header.tag.GoAway? {
      CleanupKeeps(e);
    } else if f.header.tag.Ping? {
      PingKeeps(e, f);
    } else {
      KnownFrameKeeps(e, f);
    }
  }

  lemma PingKeeps(e: Endpoint, f: Frame)
    requires Inv(e)
    ensures Inv(OnPing(e, f))
  {
    AnswerKeeps(e, OnPing(e, f).pendingRead, OnPing(e, f).rtt);
  }

  lemma KnownFrameKeeps(e: Endpoint, f: Frame)
    requires Inv(e) && f.OfStream()
    ensures Inv(OnFrame(e, f))
  {
    var id := f.header.streamId;
    var (verdict, t) := Receive(View(e, id), f, !Local(e.mode, id), Full(e));
    StreamFrameKeeps(e, f);
    StreamFrameChanges(e, f, t);
    if verdict != Ignored {
      PutKeeps(e, id, t);
      AnswerKeeps(Put(e, id, t), OnFrame(e, f).pendingRead, e.rtt);
    }
  }

  lemma HandleTable(s: Stream, id: u32, op: HandleOp, up: bool)
    requires HandleEnabled(s, op)
    ensures var t := Handle(s, id, op, up);
            t.status == s.status && (PendingAck(t) ==> PendingAck(s)) && (t.flag == s.flag || t.flag.NoFlag?)
  {
  }

  /** Slots, outbox, ping state and phase do not matter to the table. */
  lemma SameTable(e: Endpoint, n: Endpoint)
    requires Inv(e) && n.streams == e.streams && n.mode == e.mode && n.limits == e.limits && n.nextId == e.nextId
    ensures Inv(n)
  {
    assert Table(n) == Table(e) && AckBacklog(n) == AckBacklog(e);
  }

  lemma HandleKeeps(e: Endpoint, id: u32, op: HandleOp)
    requires Inv(e) && id in e.streams && HandleEnabled(e.streams[id], op)
    ensures Inv(With(e, id, Handle(e.streams[id], id, op, e.phase.Active?)))
  {
    HandleAwake(e.streams[id], id, op, e.phase.Active?);
    HandleTable(e.streams[id], id, op, e.phase.Active?);
    EntryKeeps(e, id, Handle(e.streams[id], id, op, e.phase.Active?));
  }

  lemma QueueKeeps(e: Endpoint, id: u32)
    requires Inv(e) && id in e.streams
    ensures e.streams[id].queue != [] ==> Inv(With(e, id, e.streams[id].(queue := e.streams[id].queue[1..])))
    ensures Inv(With(e, id, EndMarker(e.streams[id], id).0))
  {
    if e.streams[id].queue != [] {
      EntryKeeps(e, id, e.streams[id].(queue := e.streams[id].queue[1..]));
    }
    EntryKeeps(e, id, EndMarker(e.streams[id], id).0);
  }

  lemma ReceiverKeeps(e: Endpoint, id: u32)
    requires Inv(e) && id in e.streams
    ensures Inv(TakeCommand(e, id))
  {
    var s, n := e.streams[id], TakeCommand(e, id);
    QueueKeeps(e, id);
    if s.queue != [] {
      SameTable(With(e, id, s.(queue := s.queue[1..])), n);
    } else {
      SameTable(With(e, id, EndMarker(s, id).0), n);
    }
  }

  lemma DrainKeeps(e: Endpoint, id: u32)
    requires Inv(e) && e.phase.Draining? && id in e.streams && e.streams[id].queue != []
    ensures Inv(Step(e, [], DrainReceiver(id)).e)
  {
    QueueKeeps(e, id);
    SameTable(With(e, id, e.streams[id].(queue := e.streams[id].queue[1..])), Step(e, [], DrainReceiver(id)).e);
  }

  lemma EventKeeps(e: Endpoint, event: Event)
    requires Inv(e) && EventEnabled(e, event)
    ensures Inv(Apply(e, event))
  {
    match event
    case Stale(id) => QueueKeeps(e, id);
    case Own(act, inbox) =>
      match act
      case NewOutbound => OpenKeeps(e);
      case OnHandle(id, op) => HandleKeeps(e, id, op);
      case PollReceiver(id) => ReceiverKeeps(e, id);
      case DrainReceiver(id) => DrainKeeps(e, id);
      case ReadFrame => FrameKeeps(e, inbox[0]);
      case Fail => CleanupKeeps(e);
      case _ => SameTable(e, Apply(e, event));
  }

  // ---------------------------------------------------------------- who opened a stream

  /** The event opens the stream `id`: here under the next id, or by the remote's SYN under one of its own. */
  predicate OpensHere(e: Endpoint, event: Event, id: u32) {
    event.Own? && event.act.NewOutbound? && id == e.nextId && Local(e.mode, id)
  }

  predicate OpensThere(e: Endpoint, event: Event, id: u32) {
    && event.Own? && event.act.ReadFrame? && event.inbox != [] && event.inbox[0].OfStream() && event.inbox[0].Syn()
    && event.inbox[0].header.streamId == id && !Local(e.mode, id)
  }

  lemma FrameEnters(e: Endpoint, f: Frame, id: u32)
    requires id !in Table(e) && id in Table(OnFrame(e, f))
    ensures f.OfStream() && f.Syn() && f.header.streamId == id && !Local(e.mode, id)
  {
    if f.OfStream() {
      ReceiveTable(View(e, f.header.streamId), f, !Local(e.mode, f.header.streamId), Full(e));
    }
  }

  lemma HandleEnters(e: Endpoint, id: u32, op: HandleOp)
    requires id in e.streams && HandleEnabled(e.streams[id], op)
    ensures Table(With(e, id, Handle(e.streams[id], id, op, e.phase.Active?))) == Table(e)
  {
    HandleTable(e.streams[id], id, op, e.phase.Active?);
  }

  lemma OthersEnter(e: Endpoint, event: Event)
    requires EventEnabled(e, event)
    requires event.Own? ==> !event.act.ReadFrame? && !event.act.OnHandle? && !event.act.NewOutbound?
    ensures Table(Apply(e, event)) <= Table(e)
  {
  }

  /** An entry comes into the table only by being opened, and its parity says by whom. */
  lemma EntersByOrigin(e: Endpoint, event: Event, id: u32)
    requires Inv(e) && EventEnabled(e, event) && id !in Table(e) && id in Table(Apply(e, event))
    ensures OpensHere(e, event, id) || OpensThere(e, event, id)
  {
    if event.Own? && event.act.ReadFrame? {
      FrameEnters(e, event.inbox[0], id);
    } else if event.Own? && event.act.OnHandle? {
      HandleEnters(e, event.act.id, event.act.op);
    } else if !event.Own? || !event.act.NewOutbound? {
      OthersEnter(e, event);
    }
  }

  // ---------------------------------------------------------------- the backlog

  /** The frame `f` ends the wait for the acknowledgement of its stream: it acknowledges, resets or finishes it. */
  predicate EndsWait(s: Stream, f: Frame) {
    f.Ack() || f.Rst() || (f.Fin() && !f.Syn() && !Overflows(s, f))
  }

  /** A frame takes a stream out of the backlog exactly so, and puts none into it. */
  lemma BacklogByFrame(e: Endpoint, f: Frame, id: u32)
    requires f.OfStream()
    ensures id in AckBacklog(OnFrame(e, f)) <==>
              id in AckBacklog(e) && !(id == f.header.streamId && EndsWait(e.streams[id], f))
  {
    var own := f.header.streamId;
    if own in AckBacklog(e) {
      WaitEnds(e.streams[own], f, !Local(e.mode, own), Full(e));
    } else if Local(e.mode, own) {
      ReceiveTable(View(e, own), f, !Local(e.mode, own), Full(e));
    }
    StreamFrameChanges(e, f, Receive(View(e, own), f, !Local(e.mode, own), Full(e)).1);
  }

  lemma WaitEnds(s: Stream, f: Frame, remoteId: bool, full: bool)
    requires f.OfStream() && PendingAck(s) && !remoteId
    ensures PendingAck(Receive(s, f, remoteId, full).1) <==> !EndsWait(s, f)
    ensures !Receive(s, f, remoteId, full).0.Ignored?
  {
    if !f.Syn() {
      ReceiveMeans(s, f, remoteId, full);
    }
  }

  // ---------------------------------------------------------------- every run

  function Next(e: Endpoint, event: Event): Option<Endpoint> {
    if EventEnabled(e, event) then Some(Apply(e, event)) else None
  }

  function Run(e: Endpoint, events: seq<Event>): Option<Endpoint> {
    Fold(Next, e, events)
  }

  /** In every run against any remote the table stays in bounds and no wake-up is lost. */
  lemma {:induction false} RunKeeps(e: Endpoint, events: seq<Event>)
    requires Inv(e) && Run(e, events).Some?
    ensures Inv(Run(e, events).value)
    decreases events
  {
    if events != [] {
      EventKeeps(e, events[0]);
      RunKeeps(Apply(e, events[0]), events[1..]);
    }
  }

  lemma TableBounds(mode: Mode, limits: Limits, events: seq<Event>)
    requires Run(Init(mode, limits), events).Some?
    ensures var e := Run(Init(mode, limits), events).value;
            && |Table(e)| <= limits.maxNumStreams && |AckBacklog(e)| <= MAX_ACK_BACKLOG
            && Local(e.mode, e.nextId) && e.nextId !in Table(e)
            && (forall id :: id in Table(e) && Local(e.mode, id) ==> id < e.nextId)
            && forall id :: id in e.streams ==> Awake(e.streams[id]) && OwnParity(e, id, e.streams[id])
  {
    RunKeeps(Init(mode, limits), events);
    LimitsKeep(Init(mode, limits), events);
  }

  lemma {:induction false} LimitsKeep(e: Endpoint, events: seq<Event>)
    requires Run(e, events).Some?
    ensures Run(e, events).value.limits == e.limits
    decreases events
  {
    if events != [] {
      assert Apply(e, events[0]).limits == e.limits;
      LimitsKeep(Apply(e, events[0]), events[1..]);
    }
  }
}
