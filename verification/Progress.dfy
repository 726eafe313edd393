/**
  What a pair can do for a stream whose handles are in no call: some run hands over every byte
  that was written, and some run gives a sender without credit new credit.
*/
module Progress {
  import opened Basics
  import opened Runs
  import opened Frames
  import opened Streams
  import opened Endpoint
  import opened Pair
  import opened Guarantees
  import opened Settling
  import opened LinkNotices
  import opened Notices
  import L = Link
  import P = LinkProofs
  import PairProofs

  // ---------------------------------------------------------------- runs seen from either end

  function Other(side: Side): Side {
    if side.A? then B else A
  }

  /** The same run when the ends change their names. */
  function Flip(run: seq<Event>): (r: seq<Event>)
    ensures |r| == |run|
  {
    if run == [] then [] else [Event(Other(run[0].side), run[0].act)] + Flip(run[1..])
  }

  lemma {:induction false} FlipRuns(p: Pair, run: seq<Event>)
    requires Run(p, run).Some?
    ensures Run(p.Swap(), Flip(run)) == Some(Run(p, run).value.Swap())
    decreases run
  {
    if run != [] {
      var t := PairStep(p, run[0].side, run[0].act);
      FlipRuns(t, run[1..]);
      FoldCons(Next, p.Swap(), Event(Other(run[0].side), run[0].act), Flip(run[1..]));
    }
  }

  /** A run of the pair as `side` sees it, named as the pair names its ends. */
  function Named(side: Side, run: seq<Event>): seq<Event> {
    if side.A? then run else Flip(run)
  }

  lemma NamedRuns(p: Pair, side: Side, run: seq<Event>)
    requires Run(From(p, side), run).Some?
    ensures Run(p, Named(side, run)).Some?
    ensures From(Run(p, Named(side, run)).value, side) == Run(From(p, side), run).value
  {
    if side.B? {
      FlipRuns(p.Swap(), run);
    }
  }

  lemma Joined(p: Pair, first: seq<Event>, second: seq<Event>)
    requires Run(p, first).Some? && Run(Run(p, first).value, second).Some?
    ensures Run(p, first + second) == Run(Run(p, first).value, second)
  {
    FoldAppend(Next, p, first, second);
  }

  lemma Single(p: Pair, event: Event)
    requires PairEnabled(p, event.side, event.act)
    ensures Run(p, [event]) == Some(PairStep(p, event.side, event.act))
  {
    FoldCons(Next, p, event, []);
    assert [event] + [] == [event];
  }

  lemma CalmFrom(p: Pair, side: Side)
    requires Inv(p) && Calm(p)
    ensures Inv(From(p, side)) && Calm(From(p, side))
  {
    SwapCalm(p);
  }

  // ---------------------------------------------------------------- every byte

  /** Both handles are in no call, the reader's is there, and the stream was not refused. */
  predicate Deliverable(l: L.Link) {
    l.x.position.Idle? && l.y.position.Idle? && !l.y.dropped && !L.LaneOf(l).refused
  }

  /** With nothing under way, what was written has arrived. */
  lemma AllArrived(p: Pair, id: u32)
    requires Inv(p) && Drained(p) && p.a.phase.Active?
    requires var l := LinkOf(p, id); l.x.position.Idle? && !l.y.dropped && !L.LaneOf(l).refused
    ensures var l := LinkOf(p, id); l.y.got + l.y.buffer == l.x.wrote
  {
    var l := LinkOf(p, id);
    EmptyPipe(p, id);
    assert L.Half(L.LaneOf(l));
    assert l.y.got + l.y.buffer + [] == l.y.got + l.y.buffer;
  }

  lemma EmptyPipe(p: Pair, id: u32)
    requires Sound(p.a) && p.a.phase.Active? && p.a.pendingRead.None? && p.a.pendingWrite.None? && p.ab == []
    requires (forall i :: i in p.a.streams ==> p.a.streams[i].queue == []) && View(p.a, id).position.Idle?
    ensures LinkOf(p, id).PipeX() == []
  {
    assert Outgoing(p.a, p.ab) == [];
  }

  lemma Buffered(p: Pair, id: u32)
    requires Inv(p) && View(p.a, id).buffer != []
    ensures id in p.a.streams && !p.a.streams[id].status.Absent?
  {
    assert L.Half(L.LaneOf(LinkOf(p, id)));
  }

  lemma ReadStep(p: Pair, id: u32)
    requires id in p.a.streams && var s := p.a.streams[id]; !s.status.Absent? && s.position.Idle? && !s.dropped && s.buffer != []
    ensures var s := p.a.streams[id]; var act := OnHandle(id, Read(|s.buffer|));
            AEnabled(p, act) && AStep(p, act) == p.(a := With(p.a, id, s.(buffer := [], got := s.got + s.buffer)))
  {
    var s := p.a.streams[id];
    assert s.buffer[..|s.buffer|] == s.buffer && s.buffer[|s.buffer|..] == [];
    assert p.ab + [] == p.ab;
  }

  /** The reader takes all that is buffered. */
  lemma ReadsAll(p: Pair, id: u32) returns (run: seq<Event>)
    requires Inv(p) && var s := View(p.a, id); s.position.Idle? && !s.dropped
    ensures Run(p, run).Some?
    ensures var q, s := Run(p, run).value, View(p.a, id);
            q == (if s.buffer == [] then p else p.(a := With(p.a, id, s.(buffer := [], got := s.got + s.buffer))))
  {
    var s := View(p.a, id);
    run := [];
    if s.buffer != [] {
      Buffered(p, id);
      ReadStep(p, id);
      run := [Event(A, OnHandle(id, Read(|s.buffer|)))];
      Single(p, run[0]);
    }
  }

  /** The reader `b` reads all. */
  lemma PeerReadsAll(p: Pair, id: u32) returns (run: seq<Event>)
    requires Inv(p) && Calm(p) && var s := View(p.b, id); s.position.Idle? && !s.dropped
    ensures Run(p, run).Some?
    ensures var q, s := Run(p, run).value, View(p.b, id);
            q == (if s.buffer == [] then p else p.(b := With(p.b, id, s.(buffer := [], got := s.got + s.buffer))))
  {
    SwapCalm(p);
    var read := ReadsAll(p.Swap(), id);
    FlipRuns(p.Swap(), read);
    run := Flip(read);
  }

  /** Once the connections have settled, one read is enough. */
  lemma DeliveredByRead(p: Pair, id: u32) returns (run: seq<Event>)
    requires Inv(p) && Calm(p) && Drained(p) && Deliverable(LinkOf(p, id))
    ensures Run(p, run).Some?
    ensures var q := Run(p, run).value;
            && View(q.b, id) == View(p.b, id).(buffer := [], got := View(p.a, id).wrote)
            && View(q.a, id).wrote == View(p.a, id).wrote
  {
    AllArrived(p, id);
    run := PeerReadsAll(p, id);
    var s := View(p.b, id);
    assert s.buffer == [] ==> s.got + s.buffer == s.got;
  }

  lemma DeliveredToPeer(p: Pair, id: u32) returns (run: seq<Event>)
    requires Inv(p) && Calm(p)
    requires Deliverable(LinkOf(p, id))
    ensures Run(p, run).Some?
    ensures var q := Run(p, run).value; View(q.b, id).got == View(q.a, id).wrote == View(p.a, id).wrote
  {
    var first := Settles(p);
    var q := Run(p, first).value;
    assert Kept(LinkOf(p, id), LinkOf(q, id));
    var second := DeliveredByRead(q, id);
    Joined(p, first, second);
    run := first + second;
  }

  /**
    From every reachable state in which both connections run calmly some run hands every byte
    written so far to the reader: the connections settle, then the reader reads once.
  */
  lemma DeliversAll(p: Pair, side: Side, id: u32) returns (run: seq<Event>)
    requires Reachable(p) && Calm(p)
    requires Deliverable(LinkOf(From(p, side), id))
    ensures Run(p, run).Some?
    ensures var v, w := From(p, side), From(Run(p, run).value, side);
            View(w.b, id).got == View(w.a, id).wrote == View(v.a, id).wrote
  {
    ReachableHolds(p);
    CalmFrom(p, side);
    var there := DeliveredToPeer(From(p, side), id);
    NamedRuns(p, side, there);
    run := Named(side, there);
  }

  // ---------------------------------------------------------------- end of file

  /** With nothing under way, a stream whose SYN was sent and not refused is known to both ends. */
  lemma KnownWhenStill(p: Pair, id: u32)
    requires Inv(p) && p.a.phase.Active? && Drained(p) && !L.LaneOf(LinkOf(p, id)).refused
    requires var s := View(p.a, id); s.position.Idle? && !s.flag.OweSyn? && !s.status.Absent?
    ensures !View(p.b, id).status.Absent?
  {
    EmptyPipe(p, id);
    assert L.Opened(LinkOf(p, id));
    assert !L.HasSyn([]);
  }

  /** And its reader has been told if it is written no more. */
  lemma EndHasArrived(p: Pair, id: u32)
    requires Inv(p) && AllTold(p) && Calm(p) && Drained(p) && !L.LaneOf(LinkOf(p, id)).refused
    requires var s := View(p.a, id); s.position.Idle? && !s.state.CanWrite() && !s.flag.OweSyn?
    ensures var s := View(p.b, id); !s.state.CanRead() && !s.status.Absent?
  {
    StoppedIsKnown(p, id);
    KnownWhenStill(p, id);
    EmptyPipe(p, id);
    assert Told(LinkOf(p, id));
    assert !L.HasEnd([]);
  }

  lemma StoppedIsKnown(p: Pair, id: u32)
    requires Inv(p) && !View(p.a, id).state.CanWrite()
    ensures !View(p.a, id).status.Absent?
  {
    assert L.Half(L.LaneOf(LinkOf(p, id)));
  }

  lemma EndedToPeer(p: Pair, id: u32) returns (run: seq<Event>)
    requires Inv(p) && AllTold(p) && Calm(p) && Deliverable(LinkOf(p, id))
    requires var s := View(p.a, id); !s.state.CanWrite() && !s.flag.OweSyn?
    ensures Run(p, run).Some?
    ensures var q := Run(p, run).value; AtEndOfFile(View(q.b, id)) && View(q.b, id).got == View(p.a, id).wrote
  {
    var first := Settles(p);
    var q := Run(p, first).value;
    assert Kept(LinkOf(p, id), LinkOf(q, id));
    RunTold(p, first);
    EndHasArrived(q, id);
    var second := DeliveredByRead(q, id);
    Joined(p, first, second);
    run := first + second;
  }

  /**
    From every reachable state in which both connections run calmly: once an end has stopped writing,
    some run brings its peer's reader to end of file, with every byte read. A stream whose opener
    stopped before its first frame is the exception, for its peer never hears of it.
  */
  lemma ReachesEndOfFile(p: Pair, side: Side, id: u32) returns (run: seq<Event>)
    requires Reachable(p) && Calm(p) && Deliverable(LinkOf(From(p, side), id))
    requires var s := View(From(p, side).a, id); !s.state.CanWrite() && !s.flag.OweSyn?
    ensures Run(p, run).Some?
    ensures var v, w := From(p, side), From(Run(p, run).value, side);
            AtEndOfFile(View(w.b, id)) && View(w.b, id).got == View(v.a, id).wrote
  {
    ReachableHolds(p);
    CalmFrom(p, side);
    ReachableTold(p, side);
    var there := EndedToPeer(From(p, side), id);
    NamedRuns(p, side, there);
    run := Named(side, there);
  }

  // ---------------------------------------------------------------- dropped handles

  /** The connection deals with a dropped handle when nothing else is under way. */
  lemma DropHandled(p: Pair, id: u32)
    requires Inv(p) && AllTold(p) && Calm(p) && Drained(p)
    requires id in p.a.streams && p.a.streams[id].dropped && p.a.streams[id].status.InTable?
    ensures AEnabled(p, PollReceiver(id))
    ensures var q := AStep(p, PollReceiver(id));
            Inv(q) && AllTold(q) && Calm(q) && q.b == p.b && View(q.a, id) == Shut(p.a.streams[id])
  {
    PairProofs.AStepKeeps(p, PollReceiver(id));
    AStepTold(p, PollReceiver(id));
    MarkerKeepsCalm(p, id);
  }

  lemma DropToPeer(p: Pair, id: u32) returns (run: seq<Event>)
    requires Inv(p) && AllTold(p) && Calm(p) && !L.LaneOf(LinkOf(p, id)).refused
    requires var s := View(p.a, id); s.dropped && s.position.Idle? && !s.status.Absent? && !s.flag.OweSyn?
    ensures ByConnections(run) && Run(p, run).Some?
    ensures var q := Run(p, run).value; View(q.a, id).status.Removed? && !View(q.b, id).state.CanRead()
  {
    run := Settles(p);
    var q := Run(p, run).value;
    assert Kept(LinkOf(p, id), LinkOf(q, id));
    RunTold(p, run);
    KnownWhenStill(q, id);
    if View(q.a, id).status.InTable? {
      DropHandled(q, id);
      var event := Event(A, PollReceiver(id));
      Single(q, event);
      Joined(p, run, [event]);
      var rest := LastWord(AStep(q, event.act), id);
      Joined(p, run + [event], rest);
      run := run + [event] + rest;
    } else {
      assert L.Half(L.LaneOf(LinkOf(q, id)));
      EndHasArrived(q, id);
    }
  }

  /** What is said last arrives. */
  lemma LastWord(p: Pair, id: u32) returns (run: seq<Event>)
    requires Inv(p) && AllTold(p) && Calm(p) && !View(p.b, id).status.Absent?
    requires var s := View(p.a, id); s.status.Removed? && s.position.Idle? && !s.state.CanWrite()
    ensures ByConnections(run) && Run(p, run).Some?
    ensures var q := Run(p, run).value; View(q.a, id).status.Removed? && !View(q.b, id).state.CanRead()
  {
    run := Settles(p);
    var q := Run(p, run).value;
    assert Kept(LinkOf(p, id), LinkOf(q, id));
    RunTold(p, run);
    EmptyPipe(q, id);
    assert Told(LinkOf(q, id));
    assert !L.HasEnd([]);
  }

  /**
    From every reachable state in which both connections run calmly, the connections alone can clear
    away a stream whose handle was dropped and let its peer's reader know, unless no frame of the
    stream was ever sent.
  */
  lemma DropIsSeen(p: Pair, side: Side, id: u32) returns (run: seq<Event>)
    requires Reachable(p) && Calm(p) && !L.LaneOf(LinkOf(From(p, side), id)).refused
    requires var s := View(From(p, side).a, id); s.dropped && !s.status.Absent? && !s.flag.OweSyn?
    ensures Run(p, run).Some?
    ensures var w := From(Run(p, run).value, side); View(w.a, id).status.Removed? && !View(w.b, id).state.CanRead()
  {
    ReachableHolds(p);
    CalmFrom(p, side);
    ReachableTold(p, side);
    assert L.WellFormed(View(From(p, side).a, id)) by {
      assert L.Half(L.LaneOf(LinkOf(From(p, side), id)));
    }
    var there := DropToPeer(From(p, side), id);
    NamedRuns(p, side, there);
    run := Named(side, there);
  }

  // ---------------------------------------------------------------- streams nobody hears of

  /** An opener that has stopped writing and still owes its SYN. */
  predicate Silent(s: Stream) {
    s.flag.OweSyn? && !s.state.CanWrite() && !s.position.Wrote?
  }

  lemma LinkSilent(l: L.Link, op: L.LinkOp)
    requires L.Inv(l) && L.LinkEnabled(l, op) && Silent(l.x)
    ensures Silent(L.LinkStep(l, op).x)
  {
    UnknownToPeer(l);
    if op.LHandle? {
      HandleSilent(l.x, l.id, op.op, l.xUp);
    }
  }

  lemma UnknownToPeer(l: L.Link)
    requires L.Inv(l) && l.x.flag.OweSyn?
    ensures l.yx == [] && !UpdateIsDue(l.x)
  {
    assert L.Opened(l) && l.PipeY() == [];
  }

  lemma HandleSilent(s: Stream, id: u32, op: HandleOp, up: bool)
    requires Silent(s) && HandleEnabled(s, op) && !UpdateIsDue(s)
    ensures Silent(Handle(s, id, op, up))
  {
  }

  lemma StepSilent(p: Pair, side: Side, event: Event, id: u32)
    requires Inv(p) && PairEnabled(p, event.side, event.act) && Silent(View(From(p, side).a, id))
    ensures Silent(View(From(PairStep(p, event.side, event.act), side).a, id))
  {
    if event.side == side {
      var v := From(p, side);
      PairProofs.SwapKeeps(p);
      PairProofs.StepFollows(v, event.act, id);
      if Projected(v, event.act, id).Some? {
        LinkSilent(LinkOf(v, id), Projected(v, event.act, id).value);
      }
    }
  }

  /** The exception, in every run: such a stream stays unknown to the peer, so nobody there ever sees its end. */
  lemma {:induction false} NeverHeardOf(p: Pair, side: Side, id: u32, run: seq<Event>)
    requires Reachable(p) && Silent(View(From(p, side).a, id)) && Run(p, run).Some?
    ensures View(From(Run(p, run).value, side).b, id).status.Absent?
    decreases run
  {
    FromHolds(p, side);
    assert L.Opened(LinkOf(From(p, side), id));
    if run != [] {
      ReachableHolds(p);
      StepSilent(p, side, run[0], id);
      StepExtends(p, run[0].side, run[0].act);
      NeverHeardOf(PairStep(p, run[0].side, run[0].act), side, id, run[1..]);
    }
  }

  // ---------------------------------------------------------------- acknowledgements

  lemma AckToPeer(p: Pair, id: u32) returns (run: seq<Event>)
    requires Inv(p) && AllTold(p) && Calm(p) && !Local(p.a.mode, id)
    requires var s := View(p.a, id); s.position.Idle? && !s.status.Absent? && s.flag.NoFlag?
    ensures ByConnections(run) && Run(p, run).Some? && id !in AckBacklog(Run(p, run).value.b)
  {
    run := Settles(p);
    var q := Run(p, run).value;
    assert Kept(LinkOf(p, id), LinkOf(q, id));
    RunTold(p, run);
    EmptyPipe(q, id);
    assert Told(LinkOf(q, id)) && !HasAck([]);
  }

  /**
    From every such state: once the end that accepted a stream has sent a first frame, the connections
    alone can take the stream out of the opener's backlog.
  */
  lemma LeavesBacklog(p: Pair, side: Side, id: u32) returns (run: seq<Event>)
    requires Reachable(p) && Calm(p) && !Local(From(p, side).a.mode, id)
    requires var s := View(From(p, side).a, id); s.position.Idle? && !s.status.Absent? && s.flag.NoFlag?
    ensures Run(p, run).Some? && id !in AckBacklog(From(Run(p, run).value, side).b)
  {
    ReachableHolds(p);
    CalmFrom(p, side);
    ReachableTold(p, side);
    var there := AckToPeer(From(p, side), id);
    NamedRuns(p, side, there);
    run := Named(side, there);
  }

  // ---------------------------------------------------------------- new credit

  /** A reader that has read everything and whose sender has no credit left. */
  predicate Starved(p: Pair, id: u32) {
    && p.a.phase.Active? && id in p.a.streams && p.a.pendingRead.None? && p.a.pendingWrite.None?
    && var s := p.a.streams[id];
       && s.position.Idle? && !s.dropped && s.status.InTable? && s.state.CanRead() && s.queue == [] && s.buffer == []
       && s.receiveWindow == 0 && DEFAULT_CREDIT <= s.maxReceiveWindow <= U32_MAX
  }

  function Grant(s: Stream, id: u32): Frame
    requires 0 <= s.maxReceiveWindow <= U32_MAX
  {
    WithFlag(WindowUpdateFrame(id, s.maxReceiveWindow), s.flag)
  }

  /** The reader's next call grants a whole window. */
  function Granted(s: Stream, id: u32): Stream
    requires 0 <= s.maxReceiveWindow <= U32_MAX
  {
    s.(receiveWindow := s.maxReceiveWindow, flag := NoFlag, queue := [Grant(s, id)])
  }

  /** One more step of `a`. */
  lemma Then(p: Pair, run: seq<Event>, act: Act)
    requires Run(p, run).Some? && AEnabled(Run(p, run).value, act)
    ensures Run(p, run + [Event(A, act)]) == Some(AStep(Run(p, run).value, act))
  {
    Single(Run(p, run).value, Event(A, act));
    Joined(p, run, [Event(A, act)]);
  }

  function Held(p: Pair, id: u32, s: Stream): Pair {
    p.(a := With(p.a, id, s))
  }

  lemma HandleMoves(p: Pair, id: u32, s: Stream, op: HandleOp)
    requires AEnabled(Held(p, id, s), OnHandle(id, op)) && p.a.phase.Active?
    ensures AStep(Held(p, id, s), OnHandle(id, op)) == Held(p, id, Handle(s, id, op, true))
  {
    assert p.ab + [] == p.ab;
    assert p.a.streams[id := s][id := Handle(s, id, op, true)] == p.a.streams[id := Handle(s, id, op, true)];
  }

  lemma GrantIs(s: Stream, id: u32)
    requires s.position.Idle? && !s.dropped && s.status.InTable? && s.state.CanRead() && s.queue == [] && s.buffer == []
    requires s.receiveWindow == 0 && DEFAULT_CREDIT <= s.maxReceiveWindow <= U32_MAX
    ensures var s1, s2 := s.(position := UpdateChecked), Granted(s, id).(position := Sending(Grant(s, id)), queue := []);
            && HandleEnabled(s, UpdateCheck) && Handle(s, id, UpdateCheck, true) == s1
            && HandleEnabled(s1, UpdateGrant(s.maxReceiveWindow)) && Handle(s1, id, UpdateGrant(s.maxReceiveWindow), true) == s2
            && HandleEnabled(s2, Send) && Handle(s2, id, Send, true) == Granted(s, id)
  {
    assert [] + [Grant(s, id)] == [Grant(s, id)];
  }

  /** The call that grants it: `send_window_update` at the start of the next read. */
  lemma GrantCall(p: Pair, id: u32) returns (run: seq<Event>)
    requires Starved(p, id)
    ensures Run(p, run) == Some(Held(p, id, Granted(p.a.streams[id], id)))
  {
    var s := p.a.streams[id];
    var s1, s2 := s.(position := UpdateChecked), Granted(s, id).(position := Sending(Grant(s, id)), queue := []);
    GrantIs(s, id);
    assert Held(p, id, s) == p by {
      assert p.a.streams[id := s] == p.a.streams;
    }
    var acts := [OnHandle(id, UpdateCheck), OnHandle(id, UpdateGrant(s.maxReceiveWindow)), OnHandle(id, Send)];
    HandleMoves(p, id, s, UpdateCheck);
    Then(p, [], acts[0]);
    HandleMoves(p, id, s1, UpdateGrant(s.maxReceiveWindow));
    run := [] + [Event(A, acts[0])];
    Then(p, run, acts[1]);
    HandleMoves(p, id, s2, Send);
    run := run + [Event(A, acts[1])];
    Then(p, run, acts[2]);
    run := run + [Event(A, acts[2])];
  }

  /** The connection takes the grant off the queue and puts it on the wire. */
  lemma GrantSent(p: Pair, id: u32) returns (run: seq<Event>)
    requires Starved(p, id) && p.ab == []
    ensures Run(p, run).Some?
    ensures var q := Run(p, run).value; q.b == p.b && q.ba == p.ba && q.ab == [Grant(p.a.streams[id], id)]
  {
    var call := GrantCall(p, id);
    Then(p, call, PollReceiver(id));
    run := call + [Event(A, PollReceiver(id))];
    assert Run(p, run).value.ab == [];
    Then(p, run, FlushPendingWrite);
    run := run + [Event(A, FlushPendingWrite)];
  }

  lemma CreditTaken(l: L.Link, full: bool)
    requires L.Inv(l) && L.LinkEnabled(l, L.LReceive(full)) && l.x.status.InTable? && l.yx[0].header.tag.WindowUpdate?
    ensures L.Judge(l, full).1.sendWindow == l.x.sendWindow + l.yx[0].header.length
  {
    P.ReceiveEffect(l, full);
  }

  /** The grant arrives. */
  lemma GrantTaken(p: Pair, id: u32)
    requires L.Inv(LinkOf(p, id)) && AEnabled(p, ReadFrame) && View(p.a, id).status.InTable?
    requires Matches(OfId(id), p.ba[0]) && p.ba[0].header.tag.WindowUpdate?
    ensures View(AStep(p, ReadFrame).a, id).sendWindow == View(p.a, id).sendWindow + p.ba[0].header.length
  {
    var l := LinkOf(p, id);
    PairProofs.ArrivesInLink(p);
    CreditTaken(l, Full(p.a));
    GrantView(p, id);
  }

  lemma GrantView(p: Pair, id: u32)
    requires AEnabled(p, ReadFrame) && Matches(OfId(id), p.ba[0])
    ensures View(AStep(p, ReadFrame).a, id) == Receive(View(p.a, id), p.ba[0], !Local(p.a.mode, id), Full(p.a)).1
  {
    PairProofs.OnFrameView(p.a, p.ba[0], id);
  }

  /** The peer `b` reads it. */
  lemma PeerTakes(q: Pair, id: u32)
    requires Inv(q) && q.b.phase.Active? && q.b.pendingRead.None? && View(q.b, id).status.InTable?
    requires q.ab != [] && Matches(OfId(id), q.ab[0]) && q.ab[0].header.tag.WindowUpdate?
    ensures PairEnabled(q, B, ReadFrame)
    ensures View(PairStep(q, B, ReadFrame).b, id).sendWindow == View(q.b, id).sendWindow + q.ab[0].header.length
  {
    PairProofs.SwapKeeps(q);
    assert L.Inv(LinkOf(q.Swap(), id));
    GrantTaken(q.Swap(), id);
  }

  lemma GrantArrives(p: Pair, id: u32) returns (run: seq<Event>)
    requires Inv(p) && Starved(p, id) && p.ab == []
    requires p.b.phase.Active? && p.b.pendingRead.None? && View(p.b, id).status.InTable?
    ensures Run(p, run).Some?
    ensures View(Run(p, run).value.b, id).sendWindow == View(p.b, id).sendWindow + p.a.streams[id].maxReceiveWindow
  {
    var sent := GrantSent(p, id);
    var q := Run(p, sent).value;
    RunKeeps(p, sent);
    PeerTakes(q, id);
    Single(q, Event(B, ReadFrame));
    Joined(p, sent, [Event(B, ReadFrame)]);
    run := sent + [Event(B, ReadFrame)];
  }

  /** Whoever may write faces an open reader, and a whole window is missing between the two. */
  lemma WindowMissing(p: Pair, id: u32)
    requires Inv(p) && Calm(p) && Drained(p) && Writable(LinkOf(p, id)) && View(p.a, id).sendWindow == 0
    ensures var s := View(p.b, id); s.receiveWindow == 0 && s.state.CanRead() && L.WellFormed(s)
  {
    var l := LinkOf(p, id);
    EmptyPipe(p, id);
    SwapCalm(p);
    EmptyPipe(p.Swap(), id);
    PairProofs.LinkSwap(p, id);
    assert L.Half(L.LaneOf(l)) && L.Half(L.LaneOf(l).Swap());
    assert !L.LaneOf(l).refused;
  }

  /** The reader has read everything. */
  predicate Emptied(p: Pair, q: Pair, id: u32) {
    var s := View(p.b, id);
    q == (if s.buffer == [] then p else p.(b := With(p.b, id, s.(buffer := [], got := s.got + s.buffer))))
  }

  lemma StarvedAfterRead(p: Pair, q: Pair, id: u32)
    requires Inv(p) && Calm(p) && Drained(p) && Writable(LinkOf(p, id)) && View(p.a, id).sendWindow == 0
    requires Emptied(p, q, id)
    ensures q.a == p.a && q.ba == [] && Starved(q.Swap(), id) && q.b.streams[id].maxReceiveWindow == View(p.b, id).maxReceiveWindow
    ensures q.a.phase.Active? && q.a.pendingRead.None? && View(q.a, id).status.InTable?
  {
    WindowMissing(p, id);
  }

  lemma PeerGrants(p: Pair, id: u32) returns (run: seq<Event>)
    requires Inv(p) && p.ba == [] && Starved(p.Swap(), id)
    requires p.a.phase.Active? && p.a.pendingRead.None? && View(p.a, id).status.InTable?
    ensures Run(p, run).Some?
    ensures View(Run(p, run).value.a, id).sendWindow == View(p.a, id).sendWindow + p.b.streams[id].maxReceiveWindow
  {
    PairProofs.SwapKeeps(p);
    var there := GrantArrives(p.Swap(), id);
    FlipRuns(p.Swap(), there);
    run := Flip(there);
  }

  /** Once the connections have settled: the reader reads, its next call grants, the grant travels. */
  lemma GrantedByRead(p: Pair, id: u32) returns (run: seq<Event>)
    requires Inv(p) && Calm(p) && Drained(p) && Writable(LinkOf(p, id)) && View(p.a, id).sendWindow == 0
    ensures Run(p, run).Some? && View(Run(p, run).value.a, id).sendWindow == View(p.b, id).maxReceiveWindow
  {
    var read := PeerReadsAll(p, id);
    var q := Run(p, read).value;
    RunKeeps(p, read);
    StarvedAfterRead(p, q, id);
    var rest := PeerGrants(q, id);
    Joined(p, read, rest);
    run := read + rest;
  }

  lemma CreditFromPeer(p: Pair, id: u32) returns (run: seq<Event>)
    requires Inv(p) && Calm(p) && Writable(LinkOf(p, id))
    ensures Run(p, run).Some?
    ensures var s := View(Run(p, run).value.a, id); 0 < s.sendWindow
  {
    run := Settles(p);
    var q := Run(p, run).value;
    assert Kept(LinkOf(p, id), LinkOf(q, id));
    if View(q.a, id).sendWindow == 0 {
      WindowMissing(q, id);
      var rest := GrantedByRead(q, id);
      Joined(p, run, rest);
      run := run + rest;
    } else {
      assert L.Half(L.LaneOf(LinkOf(q, id)));
    }
  }

  /**
    From every reachable state in which both connections run calmly some run gives a sender that
    may still write credit to write with.
  */
  lemma RegainsCredit(p: Pair, side: Side, id: u32) returns (run: seq<Event>)
    requires Reachable(p) && Calm(p) && Writable(LinkOf(From(p, side), id))
    ensures Run(p, run).Some? && 0 < View(From(Run(p, run).value, side).a, id).sendWindow
  {
    ReachableHolds(p);
    CalmFrom(p, side);
    var there := CreditFromPeer(From(p, side), id);
    NamedRuns(p, side, there);
    run := Named(side, there);
  }
}
