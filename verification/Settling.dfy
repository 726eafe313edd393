/**
  What a pair can do for a stream: whatever is under way can be brought to its end by the two
  connections alone, and then the handles of one stream can read all of it and give credit back.
*/
module Settling {
  import opened Basics
  import opened Header
  import opened Frames
  import opened Streams
  import opened StreamLaws
  import opened Endpoint
  import opened Runs
  import opened Pair
  import opened Guarantees
  import opened Shutdown
  import GC = GracefulClose
  import L = Link
  import P = LinkProofs
  import PairProofs
  import AnyRemote

  // ---------------------------------------------------------------- what is under way

  /** A weight of frames summed up, each counted with a surcharge. */
  function Sum(fs: seq<Frame>, w: Frame -> nat, c: nat): nat {
    if fs == [] then 0 else w(fs[0]) + c + Sum(fs[1..], w, c)
  }

  lemma {:induction false} SumAppend(fs: seq<Frame>, f: Frame, w: Frame -> nat, c: nat)
    ensures Sum(fs + [f], w, c) == Sum(fs, w, c) + w(f) + c
  {
    if fs == [] {
      assert [] + [f] == [f] && [f][1..] == [];
    } else {
      assert (fs + [f])[1..] == fs[1..] + [f];
      SumAppend(fs[1..], f, w, c);
    }
  }

  /** A frame in a queue has two moves before it, one in a slot has one. */
  function QueueMeasure(w: Frame -> nat, c: nat): seq<Frame> -> nat {
    (s: seq<Frame>) => Sum(s, w, 2 * c)
  }

  /** All that `e` still has to deliver. */
  ghost function Amount(e: Endpoint, wire: seq<Frame>, w: Frame -> nat, c: nat): nat {
    Sum(wire, w, 0) + Sum(Opt(e.pendingRead), w, c) + Sum(Opt(e.pendingWrite), w, c) + Total(GC.QueuesOf(e), QueueMeasure(w, c))
  }

  lemma SumOpt(o: Option<Frame>, w: Frame -> nat, c: nat)
    ensures Sum(Opt(o), w, c) == if o.Some? then w(o.value) + c else 0
  {
    if o.Some? {
      assert Opt(o)[1..] == [];
    }
  }

  /** A step of a connection that moves one frame: out of a slot, out of a queue, or off the wire. */
  predicate Moves(p: Pair, act: Act) {
    && AEnabled(p, act)
    && (act.FlushPendingRead? || act.FlushPendingWrite? || act.ReadFrame?
        || (act.PollReceiver? && p.a.streams[act.id].queue != []))
  }

  lemma SlotAmount(p: Pair, act: Act, w: Frame -> nat, c: nat)
    requires Moves(p, act) && (act.FlushPendingRead? || act.FlushPendingWrite?)
    ensures var q := AStep(p, act); Amount(q.a, q.ab, w, c) + c == Amount(p.a, p.ab, w, c)
  {
    var q := AStep(p, act);
    SumOpt(p.a.pendingRead, w, c);
    SumOpt(p.a.pendingWrite, w, c);
    SumOpt(None, w, c);
    if act.FlushPendingRead? {
      SumAppend(p.ab, p.a.pendingRead.value, w, 0);
    } else {
      SumAppend(p.ab, p.a.pendingWrite.value, w, 0);
    }
    assert GC.QueuesOf(q.a) == GC.QueuesOf(p.a);
  }

  lemma QueueAmount(p: Pair, act: Act, w: Frame -> nat, c: nat)
    requires Moves(p, act) && act.PollReceiver?
    ensures var q := AStep(p, act); Amount(q.a, q.ab, w, c) + c == Amount(p.a, p.ab, w, c)
  {
    var q, s := AStep(p, act), p.a.streams[act.id];
    SumOpt(None, w, c);
    SumOpt(Some(s.queue[0]), w, c);
    TotalChange(GC.QueuesOf(p.a), QueueMeasure(w, c), act.id, s.queue[1..]);
    assert GC.QueuesOf(q.a) == GC.QueuesOf(p.a)[act.id := s.queue[1..]];
    assert p.ab + [] == p.ab;
  }

  /** What a step of `a` takes off its own account. */
  lemma OwnAmount(p: Pair, act: Act, w: Frame -> nat, c: nat)
    requires Moves(p, act) && !act.ReadFrame?
    ensures var q := AStep(p, act); Amount(q.a, q.ab, w, c) + c == Amount(p.a, p.ab, w, c)
  {
    if act.PollReceiver? {
      QueueAmount(p, act, w, c);
    } else {
      SlotAmount(p, act, w, c);
    }
  }

  /** Streams after a frame was read: the same queues, perhaps a new and empty one. */
  lemma QueuesAfter(q: map<u32, seq<Frame>>, id: u32, m: seq<Frame> -> nat)
    requires id !in q && m([]) == 0
    ensures Total(q[id := []], m) == Total(q, m)
  {
    TotalRemove(q[id := []], m, id);
    assert q[id := []] - {id} == q;
  }

  /** The answer to a frame that is neither a go-away nor refused. */
  predicate Answered(e: Endpoint, f: Frame) {
    var n := OnFrame(e, f);
    && n == e.(streams := n.streams, rtt := n.rtt, pendingRead := n.pendingRead)
    && (n.pendingRead.Some? ==> f.header.tag.Ping? && !f.Ack() && n.pendingRead == Some(PongFrame(f.header.length)))
    && (!f.OfStream() ==> n.streams == e.streams)
  }

  lemma EmptySum(w: Frame -> nat, c: nat)
    ensures QueueMeasure(w, c)([]) == 0
  {
  }

  /** Reading never lengthens a queue. */
  lemma QueuesRead(p: Pair, w: Frame -> nat, c: nat)
    requires Inv(p) && AEnabled(p, ReadFrame) && !p.ba[0].header.tag.GoAway? && Answered(p.a, p.ba[0])
    ensures Total(GC.QueuesOf(OnFrame(p.a, p.ba[0])), QueueMeasure(w, c)) == Total(GC.QueuesOf(p.a), QueueMeasure(w, c))
  {
    var e, f := p.a, p.ba[0];
    var n := OnFrame(e, f);
    if f.OfStream() {
      var id := f.header.streamId;
      StreamQueues(p);
      if id !in e.streams && id in n.streams {
        QueuesAfter(GC.QueuesOf(e), id, QueueMeasure(w, c));
      }
    } else {
      assert GC.QueuesOf(n) == GC.QueuesOf(e);
    }
  }

  lemma TakenQueue(p: Pair)
    requires Inv(p) && AEnabled(p, ReadFrame) && p.ba[0].OfStream()
    ensures var e, id := p.a, p.ba[0].header.streamId;
            var t := Receive(View(e, id), p.ba[0], !Local(e.mode, id), Full(e)).1;
            t.queue == View(e, id).queue && (id !in e.streams ==> t.queue == [])
  {
    var l := LinkOf(p, p.ba[0].header.streamId);
    PairProofs.ArrivesInLink(p);
    P.ReceiveEffect(l, Full(p.a));
  }

  lemma StreamQueues(p: Pair)
    requires Inv(p) && AEnabled(p, ReadFrame) && p.ba[0].OfStream()
    ensures var e, n, id := p.a, OnFrame(p.a, p.ba[0]), p.ba[0].header.streamId;
            if id in e.streams || id !in n.streams then GC.QueuesOf(n) == GC.QueuesOf(e)
            else GC.QueuesOf(n) == GC.QueuesOf(e)[id := []]
  {
    var e, f := p.a, p.ba[0];
    var id := f.header.streamId;
    var t := Receive(View(e, id), f, !Local(e.mode, id), Full(e)).1;
    TakenQueue(p);
    StreamsRead(e, f, t);
    QueuesWith(e, OnFrame(e, f), id, t);
  }

  lemma StreamsRead(e: Endpoint, f: Frame, t: Stream)
    requires f.OfStream() && t == Receive(View(e, f.header.streamId), f, !Local(e.mode, f.header.streamId), Full(e)).1
    ensures var n, id := OnFrame(e, f), f.header.streamId;
            n.streams == e.streams || n.streams == e.streams[id := t]
  {
  }

  lemma QueuesWith(e: Endpoint, n: Endpoint, id: u32, t: Stream)
    requires n.streams == e.streams || n.streams == e.streams[id := t]
    requires t.queue == if id in e.streams then e.streams[id].queue else []
    ensures if id in e.streams || id !in n.streams then GC.QueuesOf(n) == GC.QueuesOf(e)
            else GC.QueuesOf(n) == GC.QueuesOf(e)[id := []]
  {
  }

  /** What reading does to the reader's own account: an answer to a ping, no more. */
  lemma AnswerAmount(p: Pair, w: Frame -> nat, c: nat)
    requires Inv(p) && AEnabled(p, ReadFrame) && !p.ba[0].header.tag.GoAway? && Answered(p.a, p.ba[0])
    ensures var n, f := OnFrame(p.a, p.ba[0]), p.ba[0];
            Amount(n, p.ab, w, c) <= Amount(p.a, p.ab, w, c) + (if f.header.tag.Ping? && !f.Ack() then w(PongFrame(f.header.length)) + c else 0)
  {
    QueuesRead(p, w, c);
    SumOpt(OnFrame(p.a, p.ba[0]).pendingRead, w, c);
    SumOpt(None, w, c);
  }

  lemma ReadSides(p: Pair)
    requires AEnabled(p, ReadFrame)
    ensures AStep(p, ReadFrame) == p.(a := OnFrame(p.a, p.ba[0]), ba := p.ba[1..])
  {
    assert p.ab + [] == p.ab;
  }

  lemma ReadAmount(p: Pair, w: Frame -> nat, c: nat)
    requires Inv(p) && AEnabled(p, ReadFrame) && !p.ba[0].header.tag.GoAway? && Answered(p.a, p.ba[0])
    ensures var q, f := AStep(p, ReadFrame), p.ba[0];
            && Amount(q.a, q.ab, w, c) <= Amount(p.a, p.ab, w, c) + (if f.header.tag.Ping? && !f.Ack() then w(PongFrame(f.header.length)) + c else 0)
            && Amount(p.b, p.ba, w, c) == Amount(q.b, q.ba, w, c) + w(f)
  {
    AnswerAmount(p, w, c);
    ReadSides(p);
  }

  // ---------------------------------------------------------------- a calm pair

  /** A ping weighs more, for it is answered. */
  function Weight(f: Frame): nat {
    if f.header.tag.Ping? && !f.Ack() then 4 else 1
  }

  function Opening(f: Frame): nat {
    if f.OfStream() && f.Syn() then 1 else 0
  }

  ghost function Work(p: Pair): nat {
    Amount(p.a, p.ab, Weight, 1) + Amount(p.b, p.ba, Weight, 1)
  }

  /** `e` has room for every stream that `peer` is opening. */
  ghost predicate Room(e: Endpoint, peer: Endpoint, wire: seq<Frame>) {
    |Table(e)| + Amount(peer, wire, Opening, 0) <= e.limits.maxNumStreams
  }

  predicate NoGoAway(w: seq<Frame>) {
    forall f :: f in w ==> !f.header.tag.GoAway?
  }

  /** Both connections run, neither is about to be told to go away, and no table is about to overflow. */
  ghost predicate Calm(p: Pair) {
    && p.a.phase.Active? && p.b.phase.Active?
    && NoGoAway(Outgoing(p.a, p.ab)) && NoGoAway(Outgoing(p.b, p.ba))
    && Room(p.a, p.b, p.ba) && Room(p.b, p.a, p.ab)
  }

  /** A frame that is read is not a go-away, and if it opens a stream there is room. */
  lemma ReadsRoom(p: Pair)
    requires Inv(p) && Calm(p) && AEnabled(p, ReadFrame)
    ensures !p.ba[0].header.tag.GoAway? && (Opening(p.ba[0]) == 1 ==> !Full(p.a))
  {
    assert p.ba[0] in Outgoing(p.b, p.ba);
    assert Sum(p.ba, Opening, 0) >= Opening(p.ba[0]);
  }

  lemma ReadsStream(p: Pair)
    requires Inv(p) && AEnabled(p, ReadFrame) && p.ba[0].OfStream() && (p.ba[0].Syn() ==> !Full(p.a))
    ensures Answered(p.a, p.ba[0])
  {
    PairProofs.ArrivesInLink(p);
    P.ReceiveEffect(LinkOf(p, p.ba[0].header.streamId), Full(p.a));
    PairProofs.OnFrameAnswers(p.a, p.ba[0]);
    Unrefused(p.a, p.ba[0]);
  }

  lemma ReadsPing(p: Pair)
    requires Inv(p) && AEnabled(p, ReadFrame) && p.ba[0].header.tag.Ping?
    ensures Answered(p.a, p.ba[0])
  {
    assert p.ba[0] in Outgoing(p.b, p.ba);
    PairProofs.OnFrameAnswers(p.a, p.ba[0]);
    if Matches(Pongs, p.ba[0]) {
      PairProofs.PongExpected(p);
    }
  }

  lemma ReadsCalmly(p: Pair)
    requires Inv(p) && Calm(p) && AEnabled(p, ReadFrame)
    ensures !p.ba[0].header.tag.GoAway? && (Opening(p.ba[0]) == 1 ==> !Full(p.a))
    ensures Answered(p.a, p.ba[0])
  {
    ReadsRoom(p);
    if p.ba[0].OfStream() {
      ReadsStream(p);
    } else {
      ReadsPing(p);
    }
  }

  lemma Unrefused(e: Endpoint, f: Frame)
    requires f.OfStream() && e.pendingRead.None?
    requires var v := Receive(View(e, f.header.streamId), f, !Local(e.mode, f.header.streamId), Full(e)).0;
             !v.ProtocolError? && !v.InternalError?
    ensures OnFrame(e, f).pendingRead.None?
  {
  }

  // ---------------------------------------------------------------- what a move keeps of a stream

  predicate EndKept(s: Stream, t: Stream) {
    && t.position == s.position && t.dropped == s.dropped && t.flag == s.flag && t.wrote == s.wrote
    && (!s.state.CanWrite() ==> !t.state.CanWrite()) && (!s.status.Absent? ==> !t.status.Absent?) && (s.status.Removed? ==> t.status.Removed?)
  }

  /** `x` may write and `y` still reads: both handles are there, in no call, and no reset is on its way. */
  predicate Writable(l: L.Link) {
    && l.x.status.InTable? && l.y.status.InTable? && !l.x.dropped && !l.y.dropped
    && l.x.position.Idle? && l.y.position.Idle? && l.x.state.CanWrite()
    && forall f :: f in l.PipeY() ==> !f.Rst()
  }

  predicate Kept(l: L.Link, m: L.Link) {
    && EndKept(l.x, m.x) && EndKept(l.y, m.y) && l.id == m.id && l.xOpens == m.xOpens
    && (L.LaneOf(m).refused ==> L.LaneOf(l).refused)
    && (Writable(l) ==> Writable(m)) && (Writable(l.Swap()) ==> Writable(m.Swap()))
  }

  lemma EnqueueKept(l: L.Link)
    requires L.LinkEnabled(l, L.LEnqueue)
    ensures Kept(l, L.LinkStep(l, L.LEnqueue))
  {
    var m := L.LinkStep(l, L.LEnqueue);
    assert m.xy + m.x.queue == l.xy + l.x.queue;
    assert m.PipeX() == l.PipeX() && m.PipeY() == l.PipeY();
  }

  /** The reading end keeps what it is. */
  lemma EndReads(l: L.Link, full: bool)
    requires L.Inv(l) && L.LinkEnabled(l, L.LReceive(full)) && P.Absorbed(L.Judge(l, full).0)
    ensures EndKept(l.x, L.Judge(l, full).1)
  {
    P.ReceiveEffect(l, full);
    P.Arriving(l);
    if l.x.status.InTable? {
      ReceiveMeans(l.x, l.yx[0], !l.xOpens, full);
    }
  }

  lemma ReceiveKept(l: L.Link, full: bool)
    requires L.Inv(l) && L.LinkEnabled(l, L.LReceive(full)) && (l.yx[0].Syn() ==> !full)
    ensures Kept(l, L.LinkStep(l, L.LReceive(full)))
  {
    var (verdict, t) := L.Judge(l, full);
    var m := L.LinkStep(l, L.LReceive(full));
    P.ReceiveEffect(l, full);
    if P.Absorbed(verdict) {
      P.TakenNotRefused(l, m);
      EndReads(l, full);
      AbsorbedKept(l, full);
    } else {
      assert m == P.AfterRead(l, l.x);
      IgnoredKept(l, m);
    }
  }

  lemma AbsorbedKept(l: L.Link, full: bool)
    requires L.Inv(l) && L.LinkEnabled(l, L.LReceive(full)) && P.Absorbed(L.Judge(l, full).0)
    ensures var m := L.LinkStep(l, L.LReceive(full));
            (Writable(l) ==> Writable(m)) && (Writable(l.Swap()) ==> Writable(m.Swap()))
  {
    var t, f, m := L.Judge(l, full).1, l.yx[0], L.LinkStep(l, L.LReceive(full));
    P.ReceiveEffect(l, full);
    P.Arriving(l);
    P.ReadPipes(l, t);
    assert m == P.AfterRead(l, t);
    assert f in l.PipeY();
    if Writable(l) {
      ReceiveMeans(l.x, f, !l.xOpens, full);
      assert forall g :: g in m.PipeY() ==> g in l.PipeY();
    }
    if Writable(l.Swap()) {
      assert L.Half(L.LaneOf(l).Swap());
      assert !L.Quiet(l.y);
      assert !L.Ends(f);
      ReceiveMeans(l.x, f, !l.xOpens, full);
    }
  }

  /** A frame nobody takes is not the SYN that would have opened the stream. */
  lemma IgnoredKept(l: L.Link, m: L.Link)
    requires L.Inv(l) && l.yx != [] && !l.yx[0].Syn() && !l.x.status.InTable?
    requires m == P.AfterRead(l, l.x)
    ensures Kept(l, m)
  {
    P.ReadPipes(l, l.x);
    var f, q, rest := l.yx[0], l.PipeY(), m.PipeY();
    assert q == [f] + rest;
    assert L.HasSyn(rest) <==> L.HasSyn(q) by {
      assert f in q;
      assert forall g :: g in q <==> g == f || g in rest;
    }
  }

  lemma LinkKept(l: L.Link, op: L.LinkOp)
    requires L.Inv(l) && L.LinkEnabled(l, op)
    requires op.LEnqueue? || (op.LReceive? && (l.yx[0].Syn() ==> !op.full))
    ensures Kept(l, L.LinkStep(l, op))
  {
    if op.LEnqueue? {
      EnqueueKept(l);
    } else {
      ReceiveKept(l, op.full);
    }
  }

  // ---------------------------------------------------------------- one move

  ghost predicate AllKept(p: Pair, q: Pair) {
    forall id: u32 :: Kept(LinkOf(p, id), LinkOf(q, id))
  }

  /** A move is for each stream a step that keeps it, or nothing. */
  lemma ProjectedMove(p: Pair, act: Act, id: u32)
    requires Moves(p, act) && Projected(p, act, id).Some?
    requires act.ReadFrame? ==> !p.ba[0].header.tag.GoAway? && (Opening(p.ba[0]) == 1 ==> !Full(p.a))
    ensures var op, l := Projected(p, act, id).value, LinkOf(p, id);
            op.LEnqueue? || (op.LReceive? && l.yx != [] && (l.yx[0].Syn() ==> !op.full))
  {
    if act.ReadFrame? {
      PairProofs.ArrivesInLink(p);
    }
  }

  lemma Unmoved(l: L.Link)
    ensures Kept(l, l)
  {
  }

  lemma StreamsKept(p: Pair, act: Act, id: u32)
    requires Inv(p) && Calm(p) && Moves(p, act)
    ensures Kept(LinkOf(p, id), LinkOf(AStep(p, act), id))
  {
    var l, m, op := LinkOf(p, id), LinkOf(AStep(p, act), id), Projected(p, act, id);
    PairProofs.StepFollows(p, act, id);
    if op.Some? {
      if act.ReadFrame? {
        ReadsRoom(p);
      }
      ProjectedMove(p, act, id);
      assert L.Inv(l);
      LinkKept(l, op.value);
    } else {
      Unmoved(m);
    }
  }

  lemma TableAfterRead(e: Endpoint, f: Frame)
    requires !f.header.tag.GoAway? && Answered(e, f)
    ensures |Table(OnFrame(e, f))| <= |Table(e)| + Opening(f)
  {
    var n := OnFrame(e, f);
    forall id | id in Table(n) && id !in Table(e)
      ensures Opening(f) == 1 && id == f.header.streamId
    {
      AnyRemote.FrameEnters(e, f, id);
    }
    if Opening(f) == 1 {
      AnyRemote.SubsetSize(Table(n), Table(e) + {f.header.streamId});
    } else {
      AnyRemote.SubsetSize(Table(n), Table(e));
    }
  }

  lemma ReadNoGoAway(p: Pair)
    requires Calm(p) && AEnabled(p, ReadFrame) && !p.ba[0].header.tag.GoAway? && Answered(p.a, p.ba[0])
    ensures var q := AStep(p, ReadFrame); NoGoAway(Outgoing(q.a, q.ab)) && NoGoAway(Outgoing(q.b, q.ba))
  {
    var q := AStep(p, ReadFrame);
    assert q.b == p.b && q.ba == p.ba[1..] && q.ab == p.ab + [] == p.ab;
    assert forall g :: g in Outgoing(q.a, q.ab) ==> g in Outgoing(p.a, p.ab) || q.a.pendingRead == Some(g);
    assert forall g :: g in Outgoing(q.b, q.ba) ==> g in Outgoing(p.b, p.ba);
  }

  lemma ReadLimits(p: Pair)
    requires AEnabled(p, ReadFrame) && !p.ba[0].header.tag.GoAway? && Answered(p.a, p.ba[0])
    ensures var q := AStep(p, ReadFrame);
            q.b == p.b && q.a.limits == p.a.limits && q.a.phase == p.a.phase && |Table(q.a)| <= |Table(p.a)| + Opening(p.ba[0])
  {
    TableAfterRead(p.a, p.ba[0]);
  }

  lemma ReadRoom(p: Pair)
    requires Inv(p) && Calm(p) && AEnabled(p, ReadFrame) && !p.ba[0].header.tag.GoAway? && Answered(p.a, p.ba[0])
    ensures var q := AStep(p, ReadFrame);
            Room(q.a, q.b, q.ba) && Room(q.b, q.a, q.ab) && q.a.phase.Active? && q.b.phase.Active?
  {
    ReadAmount(p, Opening, 0);
    ReadLimits(p);
  }

  lemma ReadWork(p: Pair)
    requires Inv(p) && AEnabled(p, ReadFrame) && !p.ba[0].header.tag.GoAway? && Answered(p.a, p.ba[0])
    ensures Work(AStep(p, ReadFrame)) < Work(p)
  {
    ReadAmount(p, Weight, 1);
  }

  lemma ReadKeepsCalm(p: Pair)
    requires Inv(p) && Calm(p) && AEnabled(p, ReadFrame)
    ensures Calm(AStep(p, ReadFrame)) && Work(AStep(p, ReadFrame)) < Work(p)
  {
    ReadsCalmly(p);
    ReadNoGoAway(p);
    ReadRoom(p);
    ReadWork(p);
  }

  lemma OwnNoGoAway(p: Pair, act: Act)
    requires Calm(p) && Moves(p, act) && !act.ReadFrame? && PairProofs.QueuesClean(p.a)
    ensures var q := AStep(p, act); NoGoAway(Outgoing(q.a, q.ab))
  {
    var q := AStep(p, act);
    assert forall g :: g in Outgoing(q.a, q.ab) ==> g in Outgoing(p.a, p.ab) || g.OfStream();
  }

  lemma OwnRest(p: Pair, act: Act)
    requires Moves(p, act) && !act.ReadFrame?
    ensures var q := AStep(p, act); q.b == p.b && q.ba == p.ba && Table(q.a) == Table(p.a) && q.a.limits == p.a.limits && q.a.phase == p.a.phase
  {
  }

  lemma OwnKeepsCalm(p: Pair, act: Act)
    requires Inv(p) && Calm(p) && Moves(p, act) && !act.ReadFrame?
    ensures Calm(AStep(p, act)) && Work(AStep(p, act)) < Work(p)
  {
    PairProofs.CleanQueues(p);
    OwnRest(p, act);
    OwnNoGoAway(p, act);
    OwnAmount(p, act, Weight, 1);
    OwnAmount(p, act, Opening, 0);
  }

  lemma MoveKeeps(p: Pair, act: Act)
    requires Inv(p) && Calm(p) && Moves(p, act)
    ensures var q := AStep(p, act); Inv(q) && Calm(q) && Work(q) < Work(p) && AllKept(p, q)
  {
    PairProofs.AStepKeeps(p, act);
    if act.ReadFrame? {
      ReadKeepsCalm(p);
    } else {
      OwnKeepsCalm(p, act);
    }
    forall id: u32
      ensures Kept(LinkOf(p, id), LinkOf(AStep(p, act), id))
    {
      StreamsKept(p, act, id);
    }
  }

  // ---------------------------------------------------------------- the news of a dropped handle

  /** An end marker for a handle whose queue is empty adds at most one frame, and that opens nothing. */
  lemma MarkerAmount(p: Pair, id: u32)
    requires Sound(p.a) && AEnabled(p, PollReceiver(id)) && p.a.streams[id].queue == []
    ensures var q := AStep(p, PollReceiver(id)); Amount(q.a, q.ab, Opening, 0) == Amount(p.a, p.ab, Opening, 0)
  {
    var q := AStep(p, PollReceiver(id));
    SumOpt(p.a.pendingWrite, Opening, 0);
    SumOpt(q.a.pendingWrite, Opening, 0);
    assert GC.QueuesOf(q.a) == GC.QueuesOf(p.a);
    assert p.ab + [] == p.ab;
  }

  lemma MarkerRest(p: Pair, id: u32)
    requires Sound(p.a) && AEnabled(p, PollReceiver(id)) && p.a.streams[id].queue == []
    ensures var q := AStep(p, PollReceiver(id));
            && q.b == p.b && q.ba == p.ba && Table(q.a) <= Table(p.a) && q.a.limits == p.a.limits && q.a.phase == p.a.phase
            && View(q.a, id) == EndMarker(p.a.streams[id], id).0
            && (NoGoAway(Outgoing(p.a, p.ab)) ==> NoGoAway(Outgoing(q.a, q.ab)))
  {
    PairProofs.MarkerOutgoing(p, PollReceiver(id));
  }

  lemma MarkerKeepsCalm(p: Pair, id: u32)
    requires Inv(p) && Calm(p) && AEnabled(p, PollReceiver(id)) && p.a.streams[id].queue == []
    ensures var q := AStep(p, PollReceiver(id)); Calm(q) && q.b == p.b && View(q.a, id) == EndMarker(p.a.streams[id], id).0
  {
    MarkerAmount(p, id);
    MarkerRest(p, id);
    AnyRemote.SubsetSize(Table(AStep(p, PollReceiver(id)).a), Table(p.a));
  }

  /** Nothing of `e` is under way, and nothing waits for it. */
  predicate Still(e: Endpoint, inbox: seq<Frame>) {
    && e.pendingRead.None? && e.pendingWrite.None? && inbox == []
    && forall id :: id in e.streams ==> e.streams[id].queue == []
  }

  predicate Drained(p: Pair) {
    Still(p.a, p.ba) && Still(p.b, p.ab)
  }

  lemma NextMove(p: Pair) returns (act: Act)
    requires p.a.phase.Active? && !Still(p.a, p.ba)
    ensures Moves(p, act)
  {
    if p.a.pendingRead.Some? {
      act := FlushPendingRead;
    } else if p.a.pendingWrite.Some? {
      act := FlushPendingWrite;
    } else if p.ba != [] {
      act := ReadFrame;
    } else {
      var id :| id in p.a.streams && p.a.streams[id].queue != [];
      act := PollReceiver(id);
    }
  }

  // ---------------------------------------------------------------- until all is still

  lemma SwapCalm(p: Pair)
    requires Inv(p) && Calm(p)
    ensures Inv(p.Swap()) && Calm(p.Swap()) && Work(p.Swap()) == Work(p)
  {
    PairProofs.SwapKeeps(p);
  }

  lemma SwapKept(p: Pair, q: Pair)
    requires p.a.mode != p.b.mode && q.a.mode != q.b.mode && AllKept(p.Swap(), q.Swap())
    ensures AllKept(p, q)
  {
    forall id: u32
      ensures Kept(LinkOf(p, id), LinkOf(q, id))
    {
      PairProofs.LinkSwap(p, id);
      PairProofs.LinkSwap(q, id);
      assert Kept(LinkOf(p.Swap(), id), LinkOf(q.Swap(), id));
    }
  }

  lemma AnyMove(p: Pair) returns (event: Event)
    requires Inv(p) && Calm(p) && !Drained(p)
    ensures PairEnabled(p, event.side, event.act) && !event.act.OnHandle?
    ensures var q := PairStep(p, event.side, event.act); Inv(q) && Calm(q) && Work(q) < Work(p) && AllKept(p, q)
  {
    if !Still(p.a, p.ba) {
      var act := NextMove(p);
      MoveKeeps(p, act);
      event := Event(A, act);
    } else {
      SwapCalm(p);
      var act := NextMove(p.Swap());
      MoveKeeps(p.Swap(), act);
      var q := AStep(p.Swap(), act);
      SwapCalm(q);
      SwapKept(p, q.Swap());
      event := Event(B, act);
    }
  }

  predicate ByConnections(run: seq<Event>) {
    forall event :: event in run ==> !event.act.OnHandle?
  }

  lemma KeptOn(p: Pair, t: Pair, q: Pair)
    requires AllKept(p, t) && AllKept(t, q)
    ensures AllKept(p, q)
  {
    forall id: u32
      ensures Kept(LinkOf(p, id), LinkOf(q, id))
    {
      KeptTwice(LinkOf(p, id), LinkOf(t, id), LinkOf(q, id));
    }
  }

  lemma KeptTwice(l: L.Link, m: L.Link, n: L.Link)
    requires Kept(l, m) && Kept(m, n)
    ensures Kept(l, n)
  {
  }

  /** Where the connections alone can lead. */
  ghost predicate SettledBy(p: Pair, run: seq<Event>) {
    && ByConnections(run) && Run(p, run).Some?
    && var q := Run(p, run).value; Inv(q) && Calm(q) && Drained(q) && AllKept(p, q)
  }

  lemma OneMore(p: Pair, event: Event, rest: seq<Event>)
    requires PairEnabled(p, event.side, event.act) && !event.act.OnHandle?
    requires AllKept(p, PairStep(p, event.side, event.act)) && SettledBy(PairStep(p, event.side, event.act), rest)
    ensures SettledBy(p, [event] + rest)
  {
    var t := PairStep(p, event.side, event.act);
    FoldCons(Next, p, event, rest);
    KeptOn(p, t, Run(t, rest).value);
  }

  lemma Same(p: Pair)
    ensures AllKept(p, p)
  {
  }

  /**
    The connections alone, without a step of any handle, can bring all that is under way to its
    end: every frame is delivered, every ping answered, and no stream loses what it had.
  */
  lemma {:induction false} Settles(p: Pair) returns (run: seq<Event>)
    requires Inv(p) && Calm(p)
    ensures SettledBy(p, run)
    decreases Work(p)
  {
    if Drained(p) {
      run := [];
      Same(p);
    } else {
      var event := AnyMove(p);
      var rest := Settles(PairStep(p, event.side, event.act));
      run := [event] + rest;
      OneMore(p, event, rest);
    }
  }
}
