/**
  The pair with sockets of bounded capacity. A writer holds what the wire has no room for, and a
  reader takes bytes before it has a frame, so writing and reading may wait for each other.
*/
module Backpressure {
  import opened Basics
  import opened Runs
  import opened Frames
  import opened Streams
  import opened Endpoint
  import opened Codec
  import P = Pair
  import G = Guarantees

  /**
    One direction: the frames the writer was given and the reader has not handed out. `missing` bytes
    of the last are still with the writer, `taken` bytes of the first already with the reader.
  */
  datatype Wire = Wire(frames: seq<Frame>, missing: nat, taken: nat) {
    function Size(): nat { |EncodeAll(frames)| }

    predicate Sound() {
      && (frames == [] ==> missing == 0 && taken == 0)
      && (frames != [] ==> missing <= |EncodeFrame(frames[|frames| - 1])| && taken <= |EncodeFrame(frames[0])|)
      && missing + taken <= Size()
    }

    /** Bytes in the socket. */
    function OnWire(): int { Size() - missing - taken }

    /** The first frame is complete. */
    predicate Arrived() { frames != [] && taken == |EncodeFrame(frames[0])| }
  }

  const EMPTY := Wire([], 0, 0)

  datatype Bounded = Bounded(capacity: nat, a: Endpoint, b: Endpoint, ab: Wire, ba: Wire) {
    function Swap(): Bounded { Bounded(capacity, b, a, ba, ab) }

    predicate Sound() {
      ab.Sound() && ba.Sound() && ab.OnWire() <= capacity && ba.OnWire() <= capacity
    }
  }

  /** The socket moves bytes for `a`, or `a` makes a step of its own. */
  datatype Move = Write(k: nat) | Take(k: nat) | Do(act: Act)

  /** A frame is given to the writer, or the writer is to be shut, which takes a clear writer. */
  predicate NeedsWriter(act: Act) {
    act.SendPing? || act.FlushPendingRead? || act.FlushPendingWrite? || act.FlushOutbox? || act.CloseSocket?
  }

  predicate AEnabled(p: Bounded, m: Move) {
    match m
    case Write(k) => !p.a.phase.Gone? && 0 < k <= p.ab.missing && p.ab.OnWire() + k <= p.capacity
    case Take(k) =>
      && p.a.phase.Active? && p.a.pendingRead.None? && p.ba.frames != []
      && 0 < k <= p.ba.OnWire() && p.ba.taken + k <= |EncodeFrame(p.ba.frames[0])|
    case Do(act) =>
      && Enabled(p.a, p.ba.frames, act)
      && (NeedsWriter(act) ==> p.ab.missing == 0)
      && (act.ReadFrame? ==> p.ba.Arrived())
  }

  function AStep(p: Bounded, m: Move): Bounded
    requires AEnabled(p, m)
  {
    match m
    case Write(k) => p.(ab := p.ab.(missing := p.ab.missing - k))
    case Take(k) => p.(ba := p.ba.(taken := p.ba.taken + k))
    case Do(act) =>
      var r := Step(p.a, p.ba.frames, act);
      p.(a := r.e,
         ab := if r.sent == [] then p.ab else Wire(p.ab.frames + r.sent, |EncodeAll(r.sent)|, p.ab.taken),
         ba := if act.ReadFrame? then Wire(r.inbox, p.ba.missing, 0) else p.ba)
  }

  predicate PairEnabled(p: Bounded, side: P.Side, m: Move) {
    AEnabled(From(p, side), m)
  }

  /** The pair as `side` sees it. */
  function From(p: Bounded, side: P.Side): Bounded {
    if side.A? then p else p.Swap()
  }

  function PairStep(p: Bounded, side: P.Side, m: Move): Bounded
    requires PairEnabled(p, side, m)
  {
    From(AStep(From(p, side), m), side)
  }

  datatype Event = Event(side: P.Side, move: Move)

  function Next(p: Bounded, event: Event): Option<Bounded> {
    if PairEnabled(p, event.side, event.move) then Some(PairStep(p, event.side, event.move)) else None
  }

  function Start(capacity: nat, a: Limits, b: Limits): Bounded {
    Bounded(capacity, Init(Client, a), Init(Server, b), EMPTY, EMPTY)
  }

  ghost predicate Reachable(p: Bounded) {
    exists a: Limits, b: Limits, run: seq<Event> ::
      G.Conforming(a) && G.Conforming(b) && Fold(Next, Start(p.capacity, a, b), run) == Some(p)
  }

  // ---------------------------------------------------------------- the unbounded pair

  /** The same pair with nothing said about where the bytes are. */
  function Forget(p: Bounded): P.Pair {
    P.Pair(p.a, p.b, p.ab.frames, p.ba.frames)
  }

  /** A bounded step is a step of the unbounded pair, or only moves bytes. */
  lemma StepForgets(p: Bounded, side: P.Side, m: Move)
    requires PairEnabled(p, side, m)
    ensures var q := PairStep(p, side, m);
            if m.Do? then P.PairEnabled(Forget(p), side, m.act) && Forget(q) == P.PairStep(Forget(p), side, m.act)
            else Forget(q) == Forget(p)
    ensures PairStep(p, side, m).capacity == p.capacity
  {
    var v := From(p, side);
    if m.Do? {
      var r := Step(v.a, v.ba.frames, m.act);
      assert v.ab.frames + [] == v.ab.frames;
      assert !m.act.ReadFrame? ==> r.inbox == v.ba.frames;
    }
  }

  lemma {:induction false} RunForgets(p: Bounded, run: seq<Event>)
    requires G.Reachable(Forget(p)) && Fold(Next, p, run).Some?
    ensures G.Reachable(Forget(Fold(Next, p, run).value))
    decreases run
  {
    if run != [] {
      var e := run[0];
      StepForgets(p, e.side, e.move);
      if e.move.Do? {
        G.StepExtends(Forget(p), e.side, e.move.act);
      }
      RunForgets(PairStep(p, e.side, e.move), run[1..]);
    }
  }

  /** Every promise about the pair holds with bounded sockets, too. */
  lemma ReachableForgets(p: Bounded)
    requires Reachable(p)
    ensures G.Reachable(Forget(p))
  {
    var a: Limits, b: Limits, run: seq<Event> :|
      G.Conforming(a) && G.Conforming(b) && Fold(Next, Start(p.capacity, a, b), run) == Some(p);
    var start := P.Start(a, b);
    assert G.Run(start, []) == Some(start);
    assert Forget(Start(p.capacity, a, b)) == start;
    RunForgets(Start(p.capacity, a, b), run);
  }

  // ---------------------------------------------------------------- bytes add up

  lemma SizeOne(f: Frame)
    ensures |EncodeAll([f])| == |EncodeFrame(f)| >= 12
  {
    assert [f][1..] == [];
  }

  lemma SizeAppend(fs: seq<Frame>, f: Frame)
    ensures |EncodeAll(fs + [f])| == |EncodeAll(fs)| + |EncodeFrame(f)|
  {
    EncodeAllAppend(fs, f);
  }

  lemma SizeHead(fs: seq<Frame>)
    requires fs != []
    ensures |EncodeAll(fs)| == |EncodeFrame(fs[0])| + |EncodeAll(fs[1..])|
    ensures |fs| > 1 ==> |EncodeAll(fs[1..])| >= |EncodeFrame(fs[|fs| - 1])| >= 12
  {
    if |fs| > 1 {
      var rest := fs[1..];
      assert rest == rest[..|rest| - 1] + [rest[|rest| - 1]];
      SizeAppend(rest[..|rest| - 1], rest[|rest| - 1]);
    }
  }

  lemma WriterGiven(w: Wire, f: Frame)
    requires w.Sound() && w.missing == 0
    ensures Wire(w.frames + [f], |EncodeFrame(f)|, w.taken).Sound()
    ensures Wire(w.frames + [f], |EncodeFrame(f)|, w.taken).OnWire() == w.OnWire()
  {
    SizeAppend(w.frames, f);
    if w.frames == [] {
      assert w.taken == 0;
    }
  }

  lemma ReaderDone(w: Wire)
    requires w.Sound() && w.Arrived()
    ensures Wire(w.frames[1..], w.missing, 0).Sound() && Wire(w.frames[1..], w.missing, 0).OnWire() == w.OnWire()
  {
    SizeHead(w.frames);
    if |w.frames| > 1 {
      assert w.frames[1..][|w.frames| - 2] == w.frames[|w.frames| - 1];
    }
  }

  lemma SentOne(e: Endpoint, inbox: seq<Frame>, act: Act)
    requires Enabled(e, inbox, act)
    ensures var r := Step(e, inbox, act);
            && |r.sent| <= 1 && (r.sent != [] ==> NeedsWriter(act) && |EncodeAll(r.sent)| == |EncodeFrame(r.sent[0])|)
            && (act.ReadFrame? ==> r.sent == [] && inbox != [] && r.inbox == inbox[1..])
  {
    var r := Step(e, inbox, act);
    if r.sent != [] {
      assert r.sent == [r.sent[0]];
      SizeOne(r.sent[0]);
    }
  }

  /** What a step of `a` does to the two wires. */
  lemma DoSound(p: Bounded, act: Act)
    requires p.Sound() && AEnabled(p, Do(act))
    ensures AStep(p, Do(act)).ab.Sound() && AStep(p, Do(act)).ab.OnWire() == p.ab.OnWire()
    ensures AStep(p, Do(act)).ba.Sound() && AStep(p, Do(act)).ba.OnWire() == p.ba.OnWire()
  {
    SentOne(p.a, p.ba.frames, act);
    var r := Step(p.a, p.ba.frames, act);
    if r.sent != [] {
      assert r.sent == [r.sent[0]];
      WriterGiven(p.ab, r.sent[0]);
    }
    if act.ReadFrame? {
      ReaderDone(p.ba);
    }
  }

  /** No byte is made up and none is lost, and the sockets never hold more than they can. */
  lemma StepSound(p: Bounded, side: P.Side, m: Move)
    requires p.Sound() && PairEnabled(p, side, m)
    ensures PairStep(p, side, m).Sound()
  {
    if m.Do? {
      DoSound(From(p, side), m.act);
    } else {
      BytesSound(From(p, side), m);
    }
  }

  lemma BytesSound(p: Bounded, m: Move)
    requires p.Sound() && AEnabled(p, m) && !m.Do?
    ensures AStep(p, m).Sound()
  {
  }

  lemma {:induction false} RunSound(p: Bounded, run: seq<Event>)
    requires p.Sound() && Fold(Next, p, run).Some?
    ensures Fold(Next, p, run).value.Sound()
    decreases run
  {
    if run != [] {
      StepSound(p, run[0].side, run[0].move);
      RunSound(PairStep(p, run[0].side, run[0].move), run[1..]);
    }
  }

  lemma ReachableSound(p: Bounded)
    requires Reachable(p)
    ensures p.Sound()
  {
    var a: Limits, b: Limits, run: seq<Event> :|
      G.Conforming(a) && G.Conforming(b) && Fold(Next, Start(p.capacity, a, b), run) == Some(p);
    RunSound(Start(p.capacity, a, b), run);
  }

  // ---------------------------------------------------------------- when nothing moves

  /** A receiver with a command, or with news of a dropped handle the connection has not acted on. */
  predicate Ready(e: Endpoint, id: u32) {
    id in e.streams && (e.streams[id].queue != [] || (e.streams[id].dropped && e.streams[id].status.InTable?))
  }

  predicate Receives(e: Endpoint) {
    e.pendingWrite.None? && exists id :: Ready(e, id)
  }

  /** What the loop of `poll` may do for `a` without a new ping: some byte or frame or command moves. */
  predicate AMoves(p: Bounded, m: Move) {
    && AEnabled(p, m)
    && match m
       case Write(_) => true
       case Take(_) => true
       case Do(act) =>
         || act.FlushPendingRead? || act.FlushPendingWrite? || act.ReadFrame?
         || (act.PollReceiver? && Ready(p.a, act.id))
  }

  ghost predicate AStalled(p: Bounded) {
    forall m :: !AMoves(p, m)
  }

  /** Neither end can do anything for the other. */
  ghost predicate Stalled(p: Bounded) {
    AStalled(p) && AStalled(p.Swap())
  }

  /** The end `a` is in the middle of a frame the wire has no room for, and holds an answer it cannot send. */
  predicate AJammed(p: Bounded) {
    p.a.phase.Active? && p.a.pendingRead.Some? && p.ab.missing > 0 && p.ab.OnWire() == p.capacity
  }

  predicate Jammed(p: Bounded) {
    AJammed(p) && AJammed(p.Swap())
  }

  /** Nothing is under way from `a`. */
  predicate AIdle(p: Bounded) {
    p.ab.frames == [] && p.a.pendingRead.None? && p.a.pendingWrite.None?
  }

  predicate Idle(p: Bounded) {
    AIdle(p) && AIdle(p.Swap())
  }

  /** The exact condition, side by side: what `a` can do, given what it holds. */
  lemma AStalledExactly(p: Bounded)
    requires p.Sound() && p.capacity > 0 && p.a.phase.Active?
    ensures AStalled(p) <==>
              && !Receives(p.a)
              && (p.ab.missing == 0 ==> p.a.pendingRead.None? && p.a.pendingWrite.None?)
              && (p.ab.missing > 0 ==> p.ab.OnWire() == p.capacity)
              && (p.a.pendingRead.None? ==> !p.ba.Arrived() && p.ba.OnWire() == 0)
  {
    if AStalled(p) {
      AStalledThen(p);
    } else {
      AMovesThen(p);
    }
  }

  lemma AStalledThen(p: Bounded)
    requires p.Sound() && p.capacity > 0 && p.a.phase.Active? && AStalled(p)
    ensures !Receives(p.a)
    ensures p.ab.missing == 0 ==> p.a.pendingRead.None? && p.a.pendingWrite.None?
    ensures p.ab.missing > 0 ==> p.ab.OnWire() == p.capacity
    ensures p.a.pendingRead.None? ==> !p.ba.Arrived() && p.ba.OnWire() == 0
  {
    if Receives(p.a) {
      var id :| Ready(p.a, id);
      assert AMoves(p, Do(PollReceiver(id)));
    }
    assert !AMoves(p, Do(FlushPendingRead)) && !AMoves(p, Do(FlushPendingWrite)) && !AMoves(p, Do(ReadFrame));
    assert !AMoves(p, Write(1)) && !AMoves(p, Take(1));
  }

  lemma AMovesThen(p: Bounded)
    requires p.Sound() && p.capacity > 0 && p.a.phase.Active? && !AStalled(p)
    ensures || Receives(p.a)
            || (p.ab.missing == 0 && (p.a.pendingRead.Some? || p.a.pendingWrite.Some?))
            || (p.ab.missing > 0 && p.ab.OnWire() < p.capacity)
            || (p.a.pendingRead.None? && (p.ba.Arrived() || p.ba.OnWire() > 0))
  {
    var m :| AMoves(p, m);
    if m.Do? && m.act.PollReceiver? {
      assert Ready(p.a, m.act.id);
    }
  }

  /** A wire with no byte in the socket and none with the writer holds a complete frame or nothing. */
  lemma EmptySocket(w: Wire)
    requires w.Sound() && w.missing == 0 && w.OnWire() == 0
    ensures w.frames == [] || w.Arrived()
  {
    if w.frames != [] {
      SizeHead(w.frames);
    }
  }

  lemma StalledIff(p: Bounded)
    requires p.Sound() && p.capacity > 0 && p.a.phase.Active? && p.b.phase.Active?
    ensures Stalled(p) <==> !Receives(p.a) && !Receives(p.b) && (Idle(p) || Jammed(p))
  {
    AStalledExactly(p);
    AStalledExactly(p.Swap());
    if p.ab.missing == 0 && p.ab.OnWire() == 0 {
      EmptySocket(p.ab);
    }
    if p.ba.missing == 0 && p.ba.OnWire() == 0 {
      EmptySocket(p.ba);
    }
  }

  /**
    Two running ends can do nothing for each other if and only if there is nothing to do, or both
    are jammed: each in the middle of a frame the other does not read because it waits to answer.
  */
  lemma StalledExactly(p: Bounded)
    requires Reachable(p) && p.capacity > 0 && p.a.phase.Active? && p.b.phase.Active?
    ensures Stalled(p) <==> !Receives(p.a) && !Receives(p.b) && (Idle(p) || Jammed(p))
  {
    ReachableSound(p);
    StalledIff(p);
  }

  /** And a jam is for good: whatever happens, it lasts until one of the connections is closed or fails. */
  lemma JamStays(p: Bounded, side: P.Side, m: Move)
    requires Jammed(p) && PairEnabled(p, side, m)
    ensures var q := PairStep(p, side, m);
            q.a.phase.Active? && q.b.phase.Active? ==> Jammed(q) && q.ab == p.ab && q.ba == p.ba
  {
    var v := From(p, side);
    if m.Do? {
      SentOne(v.a, v.ba.frames, m.act);
    }
  }

  lemma {:induction false} JamLasts(p: Bounded, run: seq<Event>)
    requires Jammed(p) && Fold(Next, p, run).Some?
    ensures var q := Fold(Next, p, run).value;
            q.a.phase.Active? && q.b.phase.Active? ==> Jammed(q) && q.ab == p.ab && q.ba == p.ba
    decreases run
  {
    if run != [] {
      var q := PairStep(p, run[0].side, run[0].move);
      JamStays(p, run[0].side, run[0].move);
      if q.a.phase.Active? && q.b.phase.Active? {
        JamLasts(q, run[1..]);
      } else {
        EndsStay(q, run[1..]);
      }
    }
  }

  /** A connection that is not running never runs again. */
  lemma {:induction false} EndsStay(p: Bounded, run: seq<Event>)
    requires Fold(Next, p, run).Some? && !(p.a.phase.Active? && p.b.phase.Active?)
    ensures var q := Fold(Next, p, run).value; !(q.a.phase.Active? && q.b.phase.Active?)
    decreases run
  {
    if run != [] {
      PhaseForward(From(p, run[0].side), run[0].move);
      EndsStay(PairStep(p, run[0].side, run[0].move), run[1..]);
    }
  }

  lemma PhaseForward(p: Bounded, m: Move)
    requires AEnabled(p, m)
    ensures AStep(p, m).a.phase.Active? ==> p.a.phase.Active?
    ensures AStep(p, m).b == p.b
  {
  }

  /** One more possible move. */
  lemma MoveExtends(p: Bounded, side: P.Side, m: Move)
    requires Reachable(p) && PairEnabled(p, side, m)
    ensures Reachable(PairStep(p, side, m))
  {
    var a: Limits, b: Limits, run: seq<Event> :|
      G.Conforming(a) && G.Conforming(b) && Fold(Next, Start(p.capacity, a, b), run) == Some(p);
    FoldCons(Next, p, Event(side, m), []);
    FoldAppend(Next, Start(p.capacity, a, b), run, [Event(side, m)]);
    assert [Event(side, m)] + [] == [Event(side, m)];
    StepForgets(p, side, m);
  }
}
