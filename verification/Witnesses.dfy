/** Concrete runs: what two conforming endpoints can in fact reach. */
module Witnesses {
  import opened Basics
  import opened Frames
  import opened Streams
  import opened Endpoint
  import opened Pair
  import opened Guarantees
  import Active
  import opened Settling
  import opened Progress
  import opened Shutdown
  import AnyRemote
  import GC = GracefulClose
  import H = Handles

  /** The opening frame of stream 1 with one byte. */
  function Hello(): Frame {
    WithFlag(DataFrame(1, [0]), OweSyn)
  }

  /** A client opens a stream towards a server that allows `room` of them. */
  lemma ClientOpens(room: nat) returns (p: Pair)
    ensures Reachable(p) && p.ab == [] && p.ba == [] && p.b == Init(Server, Limits(room, 1))
    ensures p.a == With(Init(Client, Limits(1, 1)), 1, Fresh(OweSyn).(status := InTable)).(nextId := 3)
  {
    var start := Start(Limits(1, 1), Limits(room, 1));
    assert Run(start, []) == Some(start);
    assert Table(start.a) == {} && AckBacklog(start.a) == {};
    StepExtends(start, A, NewOutbound);
    p := PairStep(start, A, NewOutbound);
  }

  /** It writes a byte. */
  lemma ClientWrites(room: nat) returns (p: Pair)
    ensures Reachable(p) && p.ab == [] && p.ba == [] && p.b == Init(Server, Limits(room, 1))
    ensures p.a.phase.Active? && p.a.pendingRead.None? && p.a.pendingWrite.None?
    ensures p.a.streams.Keys == {1} && p.a.streams[1].queue == [Hello()] && p.a.streams[1].wrote == [0]
    ensures p.a.streams[1].position.Idle? && !p.a.streams[1].dropped
    ensures p.a.mode == Client && p.a.limits == Limits(1, 1) && p.a.outbox == [] && |Table(p.a)| <= 1
  {
    var q := ClientOpens(room);
    var s := q.a.streams[1];
    H.WritePlays(s, 1, [0], 1, true);
    Active.CallKeepsReachable(q, A, 1, [WriteBegin([0], 1), WriteFlag, Send]);
    assert [0][..1] == [0];
    p := Pair(With(q.a, 1, H.Written(s, 1, [0], true)), q.b, [], []);
    AnyRemote.SubsetSize(Table(p.a), {1});
  }

  /** The connection takes the frame off the queue and puts it on the wire. */
  lemma ClientSends() returns (p: Pair)
    ensures Reachable(p) && p.ab == [Hello()] && p.ba == [] && p.b == Init(Server, Limits(0, 1))
  {
    var q := ClientWrites(0);
    StepExtends(q, A, PollReceiver(1));
    var q1 := PairStep(q, A, PollReceiver(1));
    assert q1.a.pendingWrite == Some(Hello());
    StepExtends(q1, A, FlushPendingWrite);
    p := PairStep(q1, A, FlushPendingWrite);
  }

  /** The server refuses: two conforming endpoints do reach an internal error. */
  lemma FullTableRefuses() returns (p: Pair)
    ensures Reachable(p) && p.b.pendingRead == Some(GoAwayFrame(INTERNAL_ERROR))
  {
    var q := ClientSends();
    assert Table(q.b) == {} && Full(q.b);
    RefusesExactly(q, B);
    StepExtends(q, B, ReadFrame);
    p := PairStep(q, B, ReadFrame);
  }

  /** One SYN under way, and room for it. */
  lemma RoomForOne(p: Pair)
    requires p.a.pendingRead.None? && p.a.pendingWrite.None? && p.ab == []
    requires p.a.streams.Keys == {1} && p.a.streams[1].queue == [Hello()]
    requires p.b == Init(Server, Limits(1, 1))
    ensures Room(p.b, p.a, p.ab)
  {
    var m := QueueMeasure(Opening, 0);
    TotalRemove(GC.QueuesOf(p.a), m, 1);
    assert GC.QueuesOf(p.a) - {1} == map[];
    assert [Hello()][1..] == [];
    assert m([Hello()]) == 1;
    assert Table(p.b) == {};
  }

  /** A server that allows the stream gets the byte. */
  lemma ByteArrives() returns (p: Pair, run: seq<Event>)
    ensures Reachable(p) && Run(p, run).Some? && View(Run(p, run).value.b, 1).got == View(p.a, 1).wrote == [0]
  {
    p := ClientWrites(1);
    RoomForOne(p);
    assert GC.QueuesOf(p.b) == map[];
    assert Room(p.a, p.b, p.ba);
    assert Hello() in LinkOf(p, 1).PipeX();
    assert Deliverable(LinkOf(p, 1));
    run := DeliversAll(p, A, 1);
  }
}
