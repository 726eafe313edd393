/**
  A jam that two conforming endpoints reach. Each sends a ping and starts a data frame that is one
  byte longer than its socket; each reads the other's ping and now waits to answer it.
*/
module Jam {
  import opened Basics
  import opened Frames
  import opened Streams
  import opened Endpoint
  import opened Codec
  import opened Backpressure
  import Runs
  import P = Pair
  import H = Handles

  const CAPACITY := 13

  /** The id of the first stream of an endpoint. */
  function First(mode: Mode): u32 {
    if mode.Client? then 1 else 2
  }

  /** The opening frame of that stream, with two bytes: one byte more than a socket holds. */
  function Hello(mode: Mode): Frame {
    WithFlag(DataFrame(First(mode), [0, 0]), OweSyn)
  }

  /** What an end is made of at the start. */
  predicate Untouched(v: Bounded) {
    v.capacity == CAPACITY && v.a == Init(v.a.mode, Limits(1, 2)) && v.ab == EMPTY
  }

  /** Nothing changes for the peer. */
  predicate PeerKeeps(v: Bounded, w: Bounded) {
    w.capacity == v.capacity && w.b == v.b && w.ba == v.ba
  }

  predicate Running(e: Endpoint, mode: Mode) {
    e.mode == mode && e.phase.Active? && e.pendingRead.None?
  }

  lemma Moved(p: Bounded, side: P.Side, m: Move) returns (q: Bounded)
    requires Reachable(p) && PairEnabled(p, side, m)
    ensures Reachable(q) && From(q, side) == AStep(From(p, side), m)
  {
    MoveExtends(p, side, m);
    q := PairStep(p, side, m);
  }

  /** It sends a ping. */
  lemma Pings(p: Bounded, side: P.Side) returns (q: Bounded)
    requires Reachable(p) && Untouched(From(p, side))
    ensures Reachable(q) && PeerKeeps(From(p, side), From(q, side))
    ensures var v, w := From(p, side), From(q, side);
            && w.a == v.a.(rtt := Rtt(Some(0), 1, false)) && w.ab == Wire([PingFrame(0)], 0, 0)
  {
    var v := From(p, side);
    SizeOne(PingFrame(0));
    assert [] + [PingFrame(0)] == [PingFrame(0)];
    q := Moved(p, side, Do(SendPing));
    q := Moved(q, side, Write(12));
  }

  /** It opens a stream. */
  lemma Opens(p: Bounded, side: P.Side) returns (q: Bounded)
    requires Reachable(p)
    requires var v := From(p, side); v.a == Init(v.a.mode, Limits(1, 2)).(rtt := Rtt(Some(0), 1, false))
    ensures Reachable(q) && PeerKeeps(From(p, side), From(q, side)) && From(q, side).ab == From(p, side).ab
    ensures var v, w := From(p, side), From(q, side);
            && Running(w.a, v.a.mode) && w.a.pendingWrite.None? && w.a.limits == Limits(1, 2)
            && First(v.a.mode) in w.a.streams
            && w.a.streams[First(v.a.mode)] == Fresh(OweSyn).(status := InTable)
  {
    var v := From(p, side);
    assert Table(v.a) == {} && AckBacklog(v.a) == {};
    q := Moved(p, side, Do(NewOutbound));
  }

  /** One step of a handle. */
  lemma Call(p: Bounded, side: P.Side, id: u32, op: HandleOp) returns (q: Bounded)
    requires Reachable(p) && From(p, side).a.phase.Active? && id in From(p, side).a.streams
    requires HandleEnabled(From(p, side).a.streams[id], op)
    requires (op.WriteBegin? ==> op.split == From(p, side).a.limits.splitSendSize) && !op.UpdateGrant?
    ensures Reachable(q) && PeerKeeps(From(p, side), From(q, side)) && From(q, side).ab == From(p, side).ab
    ensures var v := From(p, side); From(q, side).a == With(v.a, id, Handle(v.a.streams[id], id, op, true))
  {
    q := Moved(p, side, Do(OnHandle(id, op)));
  }

  /** A call of a handle, step by step. */
  lemma {:induction false} Calls(p: Bounded, side: P.Side, id: u32, ops: seq<HandleOp>) returns (q: Bounded)
    requires Reachable(p) && From(p, side).a.phase.Active? && id in From(p, side).a.streams
    requires H.Plays(From(p, side).a.streams[id], id, ops, true).Some?
    requires forall op :: op in ops ==> (op.WriteBegin? ==> op.split == From(p, side).a.limits.splitSendSize) && !op.UpdateGrant?
    ensures Reachable(q) && PeerKeeps(From(p, side), From(q, side)) && From(q, side).ab == From(p, side).ab
    ensures var v := From(p, side); From(q, side).a == With(v.a, id, H.Plays(v.a.streams[id], id, ops, true).value)
    decreases ops
  {
    var v := From(p, side);
    if ops == [] {
      q := p;
      assert v.a.streams[id := v.a.streams[id]] == v.a.streams;
    } else {
      var next := Handle(v.a.streams[id], id, ops[0], true);
      q := Call(p, side, id, ops[0]);
      q := Calls(q, side, id, ops[1..]);
      var last := H.Plays(next, id, ops[1..], true).value;
      assert v.a.streams[id := next][id := last] == v.a.streams[id := last];
    }
  }

  /** Its handle writes two bytes. */
  lemma Writes(p: Bounded, side: P.Side, mode: Mode) returns (q: Bounded)
    requires Reachable(p)
    requires var v, id := From(p, side), First(mode);
             && Running(v.a, mode) && v.a.pendingWrite.None? && v.a.limits == Limits(1, 2)
             && id in v.a.streams && v.a.streams[id] == Fresh(OweSyn).(status := InTable)
    ensures Reachable(q) && PeerKeeps(From(p, side), From(q, side)) && From(q, side).ab == From(p, side).ab
    ensures var w, id := From(q, side), First(mode);
            && Running(w.a, mode) && w.a.pendingWrite.None?
            && id in w.a.streams && w.a.streams[id].queue == [Hello(mode)]
  {
    var id, s := First(mode), Fresh(OweSyn).(status := InTable);
    H.WritePlays(s, id, [0, 0], 2, true);
    assert [0, 0][..2] == [0, 0];
    assert H.Written(s, id, [0, 0], true).queue == [Hello(mode)];
    q := Calls(p, side, id, [WriteBegin([0, 0], 2), WriteFlag, Send]);
  }

  /** The connection starts to write the frame behind the ping; one byte finds room. */
  lemma StartsFrame(p: Bounded, side: P.Side, mode: Mode) returns (q: Bounded)
    requires Reachable(p) && p.capacity == CAPACITY
    requires var v, id := From(p, side), First(mode);
             && Running(v.a, mode) && v.a.pendingWrite.None? && v.ab == Wire([PingFrame(0)], 0, 0)
             && id in v.a.streams && v.a.streams[id].queue == [Hello(mode)]
    ensures Reachable(q) && PeerKeeps(From(p, side), From(q, side))
    ensures var w := From(q, side); Running(w.a, mode) && w.ab == Wire([PingFrame(0), Hello(mode)], 13, 0)
  {
    var hello := Hello(mode);
    SizeOne(PingFrame(0));
    SizeAppend([PingFrame(0)], hello);
    SizeOne(hello);
    assert [PingFrame(0)] + [hello] == [PingFrame(0), hello];
    q := Moved(p, side, Do(PollReceiver(First(mode))));
    assert From(q, side).a.pendingWrite == Some(hello);
    q := Moved(q, side, Do(FlushPendingWrite));
    assert From(q, side).ab == Wire([PingFrame(0), hello], 14, 0);
    q := Moved(q, side, Write(1));
  }

  /** Everything one end does before it reads. */
  lemma Loads(p: Bounded, side: P.Side) returns (q: Bounded)
    requires Reachable(p) && Untouched(From(p, side))
    ensures Reachable(q) && PeerKeeps(From(p, side), From(q, side))
    ensures var v, w := From(p, side), From(q, side);
            Running(w.a, v.a.mode) && w.ab == Wire([PingFrame(0), Hello(v.a.mode)], 13, 0)
  {
    var mode := From(p, side).a.mode;
    q := Pings(p, side);
    q := Opens(q, side);
    q := Writes(q, side, mode);
    q := StartsFrame(q, side, mode);
  }

  /** It reads the peer's ping and holds the pong. */
  lemma Reads(p: Bounded, side: P.Side, mode: Mode, f: Frame) returns (q: Bounded)
    requires Reachable(p) && Running(From(p, side).a, mode) && From(p, side).ba == Wire([PingFrame(0), f], 13, 0)
    requires |EncodeFrame(f)| == 14
    ensures Reachable(q)
    ensures var v, w := From(p, side), From(q, side);
            && w.capacity == v.capacity && w.b == v.b && w.ab == v.ab && w.ba == Wire([f], 13, 0)
            && w.a.phase.Active? && w.a.pendingRead == Some(PongFrame(0))
  {
    SizeOne(PingFrame(0));
    SizeAppend([PingFrame(0)], f);
    assert [PingFrame(0)] + [f] == [PingFrame(0), f] && [PingFrame(0), f][1..] == [f];
    q := Moved(p, side, Take(12));
    q := Moved(q, side, Do(ReadFrame));
  }

  /** The room this makes is filled at once. */
  lemma Fills(p: Bounded, side: P.Side, f: Frame) returns (q: Bounded)
    requires Reachable(p) && p.capacity == CAPACITY && From(p, side).ab == Wire([f], 13, 0) && |EncodeFrame(f)| == 14
    requires From(p, side).a.phase.Active?
    ensures Reachable(q) && PeerKeeps(From(p, side), From(q, side))
    ensures From(q, side).a == From(p, side).a && From(q, side).ab == Wire([f], 1, 0)
  {
    SizeOne(f);
    q := Moved(p, side, Write(12));
  }

  /** Both ends get there: two conforming endpoints can wait for each other for ever. */
  lemma JamReachable() returns (p: Bounded)
    ensures Reachable(p) && p.capacity > 0 && Jammed(p)
  {
    var limits := Limits(1, 2);
    p := Backpressure.Start(CAPACITY, limits, limits);
    assert Unmoved(p);
    p := Loads(p, P.A);
    p := Loads(p, P.B);
    SizeOne(Hello(Client));
    SizeOne(Hello(Server));
    p := Reads(p, P.A, Client, Hello(Server));
    p := Reads(p, P.B, Server, Hello(Client));
    p := Fills(p, P.A, Hello(Client));
    p := Fills(p, P.B, Hello(Server));
  }

  /** A pair that has made no move is reachable. */
  predicate Unmoved(p: Bounded) {
    Runs.Fold(Next, p, []) == Some(p)
  }
}
