/** In every reachable pair an end of writing, a forgotten stream and an acknowledgement reach the peer. */
module Notices {
  import opened Basics
  import opened Frames
  import opened Streams
  import opened Endpoint
  import opened Pair
  import opened Guarantees
  import opened LinkNotices
  import L = Link
  import PairProofs

  predicate AllTold(p: Pair) {
    forall id: u32 :: Told(LinkOf(p, id))
  }

  lemma AStepTold(p: Pair, act: Act)
    requires Inv(p) && AllTold(p) && AEnabled(p, act)
    ensures AllTold(AStep(p, act))
  {
    forall id: u32
      ensures Told(LinkOf(AStep(p, act), id))
    {
      OneTold(p, act, id);
    }
  }

  lemma OneTold(p: Pair, act: Act, id: u32)
    requires Inv(p) && AllTold(p) && AEnabled(p, act)
    ensures Told(LinkOf(AStep(p, act), id))
  {
    PairProofs.StepFollows(p, act, id);
    if Projected(p, act, id).Some? {
      var l, op := LinkOf(p, id), Projected(p, act, id).value;
      assert L.Inv(l) && Told(l);
      StepTold(l, op);
    }
  }

  lemma SwapAllTold(p: Pair)
    requires p.a.mode != p.b.mode && AllTold(p)
    ensures AllTold(p.Swap())
  {
    forall id: u32
      ensures Told(LinkOf(p.Swap(), id))
    {
      PairProofs.LinkSwap(p, id);
      SwapTold(LinkOf(p, id));
    }
  }

  lemma PairTold(p: Pair, side: Side, act: Act)
    requires Inv(p) && AllTold(p) && PairEnabled(p, side, act)
    ensures AllTold(PairStep(p, side, act))
  {
    if side.A? {
      AStepTold(p, act);
    } else {
      PairProofs.SwapKeeps(p);
      SwapAllTold(p);
      AStepTold(p.Swap(), act);
      PairProofs.AStepKeeps(p.Swap(), act);
      SwapAllTold(AStep(p.Swap(), act));
    }
  }

  lemma {:induction false} RunTold(p: Pair, run: seq<Event>)
    requires Inv(p) && AllTold(p) && Run(p, run).Some?
    ensures AllTold(Run(p, run).value)
    decreases run
  {
    if run != [] {
      PairTold(p, run[0].side, run[0].act);
      PairProofs.StepKeeps(p, run[0].side, run[0].act);
      RunTold(PairStep(p, run[0].side, run[0].act), run[1..]);
    }
  }

  lemma ReachableTold(p: Pair, side: Side)
    requires Reachable(p)
    ensures AllTold(From(p, side))
  {
    var a: Limits, b: Limits, run: seq<Event> :| Conforming(a) && Conforming(b) && Run(Start(a, b), run) == Some(p);
    PairProofs.StartHolds(a, b);
    forall id: u32
      ensures Told(LinkOf(Start(a, b), id))
    {
      FreshTold(id, Local(Client, id));
    }
    RunTold(Start(a, b), run);
    ReachableHolds(p);
    SwapAllTold(p);
  }

  // ---------------------------------------------------------------- the end of writing

  /**
    The converse of `EndOfFileIsComplete`: whoever can write no more, because it closed the stream,
    dropped its handle or was reset, has told its peer. Once no end is under way any more, a peer
    that knows the stream does not wait for more bytes.
  */
  lemma EndIsSeen(p: Pair, side: Side, id: u32)
    requires Reachable(p) && p.a.phase.Active? && p.b.phase.Active?
    requires var l := LinkOf(From(p, side), id); !l.x.state.CanWrite() && !L.HasEnd(l.PipeX()) && !l.y.status.Absent?
    ensures !View(From(p, side).b, id).state.CanRead()
  {
    ReachableTold(p, side);
    assert Told(LinkOf(From(p, side), id));
  }

  /** And only then: with handles on both ends, in no call, the peer has stopped reading exactly if this end has stopped writing. */
  lemma EndSeenExactly(p: Pair, side: Side, id: u32)
    requires Reachable(p) && p.a.phase.Active? && p.b.phase.Active?
    requires var l := LinkOf(From(p, side), id);
             !L.HasEnd(l.PipeX()) && !l.y.status.Absent? && !l.y.dropped && !l.x.dropped && l.x.position.Idle?
    ensures var v := From(p, side); View(v.b, id).state.CanRead() <==> View(v.a, id).state.CanWrite()
  {
    FromHolds(p, side);
    var l := LinkOf(From(p, side), id);
    assert L.Half(L.LaneOf(l));
    if !l.x.state.CanWrite() {
      EndIsSeen(p, side, id);
    }
  }

  // ---------------------------------------------------------------- acknowledgements

  /**
    The converse of `AcknowledgedIsKnown`: once the end that accepted a stream has sent its first
    frame and no ACK is under way any more, the end that opened it does not count it as unacknowledged.
  */
  lemma AckIsSeen(p: Pair, side: Side, id: u32)
    requires Reachable(p) && p.a.phase.Active? && p.b.phase.Active?
    requires var l := LinkOf(From(p, side), id);
             !l.xOpens && !l.x.status.Absent? && l.x.flag.NoFlag? && !HasAck(l.PipeX())
    ensures var v := From(p, side); id !in AckBacklog(v.b) && (id in Table(v.b) ==> View(v.b, id).state != Open(false))
  {
    ReachableTold(p, side);
    assert Told(LinkOf(From(p, side), id));
  }
}
