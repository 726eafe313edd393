/** What two conforming endpoints promise, in every state any run of them can reach. */
module Guarantees {
  import opened Basics
  import opened Runs
  import opened Header
  import opened Frames
  import opened Streams
  import opened Endpoint
  import opened Pair
  import L = Link
  import P = LinkProofs
  import PairProofs
  import C = Codec

  datatype Event = Event(side: Side, act: Act)

  function Next(p: Pair, event: Event): Option<Pair> {
    if PairEnabled(p, event.side, event.act) then Some(PairStep(p, event.side, event.act)) else None
  }

  /** Where a run leads, if each of its steps is possible. */
  function Run(p: Pair, run: seq<Event>): Option<Pair> {
    Fold(Next, p, run)
  }

  predicate Conforming(limits: Limits) {
    limits.splitSendSize <= MAX_FRAME_BODY_LEN
  }

  ghost predicate Reachable(p: Pair) {
    exists a: Limits, b: Limits, run: seq<Event> :: Conforming(a) && Conforming(b) && Run(Start(a, b), run) == Some(p)
  }

  lemma {:induction false} RunKeeps(p: Pair, run: seq<Event>)
    requires Inv(p) && Run(p, run).Some?
    ensures Inv(Run(p, run).value)
    decreases run
  {
    if run != [] {
      PairProofs.StepKeeps(p, run[0].side, run[0].act);
      RunKeeps(PairStep(p, run[0].side, run[0].act), run[1..]);
    }
  }

  lemma ReachableHolds(p: Pair)
    requires Reachable(p)
    ensures Inv(p)
  {
    var a: Limits, b: Limits, run: seq<Event> :| Conforming(a) && Conforming(b) && Run(Start(a, b), run) == Some(p);
    PairProofs.StartHolds(a, b);
    RunKeeps(Start(a, b), run);
  }

  /** Whatever a reachable pair runs to is reachable. */
  lemma RunExtends(p: Pair, run: seq<Event>)
    requires Reachable(p) && Run(p, run).Some?
    ensures Reachable(Run(p, run).value)
  {
    var a: Limits, b: Limits, before: seq<Event> :| Conforming(a) && Conforming(b) && Run(Start(a, b), before) == Some(p);
    FoldAppend(Next, Start(a, b), before, run);
    assert Run(Start(a, b), before + run) == Run(p, run);
  }

  // ---------------------------------------------------------------- the promises

  /** The pair as `side` sees it: `a` is the endpoint itself, `b` its peer. */
  function From(p: Pair, side: Side): Pair {
    if side.A? then p else p.Swap()
  }

  lemma FromHolds(p: Pair, side: Side)
    requires Reachable(p)
    ensures Inv(From(p, side)) && forall id: u32 :: L.Inv(LinkOf(From(p, side), id))
  {
    ReachableHolds(p);
    if side.B? {
      PairProofs.SwapKeeps(p);
    }
  }

  /** The reasons two conforming endpoints ever give for going away: the normal end, or a full table. */
  predicate Blameless(f: Frame) {
    f.header.tag.GoAway? ==> f == GoAwayFrame(TERM) || f == GoAwayFrame(INTERNAL_ERROR)
  }

  /** No endpoint ever answers a frame of its peer with a protocol error, and none is on its way. */
  lemma NeverAccused(p: Pair, side: Side)
    requires Reachable(p)
    ensures var v := From(p, side); AEnabled(v, ReadFrame) ==> !PairProofs.Accuses(v.a, v.ba[0])
    ensures var v := From(p, side); forall f :: f in Outgoing(v.a, v.ab) ==> Blameless(f)
  {
    FromHolds(p, side);
    var v := From(p, side);
    if AEnabled(v, ReadFrame) {
      PairProofs.NoAccusation(v);
    }
    forall f | f in Outgoing(v.a, v.ab)
      ensures Blameless(f)
    {
      assert SessionFrame(f);
    }
  }

  /** Neither end has forgotten the stream, and its SYN was not lost or refused. The accepting end may not know it yet. */
  predicate Held(l: L.Link) {
    !l.x.status.Removed? && !l.y.status.Removed? && !L.LaneOf(l).refused
  }

  /**
    Credit conservation from the endpoint to its peer: what the sender may still send, plus the
    bytes and the credit on the way, never exceeds what the receiver expects, and equals it as
    long as both connections are up and neither end has given the stream up, also while its SYN
    is still on the way.
  */
  lemma CreditConserved(p: Pair, side: Side, id: u32)
    requires Reachable(p)
    ensures var l := LinkOf(From(p, side), id);
            var owed := l.x.sendWindow + |L.Bytes(l.PipeX())| + L.Credits(l.PipeY());
            && owed <= l.y.receiveWindow
            && (l.xUp && l.yUp && Held(l) ==> owed == l.y.receiveWindow)
            && l.y.receiveWindow + |l.y.buffer| <= l.y.maxReceiveWindow <= U32_MAX
  {
    FromHolds(p, side);
    var l := LinkOf(From(p, side), id);
    assert L.Half(L.LaneOf(l)) && L.Half(L.LaneOf(l).Swap());
  }

  /**
    A stream that the end which opened it counts as acknowledged has been taken in by the peer,
    and its SYN was sent.
  */
  lemma AcknowledgedIsKnown(p: Pair, side: Side, id: u32)
    requires Reachable(p)
    requires var e := From(p, side).a; Local(e.mode, id) && View(e, id).state == Open(true)
    ensures var v := From(p, side); !View(v.b, id).status.Absent? && !View(v.a, id).flag.OweSyn?
  {
    FromHolds(p, side);
    assert L.Opened(LinkOf(From(p, side), id));
  }

  /** Bytes read at one end are a prefix of the bytes written at the other, in every interleaving. */
  lemma PrefixDelivered(p: Pair, side: Side, id: u32)
    requires Reachable(p)
    ensures var v := From(p, side); View(v.b, id).got <= View(v.a, id).wrote
  {
    FromHolds(p, side);
    var l := LinkOf(From(p, side), id);
    assert L.Half(L.LaneOf(l));
    P.PrefixTransitive(l.y.got, l.y.got + l.y.buffer, l.x.wrote);
  }

  /** End of file as `poll_read` reports it: nothing buffered and no more to come. */
  predicate AtEndOfFile(s: Stream) {
    !s.status.Absent? && !s.dropped && s.buffer == [] && !s.state.CanRead()
  }

  /** A reader that sees end of file has read everything its peer wrote. */
  lemma EndOfFileIsComplete(p: Pair, side: Side, id: u32)
    requires Reachable(p) && p.a.phase.Active? && p.b.phase.Active?
    requires AtEndOfFile(View(From(p, side).a, id))
    ensures var v := From(p, side); View(v.a, id).got == View(v.b, id).wrote
  {
    FromHolds(p, side);
    var l := LinkOf(From(p, side), id);
    var lane := L.LaneOf(l).Swap();
    assert L.Half(lane) && L.Half(lane.Swap());
    assert l.x.got + l.x.buffer == l.x.got;
    assert l.x.got + l.x.buffer + [] == l.x.got;
  }

  /** A sender out of credit with nothing on the way faces a full buffer or a grant of at least half a window. */
  lemma CannotWedge(p: Pair, side: Side, id: u32)
    requires Reachable(p) && p.a.phase.Active? && p.b.phase.Active?
    requires var l := LinkOf(From(p, side), id);
             && l.x.status.InTable? && l.y.status.InTable? && l.x.sendWindow == 0
             && L.Bytes(l.PipeX()) == [] && L.Credits(l.PipeY()) == 0
    ensures var s := View(From(p, side).b, id);
            && Due(s, s.maxReceiveWindow) + |s.buffer| == s.maxReceiveWindow
            && (s.buffer == [] ==> UpdateIsDue(s) && Due(s, s.maxReceiveWindow) >= DEFAULT_CREDIT)
  {
    CreditConserved(p, side, id);
    FromHolds(p, side);
    assert L.WellFormed(LinkOf(From(p, side).Swap(), id).x) by {
      PairProofs.LinkSwap(From(p, side), id);
      P.SwapKeeps(LinkOf(From(p, side), id));
    }
  }

  /** A granted update never overflows and refills the window exactly. */
  lemma GrantRefills(p: Pair, side: Side, id: u32, newMax: int)
    requires Reachable(p)
    requires var s := View(From(p, side).a, id); s.position.UpdateChecked? && !s.dropped && GrowthAllowed(s, newMax)
    ensures var s := View(From(p, side).a, id);
            && HandleEnabled(s, UpdateGrant(newMax))
            && var t := Handle(s, id, UpdateGrant(newMax), true);
               t.position.Sending? ==> t.receiveWindow + |t.buffer| == newMax == t.maxReceiveWindow
  {
    FromHolds(p, side);
    assert L.WellFormed(LinkOf(From(p, side), id).x);
    Refilled(View(From(p, side).a, id), id, newMax);
  }

  lemma Refilled(s: Stream, id: u32, newMax: int)
    requires L.WellFormed(s) && s.position.UpdateChecked? && GrowthAllowed(s, newMax)
    ensures HandleEnabled(s, UpdateGrant(newMax))
    ensures var t := Handle(s, id, UpdateGrant(newMax), true);
            t.position.Sending? ==> t.receiveWindow + |t.buffer| == newMax == t.maxReceiveWindow
  {
  }

  /**
    Nothing a handle committed is lost, reordered or repeated unless the connection fails: each
    step leaves what the stream has to deliver or adds one frame at its end, and only the peer
    takes frames away, from the front. The start of a graceful close drops what a handle has not
    queued yet, and nothing else.
  */
  lemma NoFrameLost(p: Pair, side: Side, act: Act, id: u32)
    requires Reachable(p) && PairEnabled(p, side, act)
    ensures var v, w := From(p, side), From(PairStep(p, side, act), side);
            var l, m := LinkOf(v, id), LinkOf(w, id);
            && ((w.a.phase.Gone? ==> act.CloseSocket?) && !act.StartClose? ==> Grows(l.PipeX(), m.PipeX()))
            && (act.StartClose? ==> m.PipeX() == l.xy + l.x.queue)
            && (m.PipeY() == l.PipeY() || (act.ReadFrame? && l.PipeY() != [] && m.PipeY() == l.PipeY()[1..]))
  {
    FromHolds(p, side);
    assert From(PairStep(p, side, act), side) == AStep(From(p, side), act);
    StepLosesNothing(From(p, side), act, id);
  }

  lemma StepLosesNothing(v: Pair, act: Act, id: u32)
    requires Inv(v) && AEnabled(v, act)
    ensures var w := AStep(v, act);
            var l, m := LinkOf(v, id), LinkOf(w, id);
            && ((w.a.phase.Gone? ==> act.CloseSocket?) && !act.StartClose? ==> Grows(l.PipeX(), m.PipeX()))
            && (act.StartClose? ==> m.PipeX() == l.xy + l.x.queue)
            && (m.PipeY() == l.PipeY() || (act.ReadFrame? && l.PipeY() != [] && m.PipeY() == l.PipeY()[1..]))
  {
    PairProofs.StepFollows(v, act, id);
    ProjectedAs(v, act, id);
    if Projected(v, act, id).Some? {
      LinkLosesNothing(LinkOf(v, id), Projected(v, act, id).value);
    }
  }

  /** Which steps of an endpoint end, close or feed a link. */
  lemma ProjectedAs(v: Pair, act: Act, id: u32)
    requires AEnabled(v, act)
    ensures act.StartClose? ==> Projected(v, act, id).Some?
    ensures var op := Projected(v, act, id);
            op.Some? ==>
              && (op.value.LFail? ==> AStep(v, act).a.phase.Gone? && !act.CloseSocket?)
              && (op.value.LClose? <==> act.StartClose?)
              && (op.value.LReceive? ==> act.ReadFrame?)
  {
  }

  /** At most one more frame, at the end. */
  predicate Grows(before: seq<Frame>, after: seq<Frame>) {
    before <= after && |after| <= |before| + 1
  }

  lemma LinkLosesNothing(l: L.Link, op: L.LinkOp)
    requires L.Inv(l) && L.LinkEnabled(l, op)
    ensures var m := L.LinkStep(l, op);
            && (!op.LFail? && !op.LClose? ==> Grows(l.PipeX(), m.PipeX()))
            && (op.LClose? ==> m.PipeX() == l.xy + l.x.queue)
            && (m.PipeY() == l.PipeY() || (op.LReceive? && l.PipeY() != [] && m.PipeY() == l.PipeY()[1..]))
  {
    if op.LHandle? {
      P.HandleProgress(l, op.op);
    } else if op.LEnqueue? {
      P.EnqueueProgress(l);
    } else if op.LMarker? {
      P.MarkerProgress(l);
    } else if op.LReceive? {
      P.ReceiveEffect(l, op.full);
      ReadingKeepsPipes(l, L.Judge(l, op.full).1);
    } else if op.LClose? {
      assert l.xy + l.x.queue + [] == l.xy + l.x.queue;
    }
  }

  lemma ReadingKeepsPipes(l: L.Link, t: Stream)
    requires l.yx != []
    requires t == l.x || P.Absorbs(l.x, t, l.yx[0])
    ensures var m := l.(x := t, yx := l.yx[1..]); m.PipeX() == l.PipeX() && m.PipeY() == l.PipeY()[1..]
  {
    P.ReadPipes(l, t);
  }

  /** One more possible step. */
  lemma StepExtends(p: Pair, side: Side, act: Act)
    requires Reachable(p) && PairEnabled(p, side, act)
    ensures Reachable(PairStep(p, side, act))
  {
    FoldCons(Next, p, Event(side, act), []);
    assert [Event(side, act)] + [] == [Event(side, act)];
    RunExtends(p, [Event(side, act)]);
  }

  /** The one reason for an internal error: the SYN of a data frame meets a full table. */
  lemma RefusesExactly(p: Pair, side: Side)
    requires Reachable(p) && AEnabled(From(p, side), ReadFrame)
    ensures var v := From(p, side);
            OnFrame(v.a, v.ba[0]).pendingRead == Some(GoAwayFrame(INTERNAL_ERROR)) <==>
              v.ba[0].header.tag.Data? && v.ba[0].Syn() && Full(v.a)
  {
    FromHolds(p, side);
    var v := From(p, side);
    var f := v.ba[0];
    if f.header.tag.Ping? {
      PairProofs.NoAccusation(v);
    } else if f.OfStream() {
      PairProofs.ArrivesInLink(v);
      P.RefusedExactly(LinkOf(v, f.header.streamId), Full(v.a));
      AnswerOf(v.a, f);
    }
  }

  lemma AnswerOf(e: Endpoint, f: Frame)
    requires f.OfStream() && e.pendingRead.None?
    ensures OnFrame(e, f).pendingRead == Some(GoAwayFrame(INTERNAL_ERROR)) <==>
            Receive(View(e, f.header.streamId), f, !Local(e.mode, f.header.streamId), Full(e)).0 == InternalError
  {
  }

  // ---------------------------------------------------------------- the session

  /**
    The ping an endpoint waits for is under way exactly once while both connections run, as its
    ping or as the pong that answers it, and nothing is under way when none is awaited. So every
    pong that arrives is the awaited one, across the wrap-around of the nonce.
  */
  lemma PingUnderWay(p: Pair, side: Side)
    requires Reachable(p)
    ensures var v := From(p, side);
            var out := Pick(Outgoing(v.a, v.ab), Pings) + Pick(Outgoing(v.b, v.ba), Pongs);
            && (v.a.rtt.awaiting.None? ==> out == [])
            && (v.a.rtt.awaiting.Some? && v.a.phase.Active? && v.b.phase.Active? ==>
                  |out| == 1 && out[0].header.length == v.a.rtt.awaiting.value)
            && (AEnabled(v, ReadFrame) && v.ba[0].header.tag.Ping? && v.ba[0].Ack() ==>
                  v.a.rtt.awaiting == Some(v.ba[0].header.length))
  {
    FromHolds(p, side);
    var v := From(p, side);
    assert PingToken(v);
    if AEnabled(v, ReadFrame) && v.ba[0].header.tag.Ping? && v.ba[0].Ack() {
      PairProofs.PongExpected(v);
    }
  }

  /** Every frame on its way has a body the reader accepts. */
  lemma OutgoingFits(p: Pair)
    requires Inv(p)
    ensures C.AllSendable(Outgoing(p.a, p.ab))
  {
    var out := Outgoing(p.a, p.ab);
    forall f | f in out
      ensures C.Sendable(f)
    {
      if f.OfStream() {
        var id := f.header.streamId;
        PairProofs.PickMembers(out, OfId(id));
        assert f in LinkOf(p, id).PipeX();
        assert L.Half(L.LaneOf(LinkOf(p, id)));
      } else {
        assert SessionFrame(f);
      }
    }
  }

  /** The bytes of what is on the wire decode to exactly those frames: no decode error, no frame too large. */
  lemma WireDecodes(p: Pair, side: Side)
    requires Reachable(p)
    ensures var wire := From(p, side).ab; C.Parse(C.EncodeAll(wire)) == C.Parsed(wire, C.CleanEnd)
  {
    FromHolds(p, side);
    var v := From(p, side);
    OutgoingFits(v);
    assert forall f :: f in v.ab ==> f in Outgoing(v.a, v.ab);
    C.ParseEncodeAll(v.ab, [], C.Parse([]));
    assert C.EncodeAll(v.ab) + [] == C.EncodeAll(v.ab) && v.ab + [] == v.ab;
  }
}
