/**
  The pair refines the product of its links: a step of an endpoint is, for every stream
  id, one step of that stream's link or nothing at all. Streams do not interfere.
*/
module PairProofs {
  import opened Basics
  import opened Header
  import opened Frames
  import opened Streams
  import opened Endpoint
  import opened Pair
  import L = Link
  import P = LinkProofs

  lemma {:induction false} PickConcat(u: seq<Frame>, v: seq<Frame>, k: Kind)
    ensures Pick(u + v, k) == Pick(u, k) + Pick(v, k)
  {
    if u == [] {
      assert u + v == v;
    } else {
      assert (u + v)[0] == u[0] && (u + v)[1..] == u[1..] + v;
      PickConcat(u[1..], v, k);
    }
  }

  lemma PickOne(f: Frame, k: Kind)
    ensures Pick([f], k) == if Matches(k, f) then [f] else []
  {
    assert [f][1..] == [];
  }

  lemma PickOutgoing(e: Endpoint, w: seq<Frame>, k: Kind)
    ensures Pick(Outgoing(e, w), k) == Pick(w, k) + Pick(e.outbox, k) + Pick(Opt(e.pendingRead), k) + Pick(Opt(e.pendingWrite), k)
  {
    PickConcat(w + e.outbox + Opt(e.pendingRead), Opt(e.pendingWrite), k);
    PickConcat(w + e.outbox, Opt(e.pendingRead), k);
    PickConcat(w, e.outbox, k);
  }

  lemma {:induction false} PickMembers(w: seq<Frame>, k: Kind)
    ensures forall f :: f in Pick(w, k) <==> f in w && Matches(k, f)
  {
    if w != [] {
      PickMembers(w[1..], k);
      assert forall f :: f in w <==> f == w[0] || f in w[1..];
    }
  }

  /** What a step of `a` does to the link of stream `id`, as `Projected` says. */
  predicate Follows(p: Pair, act: Act, id: u32)
    requires AEnabled(p, act)
  {
    var l, m := LinkOf(p, id), LinkOf(AStep(p, act), id);
    match Projected(p, act, id)
    case None => m == l
    case Some(op) => L.LinkEnabled(l, op) && m == L.LinkStep(l, op)
  }

  /** A session frame anywhere in what is outgoing does not show in any stream. */
  lemma SessionAppended(u: seq<Frame>, f: Frame, v: seq<Frame>, id: u32)
    requires !f.OfStream()
    ensures Pick(u + [f] + v, OfId(id)) == Pick(u + v, OfId(id))
  {
    PickConcat(u + [f], v, OfId(id));
    PickConcat(u, [f], OfId(id));
    PickConcat(u, v, OfId(id));
    PickOne(f, OfId(id));
  }

  predicate Quietly(act: Act) {
    || act.SendPing? || act.FlushPendingRead? || act.FlushPendingWrite?
    || act.StartClose? || act.FinishDrain? || act.FlushOutbox? || act.CloseSocket?
  }

  /** Slots, outbox and wire hand frames on in order. */
  lemma MovesAlong(p: Pair, act: Act)
    requires Sound(p.a) && AEnabled(p, act)
    requires Quietly(act) && !act.SendPing? && !act.FinishDrain?
    ensures var q := AStep(p, act); Outgoing(q.a, q.ab) == Outgoing(p.a, p.ab)
  {
    if act.FlushPendingRead? || act.FlushPendingWrite? {
      SlotMoves(p, act);
    } else {
      OutboxMoves(p, act);
    }
  }

  lemma SlotMoves(p: Pair, act: Act)
    requires Sound(p.a) && AEnabled(p, act) && (act.FlushPendingRead? || act.FlushPendingWrite?)
    ensures var q := AStep(p, act); Outgoing(q.a, q.ab) == Outgoing(p.a, p.ab)
  {
    assert p.ab + [] == p.ab;
  }

  lemma OutboxMoves(p: Pair, act: Act)
    requires Sound(p.a) && AEnabled(p, act) && (act.StartClose? || act.FlushOutbox? || act.CloseSocket?)
    ensures var q := AStep(p, act); Outgoing(q.a, q.ab) == Outgoing(p.a, p.ab)
  {
    if act.FlushOutbox? {
      FlushMoves(p);
    } else if act.StartClose? {
      CloseMoves(p);
    }
  }

  lemma FlushMoves(p: Pair)
    requires Sound(p.a) && AEnabled(p, FlushOutbox)
    ensures var q := AStep(p, FlushOutbox); Outgoing(q.a, q.ab) == Outgoing(p.a, p.ab)
  {
    assert p.a.outbox == [p.a.outbox[0]] + p.a.outbox[1..];
  }

  lemma CloseMoves(p: Pair)
    requires Sound(p.a) && AEnabled(p, StartClose)
    ensures var q := AStep(p, StartClose); Outgoing(q.a, q.ab) == Outgoing(p.a, p.ab)
  {
  }

  /** Frames only move along, or a session frame joins them. */
  lemma SessionOutgoing(p: Pair, act: Act, id: u32)
    requires Sound(p.a) && AEnabled(p, act) && Quietly(act)
    ensures var q := AStep(p, act); Pick(Outgoing(q.a, q.ab), OfId(id)) == Pick(Outgoing(p.a, p.ab), OfId(id))
  {
    if act.SendPing? {
      PingOutgoing(p, id);
    } else if act.FinishDrain? {
      TermOutgoing(p, id);
    } else {
      MovesAlong(p, act);
    }
  }

  lemma PingOutgoing(p: Pair, id: u32)
    requires AEnabled(p, SendPing)
    ensures var q := AStep(p, SendPing); Pick(Outgoing(q.a, q.ab), OfId(id)) == Pick(Outgoing(p.a, p.ab), OfId(id))
  {
    PingSent(p);
    SessionAppended(p.ab, PingFrame(p.a.rtt.nextNonce), Unsent(p.a), id);
  }

  /** What has not reached the wire yet. */
  function Unsent(e: Endpoint): seq<Frame> {
    e.outbox + Opt(e.pendingRead) + Opt(e.pendingWrite)
  }

  /** A ping overtakes what waits for the wire. */
  lemma PingSent(p: Pair)
    requires AEnabled(p, SendPing)
    ensures var q := AStep(p, SendPing);
            && Outgoing(p.a, p.ab) == p.ab + Unsent(p.a)
            && Outgoing(q.a, q.ab) == p.ab + [PingFrame(p.a.rtt.nextNonce)] + Unsent(p.a)
  {
    var q := AStep(p, SendPing);
    assert q.a.outbox == p.a.outbox && q.a.pendingRead == p.a.pendingRead && q.a.pendingWrite == p.a.pendingWrite;
  }

  lemma TermOutgoing(p: Pair, id: u32)
    requires Sound(p.a) && AEnabled(p, FinishDrain)
    ensures var q := AStep(p, FinishDrain); Pick(Outgoing(q.a, q.ab), OfId(id)) == Pick(Outgoing(p.a, p.ab), OfId(id))
  {
    var q, out := AStep(p, FinishDrain), Outgoing(p.a, p.ab);
    assert out + [] == out;
    assert Outgoing(q.a, q.ab) == out + [GoAwayFrame(TERM)] + [];
    SessionAppended(out, GoAwayFrame(TERM), [], id);
  }

  lemma SessionFrameOnly(p: Pair, act: Act)
    requires AEnabled(p, act) && Quietly(act) && !act.StartClose?
    ensures var q := AStep(p, act);
            && q.b == p.b && q.ba == p.ba && q.a.streams == p.a.streams && q.a.mode == p.a.mode
            && (q.a.phase.Active? <==> p.a.phase.Active?)
  {
  }

  lemma SessionStep(p: Pair, q: Pair, id: u32)
    requires q.b == p.b && q.ba == p.ba && q.a.streams == p.a.streams && q.a.mode == p.a.mode
    requires q.a.phase.Active? <==> p.a.phase.Active?
    requires Pick(Outgoing(q.a, q.ab), OfId(id)) == Pick(Outgoing(p.a, p.ab), OfId(id))
    ensures LinkOf(q, id) == LinkOf(p, id)
  {
  }

  lemma CloseStep(p: Pair, act: Act, id: u32)
    requires Sound(p.a) && AEnabled(p, act) && act.StartClose?
    ensures LinkOf(AStep(p, act), id) == LinkOf(p, id).(xUp := false)
  {
    CloseMoves(p);
    ClosedRest(p);
    ClosedLink(p, AStep(p, act), id);
  }

  lemma ClosedRest(p: Pair)
    requires AEnabled(p, StartClose)
    ensures var q := AStep(p, StartClose);
            q.b == p.b && q.ba == p.ba && q.a.streams == p.a.streams && q.a.mode == p.a.mode && !q.a.phase.Active?
  {
  }

  lemma ClosedLink(p: Pair, q: Pair, id: u32)
    requires q.b == p.b && q.ba == p.ba && q.a.streams == p.a.streams && q.a.mode == p.a.mode && !q.a.phase.Active?
    requires Outgoing(q.a, q.ab) == Outgoing(p.a, p.ab)
    ensures LinkOf(q, id) == LinkOf(p, id).(xUp := false)
  {
  }

  lemma HandleStep(p: Pair, act: Act, id: u32)
    requires act.OnHandle? && Sound(p.a) && AEnabled(p, act)
    ensures Follows(p, act, id)
  {
    assert Outgoing(AStep(p, act).a, AStep(p, act).ab) == Outgoing(p.a, p.ab);
  }

  lemma CleanupView(e: Endpoint, id: u32)
    requires View(e, id).status.Absent? ==> View(e, id).queue == []
    ensures View(Cleanup(e), id) == if e.phase.Active? then TearDown(View(e, id)) else View(e, id).(queue := [])
  {
  }

  /** Only what is on the wire is a prefix of what was to be sent. */
  lemma WirePrefix(e: Endpoint, w: seq<Frame>, k: Kind)
    ensures Outgoing(Cleanup(e), w) == w
    ensures |Pick(w, k)| <= |Pick(Outgoing(e, w), k)| && Pick(Outgoing(e, w), k)[..|Pick(w, k)|] == Pick(w, k)
  {
    PickOutgoing(e, w, k);
  }

  /** Everything not yet on the wire is lost. */
  lemma DownStep(p: Pair, id: u32)
    requires !p.a.phase.Gone?
    requires View(p.a, id).status.Absent? ==> View(p.a, id).queue == []
    ensures var l := LinkOf(p, id);
            var op := L.LFail(|Pick(p.ab, OfId(id))|);
            L.LinkEnabled(l, op) && LinkOf(p.(a := Cleanup(p.a)), id) == L.LinkStep(l, op)
  {
    CleanupView(p.a, id);
    WirePrefix(p.a, p.ab, OfId(id));
  }

  /** Reading a session frame off the wire shows in no stream. */
  lemma SessionRead(p: Pair, id: u32)
    requires p.ba != [] && !Matches(OfId(id), p.ba[0])
    ensures Pick(Outgoing(p.b, p.ba[1..]), OfId(id)) == Pick(Outgoing(p.b, p.ba), OfId(id))
  {
    assert Outgoing(p.b, p.ba) == [p.ba[0]] + Outgoing(p.b, p.ba[1..]);
    PickConcat([p.ba[0]], Outgoing(p.b, p.ba[1..]), OfId(id));
    PickOne(p.ba[0], OfId(id));
  }

  /** An id this endpoint never used is untouched. */
  lemma AbsentIsFresh(l: L.Link)
    requires L.Inv(l) && l.x.status.Absent?
    ensures l.x == Fresh(if l.xOpens then OweSyn else OweAck)
  {
  }

  lemma OpenStep(p: Pair, act: Act, id: u32)
    requires Sound(p.a) && act.NewOutbound? && AEnabled(p, act)
    requires View(p.a, id).status.Absent? ==> View(p.a, id) == Fresh(if Local(p.a.mode, id) then OweSyn else OweAck)
    ensures Follows(p, act, id)
  {
    var q := AStep(p, act);
    assert p.ab + [] == p.ab;
    if |Table(p.a)| >= p.a.limits.maxNumStreams || p.a.nextId + 2 > U32_MAX {
      assert q == p.(a := Cleanup(p.a));
      DownStep(p, id);
    } else {
      assert Outgoing(q.a, q.ab) == Outgoing(p.a, p.ab);
    }
  }

  /** A frame of stream `i` joins the outgoing frames of `a`. */
  lemma FrameAppended(u: seq<Frame>, f: Frame, i: u32, id: u32)
    requires f.OfStream() && f.header.streamId == i
    ensures Pick(u + [f], OfId(id)) == Pick(u, OfId(id)) + if id == i then [f] else []
  {
    PickConcat(u, [f], OfId(id));
    PickOne(f, OfId(id));
  }

  /** What a queue holds belongs to its stream. */
  lemma QueuedFrame(l: L.Link, k: nat)
    requires L.Inv(l) && k < |l.x.queue|
    ensures L.Conforming(l.x.queue[k], l.id)
  {
    assert l.x.queue[k] in l.PipeX();
  }

  /** The oldest command of stream `i` is a frame of stream `i`. */
  predicate OwnCommand(e: Endpoint, i: u32) {
    i in e.streams && (e.streams[i].queue != [] ==> Matches(OfId(i), e.streams[i].queue[0]))
  }

  lemma CommandStep(p: Pair, act: Act, id: u32)
    requires Sound(p.a) && act.PollReceiver? && AEnabled(p, act) && OwnCommand(p.a, act.id)
    requires p.a.streams[act.id].queue != []
    ensures Follows(p, act, id)
  {
    var q := AStep(p, act);
    var f := p.a.streams[act.id].queue[0];
    assert Outgoing(q.a, q.ab) == Outgoing(p.a, p.ab) + [f];
    FrameAppended(Outgoing(p.a, p.ab), f, act.id, id);
  }

  lemma MarkerOutgoing(p: Pair, act: Act)
    requires Sound(p.a) && act.PollReceiver? && AEnabled(p, act) && p.a.streams[act.id].queue == []
    ensures var q, out := AStep(p, act), EndMarker(p.a.streams[act.id], act.id).1;
            && Outgoing(q.a, q.ab) == Outgoing(p.a, p.ab) + out
            && |out| <= 1 && (out != [] ==> out[0].OfStream() && out[0].header.streamId == act.id)
  {
  }

  lemma MarkerStep(p: Pair, act: Act, id: u32)
    requires Sound(p.a) && act.PollReceiver? && AEnabled(p, act)
    requires p.a.streams[act.id].queue == []
    ensures Follows(p, act, id)
  {
    var out := EndMarker(p.a.streams[act.id], act.id).1;
    MarkerOutgoing(p, act);
    if out == [] {
      assert Outgoing(p.a, p.ab) + out == Outgoing(p.a, p.ab);
    } else {
      assert out == [out[0]];
      FrameAppended(Outgoing(p.a, p.ab), out[0], act.id, id);
    }
    if id == act.id {
      assert LinkOf(p, id).xy + [] == LinkOf(p, id).xy;
    }
  }

  lemma DrainStep(p: Pair, act: Act, id: u32)
    requires Sound(p.a) && act.DrainReceiver? && AEnabled(p, act) && OwnCommand(p.a, act.id)
    ensures Follows(p, act, id)
  {
    var q := AStep(p, act);
    var f := p.a.streams[act.id].queue[0];
    assert Outgoing(q.a, q.ab) == Outgoing(p.a, p.ab) + [f];
    FrameAppended(Outgoing(p.a, p.ab), f, act.id, id);
  }

  /** What an endpoint answers at once is a session frame in the read slot. */
  lemma OnFrameAnswers(e: Endpoint, f: Frame)
    requires Sound(e) && e.pendingRead.None? && !f.header.tag.GoAway?
    ensures var e2 := OnFrame(e, f);
            && e2 == e.(streams := e2.streams, pendingRead := e2.pendingRead, rtt := e2.rtt)
            && (e2.pendingRead.Some? ==> !e2.pendingRead.value.OfStream())
            && (f.OfStream() ==> e2.rtt == e.rtt)
            && (!f.OfStream() ==> e2.streams == e.streams)
  {
    if f.OfStream() {
      StreamAnswers(e, f);
    }
  }

  lemma StreamAnswers(e: Endpoint, f: Frame)
    requires f.OfStream() && e.pendingRead.None?
    ensures var e2 := OnFrame(e, f);
            && e2 == e.(streams := e2.streams, pendingRead := e2.pendingRead)
            && (e2.pendingRead.Some? ==> !e2.pendingRead.value.OfStream())
  {
  }

  lemma ReadOutgoing(e: Endpoint, f: Frame, w: seq<Frame>, id: u32)
    requires Sound(e) && e.pendingRead.None? && !f.header.tag.GoAway?
    ensures Pick(Outgoing(OnFrame(e, f), w), OfId(id)) == Pick(Outgoing(e, w), OfId(id))
  {
    OnFrameAnswers(e, f);
    var e2 := OnFrame(e, f);
    var before, after := w + e.outbox, Opt(e.pendingWrite);
    assert Outgoing(e, w) == before + after;
    if e2.pendingRead.Some? {
      assert Outgoing(e2, w) == before + [e2.pendingRead.value] + after;
      SessionAppended(before, e2.pendingRead.value, after, id);
    }
  }

  lemma PutView(e: Endpoint, id: u32, s: Stream, other: u32)
    ensures View(Put(e, id, s), other) == if other == id then s else View(e, other)
  {
  }

  /** A stream frame changes the view of its own stream only, as `Receive` says. */
  lemma OnFrameView(e: Endpoint, f: Frame, id: u32)
    requires f.OfStream()
    ensures View(OnFrame(e, f), id) ==
            if f.header.streamId == id then Receive(View(e, id), f, !Local(e.mode, id), Full(e)).1 else View(e, id)
  {
    var own := f.header.streamId;
    var (verdict, t) := Receive(View(e, own), f, !Local(e.mode, own), Full(e));
    PutView(e, own, t, id);
    IgnoredSame(View(e, own), f, !Local(e.mode, own), Full(e));
    if verdict != Ignored {
      assert OnFrame(e, f).streams == Put(e, own, t).streams;
    }
  }

  lemma IgnoredSame(s: Stream, f: Frame, remoteId: bool, full: bool)
    requires f.OfStream()
    ensures var (verdict, t) := Receive(s, f, remoteId, full); verdict.Ignored? ==> t == s
  {
  }

  lemma OwnRead(p: Pair, act: Act, id: u32)
    requires Sound(p.a) && act.ReadFrame? && AEnabled(p, act)
    requires Matches(OfId(id), p.ba[0])
    ensures Follows(p, act, id)
  {
    var f, q := p.ba[0], AStep(p, act);
    assert q.ab == p.ab;
    OnFrameAnswers(p.a, f);
    ReadOutgoing(p.a, f, p.ab, id);
    OnFrameView(p.a, f, id);
    assert Outgoing(p.b, p.ba) == [f] + Outgoing(p.b, q.ba);
    PickConcat([f], Outgoing(p.b, q.ba), OfId(id));
    PickOne(f, OfId(id));
    assert LinkOf(p, id).yx == [f] + LinkOf(q, id).yx;
  }

  lemma OtherRead(p: Pair, act: Act, id: u32)
    requires Sound(p.a) && act.ReadFrame? && AEnabled(p, act)
    requires !Matches(OfId(id), p.ba[0]) && !p.ba[0].header.tag.GoAway?
    ensures LinkOf(AStep(p, act), id) == LinkOf(p, id)
  {
    var f, q := p.ba[0], AStep(p, act);
    assert q.ab == p.ab;
    OnFrameAnswers(p.a, f);
    ReadOutgoing(p.a, f, p.ab, id);
    SessionRead(p, id);
    if f.OfStream() {
      OnFrameView(p.a, f, id);
    }
  }

  lemma GoAwayRead(p: Pair, act: Act, id: u32)
    requires Sound(p.a) && act.ReadFrame? && AEnabled(p, act) && p.ba[0].header.tag.GoAway?
    requires View(p.a, id).status.Absent? ==> View(p.a, id).queue == []
    ensures Follows(p, act, id)
  {
    assert AStep(p, act).ab == p.ab;
    SessionRead(p, id);
    DownStep(p, id);
  }

  lemma QuietFollows(p: Pair, act: Act, id: u32)
    requires Sound(p.a) && AEnabled(p, act) && Quietly(act)
    ensures Follows(p, act, id)
  {
    if act.StartClose? {
      CloseStep(p, act, id);
    } else {
      SessionOutgoing(p, act, id);
      SessionFrameOnly(p, act);
      SessionStep(p, AStep(p, act), id);
    }
  }

  lemma ReadFollows(p: Pair, act: Act, id: u32)
    requires Sound(p.a) && AEnabled(p, act) && act.ReadFrame?
    requires View(p.a, id).status.Absent? ==> View(p.a, id).queue == []
    ensures Follows(p, act, id)
  {
    if p.ba[0].header.tag.GoAway? { GoAwayRead(p, act, id); }
    else if Matches(OfId(id), p.ba[0]) { OwnRead(p, act, id); }
    else { OtherRead(p, act, id); }
  }

  lemma FailFollows(p: Pair, act: Act, id: u32)
    requires Sound(p.a) && AEnabled(p, act) && act.Fail?
    requires View(p.a, id).status.Absent? ==> View(p.a, id).queue == []
    ensures Follows(p, act, id)
  {
    DownStep(p, id);
    assert p.ab + [] == p.ab;
  }

  lemma QueueFollows(p: Pair, act: Act, id: u32)
    requires Sound(p.a) && AEnabled(p, act) && (act.PollReceiver? || act.DrainReceiver?) && OwnCommand(p.a, act.id)
    ensures Follows(p, act, id)
  {
    if act.DrainReceiver? { DrainStep(p, act, id); }
    else if p.a.streams[act.id].queue != [] { CommandStep(p, act, id); }
    else { MarkerStep(p, act, id); }
  }

  /** What a step of `a` needs to know of the links. */
  predicate Ready(p: Pair, act: Act, id: u32) {
    && Sound(p.a)
    && (View(p.a, id).status.Absent? ==> View(p.a, id) == Fresh(if Local(p.a.mode, id) then OweSyn else OweAck))
    && (act.PollReceiver? || act.DrainReceiver? ==> act.id in p.a.streams ==> OwnCommand(p.a, act.id))
  }

  lemma LinksReady(p: Pair, act: Act, id: u32)
    requires Inv(p)
    ensures Ready(p, act, id)
  {
    assert L.Inv(LinkOf(p, id));
    if View(p.a, id).status.Absent? {
      AbsentIsFresh(LinkOf(p, id));
    }
    if (act.PollReceiver? || act.DrainReceiver?) && act.id in p.a.streams {
      CommandReady(p, act.id);
    }
  }

  lemma CommandReady(p: Pair, id: u32)
    requires AllLinks(p) && id in p.a.streams
    ensures OwnCommand(p.a, id)
  {
    if p.a.streams[id].queue != [] {
      assert L.Inv(LinkOf(p, id));
      QueuedFrame(LinkOf(p, id), 0);
    }
  }

  lemma ReadyFollows(p: Pair, act: Act, id: u32)
    requires Ready(p, act, id) && AEnabled(p, act)
    ensures Follows(p, act, id)
  {
    if act.NewOutbound? {
      OpenStep(p, act, id);
    } else if act.OnHandle? {
      HandleStep(p, act, id);
    } else if act.ReadFrame? {
      ReadFollows(p, act, id);
    } else if act.Fail? {
      FailFollows(p, act, id);
    } else if Quietly(act) {
      QuietFollows(p, act, id);
    } else {
      QueueFollows(p, act, id);
    }
  }

  /** A step of `a` is, for every stream, a step of its link or nothing. */
  lemma StepFollows(p: Pair, act: Act, id: u32)
    requires Inv(p) && AEnabled(p, act)
    ensures Follows(p, act, id)
  {
    LinksReady(p, act, id);
    ReadyFollows(p, act, id);
  }

  // ---------------------------------------------------------------- the invariant of the pair

  lemma LinksKeep(p: Pair, act: Act, id: u32)
    requires Inv(p) && AEnabled(p, act)
    ensures L.Inv(LinkOf(AStep(p, act), id))
  {
    StepFollows(p, act, id);
    if Projected(p, act, id).Some? {
      P.StepKeeps(LinkOf(p, id), Projected(p, act, id).value);
    }
  }

  /** A queue holds stream frames only. */
  predicate QueuesClean(e: Endpoint) {
    forall id :: id in e.streams && e.streams[id].queue != [] ==> e.streams[id].queue[0].OfStream()
  }

  lemma CleanQueues(p: Pair)
    requires Inv(p)
    ensures QueuesClean(p.a)
  {
    forall id | id in p.a.streams && p.a.streams[id].queue != []
      ensures p.a.streams[id].queue[0].OfStream()
    {
      QueuedFrame(LinkOf(p, id), 0);
    }
  }

  /** Only opening a stream, here or by a SYN of the remote, makes an id known. */
  lemma StaysAbsent(e: Endpoint, inbox: seq<Frame>, act: Act, id: u32)
    requires Enabled(e, inbox, act) && Local(e.mode, id) && View(e, id).status.Absent?
    requires act.NewOutbound? && id == e.nextId ==> OpenOutbound(e).phase.Gone?
    ensures View(Step(e, inbox, act).e, id).status.Absent?
  {
    if act.ReadFrame? {
      ReadStaysAbsent(e, inbox[0], id);
    } else if act.NewOutbound? {
    } else if act.OnHandle? || act.PollReceiver? || act.DrainReceiver? {
      assert View(e, act.id).status.Absent? ==> !HandleEnabled(View(e, act.id), DropHandle);
    }
  }

  lemma ReadStaysAbsent(e: Endpoint, f: Frame, id: u32)
    requires Local(e.mode, id) && View(e, id).status.Absent?
    ensures View(OnFrame(e, f), id).status.Absent?
  {
    if f.OfStream() {
      OnFrameView(e, f, id);
    }
  }

  /** Ids are handed out in steps of two; nothing else about the endpoint's identity changes. */
  lemma IdsAdvance(e: Endpoint, inbox: seq<Frame>, act: Act)
    requires Enabled(e, inbox, act)
    ensures var e2 := Step(e, inbox, act).e;
            && e2.mode == e.mode && e2.limits == e.limits
            && (e2.nextId == e.nextId || (act.NewOutbound? && e2.nextId == e.nextId + 2))
            && (act.NewOutbound? && !e2.phase.Gone? ==> e2.nextId == e.nextId + 2)
  {
  }

  /** Ids not handed out yet stay unknown. */
  lemma IdsKeep(e: Endpoint, inbox: seq<Frame>, act: Act)
    requires Sound(e) && Enabled(e, inbox, act)
    ensures var e2 := Step(e, inbox, act).e;
            && Local(e2.mode, e2.nextId) && e2.limits == e.limits
            && forall id: u32 :: Local(e2.mode, id) && id >= e2.nextId ==> View(e2, id).status.Absent?
  {
    IdsAdvance(e, inbox, act);
    var e2 := Step(e, inbox, act).e;
    forall id: u32 | Local(e2.mode, id) && id >= e2.nextId
      ensures View(e2, id).status.Absent?
    {
      StaysAbsent(e, inbox, act, id);
    }
  }

  /** No frame tunes a window. */
  lemma DispatchedWindow(s: Stream, f: Frame, remoteId: bool, full: bool)
    requires f.OfStream() && (f.Syn() || s.status.InTable?) && s.maxReceiveWindow == DEFAULT_CREDIT
    ensures Dispatch(s, f, remoteId, full).1.maxReceiveWindow == DEFAULT_CREDIT
  {
  }

  lemma ReceivedWindow(s: Stream, f: Frame, remoteId: bool, full: bool)
    requires f.OfStream() && s.maxReceiveWindow == DEFAULT_CREDIT
    ensures Receive(s, f, remoteId, full).1.maxReceiveWindow == DEFAULT_CREDIT
  {
    if f.Syn() || s.status.InTable? {
      DispatchedWindow(Acknowledge(s, f), f, remoteId, full);
    }
  }

  lemma ReadWindows(e: Endpoint, f: Frame)
    requires DefaultWindows(e)
    ensures DefaultWindows(OnFrame(e, f))
  {
    if f.OfStream() {
      var id := f.header.streamId;
      ReceivedWindow(View(e, id), f, !Local(e.mode, id), Full(e));
      forall i | i in OnFrame(e, f).streams
        ensures OnFrame(e, f).streams[i].maxReceiveWindow == DEFAULT_CREDIT
      {
        OnFrameView(e, f, i);
      }
    }
  }

  /** Windows are tuned only after a round trip was measured. */
  lemma WindowsKeep(e: Endpoint, inbox: seq<Frame>, act: Act)
    requires Enabled(e, inbox, act) && (!e.rtt.measured ==> DefaultWindows(e))
    ensures var e2 := Step(e, inbox, act).e; !e2.rtt.measured ==> DefaultWindows(e2)
  {
    if act.ReadFrame? {
      if !OnFrame(e, inbox[0]).rtt.measured {
        StaysUnmeasured(e, inbox[0]);
        ReadWindows(e, inbox[0]);
      }
    } else {
      OwnWindows(e, inbox, act);
    }
  }

  lemma StaysUnmeasured(e: Endpoint, f: Frame)
    ensures e.rtt.measured ==> OnFrame(e, f).rtt.measured
  {
  }

  lemma EntryWindow(e: Endpoint, id: u32, t: Stream)
    requires DefaultWindows(e) && t.maxReceiveWindow == DEFAULT_CREDIT
    ensures DefaultWindows(With(e, id, t))
  {
  }

  lemma CleanupWindows(e: Endpoint)
    requires DefaultWindows(e)
    ensures DefaultWindows(Cleanup(e))
  {
  }

  lemma HandleWindow(s: Stream, id: u32, op: HandleOp, up: bool)
    requires HandleEnabled(s, op) && (op.UpdateGrant? ==> op.newMax == s.maxReceiveWindow)
    ensures Handle(s, id, op, up).maxReceiveWindow == s.maxReceiveWindow
  {
  }

  lemma CommandWindows(e: Endpoint, id: u32)
    requires DefaultWindows(e) && id in e.streams
    ensures DefaultWindows(TakeCommand(e, id))
  {
    var s := e.streams[id];
    if s.queue != [] {
      EntryWindow(e, id, s.(queue := s.queue[1..]));
    } else {
      EntryWindow(e, id, EndMarker(s, id).0);
    }
  }

  lemma OwnWindows(e: Endpoint, inbox: seq<Frame>, act: Act)
    requires Enabled(e, inbox, act) && !act.ReadFrame? && (!e.rtt.measured ==> DefaultWindows(e))
    ensures var e2 := Step(e, inbox, act).e; !e2.rtt.measured ==> DefaultWindows(e2)
  {
    if !e.rtt.measured {
      match act
      case NewOutbound =>
        CleanupWindows(e);
        EntryWindow(e, e.nextId, Fresh(OweSyn).(status := InTable));
      case OnHandle(id, op) =>
        HandleWindow(e.streams[id], id, op, e.phase.Active?);
        EntryWindow(e, id, Handle(e.streams[id], id, op, e.phase.Active?));
      case PollReceiver(id) => CommandWindows(e, id);
      case DrainReceiver(id) => EntryWindow(e, id, e.streams[id].(queue := e.streams[id].queue[1..]));
      case Fail => CleanupWindows(e);
      case _ =>
    }
  }

  lemma SoundKeeps(e: Endpoint, inbox: seq<Frame>, act: Act)
    requires Sound(e) && QueuesClean(e) && Enabled(e, inbox, act)
    ensures Sound(Step(e, inbox, act).e)
  {
    IdsKeep(e, inbox, act);
    WindowsKeep(e, inbox, act);
    if act.ReadFrame? && !inbox[0].header.tag.GoAway? {
      OnFrameAnswers(e, inbox[0]);
    }
  }

  // ---------------------------------------------------------------- pings

  /** A frame that is not of kind `k` may join anywhere. */
  lemma Unpicked(u: seq<Frame>, f: Frame, v: seq<Frame>, k: Kind)
    ensures Pick(u + [f] + v, k) == Pick(u, k) + (if Matches(k, f) then [f] else []) + Pick(v, k)
    ensures Pick(u + v, k) == Pick(u, k) + Pick(v, k)
  {
    PickConcat(u + [f], v, k);
    PickConcat(u, [f], k);
    PickConcat(u, v, k);
    PickOne(f, k);
  }

  predicate PingKind(k: Kind) { k.Pings? || k.Pongs? }

  /** How a step of `a` changes the ping frames it still has to deliver. */
  predicate PingsChange(p: Pair, act: Act, k: Kind, before: seq<Frame>, after: seq<Frame>, gone: bool) {
    if act.SendPing? && k.Pings? then before == [] ==> after == [PingFrame(p.a.rtt.nextNonce)]
    else if act.ReadFrame? && k.Pongs? && p.ba != [] && Matches(Pings, p.ba[0]) then
      before == [] ==> after == [PongFrame(p.ba[0].header.length)]
    else after == before || (gone && after <= before)
  }

  /** Ping frames leave `a` only as the ping it sends or as the pong it answers. */
  lemma PingsOut(p: Pair, act: Act, k: Kind)
    requires Sound(p.a) && QueuesClean(p.a) && AEnabled(p, act) && PingKind(k)
    requires act.ReadFrame? ==> SessionFrame(p.ba[0])
    ensures var q := AStep(p, act);
            PingsChange(p, act, k, Pick(Outgoing(p.a, p.ab), k), Pick(Outgoing(q.a, q.ab), k), q.a.phase.Gone?)
  {
    if act.SendPing? {
      SendPings(p, k);
    } else if act.Fail? || (act.NewOutbound? && OpenOutbound(p.a) == Cleanup(p.a)) || (act.ReadFrame? && p.ba[0].header.tag.GoAway?) {
      DownPings(p, act, k);
    } else if act.ReadFrame? {
      ReadPings(p, k);
    } else if act.DrainReceiver? || act.PollReceiver? || act.FinishDrain? {
      QueuePings(p, act, k);
    } else if Quietly(act) {
      MovesAlong(p, act);
    } else {
      assert Outgoing(AStep(p, act).a, AStep(p, act).ab) == Outgoing(p.a, p.ab);
    }
  }

  lemma SendPings(p: Pair, k: Kind)
    requires AEnabled(p, SendPing)
    ensures var q := AStep(p, SendPing);
            PingsChange(p, SendPing, k, Pick(Outgoing(p.a, p.ab), k), Pick(Outgoing(q.a, q.ab), k), false)
  {
    PingSent(p);
    PingAppended(p.ab, PingFrame(p.a.rtt.nextNonce), Unsent(p.a), k);
  }

  lemma PingAppended(w: seq<Frame>, f: Frame, rest: seq<Frame>, k: Kind)
    ensures !Matches(k, f) ==> Pick(w + [f] + rest, k) == Pick(w + rest, k)
    ensures Matches(k, f) && Pick(w + rest, k) == [] ==> Pick(w + [f] + rest, k) == [f]
  {
    Unpicked(w, f, rest, k);
  }

  lemma DownPings(p: Pair, act: Act, k: Kind)
    requires AEnabled(p, act) && AStep(p, act).a == Cleanup(p.a) && AStep(p, act).ab == p.ab + []
    ensures var q := AStep(p, act);
            q.a.phase.Gone? && Pick(Outgoing(q.a, q.ab), k) <= Pick(Outgoing(p.a, p.ab), k)
  {
    PickOutgoing(p.a, p.ab, k);
    assert Outgoing(Cleanup(p.a), p.ab + []) == p.ab;
  }

  lemma QueuePings(p: Pair, act: Act, k: Kind)
    requires Sound(p.a) && QueuesClean(p.a) && AEnabled(p, act) && PingKind(k)
    requires act.FinishDrain? || act.DrainReceiver? || act.PollReceiver?
    ensures var q := AStep(p, act); Pick(Outgoing(q.a, q.ab), k) == Pick(Outgoing(p.a, p.ab), k)
  {
    var q, out := AStep(p, act), Outgoing(p.a, p.ab);
    if act.FinishDrain? {
      assert Outgoing(q.a, q.ab) == out + [GoAwayFrame(TERM)];
      AppendUnpicked(out, GoAwayFrame(TERM), k);
    } else if p.a.streams[act.id].queue != [] {
      assert Outgoing(q.a, q.ab) == out + [p.a.streams[act.id].queue[0]];
      AppendUnpicked(out, p.a.streams[act.id].queue[0], k);
    } else {
      MarkerPings(p, act, k);
    }
  }

  lemma MarkerPings(p: Pair, act: Act, k: Kind)
    requires Sound(p.a) && AEnabled(p, act) && PingKind(k) && act.PollReceiver? && p.a.streams[act.id].queue == []
    ensures var q := AStep(p, act); Pick(Outgoing(q.a, q.ab), k) == Pick(Outgoing(p.a, p.ab), k)
  {
    var out := Outgoing(p.a, p.ab);
    var frames := EndMarker(p.a.streams[act.id], act.id).1;
    MarkerOutgoing(p, act);
    if frames == [] {
      assert out + frames == out;
    } else {
      assert frames == [frames[0]];
      AppendUnpicked(out, frames[0], k);
    }
  }

  lemma AppendUnpicked(u: seq<Frame>, f: Frame, k: Kind)
    requires !Matches(k, f)
    ensures Pick(u + [f], k) == Pick(u, k)
  {
    PickConcat(u, [f], k);
    PickOne(f, k);
  }

  /** What a conforming session frame is answered with: a ping by its pong, anything else by no ping at all. */
  lemma AnswerKind(e: Endpoint, f: Frame)
    requires e.pendingRead.None? && SessionFrame(f) && !f.header.tag.GoAway?
    ensures var answer := OnFrame(e, f).pendingRead;
            if Matches(Pings, f) then answer == Some(PongFrame(f.header.length))
            else answer.None? || answer.value.header.tag.GoAway?
  {
  }

  lemma ReadOut(p: Pair)
    requires Sound(p.a) && AEnabled(p, ReadFrame) && !p.ba[0].header.tag.GoAway?
    ensures var q := AStep(p, ReadFrame);
            var before, after := p.ab + p.a.outbox, Opt(p.a.pendingWrite);
            && Outgoing(p.a, p.ab) == before + after
            && Outgoing(q.a, q.ab) == before + Opt(q.a.pendingRead) + after
            && q.a.pendingRead == OnFrame(p.a, p.ba[0]).pendingRead
  {
    OnFrameAnswers(p.a, p.ba[0]);
    assert AStep(p, ReadFrame).ab == p.ab;
  }

  /** An answer among what is outgoing shows only as the pong of a ping. */
  lemma AnswerPicked(f: Frame, answer: Option<Frame>, before: seq<Frame>, after: seq<Frame>, k: Kind)
    requires PingKind(k)
    requires if Matches(Pings, f) then answer == Some(PongFrame(f.header.length)) else answer.None? || answer.value.header.tag.GoAway?
    ensures var was, now := Pick(before + after, k), Pick(before + Opt(answer) + after, k);
            if k.Pongs? && Matches(Pings, f) then was == [] ==> now == [PongFrame(f.header.length)] else now == was
  {
    if answer.Some? {
      Unpicked(before, answer.value, after, k);
    } else {
      assert before + [] + after == before + after;
    }
  }

  lemma ReadPings(p: Pair, k: Kind)
    requires Sound(p.a) && AEnabled(p, ReadFrame) && PingKind(k) && !p.ba[0].header.tag.GoAway? && SessionFrame(p.ba[0])
    ensures var q := AStep(p, ReadFrame);
            PingsChange(p, ReadFrame, k, Pick(Outgoing(p.a, p.ab), k), Pick(Outgoing(q.a, q.ab), k), false)
  {
    ReadOut(p);
    AnswerKind(p.a, p.ba[0]);
    AnswerPicked(p.ba[0], OnFrame(p.a, p.ba[0]).pendingRead, p.ab + p.a.outbox, Opt(p.a.pendingWrite), k);
  }

  /** Reading takes the oldest frame off the other direction. */
  lemma PingsIn(p: Pair, k: Kind)
    requires p.ba != []
    ensures Pick(Outgoing(p.b, p.ba), k) == (if Matches(k, p.ba[0]) then [p.ba[0]] else []) + Pick(Outgoing(p.b, p.ba[1..]), k)
  {
    assert Outgoing(p.b, p.ba) == [p.ba[0]] + Outgoing(p.b, p.ba[1..]);
    PickConcat([p.ba[0]], Outgoing(p.b, p.ba[1..]), k);
    PickOne(p.ba[0], k);
  }

  /** A ping is only ever awaited because one was sent. */
  lemma RttStep(e: Endpoint, inbox: seq<Frame>, act: Act)
    requires Enabled(e, inbox, act)
    ensures var e2 := Step(e, inbox, act).e;
            e2.rtt.awaiting ==
              if act.SendPing? then Some(e.rtt.nextNonce)
              else if act.ReadFrame? && Matches(Pongs, inbox[0]) && e.rtt.awaiting == Some(inbox[0].header.length) then None
              else e.rtt.awaiting
  {
  }

  lemma PhaseStep(p: Pair, act: Act)
    requires AEnabled(p, act)
    ensures var q := AStep(p, act);
            q.b == p.b && q.ba == (if act.ReadFrame? then p.ba[1..] else p.ba) && (q.a.phase.Active? ==> p.a.phase.Active?)
  {
  }

  lemma TokenAsked(p: Pair, q: Pair, act: Act)
    requires PingToken(p)
    requires act.ReadFrame? ==> p.ba != [] && SessionFrame(p.ba[0])
    requires q.b == p.b && q.ba == (if act.ReadFrame? then p.ba[1..] else p.ba) && (q.a.phase.Active? ==> p.a.phase.Active?)
    requires PingsChange(p, act, Pings, Pick(Outgoing(p.a, p.ab), Pings), Pick(Outgoing(q.a, q.ab), Pings), q.a.phase.Gone?)
    requires act.SendPing? ==> p.a.rtt.awaiting.None?
    requires q.a.rtt.awaiting ==
              if act.SendPing? then Some(p.a.rtt.nextNonce)
              else if act.ReadFrame? && Matches(Pongs, p.ba[0]) && p.a.rtt.awaiting == Some(p.ba[0].header.length) then None
              else p.a.rtt.awaiting
    ensures PingToken(q)
  {
    if act.ReadFrame? {
      PingsIn(p, Pongs);
      HeadAndTail(Pick(Outgoing(p.b, p.ba), Pongs), p.ba[0], Pick(Outgoing(p.b, q.ba), Pongs));
    }
  }

  lemma TokenAnswered(p: Pair, q: Pair, act: Act)
    requires PingToken(p.Swap())
    requires act.ReadFrame? ==> p.ba != [] && SessionFrame(p.ba[0])
    requires q.b == p.b && q.ba == (if act.ReadFrame? then p.ba[1..] else p.ba) && (q.a.phase.Active? ==> p.a.phase.Active?)
    requires PingsChange(p, act, Pongs, Pick(Outgoing(p.a, p.ab), Pongs), Pick(Outgoing(q.a, q.ab), Pongs), q.a.phase.Gone?)
    ensures PingToken(q.Swap())
  {
    if act.ReadFrame? {
      PingsIn(p, Pings);
      HeadAndTail(Pick(Outgoing(p.b, p.ba), Pings), p.ba[0], Pick(Outgoing(p.b, q.ba), Pings));
    }
  }

  /** At most one frame: taking the head leaves nothing. */
  lemma HeadAndTail(s: seq<Frame>, f: Frame, rest: seq<Frame>)
    ensures s == [f] + rest && |s| <= 1 ==> s == [f] && rest == []
  {
    if s == [f] + rest && |s| <= 1 {
      assert s[0] == f;
    }
  }

  /** Both ping tokens survive a step of `a`. */
  lemma TokensKeep(p: Pair, act: Act)
    requires Sound(p.a) && QueuesClean(p.a) && AEnabled(p, act) && PingToken(p) && PingToken(p.Swap())
    requires act.ReadFrame? ==> SessionFrame(p.ba[0])
    ensures PingToken(AStep(p, act)) && PingToken(AStep(p, act).Swap())
  {
    PingsOut(p, act, Pings);
    PingsOut(p, act, Pongs);
    RttStep(p.a, p.ba, act);
    PhaseStep(p, act);
    TokenAsked(p, AStep(p, act), act);
    TokenAnswered(p, AStep(p, act), act);
  }

  // ---------------------------------------------------------------- nobody is accused

  predicate Accuses(e: Endpoint, f: Frame) {
    OnFrame(e, f).pendingRead == Some(GoAwayFrame(PROTOCOL_ERROR))
  }

  /** A stream frame in the inbox is at the head of its link. */
  lemma ArrivesInLink(p: Pair)
    requires p.ba != [] && p.ba[0].OfStream()
    ensures var l := LinkOf(p, p.ba[0].header.streamId); l.yx != [] && l.yx[0] == p.ba[0]
  {
    PingsIn(p, OfId(p.ba[0].header.streamId));
  }

  /** A pong on the wire is the one its receiver waits for. */
  lemma PongExpected(p: Pair)
    requires PingToken(p) && p.ba != [] && Matches(Pongs, p.ba[0]) && SessionFrame(p.ba[0])
    ensures p.a.rtt.awaiting == Some(p.ba[0].header.length)
  {
    PingsIn(p, Pongs);
    HeadAndTail(Pick(Outgoing(p.b, p.ba), Pongs), p.ba[0], Pick(Outgoing(p.b, p.ba[1..]), Pongs));
  }

  lemma StreamFrameAccepted(p: Pair)
    requires AllLinks(p) && AEnabled(p, ReadFrame) && p.ba[0].OfStream()
    ensures var answer := OnFrame(p.a, p.ba[0]).pendingRead; answer.None? || answer == Some(GoAwayFrame(INTERNAL_ERROR))
  {
    var l := LinkOf(p, p.ba[0].header.streamId);
    ArrivesInLink(p);
    assert L.Inv(l);
    P.NeverAccused(l, Full(p.a));
  }

  lemma PingAccepted(p: Pair)
    requires PingToken(p) && p.a.pendingRead.None? && p.ba != [] && p.ba[0].header.tag.Ping? && SessionFrame(p.ba[0])
    ensures var answer := OnFrame(p.a, p.ba[0]).pendingRead; answer.None? || answer == Some(PongFrame(p.ba[0].header.length))
  {
    if Matches(Pongs, p.ba[0]) {
      PongExpected(p);
    }
  }

  /** No frame a peer sent makes an endpoint of the pair report a protocol error. */
  lemma NoAccusation(p: Pair)
    requires AllLinks(p) && PingToken(p) && AllSession(Outgoing(p.b, p.ba)) && AEnabled(p, ReadFrame)
    ensures !Accuses(p.a, p.ba[0])
    ensures var answer := OnFrame(p.a, p.ba[0]).pendingRead; answer.Some? ==> SessionFrame(answer.value)
  {
    assert p.ba[0] in Outgoing(p.b, p.ba);
    if p.ba[0].OfStream() {
      StreamFrameAccepted(p);
    } else if p.ba[0].header.tag.Ping? {
      PingAccepted(p);
    }
  }

  /** What an endpoint still holds for the wire. */
  predicate HoldsSession(e: Endpoint) {
    && AllSession(e.outbox)
    && (e.pendingRead.Some? ==> SessionFrame(e.pendingRead.value))
    && (e.pendingWrite.Some? ==> SessionFrame(e.pendingWrite.value))
  }

  lemma HoldsKeep(e: Endpoint, inbox: seq<Frame>, act: Act)
    requires QueuesClean(e) && Enabled(e, inbox, act) && HoldsSession(e)
    requires act.ReadFrame? ==> HoldsSession(OnFrame(e, inbox[0]))
    ensures HoldsSession(Step(e, inbox, act).e) && AllSession(Step(e, inbox, act).sent)
  {
    if act.PollReceiver? {
      TakenSession(e, act.id);
    }
  }

  lemma TakenSession(e: Endpoint, id: u32)
    requires QueuesClean(e) && id in e.streams && HoldsSession(e)
    ensures HoldsSession(TakeCommand(e, id))
  {
  }

  lemma SessionConcat(u: seq<Frame>, v: seq<Frame>)
    ensures AllSession(u + v) <==> AllSession(u) && AllSession(v)
  {
    assert forall f :: f in u ==> f in u + v;
    assert forall f :: f in v ==> f in u + v;
  }

  lemma SessionParts(e: Endpoint, w: seq<Frame>)
    ensures AllSession(Outgoing(e, w)) <==> AllSession(w) && HoldsSession(e)
  {
    SessionConcat(w, e.outbox);
    SessionConcat(w + e.outbox, Opt(e.pendingRead));
    SessionConcat(w + e.outbox + Opt(e.pendingRead), Opt(e.pendingWrite));
    assert forall o: Option<Frame> :: o.Some? ==> o.value in Opt(o);
  }

  lemma SessionKeeps(p: Pair, act: Act)
    requires QueuesClean(p.a) && AEnabled(p, act)
    requires AllSession(Outgoing(p.a, p.ab))
    requires act.ReadFrame? ==> HoldsSession(OnFrame(p.a, p.ba[0]))
    ensures AllSession(Outgoing(AStep(p, act).a, AStep(p, act).ab))
  {
    SessionParts(p.a, p.ab);
    HoldsKeep(p.a, p.ba, act);
    SessionConcat(p.ab, Step(p.a, p.ba, act).sent);
    SessionParts(AStep(p, act).a, AStep(p, act).ab);
  }

  lemma InboxSession(p: Pair, act: Act)
    requires AEnabled(p, act) && AllSession(Outgoing(p.b, p.ba))
    ensures AllSession(Outgoing(AStep(p, act).b, AStep(p, act).ba))
  {
    PhaseStep(p, act);
    assert forall f :: f in p.ba[if act.ReadFrame? then 1 else 0..] ==> f in p.ba;
  }

  lemma AllLinksKeep(p: Pair, act: Act)
    requires Inv(p) && AEnabled(p, act)
    ensures AllLinks(AStep(p, act))
  {
    forall id: u32 ensures L.Inv(LinkOf(AStep(p, act), id)) {
      LinksKeep(p, act, id);
    }
  }

  lemma AnswerSession(p: Pair, act: Act)
    requires Inv(p) && AEnabled(p, act) && act.ReadFrame?
    ensures SessionFrame(p.ba[0])
    ensures HoldsSession(OnFrame(p.a, p.ba[0]))
  {
    assert p.ba[0] in Outgoing(p.b, p.ba);
    NoAccusation(p);
    SessionParts(p.a, p.ab);
    AnsweredHolds(p.a, p.ba[0]);
  }

  lemma AnsweredHolds(e: Endpoint, f: Frame)
    requires Sound(e) && e.pendingRead.None?
    requires HoldsSession(e) && var answer := OnFrame(e, f).pendingRead; answer.Some? ==> SessionFrame(answer.value)
    ensures HoldsSession(OnFrame(e, f))
  {
    if !f.header.tag.GoAway? {
      OnFrameAnswers(e, f);
    }
  }

  lemma ModeKeeps(p: Pair, act: Act)
    requires AEnabled(p, act)
    ensures AStep(p, act).a.mode == p.a.mode
  {
  }

  /** Every step of `a` keeps the invariant of the pair. */
  lemma AStepKeeps(p: Pair, act: Act)
    requires Inv(p) && AEnabled(p, act)
    ensures Inv(AStep(p, act))
  {
    if act.ReadFrame? {
      AnswerSession(p, act);
    }
    CleanQueues(p);
    AllLinksKeep(p, act);
    ModeKeeps(p, act);
    PhaseStep(p, act);
    SoundKeeps(p.a, p.ba, act);
    TokensKeep(p, act);
    SessionKeeps(p, act);
    InboxSession(p, act);
  }

  lemma LinkSwap(p: Pair, id: u32)
    requires p.a.mode != p.b.mode
    ensures LinkOf(p.Swap(), id) == LinkOf(p, id).Swap()
  {
  }

  lemma SwapKeeps(p: Pair)
    requires Inv(p)
    ensures Inv(p.Swap())
  {
    forall id: u32 ensures L.Inv(LinkOf(p.Swap(), id)) {
      assert L.Inv(LinkOf(p, id));
      LinkSwap(p, id);
      P.SwapKeeps(LinkOf(p, id));
    }
  }

  /** Every step of either endpoint keeps the invariant of the pair. */
  lemma StepKeeps(p: Pair, side: Side, act: Act)
    requires Inv(p) && PairEnabled(p, side, act)
    ensures Inv(PairStep(p, side, act))
  {
    if side.A? {
      AStepKeeps(p, act);
    } else {
      SwapKeeps(p);
      AStepKeeps(p.Swap(), act);
      SwapKeeps(AStep(p.Swap(), act));
    }
  }

  lemma FreshLinkHolds(id: u32, xOpens: bool)
    ensures L.Inv(L.Link(id, xOpens, Fresh(if xOpens then OweSyn else OweAck), Fresh(if xOpens then OweAck else OweSyn), [], [], true, true))
  {
  }

  lemma StartHolds(a: Limits, b: Limits)
    requires a.splitSendSize <= MAX_FRAME_BODY_LEN && b.splitSendSize <= MAX_FRAME_BODY_LEN
    ensures Inv(Start(a, b))
  {
    forall id: u32
      ensures L.Inv(LinkOf(Start(a, b), id))
    {
      FreshLinkHolds(id, Local(Client, id));
    }
  }
}
