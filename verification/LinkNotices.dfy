/**
  What one end tells the other about itself: that it will write no more, that it is gone, that it
  took the stream in. As long as both connections run, each of these is under way or has arrived.
*/
module LinkNotices {
  import opened Basics
  import opened Frames
  import opened Streams
  import opened StreamLaws
  import opened Link
  import P = LinkProofs

  predicate HasReset(p: seq<Frame>) {
    exists f :: f in p && f.Rst()
  }

  predicate HasAck(p: seq<Frame>) {
    exists f :: f in p && f.Ack()
  }

  /** `s` writes no more: it has queued its FIN, or its state forbids it. */
  predicate Finished(s: Stream) {
    s.position.CloseQueued? || !s.state.CanWrite()
  }

  /** The end of writing at `x` is under way to `y`, or `y` knows; an end nobody knows about goes with its SYN. */
  predicate EndTold(v: Lane) {
    v.xUp && v.yUp && Finished(v.x) ==>
      if v.y.status.Absent? then Quiet(v.x) && (HasSyn(v.p) ==> HasEnd(v.p))
      else HasEnd(v.p) || !v.y.state.CanRead()
  }

  /** A reset is the last word of an end that has forgotten the stream. */
  predicate ResetTold(v: Lane) {
    v.xUp && v.yUp && HasReset(v.p) ==> v.x.status.Removed?
  }

  /** The acceptor `x` has acknowledged the stream: its ACK is under way, or `y` has taken note. */
  predicate AckTold(v: Lane) {
    v.xUp && v.yUp && !v.x.status.Absent? && v.x.flag.NoFlag? && v.y.status.InTable? ==>
      HasAck(v.p) || v.y.state != Open(false)
  }

  predicate Tells(v: Lane) {
    EndTold(v) && ResetTold(v)
  }

  /** The lane from the end that accepts the stream. */
  function FromAcceptor(l: Link): Lane {
    if l.xOpens then LaneOf(l).Swap() else LaneOf(l)
  }

  predicate Told(l: Link) {
    Tells(LaneOf(l)) && Tells(LaneOf(l).Swap()) && AckTold(FromAcceptor(l))
  }

  // ---------------------------------------------------------------- pipes

  lemma Appended(p: seq<Frame>, f: Frame)
    ensures HasEnd(p + [f]) <==> HasEnd(p) || Ends(f)
    ensures HasSyn(p + [f]) <==> HasSyn(p) || f.Syn()
    ensures HasReset(p + [f]) <==> HasReset(p) || f.Rst()
    ensures HasAck(p + [f]) <==> HasAck(p) || f.Ack()
  {
    assert forall g :: g in p + [f] <==> g in p || g == f;
  }

  lemma Headed(f: Frame, p: seq<Frame>)
    ensures HasEnd([f] + p) <==> Ends(f) || HasEnd(p)
    ensures HasSyn([f] + p) <==> f.Syn() || HasSyn(p)
    ensures HasReset([f] + p) <==> f.Rst() || HasReset(p)
    ensures HasAck([f] + p) <==> f.Ack() || HasAck(p)
  {
    assert forall g :: g in [f] + p <==> g == f || g in p;
  }

  // ---------------------------------------------------------------- steps of `x` on its own side

  /** `x` goes on without a new frame and without a new end. */
  predicate Continues(s: Stream, t: Stream) {
    && (Finished(t) ==> Finished(s)) && (Quiet(s) ==> Quiet(t))
    && (t.state.CanRead() ==> s.state.CanRead()) && (t.state == Open(false) ==> s.state == Open(false))
    && t.status == s.status
  }

  lemma SameTold(l: Link, m: Link)
    requires Told(l) && m == l.(x := m.x, xy := m.xy) && m.PipeX() == l.PipeX() && Continues(l.x, m.x)
    requires !l.xOpens ==> m.x.flag == l.x.flag || HasAck(m.PipeX())
    ensures Told(m)
  {
    assert m.PipeY() == l.PipeY();
  }

  /** `x` adds the frame `f`, and says in it what is new. */
  lemma MoreTold(l: Link, m: Link, f: Frame)
    requires Told(l) && m == l.(x := m.x, xy := m.xy) && m.PipeX() == l.PipeX() + [f]
    requires (Finished(m.x) ==> Finished(l.x) || Ends(f)) && (Quiet(l.x) ==> Quiet(m.x))
    requires Finished(m.x) ==> Quiet(m.x) && (l.y.status.Absent? ==> !f.Syn())
    requires f.Rst() ==> m.x.status.Removed?
    requires !l.x.status.Absent? && (m.x.status.Removed? || m.x.status == l.x.status)
    requires (m.x.state.CanRead() ==> l.x.state.CanRead()) && (m.x.state == Open(false) ==> l.x.state == Open(false))
    requires !l.xOpens ==> m.x.flag == l.x.flag || f.Ack()
    ensures Told(m)
  {
    Appended(l.PipeX(), f);
    assert m.PipeY() == l.PipeY();
  }

  // ---------------------------------------------------------------- every step of a link

  lemma WriteTold(l: Link, op: HandleOp)
    requires Told(l) && LinkEnabled(l, LHandle(op)) && op.WriteBegin?
    ensures Told(LinkStep(l, LHandle(op)))
  {
    var m := LinkStep(l, LHandle(op));
    if m.x.position.Wrote? {
      var f := WithFlag(DataFrame(l.id, m.x.position.body), m.x.flag);
      if l.xUp {
        assert m.PipeX() == l.PipeX() + [f];
        MoreTold(l, m, f);
      }
    } else {
      SameTold(l, m);
    }
  }

  lemma UpdateTold(l: Link, op: HandleOp)
    requires P.Footing(l) && Told(l) && LinkEnabled(l, LHandle(op)) && op.UpdateGrant?
    ensures Told(LinkStep(l, LHandle(op)))
  {
    var m := LinkStep(l, LHandle(op));
    if UpdateIsDue(l.x) {
      var f := WithFlag(WindowUpdateFrame(l.id, Due(l.x, op.newMax)), l.x.flag);
      if l.xUp {
        assert m.PipeX() == l.PipeX() + [f];
        MoreTold(l, m, f);
      }
    } else {
      SameTold(l, m);
    }
  }

  lemma CloseTold(l: Link, op: HandleOp)
    requires P.Footing(l) && Told(l) && LinkEnabled(l, LHandle(op)) && op.CloseSend?
    ensures Told(LinkStep(l, LHandle(op)))
  {
    var m := LinkStep(l, LHandle(op));
    if l.xUp {
      var f := CloseFrame(l.id, l.x.flag.OweAck?);
      assert m.PipeX() == l.PipeX() + [f];
      MoreTold(l, m, f);
    }
  }

  /** The other steps of a handle add no frame; the flag of a frame already built goes with it. */
  lemma SteadyTold(l: Link, op: HandleOp)
    requires P.Footing(l) && Told(l) && LinkEnabled(l, LHandle(op)) && !op.WriteBegin? && !op.UpdateGrant? && !op.CloseSend?
    ensures Told(LinkStep(l, LHandle(op)))
  {
    var m := LinkStep(l, LHandle(op));
    if l.xUp {
      assert m.PipeX() == l.PipeX();
      FlagGoesWith(l, op);
      SameTold(l, m);
    }
  }

  lemma FlagGoesWith(l: Link, op: HandleOp)
    requires P.Footing(l) && LinkEnabled(l, LHandle(op)) && !op.WriteBegin? && !op.UpdateGrant? && !op.CloseSend? && l.xUp
    ensures var m := LinkStep(l, LHandle(op)); Continues(l.x, m.x) && (!l.xOpens ==> m.x.flag == l.x.flag || HasAck(m.PipeX()))
  {
    var m := LinkStep(l, LHandle(op));
    if op.WriteFlag? && l.x.flag.OweAck? {
      assert Streams.WithFlag(DataFrame(l.id, l.x.position.body), OweAck) in m.PipeX();
    }
  }

  lemma HandleTold(l: Link, op: HandleOp)
    requires Inv(l) && Told(l) && LinkEnabled(l, LHandle(op))
    ensures Told(LinkStep(l, LHandle(op)))
  {
    assert P.Footing(l);
    match op
    case WriteBegin(_, _) => WriteTold(l, op);
    case UpdateGrant(_) => UpdateTold(l, op);
    case CloseSend => CloseTold(l, op);
    case _ => SteadyTold(l, op);
  }

  lemma EnqueueTold(l: Link)
    requires Told(l) && LinkEnabled(l, LEnqueue)
    ensures Told(LinkStep(l, LEnqueue))
  {
    var m := LinkStep(l, LEnqueue);
    assert m.xy + m.x.queue == l.xy + l.x.queue;
    assert m.PipeX() == l.PipeX();
    SameTold(l, m);
  }

  /** What an end marker is: the record is shut, and a frame ends what the peer may read. */
  lemma MarkerSays(s: Stream, id: u32)
    requires s.status.InTable?
    ensures var (t, out) := EndMarker(s, id);
            && t == Shut(s) && |out| <= 1 && (out == [] ==> !s.state.CanWrite())
            && (out != [] ==> Ends(out[0]) && !out[0].Syn())
  {
  }

  /** The end marker: who can still write is owed an end, and gets it. */
  lemma MarkerTold(l: Link)
    requires Inv(l) && Told(l) && LinkEnabled(l, LMarker)
    ensures Told(LinkStep(l, LMarker))
  {
    if l.x.status.InTable? {
      var (t, out) := EndMarker(l.x, l.id);
      MarkerSays(l.x, l.id);
      ShutTold(l, l.(x := t, xy := l.xy + out), out);
    } else {
      assert l.xy + [] == l.xy;
    }
  }

  lemma ShutTold(l: Link, m: Link, out: seq<Frame>)
    requires Told(l) && m == l.(x := Shut(l.x), xy := l.xy + out) && l.x.dropped && l.x.queue == [] && l.x.status.InTable?
    requires l.x.position.Idle? && |out| <= 1 && (out == [] ==> !l.x.state.CanWrite()) && (out != [] ==> Ends(out[0]) && !out[0].Syn())
    ensures Told(m)
  {
    assert m.PipeX() == l.PipeX() + out;
    if out == [] {
      NothingOwed(l, m);
    } else {
      assert out == [out[0]];
      MoreTold(l, m, out[0]);
    }
  }

  lemma NothingOwed(l: Link, m: Link)
    requires Told(l) && m == l.(x := Shut(l.x)) && m.PipeX() == l.PipeX() && Finished(l.x) && l.x.dropped && l.x.status.InTable?
    ensures Told(m)
  {
    assert m.PipeY() == l.PipeY();
  }

  lemma OpenTold(l: Link)
    requires Inv(l) && Told(l) && LinkEnabled(l, LOpen)
    ensures Told(LinkStep(l, LOpen))
  {
    var m := LinkStep(l, LOpen);
    assert m.PipeX() == l.PipeX() && m.PipeY() == l.PipeY();
  }

  // ---------------------------------------------------------------- reading

  /** What a reader of the table does with the frame `f` from the front of its pipe. */
  predicate Heard(s: Stream, t: Stream, f: Frame) {
    && !t.status.Absent? && t.flag == s.flag && t.position == s.position && t.dropped == s.dropped
    && (t.state.CanRead() <==> s.state.CanRead() && !Ends(f))
    && (t.state.CanWrite() <==> s.state.CanWrite() && !f.Rst())
    && (t.state == Open(false) ==> s.state == Open(false) && !f.Ack())
    && (Quiet(s) ==> Quiet(t))
  }

  /** What `x` says itself: only a reset from an end that is gone makes it fall silent. */
  lemma HeardOut(v: Lane, w: Lane, f: Frame)
    requires Tells(v) && Tells(v.Swap()) && w == v.(x := w.x, q := w.q, refused := w.refused) && v.q == [f] + w.q
    requires Heard(v.x, w.x, f) && WellFormed(v.y) && (v.x.status.Removed? ==> w.x.status.Removed?)
    ensures Tells(w)
  {
    Headed(f, w.q);
  }

  /** What the peer says: the frame is no longer under way, and `x` has heard it. */
  lemma HeardIn(v: Lane, w: Lane, f: Frame)
    requires Tells(v.Swap()) && w == v.(x := w.x, q := w.q, refused := w.refused) && v.q == [f] + w.q
    requires Heard(v.x, w.x, f) && !v.x.status.Absent?
    ensures Tells(w.Swap())
  {
    Headed(f, w.q);
  }

  lemma HeardAck(v: Lane, w: Lane, f: Frame)
    requires w == v.(x := w.x, q := w.q, refused := w.refused) && v.q == [f] + w.q
    requires Heard(v.x, w.x, f) && v.x.status.InTable?
    ensures AckTold(v) ==> AckTold(w)
    ensures AckTold(v.Swap()) ==> AckTold(w.Swap())
  {
    Headed(f, w.q);
  }

  /** `x`, which knows the stream, reads the frame `f`. */
  lemma KnownTold(l: Link, m: Link, f: Frame)
    requires Inv(l) && Told(l) && m == l.(x := m.x, yx := m.yx) && m.PipeX() == l.PipeX() && l.PipeY() == [f] + m.PipeY()
    requires l.x.status.InTable? && Heard(l.x, m.x, f)
    ensures Told(m)
  {
    var v, w := LaneOf(l), LaneOf(m);
    assert WellFormed(v.y);
    HeardOut(v, w, f);
    HeardIn(v, w, f);
    HeardAck(v, w, f);
  }

  /** Nobody takes the frame: it neither opens the stream nor matters to who has forgotten it. */
  lemma UnknownTold(l: Link, m: Link, f: Frame)
    requires Inv(l) && Told(l) && m == l.(yx := m.yx) && m.PipeX() == l.PipeX() && l.PipeY() == [f] + m.PipeY()
    requires !l.x.status.InTable?
    ensures Told(m)
  {
    var v, w := LaneOf(l), LaneOf(m);
    if l.x.status.Absent? {
      FirstOnly(l, m, f);
    }
    assert WellFormed(v.x);
    DroppedTold(v, w, f);
  }

  lemma DroppedTold(v: Lane, w: Lane, f: Frame)
    requires Tells(v) && Tells(v.Swap()) && w == v.(q := w.q, refused := w.refused) && v.q == [f] + w.q
    requires WellFormed(v.x) && !v.x.status.InTable? && (v.x.status.Absent? ==> !HasSyn(w.q) && v.x == Fresh(v.x.flag))
    ensures Tells(w) && Tells(w.Swap()) && (AckTold(v) ==> AckTold(w)) && (AckTold(v.Swap()) ==> AckTold(w.Swap()))
  {
    Headed(f, w.q);
  }

  /** A SYN is the first frame of a pipe or it is not there. */
  lemma FirstOnly(l: Link, m: Link, f: Frame)
    requires Inv(l) && l.PipeY() == [f] + m.PipeY()
    ensures !HasSyn(m.PipeY())
  {
    var q := l.PipeY();
    forall g | g in m.PipeY()
      ensures !g.Syn()
    {
      var i :| 0 <= i < |m.PipeY()| && m.PipeY()[i] == g;
      assert q[i + 1] == g;
    }
  }

  /** The SYN arrives: whatever else its sender has said comes behind it. */
  lemma NewTold(l: Link, m: Link, f: Frame)
    requires Inv(l) && Told(l) && m == l.(x := m.x, yx := m.yx) && m.PipeX() == l.PipeX() && l.PipeY() == [f] + m.PipeY()
    requires l.x.status.Absent? && !l.xOpens && f.Syn() && !Ends(f)
    requires m.x.status.InTable? && m.x.flag.OweAck? && m.x.position.Idle? && m.x.state == Open(false)
    ensures Told(m)
  {
    SilentYet(l);
    NewTells(LaneOf(l), LaneOf(m), f);
  }

  lemma SilentYet(l: Link)
    requires Inv(l) && l.x.status.Absent? && !l.xOpens
    ensures l.PipeX() == []
  {
    assert Opened(l);
  }

  lemma NewTells(v: Lane, w: Lane, f: Frame)
    requires EndTold(v.Swap()) && ResetTold(v.Swap()) && v.p == []
    requires w == v.(x := w.x, q := w.q, refused := w.refused) && v.q == [f] + w.q
    requires v.x.status.Absent? && f.Syn() && !Ends(f) && !w.x.status.Absent? && w.x.position.Idle? && w.x.state.CanWrite()
    ensures Tells(w) && Tells(w.Swap())
  {
    Headed(f, w.q);
  }

  lemma ReceiveTold(l: Link, full: bool)
    requires Inv(l) && Told(l) && LinkEnabled(l, LReceive(full))
    ensures Told(LinkStep(l, LReceive(full)))
  {
    var (verdict, t) := Judge(l, full);
    var f := l.yx[0];
    if l.x.status.InTable? {
      KnownHeard(l, full);
      P.ReadPipes(l, t);
      KnownTold(l, P.AfterRead(l, t), f);
    } else if verdict.New? {
      NewHeard(l, full);
      P.ReadPipes(l, t);
      NewTold(l, P.AfterRead(l, t), f);
    } else {
      UnknownHeard(l, full);
      P.ReadPipes(l, l.x);
      UnknownTold(l, P.AfterRead(l, l.x), f);
    }
  }

  lemma NewHeard(l: Link, full: bool)
    requires Inv(l) && LinkEnabled(l, LReceive(full)) && !l.x.status.InTable? && Judge(l, full).0.New?
    ensures l.x.status.Absent? && !l.xOpens && l.yx[0].Syn() && !Ends(l.yx[0])
    ensures var t := Judge(l, full).1;
            t.status.InTable? && t.flag.OweAck? && t.position.Idle? && t.state == Open(false) && t.queue == l.x.queue && t.flag == l.x.flag && t.position == l.x.position
  {
    P.Arriving(l);
    P.ReceiveEffect(l, full);
    OpenedMeans(l.x, l.yx[0], !l.xOpens, full);
  }

  lemma UnknownHeard(l: Link, full: bool)
    requires Inv(l) && LinkEnabled(l, LReceive(full)) && !l.x.status.InTable? && !Judge(l, full).0.New?
    ensures Judge(l, full).1 == l.x
  {
    P.Arriving(l);
    P.ReceiveEffect(l, full);
  }

  lemma KnownHeard(l: Link, full: bool)
    requires Inv(l) && LinkEnabled(l, LReceive(full)) && l.x.status.InTable?
    ensures Heard(l.x, Judge(l, full).1, l.yx[0]) && Judge(l, full).1.queue == l.x.queue
  {
    P.Arriving(l);
    P.ReceiveEffect(l, full);
    ReceiveMeans(l.x, l.yx[0], !l.xOpens, full);
  }

  // ---------------------------------------------------------------- every step

  lemma StepTold(l: Link, op: LinkOp)
    requires Inv(l) && Told(l) && LinkEnabled(l, op)
    ensures Told(LinkStep(l, op))
  {
    match op
    case LOpen => OpenTold(l);
    case LHandle(h) => HandleTold(l, h);
    case LEnqueue => EnqueueTold(l);
    case LMarker => MarkerTold(l);
    case LReceive(full) => ReceiveTold(l, full);
    case LClose => DownTold(LinkStep(l, op));
    case LFail(_) => DownTold(LinkStep(l, op));
  }

  /** A connection that no longer runs promises nothing more. */
  lemma DownTold(m: Link)
    requires !m.xUp
    ensures Told(m)
  {
  }

  lemma SwapTold(l: Link)
    requires Told(l)
    ensures Told(l.Swap())
  {
  }

  lemma FreshTold(id: u32, xOpens: bool)
    ensures Told(Link(id, xOpens, Fresh(if xOpens then OweSyn else OweAck), Fresh(if xOpens then OweAck else OweSyn), [], [], true, true))
  {
  }
}
