/** Every step of either end keeps the link invariant. */
module LinkProofs {
  import opened Basics
  import opened Header
  import opened Frames
  import opened Streams
  import opened Link

  // ---------------------------------------------------------------- pipes as sequences

  lemma {:induction false} BytesConcat(p: seq<Frame>, q: seq<Frame>)
    ensures Bytes(p + q) == Bytes(p) + Bytes(q)
  {
    if p == [] {
      assert p + q == q;
    } else {
      assert (p + q)[1..] == p[1..] + q;
      BytesConcat(p[1..], q);
    }
  }

  lemma {:induction false} CreditsConcat(p: seq<Frame>, q: seq<Frame>)
    ensures Credits(p + q) == Credits(p) + Credits(q)
  {
    if p == [] {
      assert p + q == q;
    } else {
      assert (p + q)[1..] == p[1..] + q;
      CreditsConcat(p[1..], q);
    }
  }

  lemma {:induction false} CreditsNonNegative(p: seq<Frame>)
    ensures Credits(p) >= 0
  {
    if p != [] {
      CreditsNonNegative(p[1..]);
    }
  }

  /** Appending keeps the order if nothing with bytes goes behind an end. */
  lemma {:induction false} EndsLastAppend(p: seq<Frame>, f: Frame)
    requires EndsLast(p)
    requires HasEnd(p) ==> f.body == []
    ensures EndsLast(p + [f])
  {
    if p == [] {
      assert [f][1..] == [];
    } else {
      assert (p + [f])[1..] == p[1..] + [f];
      assert HasEnd(p[1..]) ==> HasEnd(p);
      EndsLastAppend(p[1..], f);
      BytesConcat(p[1..], [f]);
    }
  }

  lemma {:induction false} EndsLastPrefix(p: seq<Frame>, k: nat)
    requires EndsLast(p) && k <= |p|
    ensures EndsLast(p[..k])
  {
    if k > 0 {
      assert p[..k][1..] == p[1..][..k - 1];
      EndsLastPrefix(p[1..], k - 1);
      assert p[1..] == p[1..][..k - 1] + p[1..][k - 1..];
      BytesConcat(p[1..][..k - 1], p[1..][k - 1..]);
    }
  }

  lemma {:induction false} EndsLastTail(p: seq<Frame>)
    requires EndsLast(p) && p != []
    ensures EndsLast(p[1..]) && (Ends(p[0]) ==> Bytes(p[1..]) == [])
  {
  }

  lemma OneFrame(f: Frame)
    ensures Bytes([f]) == f.body
    ensures Credits([f]) == if f.header.tag.WindowUpdate? then f.header.length else 0
  {
    assert [f][1..] == [];
  }

  lemma PrefixTransitive<T>(a: seq<T>, b: seq<T>, c: seq<T>)
    ensures a <= b <= c ==> a <= c
  {
  }

  // ---------------------------------------------------------------- lanes

  function CreditOf(f: Frame): int {
    if f.header.tag.WindowUpdate? then f.header.length else 0
  }

  /** What a step of `x` may do to its record without touching bytes already received. */
  predicate Calm(s: Stream, t: Stream) {
    && WellFormed(t)
    && (Quiet(s) ==> Quiet(t))
    && (ReadShut(t) ==> ReadShut(s))
    && t.got + t.buffer == s.got + s.buffer
    && (t.status == s.status || (s.status.InTable? && t.status.Removed?) || (s == Fresh(s.flag) && t.status.InTable?))
    && (s.dropped ==> t.dropped)
    && (t.state == Open(true) ==> s.state == Open(true) || s.flag.OweAck?)
  }

  /** A step of `x` that adds nothing to its pipe. */
  lemma SameFrames(v: Lane, w: Lane)
    requires Both(v)
    requires w == v.(x := w.x, refused := w.refused) && (v.refused ==> w.refused)
    requires Calm(v.x, w.x)
    requires w.x.sendWindow <= v.x.sendWindow && v.x.receiveWindow <= w.x.receiveWindow
    requires v.x.wrote <= w.x.wrote
    requires v.xUp ==> w.x.wrote == v.x.wrote && w.x.sendWindow == v.x.sendWindow && w.x.receiveWindow == v.x.receiveWindow
    ensures Both(w)
  {
    PrefixTransitive(v.y.got + v.y.buffer, v.x.wrote, w.x.wrote);
    PrefixTransitive(v.y.got + v.y.buffer + Bytes(v.p), v.x.wrote, w.x.wrote);
  }

  /** A step of `x` that adds the frame `f` to its pipe. */
  lemma OneMoreFrame(v: Lane, w: Lane, f: Frame)
    requires Both(v)
    requires v.xUp && w == v.(x := w.x, p := v.p + [f], refused := w.refused) && (v.refused ==> w.refused)
    requires Calm(v.x, w.x) && Conforming(f, v.id)
    requires Quiet(v.x) ==> f.body == []
    requires Ends(f) ==> Quiet(w.x)
    requires w.x.sendWindow == v.x.sendWindow - |f.body|
    requires w.x.receiveWindow == v.x.receiveWindow + CreditOf(f)
    requires w.x.wrote == v.x.wrote + f.body
    ensures Both(w)
  {
    OneFrame(f);
    BytesConcat(v.p, [f]);
    CreditsConcat(v.p, [f]);
    EndsLastAppend(v.p, f);
  }

  /** Cutting the tail of a pipe keeps its order and loses only bytes and credit at the end. */
  lemma Cut(p: seq<Frame>, k: nat)
    requires EndsLast(p) && k <= |p|
    ensures EndsLast(p[..k]) && Bytes(p[..k]) <= Bytes(p) && 0 <= Credits(p[..k]) <= Credits(p)
    ensures HasEnd(p[..k]) ==> HasEnd(p)
  {
    EndsLastPrefix(p, k);
    assert p == p[..k] + p[k..];
    BytesConcat(p[..k], p[k..]);
    CreditsConcat(p[..k], p[k..]);
    CreditsNonNegative(p[..k]);
    CreditsNonNegative(p[k..]);
  }

  /** The connection of `x` goes down and the tail of its pipe is lost. */
  lemma FewerFrames(v: Lane, w: Lane, k: nat)
    requires Both(v) && k <= |v.p|
    requires w == v.(x := w.x, p := v.p[..k], xUp := false, refused := w.refused) && (v.refused ==> w.refused)
    requires w.x == v.x.(queue := w.x.queue) || (v.x.status.InTable? && w.x == Shut(v.x).(queue := w.x.queue))
    requires WellFormed(w.x)
    ensures Both(w)
  {
    Cut(v.p, k);
    var kept := v.y.got + v.y.buffer;
    assert kept + Bytes(w.p) <= kept + Bytes(v.p);
    PrefixTransitive(kept + Bytes(w.p), kept + Bytes(v.p), v.x.wrote);
    assert Half(w);
  }

  // ---------------------------------------------------------------- the opening

  /** The opener adds the frame `f`; only a first frame may carry SYN. */
  lemma OpenerSends(o: Stream, o2: Stream, a: Stream, p: seq<Frame>, queued: seq<Frame>, queued2: seq<Frame>, q: seq<Frame>, f: Frame)
    requires Opening(o, a, p, queued, q) && !o.status.Absent? && !o2.status.Absent?
    requires o2.flag == o.flag || o2.flag.NoFlag?
    requires f.Syn() ==> o.flag.OweSyn? && p == []
    requires queued2 == queued || (queued2 == queued + [f] && !f.Syn() && f.body == [] && Quiet(o2))
    requires o2.flag.OweSyn? && Quiet(o) ==> Quiet(o2)
    requires a.status.Absent? ==> o2.receiveWindow == o2.maxReceiveWindow == DEFAULT_CREDIT && o2.buffer == [] && CreditOf(f) == 0
    requires o2.state == Open(true) ==> o.state == Open(true)
    ensures Opening(o2, a, p + [f], queued2, q)
  {
    OneFrame(f);
    CreditsConcat(p, [f]);
    BytesConcat(queued, [f]);
  }

  /** The acceptor adds a frame. */
  lemma AcceptorSends(o: Stream, a: Stream, a2: Stream, p: seq<Frame>, queued: seq<Frame>, q: seq<Frame>, f: Frame)
    requires Opening(o, a, p, queued, q) && !a.status.Absent? && !a2.status.Absent?
    requires !f.Syn() && !a2.flag.OweSyn?
    ensures Opening(o, a2, p, queued, q + [f])
  {
  }

  /** `x` adds the frame `f` to its pipe, paying for its bytes and granting its credit. */
  predicate Adds(l: Link, m: Link, f: Frame) {
    && m == l.(x := m.x, xy := m.xy) && m.PipeX() == l.PipeX() + [f]
    && Calm(l.x, m.x) && Conforming(f, l.id) && !l.x.status.Absent?
    && (Quiet(l.x) ==> f.body == []) && (Ends(f) ==> Quiet(m.x))
    && m.x.sendWindow == l.x.sendWindow - |f.body|
    && m.x.receiveWindow == l.x.receiveWindow + CreditOf(f)
    && m.x.wrote == l.x.wrote + f.body
    && (m.x.flag == l.x.flag || m.x.flag.NoFlag?)
    && (f.Syn() ==> l.x.flag.OweSyn? && l.PipeX() == [])
    && (l.x.flag.OweSyn? && m.x.flag.NoFlag? ==> f.Syn())
    && (m.xy + m.x.queue == l.xy + l.x.queue
        || (m.xy + m.x.queue == l.xy + l.x.queue + [f] && !f.Syn() && f.body == [] && Quiet(m.x)))
    && (l.xOpens && l.y.status.Absent? ==>
          CreditOf(f) == 0 && m.x.maxReceiveWindow == l.x.maxReceiveWindow && m.x.buffer == l.x.buffer)
  }

  lemma Sends(l: Link, m: Link, f: Frame)
    requires Inv(l) && l.xUp && Adds(l, m, f)
    ensures Inv(m)
  {
    assert f in m.PipeX();
    if l.xOpens {
      OpenerSends(l.x, m.x, l.y, l.PipeX(), l.xy + l.x.queue, m.xy + m.x.queue, l.PipeY(), f);
    } else {
      AcceptorSends(l.y, l.x, m.x, l.PipeY(), l.yx + l.y.queue, l.PipeX(), f);
    }
    OneMoreFrame(LaneOf(l), LaneOf(m), f);
  }

  /** `x` changes its record but not its pipe. */
  predicate Rests(l: Link, m: Link) {
    && m == l.(x := m.x, xy := m.xy) && m.PipeX() == l.PipeX()
    && Calm(l.x, m.x) && !l.x.status.Absent?
    && m.x.sendWindow <= l.x.sendWindow && l.x.receiveWindow <= m.x.receiveWindow && l.x.wrote <= m.x.wrote
    && (l.xUp ==> m.x.wrote == l.x.wrote && m.x.sendWindow == l.x.sendWindow && m.x.receiveWindow == l.x.receiveWindow)
    && (m.x.flag == l.x.flag || m.x.flag.NoFlag?)
    && (m.x.flag.OweSyn? ==> m.xy + m.x.queue == l.xy + l.x.queue)
    && (l.xOpens && l.y.status.Absent? ==>
          m.x.receiveWindow == l.x.receiveWindow && m.x.maxReceiveWindow == l.x.maxReceiveWindow && m.x.buffer == l.x.buffer)
  }

  lemma Stays(l: Link, m: Link)
    requires Inv(l) && Rests(l, m)
    ensures Inv(m)
  {
    SameFrames(LaneOf(l), LaneOf(m));
  }

  /** What a step on one end needs to know of the invariant. */
  predicate Footing(l: Link) {
    && WellFormed(l.x)
    && (l.x.flag.OweSyn? ==> l.xOpens && l.y.status.Absent? && (l.xy + l.x.queue == [] || Quiet(l.x)))
    && (l.xOpens && l.y.status.Absent? ==>
          l.x.receiveWindow == l.x.maxReceiveWindow == DEFAULT_CREDIT && l.x.buffer == [])
  }

  /** A step of `x` on its own side: its pipe stays or grows by one frame it answers for. */
  predicate Progress(l: Link, m: Link) {
    || Rests(l, m)
    || (l.xUp && m.PipeX() != [] && Adds(l, m, m.PipeX()[|m.PipeX()| - 1]))
  }

  lemma ProgressKeeps(l: Link, m: Link)
    requires Inv(l) && Progress(l, m)
    ensures Inv(m)
  {
    if Rests(l, m) {
      Stays(l, m);
    } else {
      Sends(l, m, m.PipeX()[|m.PipeX()| - 1]);
    }
  }

  lemma WriteProgress(l: Link, op: HandleOp)
    requires Footing(l) && op.WriteBegin? && LinkEnabled(l, LHandle(op))
    ensures Progress(l, LinkStep(l, LHandle(op)))
  {
    var m := LinkStep(l, LHandle(op));
    if m.x.position.Wrote? && l.xUp {
      WriteAdds(l, op);
    } else {
      assert m.PipeX() == l.PipeX();
      assert Rests(l, m);
    }
  }

  lemma WriteAdds(l: Link, op: HandleOp)
    requires Footing(l) && op.WriteBegin? && LinkEnabled(l, LHandle(op)) && l.xUp
    requires l.x.state.CanWrite() && l.x.sendWindow > 0
    ensures Progress(l, LinkStep(l, LHandle(op)))
  {
    var m := LinkStep(l, LHandle(op));
    var f := WithFlag(DataFrame(l.id, m.x.position.body), m.x.flag);
    assert l.PipeX() == l.xy + l.x.queue;
    assert m.PipeX() == l.PipeX() + [f];
    assert Adds(l, m, f);
  }

  lemma UpdateProgress(l: Link, op: HandleOp)
    requires Footing(l) && op.UpdateGrant? && LinkEnabled(l, LHandle(op))
    ensures Progress(l, LinkStep(l, LHandle(op)))
  {
    var m := LinkStep(l, LHandle(op));
    if UpdateIsDue(l.x) && l.xUp {
      UpdateAdds(l, op);
    } else {
      assert m.PipeX() == l.PipeX();
      assert Rests(l, m);
    }
  }

  lemma UpdateAdds(l: Link, op: HandleOp)
    requires Footing(l) && op.UpdateGrant? && LinkEnabled(l, LHandle(op)) && l.xUp && UpdateIsDue(l.x)
    ensures Progress(l, LinkStep(l, LHandle(op)))
  {
    var m := LinkStep(l, LHandle(op));
    var f := WithFlag(WindowUpdateFrame(l.id, Due(l.x, op.newMax)), l.x.flag);
    assert m.PipeX() == l.PipeX() + [f];
    assert Adds(l, m, f);
  }

  lemma CloseProgress(l: Link, op: HandleOp)
    requires Footing(l) && op.CloseSend? && LinkEnabled(l, LHandle(op))
    ensures Progress(l, LinkStep(l, LHandle(op)))
  {
    var m := LinkStep(l, LHandle(op));
    if l.xUp {
      var f := CloseFrame(l.id, l.x.flag.OweAck?);
      assert m.PipeX() == l.PipeX() + [f];
      assert Adds(l, m, f);
    } else {
      assert m.PipeX() == l.PipeX();
      assert Rests(l, m);
    }
  }

  lemma HandleProgress(l: Link, op: HandleOp)
    requires Footing(l) && LinkEnabled(l, LHandle(op))
    ensures Progress(l, LinkStep(l, LHandle(op)))
  {
    match op
    case WriteBegin(_, _) => WriteProgress(l, op);
    case UpdateGrant(_) => UpdateProgress(l, op);
    case CloseSend => CloseProgress(l, op);
    case _ => SteadyProgress(l, op);
  }

  /** The other steps of a handle only move what it already holds. */
  lemma SteadyProgress(l: Link, op: HandleOp)
    requires Footing(l) && LinkEnabled(l, LHandle(op)) && !op.WriteBegin? && !op.UpdateGrant? && !op.CloseSend?
    ensures Progress(l, LinkStep(l, LHandle(op)))
  {
    var m := LinkStep(l, LHandle(op));
    assert m.PipeX() == l.PipeX();
    if op.WriteFlag? || op.Send? {
      HeldIsCalm(l, op);
    } else {
      RecordIsCalm(l, op);
    }
  }

  lemma HeldIsCalm(l: Link, op: HandleOp)
    requires Footing(l) && LinkEnabled(l, LHandle(op)) && (op.WriteFlag? || op.Send?)
    ensures Calm(l.x, LinkStep(l, LHandle(op)).x)
  {
  }

  lemma RecordIsCalm(l: Link, op: HandleOp)
    requires Footing(l) && LinkEnabled(l, LHandle(op))
    requires op.UpdateCheck? || op.CloseCheck? || op.CloseMark? || op.Read? || op.ReadNothing? || op.DropHandle?
    ensures Calm(l.x, LinkStep(l, LHandle(op)).x)
  {
  }

  lemma EnqueueProgress(l: Link)
    requires Footing(l) && LinkEnabled(l, LEnqueue)
    ensures Progress(l, LinkStep(l, LEnqueue))
  {
    var m := LinkStep(l, LEnqueue);
    assert m.xy + m.x.queue == l.xy + l.x.queue;
    assert m.PipeX() == l.PipeX();
  }

  lemma MarkerProgress(l: Link)
    requires Footing(l) && LinkEnabled(l, LMarker)
    ensures Progress(l, LinkStep(l, LMarker))
  {
    var m := LinkStep(l, LMarker);
    var out := EndMarker(l.x, l.id).1;
    assert m.PipeX() == l.PipeX() + out;
    if out == [] {
      assert Rests(l, m);
    } else {
      assert Adds(l, m, out[0]);
    }
  }

  // ---------------------------------------------------------------- the connection goes down

  /** The end `x` loses its connection: frames beyond the first `k` never leave. */
  lemma GoesDown(l: Link, m: Link, k: nat)
    requires Inv(l) && k <= |l.PipeX()|
    requires m == l.(x := m.x, xy := m.xy, xUp := false) && m.PipeX() == l.PipeX()[..k]
    requires m.xy + m.x.queue <= l.xy + l.x.queue
    requires m.x == l.x.(queue := m.x.queue) || (l.x.status.InTable? && m.x == Shut(l.x).(queue := m.x.queue))
    requires m.x.status.Absent? ==> m.x.queue == []
    ensures Inv(m)
  {
    CutOpening(l, m, k);
    FewerFrames(LaneOf(l), LaneOf(m), k);
  }

  lemma OpenerCut(o: Stream, o2: Stream, a: Stream, p: seq<Frame>, k: nat, queued: seq<Frame>, queued2: seq<Frame>, q: seq<Frame>)
    requires Opening(o, a, p, queued, q) && EndsLast(p) && k <= |p| && queued2 <= queued
    requires o2 == o.(queue := o2.queue) || (o.status.InTable? && o2 == Shut(o).(queue := o2.queue))
    ensures Opening(o2, a, p[..k], queued2, q)
  {
    Cut(p, k);
    QueuedCut(queued, queued2);
  }

  lemma QueuedCut(queued: seq<Frame>, queued2: seq<Frame>)
    requires queued2 <= queued
    ensures (HasSyn(queued2) ==> HasSyn(queued)) && (Bytes(queued) == [] ==> Bytes(queued2) == [])
  {
    assert queued == queued2 + queued[|queued2|..];
    BytesConcat(queued2, queued[|queued2|..]);
    assert forall f :: f in queued2 ==> f in queued;
  }

  lemma CutOpening(l: Link, m: Link, k: nat)
    requires Inv(l) && k <= |l.PipeX()|
    requires m == l.(x := m.x, xy := m.xy, xUp := false) && m.PipeX() == l.PipeX()[..k]
    requires m.xy + m.x.queue <= l.xy + l.x.queue
    requires m.x == l.x.(queue := m.x.queue) || (l.x.status.InTable? && m.x == Shut(l.x).(queue := m.x.queue))
    requires m.x.status.Absent? ==> m.x.queue == []
    ensures Opened(m)
  {
    if l.xOpens {
      OpenerCut(l.x, m.x, l.y, l.PipeX(), k, l.xy + l.x.queue, m.xy + m.x.queue, l.PipeY());
    }
  }

  lemma CloseKeeps(l: Link)
    requires Inv(l) && LinkEnabled(l, LClose)
    ensures Inv(LinkStep(l, LClose))
  {
    var m := LinkStep(l, LClose);
    assert m.PipeX() == l.PipeX()[..|l.xy + l.x.queue|];
    GoesDown(l, m, |l.xy + l.x.queue|);
  }

  lemma FailKeeps(l: Link, keep: nat)
    requires Inv(l) && LinkEnabled(l, LFail(keep))
    ensures Inv(LinkStep(l, LFail(keep)))
  {
    var m := LinkStep(l, LFail(keep));
    assert m.PipeX() == l.PipeX()[..keep];
    GoesDown(l, m, keep);
  }

  // ---------------------------------------------------------------- opening and receiving

  lemma OpenKeeps(l: Link)
    requires Inv(l) && LinkEnabled(l, LOpen)
    ensures Inv(LinkStep(l, LOpen))
  {
    var m := LinkStep(l, LOpen);
    assert m.PipeX() == l.PipeX();
    SameFrames(LaneOf(l), LaneOf(m));
  }

  /** A frame that leaves the stream's record as it is: unknown stream, or a refused SYN. */
  predicate Drops(v: Lane, w: Lane) {
    && v.q != [] && v.xUp
    && w == v.(q := v.q[1..], refused := w.refused) && (v.refused ==> w.refused)
    && (v.x.status.Absent? || v.x.status.Removed?)
    && (v.x.status.Absent? && !w.refused ==> Bytes([v.q[0]]) == [] && CreditOf(v.q[0]) == 0)
  }

  lemma DropsSums(q: seq<Frame>)
    requires q != []
    ensures Bytes(q) == q[0].body + Bytes(q[1..]) && |Bytes(q)| == |q[0].body| + |Bytes(q[1..])|
    ensures Credits(q) == CreditOf(q[0]) + Credits(q[1..]) && 0 <= CreditOf(q[0])
    ensures Bytes([q[0]]) == q[0].body
    ensures HasEnd(q[1..]) ==> HasEnd(q)
  {
    OneFrame(q[0]);
  }

  lemma DropsToPeer(v: Lane, w: Lane)
    requires Both(v) && Drops(v, w)
    ensures Half(w)
  {
    DropsSums(v.q);
  }

  lemma DropsFromPeer(v: Lane, w: Lane)
    requires Both(v) && Drops(v, w)
    ensures Half(w.Swap())
  {
    DropsSums(v.q);
    EndsLastTail(v.q);
    if v.q[0].body == [] {
      assert Bytes(v.q) == Bytes(w.q);
    } else {
      PrefixTransitive(v.x.got + v.x.buffer, v.x.got + v.x.buffer + Bytes(v.q), v.y.wrote);
    }
  }

  lemma DropsFrame(v: Lane, w: Lane)
    requires Both(v) && Drops(v, w)
    ensures Both(w)
  {
    DropsToPeer(v, w);
    DropsFromPeer(v, w);
  }

  /** Taking the oldest frame off a pipe. */
  lemma Head(q: seq<Frame>, f: Frame, rest: seq<Frame>)
    requires EndsLast(q) && q == [f] + rest
    ensures EndsLast(rest) && Bytes(q) == f.body + Bytes(rest) && Credits(q) == CreditOf(f) + Credits(rest)
    ensures f in q && (forall g :: g in rest ==> g in q)
    ensures HasEnd(rest) ==> HasEnd(q)
    ensures Ends(f) ==> HasEnd(q) && Bytes(rest) == []
  {
    assert q[0] == f && q[1..] == rest;
  }

  /** The stream takes the frame `f`: its bytes are buffered, its credit added. */
  predicate Absorbs(s: Stream, t: Stream, f: Frame) {
    && !s.status.Removed? && !t.status.Absent? && WellFormed(t)
    && t.got + t.buffer == s.got + s.buffer + f.body && t.wrote == s.wrote
    && t.receiveWindow == s.receiveWindow - |f.body|
    && t.sendWindow == s.sendWindow + CreditOf(f)
    && t.dropped == s.dropped && t.flag == s.flag && t.position == s.position && t.queue == s.queue
    && (Quiet(s) ==> Quiet(t))
    && (ReadShut(t) ==> ReadShut(s) || Ends(f))
  }

  predicate Takes(v: Lane, w: Lane, f: Frame) {
    v.q == [f] + w.q && v.xUp && !v.refused && w == v.(x := w.x, q := w.q) && Absorbs(v.x, w.x, f)
  }

  lemma TakesFromPeer(v: Lane, w: Lane, f: Frame)
    requires Both(v) && Takes(v, w, f)
    ensures Half(w.Swap())
  {
    Head(v.q, f, w.q);
    var kept := w.x.got + w.x.buffer;
    assert v.x.got + v.x.buffer + (f.body + Bytes(w.q)) == kept + Bytes(w.q);
    PrefixTransitive(kept, kept + Bytes(w.q), v.y.wrote);
  }

  lemma TakesFrame(v: Lane, w: Lane, f: Frame)
    requires Both(v) && Takes(v, w, f)
    ensures Both(w)
  {
    TakesFromPeer(v, w, f);
    Head(v.q, f, w.q);
  }

  // ---------------------------------------------------------------- what the receiver decides

  /** The facts about the frame at the head of `yx` that its receiver depends on. */
  lemma Arriving(l: Link)
    requires Inv(l) && l.yx != []
    ensures var f := l.yx[0];
            && l.PipeY() == [f] + l.PipeY()[1..]
            && Conforming(f, l.id)
            && |f.body| <= l.x.receiveWindow
            && l.x.sendWindow + CreditOf(f) <= U32_MAX
            && (f.Syn() ==> !l.xOpens && l.x == Fresh(OweAck) && !l.y.flag.OweSyn? && f.header.tag.Data?)
            && (l.x.status.Absent? ==> !l.xOpens)
  {
    var f, q := l.yx[0], l.PipeY();
    assert q[0] == f && q == [f] + q[1..] && f in q;
    BytesConcat([f], q[1..]);
    CreditsConcat([f], q[1..]);
    OneFrame(f);
    CreditsNonNegative(q[1..]);
    CreditsNonNegative(l.PipeX());
    assert f.Syn() ==> f in l.yx + l.y.queue;
  }

  // ---------------------------------------------------------------- receiving keeps the invariant

  /** The acceptor takes the oldest frame of the opener's pipe. */
  lemma OpenerLosesHead(o: Stream, a: Stream, a2: Stream, p: seq<Frame>, queued: seq<Frame>, q: seq<Frame>)
    requires Opening(o, a, p, queued, q) && queued != [] && queued <= p
    requires !a2.flag.OweSyn?
    requires a2 == a || (!a2.status.Absent? && (a.status.Absent? ==> p[0].Syn()))
    ensures Opening(o, a2, p[1..], queued[1..], q)
  {
    assert queued[0] == p[0] && p[0] in queued;
    assert p == [p[0]] + p[1..];
    CreditsConcat([p[0]], p[1..]);
    CreditsNonNegative(p[1..]);
    OneFrame(p[0]);
    assert forall f :: f in queued[1..] ==> f in queued;
    assert forall i :: 0 < i < |p[1..]| ==> p[1..][i] == p[i + 1];
    assert Bytes(queued) == queued[0].body + Bytes(queued[1..]);
  }

  /** The opener takes the oldest frame of the acceptor's pipe. */
  lemma AcceptorLosesHead(o: Stream, o2: Stream, a: Stream, p: seq<Frame>, queued: seq<Frame>, q: seq<Frame>)
    requires Opening(o, a, p, queued, q) && q != []
    requires o2.flag == o.flag && !o2.status.Absent?
    ensures Opening(o2, a, p, queued, q[1..])
  {
    assert forall f :: f in q[1..] ==> f in q;
  }

  lemma FinishAbsorbs(s: Stream, t: Stream, f: Frame)
    requires s.status.InTable? && t.status.InTable? && Absorbs(s, t, f)
    ensures Absorbs(s, Finish(t, f), f)
  {
  }

  lemma DataAbsorbed(s: Stream, f: Frame, id: u32)
    requires WellFormed(s) && s.status.InTable? && Conforming(f, id) && f.header.tag.Data? && |f.body| <= s.receiveWindow
    ensures OnData(s, f).0.Handled? && Absorbs(s, OnData(s, f).1, f)
  {
    assert s.got + (s.buffer + f.body) == s.got + s.buffer + f.body;
    FinishAbsorbs(s, s.(receiveWindow := s.receiveWindow - |f.body|, buffer := s.buffer + f.body, reader := false), f);
  }

  lemma UpdateAbsorbed(s: Stream, f: Frame, id: u32)
    requires WellFormed(s) && s.status.InTable? && Conforming(f, id) && !f.header.tag.Data? && s.sendWindow + f.header.length <= U32_MAX
    ensures OnWindowUpdate(s, f).0.Handled? && Absorbs(s, OnWindowUpdate(s, f).1, f)
  {
    assert s.got + s.buffer + f.body == s.got + s.buffer;
    FinishAbsorbs(s, s.(sendWindow := s.sendWindow + f.header.length, writer := false), f);
  }

  /** An acknowledgement on the way changes neither direction's openness. */
  lemma AcknowledgeAbsorbs(s: Stream, t: Stream, f: Frame)
    requires WellFormed(s) && s.status.InTable?
    ensures WellFormed(Acknowledge(s, f))
    ensures Absorbs(Acknowledge(s, f), t, f) ==> Absorbs(s, t, f)
  {
  }

  lemma ReceiveKnown(s: Stream, f: Frame, id: u32, remoteId: bool, full: bool)
    requires WellFormed(s) && Conforming(f, id) && s.status.InTable? && !f.Syn()
    requires |f.body| <= s.receiveWindow && s.sendWindow + CreditOf(f) <= U32_MAX
    ensures var (verdict, t) := Receive(s, f, remoteId, full); verdict == Handled && Absorbs(s, t, f)
  {
    var s0, t := Acknowledge(s, f), Receive(s, f, remoteId, full).1;
    AcknowledgeAbsorbs(s, t, f);
    if f.Rst() {
      assert s.got + s.buffer + f.body == s.got + s.buffer;
      assert Absorbs(s0, Shut(s0), f);
    } else if f.header.tag.Data? {
      DataAbsorbed(s0, f, id);
    } else {
      UpdateAbsorbed(s0, f, id);
    }
  }

  lemma ReceiveUnknown(s: Stream, f: Frame, id: u32, remoteId: bool, full: bool)
    requires WellFormed(s) && Conforming(f, id) && !s.status.InTable?
    requires f.Syn() ==> remoteId && s == Fresh(OweAck) && f.header.tag.Data? && |f.body| <= DEFAULT_CREDIT
    ensures var (verdict, t) := Receive(s, f, remoteId, full);
            if !f.Syn() then verdict == Ignored && t == s
            else if full then verdict == InternalError && t == s
            else verdict == New && Absorbs(s, t, f)
  {
  }

  predicate Absorbed(v: Verdict) { v.Handled? || v.New? }

  /** What `on_frame` does to its stream. */
  lemma ReceiveEffect(l: Link, full: bool)
    requires Inv(l) && LinkEnabled(l, LReceive(full))
    ensures var (verdict, t) := Judge(l, full);
            var f := l.yx[0];
            && (if Absorbed(verdict) then Absorbs(l.x, t, f) && (l.x.status.Absent? ==> f.Syn())
                else verdict != ProtocolError && t == l.x && !l.x.status.InTable?)
            && (verdict.InternalError? ==> f.Syn() && full)
  {
    Arriving(l);
    if l.x.status.InTable? {
      ReceiveKnown(l.x, l.yx[0], l.id, !l.xOpens, full);
    } else {
      ReceiveUnknown(l.x, l.yx[0], l.id, !l.xOpens, full);
    }
  }

  /** A conforming peer is never accused: the only refusal is for lack of room. */
  lemma NeverAccused(l: Link, full: bool)
    requires Inv(l) && LinkEnabled(l, LReceive(full))
    ensures Judge(l, full).0 != ProtocolError
    ensures Judge(l, full).0 == InternalError ==> full && l.yx[0].Syn()
  {
    ReceiveEffect(l, full);
  }

  /** The one frame that is answered with an internal error. */
  lemma RefusedExactly(l: Link, full: bool)
    requires Inv(l) && LinkEnabled(l, LReceive(full))
    ensures Judge(l, full).0 == InternalError <==> l.yx[0].header.tag.Data? && l.yx[0].Syn() && full
  {
    NeverAccused(l, full);
    assert l.yx[0] in l.PipeY();
    assert Conforming(l.yx[0], l.id) by {
      assert Half(LaneOf(l).Swap());
    }
  }

  /** `x` reads the head of `yx` and becomes `t`. */
  function AfterRead(l: Link, t: Stream): Link
    requires l.yx != []
  {
    l.(x := t, yx := l.yx[1..])
  }

  lemma ReadPipes(l: Link, t: Stream)
    requires l.yx != [] && t.queue == l.x.queue && t.position == l.x.position && t.flag == l.x.flag
    ensures AfterRead(l, t).PipeX() == l.PipeX() && AfterRead(l, t).PipeY() == l.PipeY()[1..]
    ensures l.PipeY() == [l.yx[0]] + AfterRead(l, t).PipeY()
    ensures (l.yx + l.y.queue)[1..] == l.yx[1..] + l.y.queue && l.yx + l.y.queue <= l.PipeY()
  {
  }

  lemma ReceiveOpening(l: Link, t: Stream)
    requires Inv(l) && l.yx != []
    requires t == l.x || (Absorbs(l.x, t, l.yx[0]) && (l.x.status.Absent? ==> l.yx[0].Syn()))
    ensures Opened(AfterRead(l, t))
  {
    ReadPipes(l, t);
    Arriving(l);
    if l.xOpens {
      AcceptorLosesHead(l.x, t, l.y, l.PipeX(), l.xy + l.x.queue, l.PipeY());
    } else {
      OpenerLosesHead(l.y, l.x, t, l.PipeY(), l.yx + l.y.queue, l.PipeX());
    }
  }

  /** A stream that takes a frame was not refused, before or after. */
  lemma TakenNotRefused(l: Link, m: Link)
    requires Inv(l) && l.yx != [] && m == l.(x := m.x, yx := l.yx[1..])
    requires !m.x.status.Absent? && (l.x.status.Absent? ==> l.yx[0].Syn())
    ensures !LaneOf(l).refused && !LaneOf(m).refused
  {
    assert l.yx[0] in l.PipeY();
  }

  /** Frames that meet no stream carry nothing the peer counts on, unless the SYN was refused. */
  lemma UnknownFrame(l: Link, m: Link)
    requires Inv(l) && l.yx != [] && m == l.(yx := l.yx[1..]) && m.PipeY() == l.PipeY()[1..]
    requires !l.x.status.InTable?
    ensures LaneOf(l).refused ==> LaneOf(m).refused
    ensures l.x.status.Absent? && !LaneOf(m).refused ==> l.yx[0].body == [] && CreditOf(l.yx[0]) == 0
  {
    var q, rest := l.PipeY(), m.PipeY();
    Arriving(l);
    assert forall f :: f in rest ==> f in q;
    if !l.xOpens && l.x.status.Absent? {
      assert forall f :: f in rest ==> exists i :: 0 < i < |q| && q[i] == f;
      NoCreditAhead(l.yx[0], q, rest);
      assert (l.yx + l.y.queue)[0] == l.yx[0];
    }
  }

  lemma NoCreditAhead(f: Frame, q: seq<Frame>, rest: seq<Frame>)
    requires q == [f] + rest && Credits(q) == 0
    ensures CreditOf(f) == 0
  {
    CreditsConcat([f], rest);
    CreditsNonNegative(rest);
    OneFrame(f);
  }

  lemma ReceiveLane(l: Link, t: Stream)
    requires Inv(l) && l.yx != [] && l.xUp
    requires Absorbs(l.x, t, l.yx[0]) && (l.x.status.Absent? ==> l.yx[0].Syn())
    ensures Both(LaneOf(AfterRead(l, t)))
  {
    ReadPipes(l, t);
    TakenNotRefused(l, AfterRead(l, t));
    TakesFrame(LaneOf(l), LaneOf(AfterRead(l, t)), l.yx[0]);
  }

  lemma ReceiveNothing(l: Link)
    requires Inv(l) && l.yx != [] && l.xUp && !l.x.status.InTable?
    ensures Both(LaneOf(AfterRead(l, l.x)))
  {
    ReadPipes(l, l.x);
    UnknownFrame(l, AfterRead(l, l.x));
    OneFrame(l.yx[0]);
    DropsFrame(LaneOf(l), LaneOf(AfterRead(l, l.x)));
  }

  lemma ReceiveKeeps(l: Link, full: bool)
    requires Inv(l) && LinkEnabled(l, LReceive(full))
    ensures Inv(LinkStep(l, LReceive(full)))
  {
    var (verdict, t) := Judge(l, full);
    ReceiveEffect(l, full);
    assert LinkStep(l, LReceive(full)) == AfterRead(l, t);
    ReceiveOpening(l, t);
    if Absorbed(verdict) {
      ReceiveLane(l, t);
    } else {
      ReceiveNothing(l);
    }
  }

  // ---------------------------------------------------------------- every step

  lemma StepKeeps(l: Link, op: LinkOp)
    requires Inv(l) && LinkEnabled(l, op)
    ensures Inv(LinkStep(l, op))
  {
    match op
    case LOpen => OpenKeeps(l);
    case LHandle(h) => HandleProgress(l, h); ProgressKeeps(l, LinkStep(l, op));
    case LEnqueue => EnqueueProgress(l); ProgressKeeps(l, LinkStep(l, op));
    case LMarker => MarkerProgress(l); ProgressKeeps(l, LinkStep(l, op));
    case LReceive(full) => ReceiveKeeps(l, full);
    case LClose => CloseKeeps(l);
    case LFail(keep) => FailKeeps(l, keep);
  }

  /** The invariant does not care which end is called `x`. */
  lemma SwapKeeps(l: Link)
    requires Inv(l)
    ensures Inv(l.Swap())
  {
  }
}
