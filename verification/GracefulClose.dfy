/**
  The graceful close: collect every command still queued, send all of it and a go-away, close the
  socket. Each move of the machine is one step of the endpoint that is closing.
*/
module GracefulClose {
  import opened Basics
  import opened Frames
  import opened Codec
  import opened FrameIo
  import opened Schedules
  import opened EndpointRuns
  import opened Pair
  import opened Shutdown
  import E = Endpoint
  import PairProofs

  datatype ClosingState = ClosingReceivers | DrainingReceivers | FlushingFrames | ClosingSocket

  datatype CloseResult = Unfinished | Complete | Broke

  /** The commands queued when the close began, by stream. */
  type Queues = q: map<u32, seq<Frame>> | forall id, k :: id in q && 0 <= k < |q[id]| ==> Matches(OfId(id), q[id][k]) witness map[]

  /** The queues without the oldest command of stream `id`. */
  function TakeFrom(q: Queues, id: u32): (rest: Queues)
    requires id in q && q[id] != []
  {
    var rest := q[id := q[id][1..]];
    assert forall k :: 0 <= k < |rest[id]| ==> rest[id][k] == q[id][k + 1];
    rest
  }

  function Queued(q: map<u32, seq<Frame>>, id: u32): seq<Frame> {
    if id in q then q[id] else []
  }

  /** `mid` interleaves the queues, keeping each stream's own order. */
  ghost predicate Interleaves(mid: seq<Frame>, q: map<u32, seq<Frame>>) {
    && (forall f :: f in mid ==> f.OfStream())
    && (forall id: u32 :: Pick(mid, OfId(id)) == Queued(q, id))
  }

  /** All that a graceful close sends: the two slots, every queued command, one go-away, nothing after it. */
  ghost predicate CompletePlan(plan: seq<Frame>, slots: seq<Frame>, q: map<u32, seq<Frame>>) {
    exists mid :: Interleaves(mid, q) && plan == slots + mid + [GoAwayFrame(TERM)]
  }

  /** What was drained and what is still queued are what was queued. */
  ghost predicate Drained(mid: seq<Frame>, q: Queues, initial: map<u32, seq<Frame>>) {
    && (forall f :: f in mid ==> f.OfStream())
    && (forall id: u32 :: Pick(mid, OfId(id)) + Queued(q, id) == Queued(initial, id))
  }

  lemma TakenFor(mid: seq<Frame>, f: Frame, rest: seq<Frame>, id: u32, i: u32, queued: seq<Frame>)
    requires Matches(OfId(id), f) && (i == id ==> queued == [f] + rest) && (i != id ==> queued == rest)
    ensures Pick(mid + [f], OfId(i)) + rest == Pick(mid, OfId(i)) + queued
  {
    PairProofs.FrameAppended(mid, f, id, i);
    if i == id {
      assert Pick(mid, OfId(i)) + [f] + rest == Pick(mid, OfId(i)) + ([f] + rest);
    } else {
      assert Pick(mid, OfId(i)) + [] == Pick(mid, OfId(i));
    }
  }

  lemma DrainedStep(mid: seq<Frame>, q: Queues, q2: Queues, initial: map<u32, seq<Frame>>, id: u32)
    requires Drained(mid, q, initial) && id in q && q[id] != [] && q2 == q[id := q[id][1..]]
    ensures Drained(mid + [q[id][0]], q2, initial)
  {
    var f := q[id][0];
    forall i: u32
      ensures Pick(mid + [f], OfId(i)) + Queued(q2, i) == Queued(initial, i)
    {
      TakenFor(mid, f, Queued(q2, i), id, i, Queued(q, i));
    }
  }

  lemma DrainedAll(mid: seq<Frame>, q: Queues, initial: map<u32, seq<Frame>>)
    requires Drained(mid, q, initial) && forall id :: id in q ==> q[id] == []
    ensures Interleaves(mid, initial)
  {
    forall id: u32
      ensures Pick(mid, OfId(id)) == Queued(initial, id)
    {
      assert Pick(mid, OfId(id)) + [] == Pick(mid, OfId(id));
    }
  }

  function QueuesOf(e: E.Endpoint): map<u32, seq<Frame>> {
    map id | id in e.streams :: e.streams[id].queue
  }

  function SlotsOf(e: E.Endpoint): seq<Frame> {
    Opt(e.pendingRead) + Opt(e.pendingWrite)
  }

  /** The closing machine and the endpoint it belongs to agree. */
  ghost predicate Mirrors(e: E.Endpoint, queues: Queues, pendingFrames: seq<Frame>, draining: bool) {
    && QueuesOf(e) == queues && e.outbox == pendingFrames
    && (if draining then e.phase.Draining? else e.phase.Flushing?)
  }

  /** What the endpoint has done since it was closed: its steps, where they led and what they sent. */
  datatype Trace = Trace(before: E.Endpoint, inbox: seq<Frame>, acts: seq<E.Act>, now: E.Endpoint, sent: seq<Frame>)

  predicate Follows(t: Trace) {
    Steps(t.before, Socket(t.inbox, []), t.acts) == Some((t.now, Socket(t.inbox, t.sent)))
  }

  function Then(t: Trace, act: E.Act): Trace
    requires E.Enabled(t.now, t.inbox, act)
  {
    var r := E.Step(t.now, t.inbox, act);
    t.(acts := t.acts + [act], now := r.e, sent := t.sent + r.sent)
  }

  lemma FollowsThen(t: Trace, act: E.Act)
    requires Follows(t) && E.Enabled(t.now, t.inbox, act) && !act.ReadFrame?
    ensures Follows(Then(t, act))
  {
    StepsAppend(t.before, Socket(t.inbox, []), t.acts, act);
    SameInbox(t.now, t.inbox, act);
  }

  lemma SameInbox(e: E.Endpoint, inbox: seq<Frame>, act: E.Act)
    requires E.Enabled(e, inbox, act) && !act.ReadFrame?
    ensures E.Step(e, inbox, act).inbox == inbox
  {
  }

  /** The close begins with the two slots. */
  lemma Started(before: E.Endpoint, queues: Queues, inbox: seq<Frame>) returns (t: Trace)
    requires before.phase.Active? && queues == QueuesOf(before)
    ensures t.before == before && t.inbox == inbox && t.sent == [] && Follows(t)
    ensures Mirrors(t.now, queues, SlotsOf(before), true)
  {
    t := Trace(before, inbox, [], before, []);
    FollowsThen(t, E.StartClose);
    t := Then(t, E.StartClose);
  }

  lemma DrainFollowed(t: Trace, queues: Queues, rest: Queues, pendingFrames: seq<Frame>, id: u32) returns (n: Trace)
    requires Follows(t) && Mirrors(t.now, queues, pendingFrames, true)
    requires id in queues && queues[id] != [] && rest == queues[id := queues[id][1..]]
    ensures n.before == t.before && n.inbox == t.inbox && n.sent == t.sent && Follows(n)
    ensures Mirrors(n.now, rest, pendingFrames + [queues[id][0]], true)
  {
    FollowsThen(t, E.DrainReceiver(id));
    n := Then(t, E.DrainReceiver(id));
    DrainMirrored(t.now, n.now, queues, rest, pendingFrames, id);
  }

  lemma DrainMirrored(e: E.Endpoint, n: E.Endpoint, queues: Queues, rest: Queues, pendingFrames: seq<Frame>, id: u32)
    requires Mirrors(e, queues, pendingFrames, true) && id in queues && queues[id] != [] && rest == queues[id := queues[id][1..]]
    requires n == e.(streams := e.streams[id := e.streams[id].(queue := rest[id])], outbox := pendingFrames + [queues[id][0]])
    ensures Mirrors(n, rest, pendingFrames + [queues[id][0]], true)
  {
    assert QueuesOf(n) == rest;
  }

  lemma FinishFollowed(t: Trace, queues: Queues, pendingFrames: seq<Frame>) returns (n: Trace)
    requires Follows(t) && Mirrors(t.now, queues, pendingFrames, true) && forall id :: id in queues ==> queues[id] == []
    ensures n.before == t.before && n.inbox == t.inbox && n.sent == t.sent && Follows(n)
    ensures Mirrors(n.now, queues, pendingFrames + [GoAwayFrame(TERM)], false)
  {
    forall id | id in t.now.streams
      ensures t.now.streams[id].queue == []
    {
      assert QueuesOf(t.now)[id] == queues[id];
    }
    FollowsThen(t, E.FinishDrain);
    n := Then(t, E.FinishDrain);
  }

  lemma FlushFollowed(t: Trace, queues: Queues, pendingFrames: seq<Frame>) returns (n: Trace)
    requires Follows(t) && Mirrors(t.now, queues, pendingFrames, false) && pendingFrames != []
    ensures n.before == t.before && n.inbox == t.inbox && n.sent == t.sent + [pendingFrames[0]] && Follows(n)
    ensures Mirrors(n.now, queues, pendingFrames[1..], false)
  {
    FollowsThen(t, E.FlushOutbox);
    n := Then(t, E.FlushOutbox);
  }

  lemma CloseFollowed(t: Trace, queues: Queues) returns (n: Trace)
    requires Follows(t) && Mirrors(t.now, queues, [], false)
    ensures n.before == t.before && n.inbox == t.inbox && n.sent == t.sent && Follows(n) && n.now.phase.Gone?
  {
    FollowsThen(t, E.CloseSocket);
    n := Then(t, E.CloseSocket);
  }

  /** The bytes that went out, or are held by the writer, since the close began. */
  lemma SentMore(base: seq<byte>, sent: seq<Frame>, f: Frame)
    ensures base + EncodeAll(sent) + EncodeFrame(f) == base + EncodeAll(sent + [f])
  {
    EncodeAllAppend(sent, f);
  }

  /** The commands that come out of the queues if they are drained in this order, and what is left. */
  function DrainBy(q: Queues, order: seq<u32>): Option<(seq<Frame>, Queues)>
    decreases order
  {
    if order == [] then Some(([], q))
    else if order[0] !in q || q[order[0]] == [] then None
    else
      match DrainBy(TakeFrom(q, order[0]), order[1..])
      case None => None
      case Some((mid, rest)) => Some(([q[order[0]][0]] + mid, rest))
  }

  lemma {:induction false} DrainByAppend(q: Queues, order: seq<u32>, id: u32)
    requires DrainBy(q, order).Some?
    requires var (mid, rest) := DrainBy(q, order).value; id in rest && rest[id] != []
    ensures var (mid, rest) := DrainBy(q, order).value;
            DrainBy(q, order + [id]) == Some((mid + [rest[id][0]], TakeFrom(rest, id)))
    decreases order
  {
    if order == [] {
      var f, rest := q[id][0], TakeFrom(q, id);
      assert order + [id] == [id] && [id][1..] == [];
      assert DrainBy(rest, []) == Some(([], rest));
      assert [f] + [] == [] + [f];
    } else {
      var more, f := order + [id], q[order[0]][0];
      assert more[0] == order[0] && more[1..] == order[1..] + [id];
      DrainByAppend(TakeFrom(q, order[0]), order[1..], id);
      var (mid, rest) := DrainBy(TakeFrom(q, order[0]), order[1..]).value;
      assert [f] + (mid + [rest[id][0]]) == [f] + mid + [rest[id][0]];
    }
  }

  predicate AllEmpty(q: Queues) {
    forall id :: id in q ==> q[id] == []
  }

  /** Whatever the order, draining keeps every stream's own order. */
  lemma {:induction false} DrainedBy(mid: seq<Frame>, q: Queues, initial: map<u32, seq<Frame>>, order: seq<u32>)
    requires Drained(mid, q, initial) && DrainBy(q, order).Some?
    ensures var (more, rest) := DrainBy(q, order).value; Drained(mid + more, rest, initial)
    decreases order
  {
    if order == [] {
      assert mid + [] == mid;
    } else {
      var id, next := order[0], TakeFrom(q, order[0]);
      DrainedStep(mid, q, next, initial, id);
      DrainedBy(mid + [q[id][0]], next, initial, order[1..]);
      Reassociate(mid, q[id][0], DrainBy(next, order[1..]).value.0);
    }
  }

  lemma Reassociate(u: seq<Frame>, f: Frame, v: seq<Frame>)
    ensures u + [f] + v == u + ([f] + v)
  {
  }

  /** Draining everything and then saying goodbye is all a graceful close sends. */
  lemma DrainIsComplete(q: Queues, order: seq<u32>, slots: seq<Frame>)
    requires DrainBy(q, order).Some? && AllEmpty(DrainBy(q, order).value.1)
    ensures CompletePlan(slots + DrainBy(q, order).value.0 + [GoAwayFrame(TERM)], slots, q)
  {
    var (mid, rest) := DrainBy(q, order).value;
    forall id: u32
      ensures Pick([], OfId(id)) + Queued(q, id) == Queued(q, id)
    {
    }
    DrainedBy([], q, q, order);
    assert [] + mid == mid;
    DrainedAll(mid, rest, q);
  }

  /** Draining in some order is a run of the endpoint that is closing. */
  lemma {:induction false} DrainIsRun(t: Trace, q: Queues, pendingFrames: seq<Frame>, order: seq<u32>) returns (n: Trace)
    requires Follows(t) && Mirrors(t.now, q, pendingFrames, true) && DrainBy(q, order).Some?
    ensures n.before == t.before && n.inbox == t.inbox && n.sent == t.sent && Follows(n)
    ensures var (mid, rest) := DrainBy(q, order).value; Mirrors(n.now, rest, pendingFrames + mid, true)
    decreases order
  {
    if order == [] {
      assert pendingFrames + [] == pendingFrames;
      n := t;
    } else {
      var f, rest := q[order[0]][0], TakeFrom(q, order[0]);
      n := DrainFollowed(t, q, rest, pendingFrames, order[0]);
      n := DrainIsRun(n, rest, pendingFrames + [f], order[1..]);
      Reassociate(pendingFrames, f, DrainBy(rest, order[1..]).value.0);
    }
  }

  /** So is writing what was collected. */
  lemma {:induction false} FlushIsRun(t: Trace, q: Queues, pendingFrames: seq<Frame>) returns (n: Trace)
    requires Follows(t) && Mirrors(t.now, q, pendingFrames, false)
    ensures n.before == t.before && n.inbox == t.inbox && n.sent == t.sent + pendingFrames && Follows(n)
    ensures Mirrors(n.now, q, [], false)
    decreases pendingFrames
  {
    if pendingFrames == [] {
      assert t.sent + [] == t.sent;
      n := t;
    } else {
      n := FlushFollowed(t, q, pendingFrames);
      n := FlushIsRun(n, q, pendingFrames[1..]);
      assert t.sent + [pendingFrames[0]] + pendingFrames[1..] == t.sent + pendingFrames;
    }
  }

  /** A complete close is a run of the endpoint to its end, and it sends the complete plan. */
  lemma CloseIsRun(before: E.Endpoint, inbox: seq<Frame>, q: Queues, order: seq<u32>) returns (t: Trace)
    requires before.phase.Active? && q == QueuesOf(before)
    requires DrainBy(q, order).Some? && AllEmpty(DrainBy(q, order).value.1)
    ensures t.before == before && t.inbox == inbox && Follows(t) && t.now.phase.Gone?
    ensures t.sent == SlotsOf(before) + DrainBy(q, order).value.0 + [GoAwayFrame(TERM)]
    ensures CompletePlan(t.sent, SlotsOf(before), QueuesOf(before))
  {
    var (mid, rest) := DrainBy(q, order).value;
    t := Started(before, q, inbox);
    t := DrainIsRun(t, q, SlotsOf(before), order);
    t := FinishFollowed(t, rest, SlotsOf(before) + mid);
    t := FlushIsRun(t, rest, SlotsOf(before) + mid + [GoAwayFrame(TERM)]);
    t := CloseFollowed(t, rest);
    DrainIsComplete(q, order, SlotsOf(before));
  }

  function Size(s: seq<Frame>): nat { |EncodeAll(s)| }

  lemma SizeAppend(s: seq<Frame>, f: Frame)
    ensures Size(s + [f]) == Size(s) + |EncodeFrame(f)|
  {
    EncodeAllAppend(s, f);
  }

  /** Taking the oldest command of a queue moves its bytes. */
  lemma SizeTake(q: map<u32, seq<Frame>>, id: u32, s: seq<Frame>)
    requires id in q && q[id] != []
    ensures Total(q[id := q[id][1..]], Size) + Size(s + [q[id][0]]) == Total(q, Size) + Size(s)
  {
    SizeAppend(s, q[id][0]);
    TotalChange(q, Size, id, q[id][1..]);
  }

  /** What a poll answers when the writer was left in this condition and the socket did, or did not, shut down. */
  function Outcome(ready: Readiness, socketClosed: bool): CloseResult {
    if ready.Clear? then (if socketClosed then Complete else Unfinished)
    else if ready.Blocking? then Unfinished
    else Broke
  }

  class Closing {
    var state: ClosingState
    var queues: Queues
    var pendingFrames: seq<Frame>
    const writer: Writer
    ghost const slots: seq<Frame>
    ghost const initial: Queues      // the queues when the connection was closed
    ghost const base: seq<byte>      // written, or being written, by then
    ghost var order: seq<u32>        // the streams of the commands drained so far
    ghost var sent: seq<Frame>       // the frames handed to the writer so far

    /** All that is sent once the queues are empty. */
    ghost function Plan(): seq<Frame>
      reads this
      requires DrainBy(initial, order).Some?
    {
      slots + DrainBy(initial, order).value.0 + [GoAwayFrame(TERM)]
    }

    ghost predicate Valid()
      reads this, writer, writer.sink
    {
      && writer.Valid()
      && (!writer.state.Poisoned? ==> writer.sink.written + writer.Unsent() == base + EncodeAll(sent))
      && DrainBy(initial, order).Some? && DrainBy(initial, order).value.1 == queues
      && (if Collecting() then sent == [] && pendingFrames == slots + DrainBy(initial, order).value.0
          else AllEmpty(queues) && sent + pendingFrames == Plan())
      && (state.ClosingSocket? ==> pendingFrames == [])
    }

    /** Everything is drained and every byte of the plan is written. */
    ghost predicate Ended()
      reads this, writer, writer.sink
    {
      && DrainBy(initial, order).Some? && AllEmpty(DrainBy(initial, order).value.1)
      && writer.sink.written == base + EncodeAll(Plan())
    }

    predicate Collecting()
      reads this`state
    {
      state.ClosingReceivers? || state.DrainingReceivers?
    }

    /** `Active::close` hands over the two slots and the receivers. */
    constructor (queues: Queues, slots: seq<Frame>, writer: Writer)
      requires writer.Valid() && !writer.state.Poisoned?
      ensures Valid() && state.ClosingReceivers? && this.writer == writer && this.slots == slots && initial == queues
      ensures base == writer.sink.written + writer.Unsent() && pendingFrames == slots && this.queues == queues
    {
      this.queues, pendingFrames, this.writer, state := queues, slots, writer, ClosingReceivers;
      this.slots, initial, base, order, sent := slots, queues, writer.sink.written + writer.Unsent(), [], [];
      new;
      assert slots + [] == slots && base + [] == base;
    }

    /** Bytes the close has still to get out. */
    ghost function Owed(): nat
      reads this, writer
      requires writer.Valid()
    {
      |writer.Unsent()| + Size(pendingFrames) + Total(queues, Size) + if Collecting() then Size([GoAwayFrame(TERM)]) else 0
    }

    /** One command of any stream that has one. */
    method DrainOne(id: u32)
      requires Valid() && state.DrainingReceivers? && id in queues && queues[id] != []
      modifies this
      ensures Valid() && state.DrainingReceivers? && queues == old(queues)[id := old(queues)[id][1..]]
      ensures Owed() == old(Owed())
    {
      ghost var drained := DrainBy(initial, order).value.0;
      SizeTake(queues, id, pendingFrames);
      DrainByAppend(initial, order, id);
      var f := queues[id][0];
      assert slots + drained + [f] == slots + (drained + [f]);
      order, pendingFrames, queues := order + [id], pendingFrames + [f], TakeFrom(queues, id);
    }

    /** The drain: whichever stream the select yields next, until none has a command left. */
    method Drain()
      requires Valid() && state.DrainingReceivers?
      modifies this
      ensures Valid() && state.FlushingFrames? && forall id :: id in queues ==> queues[id] == []
      ensures Owed() == old(Owed())
    {
      ghost var left := Left(queues);
      while exists id :: id in queues && queues[id] != []
        invariant Valid() && state.DrainingReceivers? && left == Left(queues)
        invariant Owed() == old(Owed())
        decreases left
      {
        var id :| id in queues && queues[id] != [];
        LeftTake(queues, id);
        DrainOne(id);
        left := Left(queues);
      }
      SizeAppend(pendingFrames, GoAwayFrame(TERM));
      SizeAppend([], GoAwayFrame(TERM));
      assert [] + [GoAwayFrame(TERM)] == [GoAwayFrame(TERM)] && [] + Plan() == Plan();
      pendingFrames := pendingFrames + [GoAwayFrame(TERM)];
      state := FlushingFrames;
    }

    /** One round of `FlushingPendingFrames` or `ClosingSocket`: the writer has to be clear. */
    method Flush() returns (ready: Readiness)
      requires Valid() && !Collecting()
      modifies writer, writer.sink
      ensures Valid() && (ready.Clear? <==> writer.state.Idle?) && (ready.Overrun? || ready.Unusable? <==> writer.state.Poisoned?)
      ensures ready.Unusable? <==> old(writer.state).Poisoned?
      ensures Blamed(ready, writer.sink.schedule, old(writer.sink.at), writer.sink.at, |writer.sink.written| - |old(writer.sink.written)|)
      ensures |old(writer.sink.written)| <= |writer.sink.written|
      ensures !writer.state.Poisoned? ==> |writer.sink.written| + Owed() == |old(writer.sink.written)| + old(Owed())
    {
      ready := writer.PollReady();
    }

    /** The oldest frame goes to the writer. */
    method SendNext()
      requires Valid() && state.FlushingFrames? && writer.state.Idle? && pendingFrames != []
      modifies this`pendingFrames, this`sent, writer
      ensures Valid() && |pendingFrames| == |old(pendingFrames)| - 1 && Owed() == old(Owed()) && !writer.state.Poisoned?
    {
      var f := pendingFrames[0];
      SentMore(base, sent, f);
      assert sent + pendingFrames == (sent + [f]) + pendingFrames[1..];
      assert writer.sink.written + [] == writer.sink.written;
      writer.StartSend(f);
      sent := sent + [f];
      pendingFrames := pendingFrames[1..];
    }

    /**
      `Closing::poll`; `socketClosed`: the socket's own close, when it is asked, is done. `why` says
      how the writer left the last of the socket calls: the close is unfinished because of a wait or
      because only the socket's close is missing, and broken because of that call.
    */
    method Poll(socketClosed: bool) returns (r: CloseResult, ghost why: Readiness)
      requires Valid()
      modifies this, writer, writer.sink
      ensures Valid() && !Collecting() && (why.Overrun? || why.Unusable? <==> writer.state.Poisoned?)
      ensures r == Outcome(why, socketClosed) && (why.Unusable? ==> old(writer.state).Poisoned?)
      ensures why.Clear? ==> state.ClosingSocket? && writer.state.Idle? && Ended()
      ensures !why.Unusable? ==> Went(why, old(writer.sink.at), old(writer.sink.written), old(Owed()))
    {
      while true
        invariant Valid() && (old(writer.state).Poisoned? <==> writer.state.Poisoned?)
        invariant !writer.state.Poisoned? ==> Went(Clear, old(writer.sink.at), old(writer.sink.written), old(Owed()))
        decreases Rank(), |pendingFrames|
      {
        match state {
          case ClosingReceivers => state := DrainingReceivers;
          case DrainingReceivers => Drain();
          case _ =>
            var go, ready := PushFurther(old(writer.sink.at), old(writer.sink.written), old(Owed()));
            why := ready;
            if !go {
              return Outcome(ready, socketClosed), why;
            }
        }
      }
    }

    /** One round of writing: the writer has to be clear, then it gets the next frame. */
    method PushOn() returns (go: bool, why: Readiness)
      requires Valid() && !Collecting()
      modifies this, writer, writer.sink
      ensures Valid() && !Collecting() && (why.Overrun? || why.Unusable? <==> writer.state.Poisoned?)
      ensures why.Unusable? <==> old(writer.state).Poisoned?
      ensures go ==> why.Clear? && (Rank() < old(Rank()) || (Rank() == old(Rank()) && |pendingFrames| < |old(pendingFrames)|))
      ensures why.Clear? && !go ==> state.ClosingSocket? && writer.state.Idle? && Ended()
      ensures !why.Unusable? ==> Went(why, old(writer.sink.at), old(writer.sink.written), old(Owed()))
    {
      why := Flush();
      go := why.Clear? && state.FlushingFrames?;
      if !why.Clear? {
        return;
      }
      if !go {
        assert writer.sink.written + [] == writer.sink.written && sent + [] == sent;
      } else if pendingFrames != [] {
        SendNext();
      } else {
        state := ClosingSocket;
      }
    }

    /** The same, accounted for from the start of the poll. */
    method PushFurther(ghost at0: nat, ghost written0: seq<byte>, ghost owed0: nat) returns (go: bool, why: Readiness)
      requires Valid() && !Collecting() && (!writer.state.Poisoned? ==> Went(Clear, at0, written0, owed0))
      modifies this, writer, writer.sink
      ensures Valid() && !Collecting() && (why.Overrun? || why.Unusable? <==> writer.state.Poisoned?)
      ensures why.Unusable? <==> old(writer.state).Poisoned?
      ensures go ==> why.Clear? && (Rank() < old(Rank()) || (Rank() == old(Rank()) && |pendingFrames| < |old(pendingFrames)|))
      ensures why.Clear? && !go ==> state.ClosingSocket? && writer.state.Idle? && Ended()
      ensures !why.Unusable? ==> Went(why, at0, written0, owed0)
    {
      ghost var at, written, owed := writer.sink.at, writer.sink.written, Owed();
      go, why := PushOn();
      if !why.Unusable? {
        WentOn(why, at0, written0, owed0, at, written, owed);
      }
    }

    /** What socket calls since some moment did, and how the last of them left the writer. */
    ghost predicate Went(why: Readiness, at: nat, written: seq<byte>, owed: nat)
      reads this, writer, writer.sink
      requires writer.Valid()
    {
      && |written| <= |writer.sink.written|
      && Blamed(why, writer.sink.schedule, at, writer.sink.at, |writer.sink.written| - |written|)
      && (!writer.state.Poisoned? ==> |writer.sink.written| + Owed() == |written| + owed)
    }

    lemma WentOn(why: Readiness, at: nat, written: seq<byte>, owed: nat, at1: nat, written1: seq<byte>, owed1: nat)
      requires writer.Valid() && Went(why, at1, written1, owed1) && !why.Unusable?
      requires |written| <= |written1| && Blamed(Clear, writer.sink.schedule, at, at1, |written1| - |written|)
      requires |written1| + owed1 == |written| + owed
      ensures Went(why, at, written, owed)
    {
      BlamedTwice(why, writer.sink.schedule, at, at1, writer.sink.at, |written1| - |written|, |writer.sink.written| - |written1|);
    }

    /** The states come one after another. */
    ghost function Rank(): nat
      reads this`state
    {
      match state
      case ClosingReceivers => 3
      case DrainingReceivers => 2
      case FlushingFrames => 1
      case ClosingSocket => 0
    }
  }

  /**
    A close that is polled until it is complete. Against a socket that delivers, however often it
    blocks, it completes if it is polled more often than the socket makes it wait.
  */
  method CloseFully(c: Closing, polls: nat) returns (done: bool)
    requires c.Valid() && !c.writer.state.Poisoned?
    modifies c, c.writer, c.writer.sink
    ensures c.Valid() && (done ==> c.Ended())
    ensures SufficesFrom(c.writer.sink.schedule, old(c.writer.sink.at), old(c.Owed()), 0, polls) ==> done
  {
    ghost var schedule, at0, written0, owed0 := c.writer.sink.schedule, c.writer.sink.at, c.writer.sink.written, c.Owed();
    for i := 0 to polls
      invariant c.Valid() && !c.writer.state.Poisoned? && |written0| <= |c.writer.sink.written|
      invariant |c.writer.sink.written| + c.Owed() == |written0| + owed0
      invariant Delivers(schedule) && Moving(schedule, at0) > owed0 ==>
                  Spent(schedule, at0, c.writer.sink.at, i, |c.writer.sink.written| - |written0|)
    {
      ghost var at, written := c.writer.sink.at, c.writer.sink.written;
      var r;
      ghost var why;
      r, why := c.Poll(true);
      if r.Complete? {
        return true;
      }
      if Delivers(schedule) && Moving(schedule, at0) > owed0 {
        DeliveringTakes(why, schedule, at, c.writer.sink.at, |c.writer.sink.written| - |written|);
      }
      if r.Broke? {
        return false;
      }
    }
    done := false;
  }
}
