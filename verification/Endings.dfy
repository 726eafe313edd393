/**
  How a connection ends, against any remote: a teardown wakes everybody, a graceful close nobody.
*/
module Endings {
  import opened Basics
  import opened Runs
  import opened Frames
  import opened Streams
  import opened Endpoint
  import opened AnyRemote

  /** `drop_all_streams`: the table is emptied and nobody of it stays parked. */
  lemma CleanupWakes(e: Endpoint)
    requires AllAwake(e) && e.phase.Active?
    ensures var n := Cleanup(e);
            && Table(n) == {}
            && (forall id :: id in n.streams ==> !n.streams[id].reader)
            && (forall id :: id in Table(e) ==> !n.streams[id].writer && n.streams[id].state.Closed?)
  {
  }

  /** The connection was never closed gracefully: it runs, or everybody was told that it does not. */
  predicate Told(e: Endpoint) {
    Inv(e) && (e.phase.Active? || (e.phase.Gone? && Table(e) == {}))
  }

  lemma ToldKeeps(e: Endpoint, event: Event)
    requires Told(e) && EventEnabled(e, event) && !(event.Own? && event.act.StartClose?)
    ensures Told(Apply(e, event))
  {
    EventKeeps(e, event);
    if e.phase.Gone? {
      GoneStaysEmpty(e, event);
    } else {
      EndsByCleanup(e, event);
      CleanupWakes(e);
    }
  }

  /** A running connection that is not closed gracefully goes on or is torn down. */
  lemma EndsByCleanup(e: Endpoint, event: Event)
    requires e.phase.Active? && EventEnabled(e, event) && !(event.Own? && event.act.StartClose?)
    ensures Apply(e, event).phase.Active? || Apply(e, event) == Cleanup(e)
  {
    if event.Own? && event.act.ReadFrame? {
      FrameEndsByCleanup(e, event.inbox[0]);
    }
  }

  lemma FrameEndsByCleanup(e: Endpoint, f: Frame)
    requires e.phase.Active?
    ensures OnFrame(e, f).phase.Active? || OnFrame(e, f) == Cleanup(e)
  {
  }

  /** After the end only handles act, and they add nothing to the table. */
  lemma GoneStaysEmpty(e: Endpoint, event: Event)
    requires e.phase.Gone? && Table(e) == {} && EventEnabled(e, event)
    ensures Apply(e, event).phase.Gone? && Table(Apply(e, event)) == {}
  {
    var id, op := event.act.id, event.act.op;
    HandleTable(e.streams[id], id, op, false);
    assert id !in Table(e);
  }

  predicate NeverCloses(events: seq<Event>) {
    forall k :: 0 <= k < |events| && events[k].Own? ==> !events[k].act.StartClose?
  }

  lemma {:induction false} ToldInRuns(e: Endpoint, events: seq<Event>)
    requires Told(e) && Run(e, events).Some? && NeverCloses(events)
    ensures Told(Run(e, events).value)
    decreases events
  {
    if events != [] {
      ToldKeeps(e, events[0]);
      ToldInRuns(Apply(e, events[0]), events[1..]);
    }
  }

  /** Unless the connection is closed gracefully, no reader stays parked after its end, and no writer but one that closed its stream. */
  lemma GoneWakesAll(mode: Mode, limits: Limits, events: seq<Event>)
    requires Run(Init(mode, limits), events).Some? && NeverCloses(events)
    ensures var e := Run(Init(mode, limits), events).value;
            e.phase.Gone? ==>
              forall id :: id in e.streams ==> !e.streams[id].reader && (e.streams[id].writer ==> !e.streams[id].state.CanWrite())
  {
    ToldInRuns(Init(mode, limits), events);
    var e := Run(Init(mode, limits), events).value;
    if e.phase.Gone? {
      forall id | id in e.streams
        ensures !e.streams[id].reader && (e.streams[id].writer ==> !e.streams[id].state.CanWrite())
      {
        assert Awake(e.streams[id]) && id !in Table(e);
      }
    }
  }

  // ---------------------------------------------------------------- a graceful close

  /** The streams with a parked reader, and those with a parked writer. */
  function Parked(e: Endpoint): set<u32> {
    set id | id in e.streams && e.streams[id].reader
  }

  function ParkedWriters(e: Endpoint): set<u32> {
    set id | id in e.streams && e.streams[id].writer
  }

  /** The handle of stream `id` polls a read, or a write: only this can park it. */
  predicate AsksToRead(event: Event, id: u32) {
    event.Own? && event.act.OnHandle? && event.act.id == id && (event.act.op.Read? || event.act.op.ReadNothing?)
  }

  predicate AsksToWrite(event: Event, id: u32) {
    event.Own? && event.act.OnHandle? && event.act.id == id && event.act.op.WriteBegin?
  }

  predicate NeverReads(events: seq<Event>, id: u32) {
    forall k :: 0 <= k < |events| ==> !AsksToRead(events[k], id)
  }

  predicate NeverWrites(events: seq<Event>, id: u32) {
    forall k :: 0 <= k < |events| ==> !AsksToWrite(events[k], id)
  }

  /** Once its connection is closing or gone, nothing but its own handle touches a waker. */
  lemma WakersStay(e: Endpoint, event: Event, id: u32)
    requires !e.phase.Active? && EventEnabled(e, event)
    ensures var n := Apply(e, event);
            && !n.phase.Active?
            && (!AsksToRead(event, id) ==> (id in Parked(n) <==> id in Parked(e)))
            && (!AsksToWrite(event, id) ==> (id in ParkedWriters(n) <==> id in ParkedWriters(e)))
  {
    if event.act.OnHandle? {
      HandleWakers(e.streams[event.act.id], event.act.id, event.act.op);
    }
  }

  lemma HandleWakers(s: Stream, id: u32, op: HandleOp)
    requires HandleEnabled(s, op)
    ensures var t := Handle(s, id, op, false);
            && (!op.Read? && !op.ReadNothing? ==> t.reader == s.reader)
            && (!op.WriteBegin? ==> t.writer == s.writer)
  {
  }

  lemma {:induction false} WakersStayInRuns(e: Endpoint, events: seq<Event>, id: u32)
    requires !e.phase.Active? && Run(e, events).Some?
    ensures var n := Run(e, events).value;
            && (NeverReads(events, id) ==> (id in Parked(n) <==> id in Parked(e)))
            && (NeverWrites(events, id) ==> (id in ParkedWriters(n) <==> id in ParkedWriters(e)))
    decreases events
  {
    if events != [] {
      WakersStay(e, events[0], id);
      WakersStayInRuns(Apply(e, events[0]), events[1..], id);
    }
  }

  /**
    From a graceful close on, whatever is left to send and however it ends: a task that does not poll
    again is parked if and only if it was parked when the close began.
  */
  lemma CloseParksExactly(e: Endpoint, inbox: seq<Frame>, events: seq<Event>, id: u32)
    requires e.phase.Active? && Run(e, [Own(StartClose, inbox)] + events).Some?
    ensures var n := Run(e, [Own(StartClose, inbox)] + events).value;
            && (NeverReads(events, id) ==> (id in Parked(n) <==> id in Parked(e)))
            && (NeverWrites(events, id) ==> (id in ParkedWriters(n) <==> id in ParkedWriters(e)))
  {
    FoldCons(Next, e, Own(StartClose, inbox), events);
    WakersStayInRuns(Step(e, inbox, StartClose).e, events, id);
  }

  // ---------------------------------------------------------------- every end

  predicate Closes(event: Event) {
    event.Own? && event.act.StartClose?
  }

  /** The endpoint at the moment it was closed gracefully, if it ever was. */
  function AtClose(e: Endpoint, events: seq<Event>): Option<Endpoint>
    requires Run(e, events).Some?
    decreases events
  {
    if events == [] then None
    else if Closes(events[0]) then Some(e)
    else AtClose(Apply(e, events[0]), events[1..])
  }

  /** After a graceful close the handle of stream `id` does not read again. */
  predicate NoReadAfterClose(events: seq<Event>, id: u32) {
    forall i, k :: 0 <= i < k < |events| && Closes(events[i]) ==> !AsksToRead(events[k], id)
  }

  /**
    Who is left parked when a connection is gone: exactly a reader that was parked when it was closed
    gracefully and did not poll again; nobody if it never was closed so.
  */
  lemma {:induction false} EndParksExactly(e: Endpoint, events: seq<Event>, id: u32)
    requires Told(e) && Run(e, events).Some? && Run(e, events).value.phase.Gone? && NoReadAfterClose(events, id)
    ensures id in Parked(Run(e, events).value) <==> AtClose(e, events).Some? && id in Parked(AtClose(e, events).value)
    decreases events
  {
    if events == [] {
      assert id in e.streams ==> Awake(e.streams[id]) && id !in Table(e);
    } else if Closes(events[0]) {
      assert [events[0]] + events[1..] == events && events[0] == Own(StartClose, events[0].inbox);
      CloseParksExactly(e, events[0].inbox, events[1..], id);
    } else {
      ToldKeeps(e, events[0]);
      EndParksExactly(Apply(e, events[0]), events[1..], id);
    }
  }

  /** In every run of an endpoint against any remote. */
  lemma GoneParksExactly(mode: Mode, limits: Limits, events: seq<Event>, id: u32)
    requires Run(Init(mode, limits), events).Some? && Run(Init(mode, limits), events).value.phase.Gone?
    requires NoReadAfterClose(events, id)
    ensures var closed := AtClose(Init(mode, limits), events);
            id in Parked(Run(Init(mode, limits), events).value) <==> closed.Some? && id in Parked(closed.value)
  {
    EndParksExactly(Init(mode, limits), events, id);
  }

  /** Steps of the endpoint while nothing arrives. */
  function OwnSteps(acts: seq<Act>): seq<Event> {
    if acts == [] then [] else [Own(acts[0], [])] + OwnSteps(acts[1..])
  }

  /** The rest of a graceful close with nothing to send. */
  function Finish(): seq<Event> {
    OwnSteps([FinishDrain, FlushOutbox, CloseSocket])
  }

  lemma FinishReadsNothing(id: u32)
    ensures NeverReads(Finish(), id)
  {
    assert Finish() == [Own(FinishDrain, []), Own(FlushOutbox, []), Own(CloseSocket, [])];
  }

  lemma ClosesEmpty(e: Endpoint) returns (n: Endpoint)
    requires e.phase.Active? && e.pendingRead.None? && e.pendingWrite.None?
    requires forall id :: id in e.streams ==> e.streams[id].queue == []
    ensures Run(e, [Own(StartClose, [])] + Finish()) == Some(n) && n.phase.Gone?
  {
    var e1 := Step(e, [], StartClose).e;
    assert e1.outbox == [];
    n := SendsGoAway(Step(e1, [], FinishDrain).e);
    FoldCons(Next, e1, Own(FinishDrain, []), OwnSteps([FlushOutbox, CloseSocket]));
    FoldCons(Next, e, Own(StartClose, []), Finish());
  }

  lemma SendsGoAway(e: Endpoint) returns (n: Endpoint)
    requires e.phase.Flushing? && e.outbox == [GoAwayFrame(TERM)]
    ensures Run(e, OwnSteps([FlushOutbox, CloseSocket])) == Some(n) && n.phase.Gone?
  {
    var e1 := Step(e, [], FlushOutbox).e;
    n := Step(e1, [], CloseSocket).e;
    FoldCons(Next, e1, Own(CloseSocket, []), OwnSteps([]));
    FoldCons(Next, e, Own(FlushOutbox, []), OwnSteps([CloseSocket]));
  }

  /** One reader parked on a new stream. */
  lemma ReaderParks() returns (e: Endpoint)
    ensures Run(Init(Client, Limits(1, 1)), OwnSteps([NewOutbound, OnHandle(1, Read(0))])) == Some(e)
    ensures e.phase.Active? && e.pendingRead.None? && e.pendingWrite.None?
    ensures e.streams.Keys == {1} && e.streams[1].queue == [] && e.streams[1].reader && e.streams[1].room
  {
    var e0 := Init(Client, Limits(1, 1));
    assert Table(e0) == {} && AckBacklog(e0) == {};
    var e1 := OpenOutbound(e0);
    e := With(e1, 1, Handle(e1.streams[1], 1, Read(0), true));
    FoldCons(Next, e1, Own(OnHandle(1, Read(0)), []), OwnSteps([]));
    FoldCons(Next, e0, Own(NewOutbound, []), OwnSteps([OnHandle(1, Read(0))]));
  }

  /** A reader left parked on a connection that is gone, by a graceful close with nothing to send. */
  lemma GracefulCloseStrands() returns (events: seq<Event>)
    ensures var e := Run(Init(Client, Limits(1, 1)), events);
            e.Some? && e.value.phase.Gone? && 1 in Parked(e.value)
  {
    var e := ReaderParks();
    var n := ClosesEmpty(e);
    var parking, closing := OwnSteps([NewOutbound, OnHandle(1, Read(0))]), [Own(StartClose, [])] + Finish();
    FinishReadsNothing(1);
    CloseParksExactly(e, [], Finish(), 1);
    FoldAppend(Next, Init(Client, Limits(1, 1)), parking, closing);
    events := parking + closing;
  }
}
