/** Runs of one endpoint on its socket. */
module EndpointRuns {
  import opened Basics
  import opened Frames
  import opened Streams
  import opened Endpoint

  /** The socket's two directions as an endpoint sees them. */
  datatype Socket = Socket(inbox: seq<Frame>, sent: seq<Frame>)

  /** Several steps of one endpoint, if each of them is possible. */
  function Steps(e: Endpoint, socket: Socket, acts: seq<Act>): Option<(Endpoint, Socket)>
    decreases acts
  {
    if acts == [] then Some((e, socket))
    else if !Enabled(e, socket.inbox, acts[0]) then None
    else
      var after := Step(e, socket.inbox, acts[0]);
      Steps(after.e, Socket(after.inbox, socket.sent + after.sent), acts[1..])
  }

  lemma {:induction false} StepsAppend(e: Endpoint, socket: Socket, acts: seq<Act>, act: Act)
    requires Steps(e, socket, acts).Some?
    requires var (e1, s1) := Steps(e, socket, acts).value; Enabled(e1, s1.inbox, act)
    ensures var (e1, s1) := Steps(e, socket, acts).value;
            var after := Step(e1, s1.inbox, act);
            Steps(e, socket, acts + [act]) == Some((after.e, Socket(after.inbox, s1.sent + after.sent)))
    decreases acts
  {
    if acts == [] {
      assert [act][1..] == [];
    } else {
      var after := Step(e, socket.inbox, acts[0]);
      StepsAppend(after.e, Socket(after.inbox, socket.sent + after.sent), acts[1..], act);
      assert (acts + [act])[1..] == acts[1..] + [act];
    }
  }

  /** What was sent before does not matter to the steps, and comes first. */
  lemma {:induction false} StepsAfter(e: Endpoint, inbox: seq<Frame>, earlier: seq<Frame>, sent: seq<Frame>, acts: seq<Act>)
    requires Steps(e, Socket(inbox, sent), acts).Some?
    ensures var (n, s) := Steps(e, Socket(inbox, sent), acts).value;
            Steps(e, Socket(inbox, earlier + sent), acts) == Some((n, Socket(s.inbox, earlier + s.sent)))
    decreases acts
  {
    if acts != [] {
      var after := Step(e, inbox, acts[0]);
      assert (earlier + sent) + after.sent == earlier + (sent + after.sent);
      StepsAfter(after.e, after.inbox, earlier, sent + after.sent, acts[1..]);
    }
  }

  // ---------------------------------------------------------------- streams the remote opens

  /** The frame `f` opens a stream of the remote. */
  predicate Opens(e: Endpoint, f: Frame) {
    f.OfStream() && Receive(View(e, f.header.streamId), f, !Local(e.mode, f.header.streamId), Full(e)).0.New?
  }

  /** The stream a step opens for the remote, if it does. */
  function Arrival(e: Endpoint, inbox: seq<Frame>, act: Option<Act>): Option<u32> {
    if act == Some(ReadFrame) && inbox != [] && Opens(e, inbox[0]) then Some(inbox[0].header.streamId) else None
  }

  /** Such a stream is new, and it is the remote's. */
  lemma ArrivalIsNew(e: Endpoint, f: Frame)
    requires Opens(e, f)
    ensures var id := f.header.streamId; id !in Table(e) && id in Table(OnFrame(e, f)) && !Local(e.mode, id)
  {
  }

  /** All streams the remote opens in the course of some steps, in order. */
  function Arrivals(e: Endpoint, socket: Socket, acts: seq<Act>): seq<u32>
    requires Steps(e, socket, acts).Some?
    decreases acts
  {
    if acts == [] then []
    else
      var after := Step(e, socket.inbox, acts[0]);
      Opt(Arrival(e, socket.inbox, Some(acts[0]))) + Arrivals(after.e, Socket(after.inbox, socket.sent + after.sent), acts[1..])
  }

  lemma {:induction false} ArrivalsAppend(e: Endpoint, socket: Socket, acts: seq<Act>, act: Act)
    requires Steps(e, socket, acts).Some? && Steps(e, socket, acts + [act]).Some?
    ensures var (e1, s1) := Steps(e, socket, acts).value;
            Arrivals(e, socket, acts + [act]) == Arrivals(e, socket, acts) + Opt(Arrival(e1, s1.inbox, Some(act)))
    decreases acts
  {
    if acts == [] {
      assert ([] + [act])[1..] == [];
    } else {
      var after := Step(e, socket.inbox, acts[0]);
      assert (acts + [act])[1..] == acts[1..] + [act];
      ArrivalsAppend(after.e, Socket(after.inbox, socket.sent + after.sent), acts[1..], act);
    }
  }
}
