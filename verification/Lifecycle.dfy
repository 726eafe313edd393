/** The phases of a connection object and the three calls that drive them. */
module Lifecycle {
  import opened Basics
  import opened Frames
  import Shutdown

  datatype ConnectionError = Io | Decode | NoMoreStreamIds | Closed | TooManyStreams | InvalidWindowUpdate

  type Cleanup = Shutdown.Cleanup<ConnectionError>

  datatype Phase = Running | Ending | Failing(cleanup: Cleanup) | Over | Poisoned

  /** What the phase's own poll answers when it is asked: nothing yet, done, or an error. */
  datatype Answer = Later | Fine | Wrong(error: ConnectionError)

  datatype Reply = Pending | Stream | Success | Nothing | Error(error: ConnectionError)

  /** `poll_next_inbound` reports the regular end as the end of its streams. */
  function Report(inbound: bool, e: ConnectionError): Reply {
    if inbound && e == Closed then Nothing else Error(e)
  }

  /** `Connection`: every call takes the phase out, asks it, and puts a phase back. */
  class Connection {
    var phase: Phase

    /** The cleanup this connection has started and not yet finished. */
    ghost function Owned(): set<object>
      reads this
    {
      if phase.Failing? then {phase.cleanup} else {}
    }

    /** No call leaves the phase out, and a cleanup in place still has its error to hand over. */
    ghost predicate Valid()
      reads this, Owned()
    {
      !phase.Poisoned? && (phase.Failing? ==> phase.cleanup.error.Some?)
    }

    constructor ()
      ensures Valid() && phase.Running?
    {
      phase := Running;
    }

    /** Phases only go forward. */
    static function Rank(p: Phase): nat {
      match p
      case Running => 2
      case Ending => 1
      case Failing(_) => 1
      case Over => 0
      case Poisoned => 3
    }

    /**
      `poll_new_outbound` and, if `inbound`, `poll_next_inbound`. `receivers` are the command
      queues of the connection at the time of the call. The cleanup's own requirement, that it has
      an error left, holds wherever it is polled.
    */
    method Drive(running: Answer, ending: Answer, inbound: bool, receivers: map<u32, seq<Frame>>) returns (r: Reply)
      requires Valid()
      modifies this, Owned()
      ensures Valid() && !phase.Failing? && Rank(phase) <= Rank(old(phase))
      ensures r.Stream? <==> old(phase).Running? && running.Fine?
      ensures r.Stream? ==> phase.Running?
      ensures r.Pending? <==> (old(phase).Running? && running.Later?) || (old(phase).Ending? && ending.Later?)
      ensures r.Pending? ==> phase == old(phase)
      ensures !r.Stream? && !r.Pending? ==> phase.Over?
      ensures old(phase).Over? ==> r == Report(inbound, Closed)
      ensures old(phase).Running? && running.Wrong? ==> r == Report(inbound, running.error)
      ensures old(phase).Ending? && ending.Fine? ==> r == Report(inbound, Closed)
      ensures old(phase).Ending? && ending.Wrong? ==> r == Error(ending.error)
      ensures old(phase).Failing? ==> r == Report(inbound, old(phase.cleanup.error.value))
    {
      while true
        invariant Valid() && Rank(phase) <= Rank(old(phase))
        invariant phase == old(phase) || (old(phase).Running? && running.Wrong? && phase.Failing?)
        invariant phase.Failing? && old(phase).Failing? ==> phase.cleanup.error == old(phase.cleanup.error)
        invariant phase.Failing? && !old(phase).Failing? ==> fresh(phase.cleanup) && phase.cleanup.error == Some(running.error)
        decreases Rank(phase)
      {
        var taken := phase;
        phase := Poisoned;
        match taken {
          case Running =>
            match running {
              case Fine => phase := Running; return Stream;
              case Later => phase := Running; return Pending;
              case Wrong(e) =>
                var cleanup := new Shutdown.Cleanup(receivers, e);
                phase := Failing(cleanup);
            }
          case Ending =>
            match ending {
              case Fine => phase := Over; return Report(inbound, Closed);
              case Wrong(e) => phase := Over; return Error(e);
              case Later => phase := Ending; return Pending;
            }
          case Failing(cleanup) =>
            var e := cleanup.Poll();
            phase := Over;
            return Report(inbound, e);
          case Over =>
            phase := Over;
            return Report(inbound, Closed);
        }
      }
    }

    /** `poll_close`; an error that was being cleaned up is dropped. */
    method Close(ending: Answer) returns (r: Reply)
      requires Valid()
      modifies this, Owned()
      ensures Valid() && !phase.Running? && !phase.Failing? && Rank(phase) <= Rank(old(phase))
      ensures r.Pending? <==> phase.Ending?
      ensures r.Success? || r.Pending? || r.Error?
      ensures r.Error? <==> (old(phase).Running? || old(phase).Ending?) && ending.Wrong?
      ensures r.Error? ==> r.error == ending.error
      ensures old(phase).Running? || old(phase).Ending? ==> (r.Pending? <==> ending.Later?)
      ensures old(phase).Over? || old(phase).Failing? ==> r.Success?
    {
      while true
        invariant Valid() && Rank(phase) <= Rank(old(phase))
        invariant phase == old(phase) || (old(phase).Running? && phase.Ending?)
          || (phase.Over? && (old(phase).Running? || old(phase).Ending?) && ending.Fine?)
        invariant phase.Failing? ==> phase.cleanup.error == old(phase.cleanup.error)
        decreases Rank(phase)
      {
        var taken := phase;
        phase := Poisoned;
        match taken {
          case Running => phase := Ending;
          case Ending =>
            match ending {
              case Fine => phase := Over;
              case Wrong(e) => phase := Over; return Error(e);
              case Later => phase := Ending; return Pending;
            }
          case Failing(cleanup) =>
            var _ := cleanup.Poll();
            phase := Over;
            return Success;
          case Over => phase := Over; return Success;
        }
      }
    }
  }

  // ---------------------------------------------------------------- any sequence of calls

  datatype Call =
    | NewOutbound(running: Answer, ending: Answer, receivers: map<u32, seq<Frame>>)
    | NextInbound(running: Answer, ending: Answer, receivers: map<u32, seq<Frame>>)
    | Shut(ending: Answer)

  /** The answer of a closed connection. */
  function Ended(call: Call): Reply {
    match call
    case NewOutbound(_, _, _) => Error(Closed)
    case NextInbound(_, _, _) => Nothing
    case Shut(_) => Success
  }

  predicate Last(r: Reply) {
    !r.Pending? && !r.Stream?
  }

  /** After the first reply that is neither a stream nor a wait, every call gets the answer of a closed connection. */
  predicate Absorbing(calls: seq<Call>, replies: seq<Reply>) {
    && |replies| <= |calls|
    && forall i, j :: 0 <= i < j < |replies| && Last(replies[i]) ==> replies[j] == Ended(calls[j])
  }

  /**
    Whatever calls are made in whatever order: no phase is lost, no cleanup is polled without its
    error, each error is reported once, and closed is for good.
  */
  method Script(c: Connection, calls: seq<Call>) returns (replies: seq<Reply>)
    requires c.Valid()
    modifies c, c.Owned()
    ensures c.Valid() && |replies| == |calls| && Absorbing(calls, replies)
    ensures (exists i :: 0 <= i < |replies| && Last(replies[i])) ==> c.phase.Over?
  {
    replies := [];
    for i := 0 to |calls|
      invariant c.Valid() && |replies| == i && Absorbing(calls, replies)
      invariant c.Owned() <= old(c.Owned())
      invariant (exists k :: 0 <= k < |replies| && Last(replies[k])) ==> c.phase.Over?
    {
      var r;
      match calls[i] {
        case NewOutbound(running, ending, receivers) => r := c.Drive(running, ending, false, receivers);
        case NextInbound(running, ending, receivers) => r := c.Drive(running, ending, true, receivers);
        case Shut(ending) => r := c.Close(ending);
      }
      replies := replies + [r];
    }
  }
}
