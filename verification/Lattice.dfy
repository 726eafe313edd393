/** `update_state` as a join: what a sequence of updates leaves does not depend on its order. */
module Lattice {
  import opened Streams

  /** The updates the connection and the handles issue. */
  predicate Issued(u: State) {
    u != Open(false)
  }

  predicate AllIssued(us: seq<State>) {
    forall u :: u in us ==> Issued(u)
  }

  function Replay(s: State, us: seq<State>): State
    decreases us
  {
    if us == [] then s else Replay(UpdateState(s, us[0]), us[1..])
  }

  predicate EndsReading(us: seq<State>) {
    RecvClosed in us || Closed in us
  }

  predicate EndsWriting(us: seq<State>) {
    SendClosed in us || Closed in us
  }

  /** The state with the given openness; `acknowledged` only matters while both directions are open. */
  function Summary(acknowledged: bool, readable: bool, writable: bool): State {
    if readable && writable then Open(acknowledged)
    else if readable then SendClosed
    else if writable then RecvClosed
    else Closed
  }

  predicate Acknowledged(s: State) {
    s == Open(true)
  }

  /** One update joins: it closes what it says is closed, and opens nothing. */
  lemma UpdateJoins(s: State, u: State)
    requires Issued(u)
    ensures UpdateState(s, u) ==
            Summary(Acknowledged(s) || Acknowledged(u), s.CanRead() && u.CanRead(), s.CanWrite() && u.CanWrite())
  {
  }

  /** Any sequence of updates: the result is the summary of which updates occurred. */
  lemma {:induction false} ReplayIsSummary(s: State, us: seq<State>)
    requires AllIssued(us)
    ensures Replay(s, us) ==
            Summary(Acknowledged(s) || Open(true) in us, s.CanRead() && !EndsReading(us), s.CanWrite() && !EndsWriting(us))
    decreases us
  {
    if us != [] {
      var t := UpdateState(s, us[0]);
      UpdateJoins(s, us[0]);
      assert us == [us[0]] + us[1..];
      assert forall u :: u in us <==> u == us[0] || u in us[1..];
      ReplayIsSummary(t, us[1..]);
    }
  }

  /** Openness is lost exactly by the closing updates and never comes back. */
  lemma OpennessLost(s: State, us: seq<State>)
    requires AllIssued(us)
    ensures Replay(s, us).CanRead() <==> s.CanRead() && !EndsReading(us)
    ensures Replay(s, us).CanWrite() <==> s.CanWrite() && !EndsWriting(us)
  {
    ReplayIsSummary(s, us);
  }

  /** Local and remote updates may arrive in any order, and more than once. */
  lemma OrderIrrelevant(s: State, us: seq<State>, vs: seq<State>)
    requires AllIssued(us) && AllIssued(vs)
    requires forall u :: u in us <==> u in vs
    ensures Replay(s, us) == Replay(s, vs)
  {
    ReplayIsSummary(s, us);
    ReplayIsSummary(s, vs);
  }
}
