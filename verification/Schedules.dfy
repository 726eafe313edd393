/** What a socket does, call after call: the environment's choices for reads and writes. */
module Schedules {

  /**
    Outcome of one socket call: nothing now, an error, up to `1 + more` bytes, or, for writes
    only, no byte taken or more bytes claimed than were offered.
  */
  datatype Event = Blocked | Broken | Moves(more: nat) | TakesNone | Overclaims

  datatype Io = Pending | Failed | Ready(n: nat)

  /** The calls that move bytes from position `i` on. */
  function Moving(schedule: seq<Event>, i: nat): (n: nat)
    decreases |schedule| - i
  {
    if i >= |schedule| then 0 else (if schedule[i].Moves? then 1 else 0) + Moving(schedule, i + 1)
  }

  /** The calls that make their caller wait from position `i` on. */
  function Waits(schedule: seq<Event>, i: nat): (n: nat)
    decreases |schedule| - i
  {
    if i >= |schedule| then 0 else (if schedule[i].Blocked? then 1 else 0) + Waits(schedule, i + 1)
  }

  function Remaining(schedule: seq<Event>, i: nat): nat {
    if i < |schedule| then |schedule| - i else 0
  }

  /** A socket that may block at any time but never fails or misbehaves. */
  predicate Delivers(schedule: seq<Event>) {
    forall k :: 0 <= k < |schedule| ==> schedule[k].Moves? || schedule[k].Blocked?
  }

  /** From `at` on it is called often enough, too: more moves than bytes, more polls than results and waits. */
  predicate SufficesFrom(schedule: seq<Event>, at: nat, bytes: nat, results: nat, polls: nat) {
    Delivers(schedule) && Moving(schedule, at) > bytes && polls > results + Waits(schedule, at)
  }

  predicate Suffices(schedule: seq<Event>, bytes: nat, results: nat, polls: nat) {
    SufficesFrom(schedule, 0, bytes, results, polls)
  }

  /** The event before position `j`, the last one used since position `i`. */
  predicate LastUsed(schedule: seq<Event>, i: nat, j: nat, event: Event) {
    i < j <= |schedule| && schedule[j - 1] == event
  }

  /** Between `i` and `j` every move brought at least one of `bytes`, and the caller waited `waits` times. */
  predicate Spent(schedule: seq<Event>, i: nat, j: nat, waits: int, bytes: int) {
    i <= j && Moving(schedule, i) <= Moving(schedule, j) + bytes && Waits(schedule, i) == Waits(schedule, j) + waits
  }

  /** As before, and now the caller has to wait: for the event just used, or because none is left. */
  predicate Held(schedule: seq<Event>, i: nat, j: nat, bytes: int) {
    Spent(schedule, i, j, 1, bytes) || (j >= |schedule| && Spent(schedule, i, j, 0, bytes))
  }

  /** One more event of the schedule, if there is one. */
  predicate UsedOne(schedule: seq<Event>, i: nat, j: nat, io: Io) {
    if i >= |schedule| then j == i && io.Pending?
    else
      && j == i + 1
      && (io.Pending? <==> schedule[i].Blocked?) && (io.Failed? ==> !schedule[i].Blocked? && !schedule[i].Moves?)
  }

  /** A socket that delivers and has more moves to go than bytes cannot leave its caller without an event. */
  lemma HeldOnce(schedule: seq<Event>, i: nat, j: nat, bytes: nat)
    requires Held(schedule, i, j, bytes) && Moving(schedule, i) > bytes
    ensures Spent(schedule, i, j, 1, bytes)
  {
  }

  /** After `calls` polls at position `j`: each gave a result or waited, and every move brought one of `bytes`. */
  predicate Paced(schedule: seq<Event>, j: nat, calls: nat, results: nat, bytes: int) {
    Moving(schedule, 0) <= Moving(schedule, j) + bytes && calls + Waits(schedule, j) == results + Waits(schedule, 0)
  }

  lemma PacedOn(schedule: seq<Event>, i: nat, j: nat, waits: nat, calls: nat, results: nat, bytes: int, more: int)
    requires Paced(schedule, i, calls, results, bytes) && Spent(schedule, i, j, waits, more) && waits <= 1
    ensures Paced(schedule, j, calls + 1, results + 1 - waits, bytes + more)
  {
  }
}
