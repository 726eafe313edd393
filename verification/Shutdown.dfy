/** Command receivers, and the cleanup of a connection that failed. */
module Shutdown {
  import opened Basics
  import opened Frames

  // ---------------------------------------------------------------- tagged receivers

  datatype Item<T> = Waiting | Finished | Tagged(key: u32, item: Option<T>)

  /** The items of a sequence, each as something received. */
  function Somes<T>(s: seq<T>): (r: seq<Option<T>>)
    ensures |r| == |s|
  {
    if s == [] then [] else [Some(s[0])] + Somes(s[1..])
  }

  lemma {:induction false} SomesAppend<T>(s: seq<T>, x: T)
    ensures Somes(s + [x]) == Somes(s) + [Some(x)]
  {
    if s != [] {
      assert (s + [x])[1..] == s[1..] + [x];
      SomesAppend(s[1..], x);
    }
  }

  /** A command receiver that reports its end once, under its key. */
  class TaggedStream<T> {
    const key: u32
    var queue: seq<T>
    var ended: bool          // all senders are gone, or the receiver was closed
    var reportedNone: bool
    ghost var pushed: seq<T>
    ghost var taken: seq<T>
    ghost var yielded: seq<Option<T>>

    /** Items come out once and in order, and one end marker comes after all of them. */
    ghost predicate Valid()
      reads this
    {
      && pushed == taken + queue
      && yielded == Somes(taken) + (if reportedNone then [None] else [])
      && (reportedNone ==> ended && queue == [])
    }

    constructor (key: u32)
      ensures Valid() && pushed == [] && yielded == [] && !ended && this.key == key
    {
      this.key, queue, ended, reportedNone, pushed, taken, yielded := key, [], false, false, [], [], [];
    }

    method Push(x: T) returns (ok: bool)
      requires Valid()
      modifies this
      ensures Valid() && ok == !old(ended) && ended == old(ended) && yielded == old(yielded)
      ensures pushed == if ok then old(pushed) + [x] else old(pushed)
    {
      ok := !ended;
      if ok {
        queue, pushed := queue + [x], pushed + [x];
      }
    }

    method Close()
      requires Valid()
      modifies this
      ensures Valid() && ended && pushed == old(pushed) && yielded == old(yielded)
    {
      ended := true;
    }

    method PollNext() returns (item: Item<T>)
      requires Valid()
      modifies this
      ensures Valid() && ended == old(ended) && pushed == old(pushed)
      ensures yielded == old(yielded) + if item.Tagged? then [item.item] else []
      ensures item.Tagged? ==> item.key == key
      ensures item.Finished? <==> None in old(yielded)
      ensures item.Waiting? <==> !old(ended) && |old(yielded)| == |pushed|
      ensures item.Tagged? && item.item.None? ==> yielded == Somes(pushed) + [None]
    {
      NoMarkerInSomes(taken);
      if reportedNone {
        return Finished;
      }
      if queue != [] {
        item := Tagged(key, Some(queue[0]));
        SomesAppend(taken, queue[0]);
        yielded := yielded + [Some(queue[0])];
        taken, queue := taken + [queue[0]], queue[1..];
      } else if ended {
        reportedNone := true;
        assert pushed == taken;
        item := Tagged(key, None);
        yielded := yielded + [None];
      } else {
        item := Waiting;
      }
    }
  }

  lemma {:induction false} NoMarkerInSomes<T>(s: seq<T>)
    ensures None !in Somes(s)
  {
    if s != [] {
      NoMarkerInSomes(s[1..]);
    }
  }

  // ---------------------------------------------------------------- queued commands

  /** A measure of queues, summed over all of them. */
  ghost function Total(q: map<u32, seq<Frame>>, measure: seq<Frame> -> nat): nat {
    if q == map[] then 0
    else
      var id :| id in q;
      measure(q[id]) + Total(q - {id}, measure)
  }

  lemma {:induction false} TotalRemove(q: map<u32, seq<Frame>>, measure: seq<Frame> -> nat, id: u32)
    requires id in q
    ensures Total(q, measure) == measure(q[id]) + Total(q - {id}, measure)
    decreases |q|
  {
    var j :| j in q && Total(q, measure) == measure(q[j]) + Total(q - {j}, measure);
    if j != id {
      TotalRemove(q - {j}, measure, id);
      TotalRemove(q - {id}, measure, j);
      assert q - {j} - {id} == q - {id} - {j};
    }
  }

  lemma TotalChange(q: map<u32, seq<Frame>>, measure: seq<Frame> -> nat, id: u32, s: seq<Frame>)
    requires id in q
    ensures Total(q[id := s], measure) + measure(q[id]) == Total(q, measure) + measure(s)
  {
    TotalRemove(q, measure, id);
    TotalRemove(q[id := s], measure, id);
    assert q[id := s] - {id} == q - {id};
  }

  lemma {:induction false} TotalZero(q: map<u32, seq<Frame>>, measure: seq<Frame> -> nat)
    requires forall id :: id in q ==> measure(q[id]) == 0
    ensures Total(q, measure) == 0
    decreases |q|
  {
    if q != map[] {
      var id :| id in q;
      TotalRemove(q, measure, id);
      TotalZero(q - {id}, measure);
    }
  }

  function Count(s: seq<Frame>): nat { |s| }

  /** Commands left in all queues. */
  ghost function Left(q: map<u32, seq<Frame>>): nat {
    Total(q, Count)
  }

  lemma LeftTake(q: map<u32, seq<Frame>>, id: u32)
    requires id in q && q[id] != []
    ensures Left(q[id := q[id][1..]]) == Left(q) - 1
  {
    TotalChange(q, Count, id, q[id][1..]);
  }

  // ---------------------------------------------------------------- cleanup

  /** After an error: close the receivers, drop what is queued, hand the error over once. */
  class Cleanup<E> {
    var draining: bool
    var queues: map<u32, seq<Frame>>
    var error: Option<E>

    constructor (queues: map<u32, seq<Frame>>, error: E)
      ensures this.queues == queues && this.error == Some(error) && !draining
    {
      draining, this.queues, this.error := false, queues, Some(error);
    }

    /** `Cleanup::poll` never waits; a second call would have no error left to give. */
    method Poll() returns (e: E)
      requires error.Some?
      modifies this
      ensures Some(e) == old(error) && error.None?
      ensures forall id :: id in queues ==> queues[id] == []
      ensures queues.Keys == old(queues).Keys
    {
      draining := true;
      ghost var left := Left(queues);
      while exists id :: id in queues && queues[id] != []
        invariant error == old(error) && left == Left(queues) && queues.Keys == old(queues).Keys
        decreases left
      {
        var id :| id in queues && queues[id] != [];
        LeftTake(queues, id);
        queues := queues[id := queues[id][1..]];
        left := Left(queues);
      }
      e := error.value;
      error := None;
    }
  }
}
