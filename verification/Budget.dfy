/**
  The receive budget of one connection: any number of streams are created, receive, read,
  tune their windows and go, while all of them share one counter. Tuning takes the counter's
  lock, releases it, and only then assigns the new maximum, so it is two steps.
*/
module Budget {
  import opened Basics
  import opened Runs
  import opened Settings
  import opened FlowControl
  import F = Frames
  import S = Streams
  import SL = StreamLaws

  /** `reserved`: counted on the shared counter, not yet assigned to `maxReceiveWindow`. */
  datatype Controller = Controller(flow: Flow, buffered: nat, reserved: Option<int>) {
    function Promised(): int {
      if reserved.Some? then reserved.value else flow.maxReceiveWindow
    }

    function Excess(): int { Promised() - DEFAULT_CREDIT }
  }

  /** Streams are numbered by creation; those in `table` are known to the connection. */
  datatype Budget = Budget(settings: Settings, accumulated: int, controllers: map<nat, Controller>, table: set<nat>, measured: bool)

  datatype Move =
    | Create(k: nat, sendWindow: u32)
    | Arrive(k: nat, n: nat)         // a data frame of `n` bytes
    | Consume(k: nat, n: nat)        // the user reads `n` bytes
    | Reserve(k: nat)                // next_window_update up to the release of the counter
    | Assign(k: nat)                 // the rest of next_window_update
    | Grant(k: nat)                  // next_window_update without tuning
    | Measure                        // a pong arrives
    | Leave(k: nat)                  // the connection forgets the stream
    | Free(k: nat)                   // the last owner of the stream's record drops it

  function Start(s: Settings): Budget {
    Budget(s, 0, map[], {}, false)
  }

  /** The stream's lock is free. */
  predicate Unlocked(b: Budget, k: nat) {
    k in b.controllers && b.controllers[k].reserved.None?
  }

  predicate Due(c: Controller) {
    IsDue(c.flow, c.buffered)
  }

  predicate Possible(b: Budget, m: Move) {
    match m
    case Create(k, _) => k !in b.controllers && |b.table| < b.settings.maxNumStreams
    case Arrive(k, n) => Unlocked(b, k) && n <= b.controllers[k].flow.receiveWindow
    case Consume(k, n) => Unlocked(b, k) && n <= b.controllers[k].buffered
    case Reserve(k) => Unlocked(b, k) && b.measured && Due(b.controllers[k])
    case Assign(k) => k in b.controllers && b.controllers[k].reserved.Some?
    case Grant(k) => Unlocked(b, k) && Due(b.controllers[k])
    case Measure => true
    case Leave(k) => k in b.table
    case Free(k) => Unlocked(b, k) && k !in b.table
  }

  function Assigned(c: Controller, max: int): Controller
  {
    var f := c.flow.(maxReceiveWindow := max);
    Controller(f.(receiveWindow := f.receiveWindow + Credit(f, c.buffered)), c.buffered, None)
  }

  function Next(b: Budget, m: Move): Budget
    requires Possible(b, m)
  {
    match m
    case Create(k, w) =>
      b.(controllers := b.controllers[k := Controller(Flow(DEFAULT_CREDIT, DEFAULT_CREDIT, w), 0, None)], table := b.table + {k})
    case Arrive(k, n) =>
      var c := b.controllers[k];
      Put(b, k, c.(flow := c.flow.(receiveWindow := c.flow.receiveWindow - n), buffered := c.buffered + n))
    case Consume(k, n) => Put(b, k, b.controllers[k].(buffered := b.controllers[k].buffered - n))
    case Reserve(k) =>
      var c := b.controllers[k];
      var max := NewMax(c.flow, b.accumulated, b.settings);
      Put(b, k, c.(reserved := Some(max))).(accumulated := b.accumulated + (max - c.flow.maxReceiveWindow))
    case Assign(k) => Put(b, k, Assigned(b.controllers[k], b.controllers[k].reserved.value))
    case Grant(k) => Put(b, k, Assigned(b.controllers[k], b.controllers[k].flow.maxReceiveWindow))
    case Measure => b.(measured := true)
    case Leave(k) => b.(table := b.table - {k})
    case Free(k) =>
      b.(controllers := b.controllers - {k}, accumulated := b.accumulated - (b.controllers[k].flow.maxReceiveWindow - DEFAULT_CREDIT))
  }

  function Put(b: Budget, k: nat, c: Controller): Budget {
    b.(controllers := b.controllers[k := c])
  }

  /** Tuning without a pause in between is the update of the flow controller. */
  lemma ReserveAssignIsUpdate(b: Budget, k: nat)
    requires Possible(b, Reserve(k))
    ensures var c := b.controllers[k];
            var b1 := Next(b, Reserve(k));
            var b2 := Next(b1, Assign(k));
            var (f, accumulated, _) := Update(c.flow, b.accumulated, b.settings, c.buffered, true);
            b2.controllers[k].flow == f && b2.accumulated == accumulated
  {
  }

  // ---------------------------------------------------------------- sums over controllers

  ghost function Sum(m: map<nat, Controller>): int {
    if m == map[] then 0
    else
      var k :| k in m;
      m[k].Excess() + Sum(m - {k})
  }

  /** The sum does not depend on which stream is counted first. */
  lemma {:induction false} SumRemove(m: map<nat, Controller>, k: nat)
    requires k in m
    ensures Sum(m) == m[k].Excess() + Sum(m - {k})
    decreases |m|
  {
    var j :| j in m && Sum(m) == m[j].Excess() + Sum(m - {j});
    if j != k {
      SumRemove(m - {j}, k);
      SumRemove(m - {k}, j);
      assert m - {j} - {k} == m - {k} - {j};
    }
  }

  lemma SumPut(m: map<nat, Controller>, k: nat, c: Controller)
    ensures Sum(m[k := c]) == Sum(m) + c.Excess() - if k in m then m[k].Excess() else 0
  {
    SumRemove(m[k := c], k);
    assert m[k := c] - {k} == m - {k};
    if k in m {
      SumRemove(m, k);
    } else {
      assert m - {k} == m;
    }
  }

  // ---------------------------------------------------------------- invariant

  predicate Balanced(c: Controller, measured: bool) {
    && InRange(c.flow)
    && c.flow.receiveWindow + c.buffered <= c.flow.maxReceiveWindow <= c.Promised() <= U32_MAX
    && (!measured ==> c.Promised() == DEFAULT_CREDIT)
  }

  ghost predicate Inv(b: Budget) {
    && b.settings.Valid()
    && (forall k :: k in b.controllers ==> Balanced(b.controllers[k], b.measured))
    && b.table <= b.controllers.Keys && |b.table| <= b.settings.maxNumStreams
    && (b.controllers != map[] ==> b.settings.maxNumStreams >= 1)
    && b.accumulated == Sum(b.controllers) <= b.settings.Spare()
  }

  lemma {:induction false} SumNonNegative(m: map<nat, Controller>, measured: bool)
    requires forall k :: k in m ==> Balanced(m[k], measured)
    ensures Sum(m) >= 0
    decreases |m|
  {
    if m != map[] {
      var j :| j in m;
      SumRemove(m, j);
      assert Balanced(m[j], measured);
      SumNonNegative(m - {j}, measured);
      assert m[j].Excess() >= 0;
    }
  }

  /** Each stream's growth is part of the counter. */
  lemma CountedIn(b: Budget, k: nat)
    requires Inv(b) && k in b.controllers
    ensures 0 <= b.controllers[k].Excess() <= b.accumulated
  {
    SumRemove(b.controllers, k);
    SumNonNegative(b.controllers - {k}, b.measured);
  }

  lemma PutKeeps(b: Budget, k: nat, c: Controller, accumulated: int)
    requires Inv(b) && k in b.controllers && Balanced(c, b.measured)
    requires accumulated == b.accumulated + (c.Excess() - b.controllers[k].Excess()) <= b.settings.Spare()
    ensures Inv(Put(b, k, c).(accumulated := accumulated))
  {
    SumPut(b.controllers, k, c);
  }

  lemma CreateKeeps(b: Budget, k: nat, w: u32)
    requires Inv(b) && Possible(b, Create(k, w))
    ensures Inv(Next(b, Create(k, w)))
  {
    SumPut(b.controllers, k, Next(b, Create(k, w)).controllers[k]);
  }

  lemma FreeKeeps(b: Budget, k: nat)
    requires Inv(b) && Possible(b, Free(k))
    ensures Inv(Next(b, Free(k)))
  {
    SumRemove(b.controllers, k);
    SumNonNegative(b.controllers - {k}, b.measured);
  }

  /** Updates of one stream keep its own windows in order. */
  lemma MoveBalanced(b: Budget, m: Move)
    requires Inv(b) && Possible(b, m)
    requires m.Arrive? || m.Consume? || m.Reserve? || m.Assign? || m.Grant?
    ensures var n := Next(b, m);
            && n == Put(b, m.k, n.controllers[m.k]).(accumulated := n.accumulated)
            && Balanced(n.controllers[m.k], b.measured)
            && n.accumulated == b.accumulated + (n.controllers[m.k].Excess() - b.controllers[m.k].Excess()) <= b.settings.Spare()
  {
    assert Balanced(b.controllers[m.k], b.measured);
    if m.Reserve? {
      TuningBounds(b.controllers[m.k].flow, b.accumulated, b.settings, true);
    }
  }

  /** No step of any stream breaks the budget. */
  lemma NextKeeps(b: Budget, m: Move)
    requires Inv(b) && Possible(b, m)
    ensures Inv(Next(b, m))
  {
    if m.Create? {
      CreateKeeps(b, m.k, m.sendWindow);
    } else if m.Free? {
      FreeKeeps(b, m.k);
    } else if !m.Measure? && !m.Leave? {
      MoveBalanced(b, m);
      PutKeeps(b, m.k, Next(b, m).controllers[m.k], Next(b, m).accumulated);
    }
  }

  // ---------------------------------------------------------------- every run

  function TryNext(b: Budget, m: Move): Option<Budget> {
    if Possible(b, m) then Some(Next(b, m)) else None
  }

  function Run(b: Budget, moves: seq<Move>): Option<Budget> {
    Fold(TryNext, b, moves)
  }

  lemma {:induction false} RunKeeps(b: Budget, moves: seq<Move>)
    requires Inv(b) && Run(b, moves).Some?
    ensures Inv(Run(b, moves).value)
    decreases moves
  {
    if moves != [] {
      NextKeeps(b, moves[0]);
      RunKeeps(Next(b, moves[0]), moves[1..]);
    }
  }

  ghost predicate Reachable(b: Budget) {
    exists s: Settings, moves: seq<Move> :: s.Valid() && Run(Start(s), moves) == Some(b)
  }

  lemma ReachableHolds(b: Budget)
    requires Reachable(b)
    ensures Inv(b)
  {
    var s: Settings, moves: seq<Move> :| s.Valid() && Run(Start(s), moves) == Some(b);
    RunKeeps(Start(s), moves);
  }

  /** The counter is the streams' growth, assigned or reserved, and stays within the budget. */
  lemma CounterIsSum(b: Budget)
    requires Reachable(b)
    ensures b.accumulated == Sum(b.controllers) && 0 <= b.accumulated <= b.settings.Spare()
  {
    ReachableHolds(b);
    SumNonNegative(b.controllers, b.measured);
  }

  /** No operation on the windows or the counter leaves its machine width, and no assertion fails. */
  lemma ArithmeticIsSafe(b: Budget, k: nat)
    requires Reachable(b) && k in b.controllers
    ensures var c := b.controllers[k];
            && Asserted(c.flow, b.accumulated, b.settings, c.buffered, b.measured)
            && 0 <= ConnectionLimit(c.flow, b.accumulated, b.settings) <= b.settings.usizeMax
            && 0 <= b.settings.Spare() - b.accumulated
            && 0 <= c.flow.maxReceiveWindow - c.flow.receiveWindow
            && c.flow.maxReceiveWindow <= NewMax(c.flow, b.accumulated, b.settings) <= Min(2 * c.flow.maxReceiveWindow, U32_MAX)
            && c.flow.maxReceiveWindow - DEFAULT_CREDIT <= b.accumulated
  {
    ReachableHolds(b);
    CountedIn(b, k);
    LimitFitsExactly(b.settings);
    TuningBounds(b.controllers[k].flow, b.accumulated, b.settings, true);
  }

  // ---------------------------------------------------------------- the limit of the connection

  /** The receive windows of the streams in `keys`, all together. */
  ghost function Windows(m: map<nat, Controller>, keys: set<nat>): int
    requires keys <= m.Keys
  {
    if keys == {} then 0
    else
      var k :| k in keys;
      m[k].Promised() + Windows(m, keys - {k})
  }

  lemma {:induction false} WindowsBounded(m: map<nat, Controller>, keys: set<nat>, measured: bool)
    requires keys <= m.Keys && forall k :: k in m ==> Balanced(m[k], measured)
    ensures Windows(m, keys) <= Sum(m) + |keys| * DEFAULT_CREDIT
    decreases |keys|
  {
    if keys == {} {
      SumNonNegative(m, measured);
    } else {
      var k :| k in keys && Windows(m, keys) == m[k].Promised() + Windows(m, keys - {k});
      var rest := m - {k};
      SumRemove(m, k);
      SameWindows(m, rest, keys - {k});
      WindowsBounded(rest, keys - {k}, measured);
      assert |keys - {k}| == |keys| - 1;
    }
  }

  lemma {:induction false} SameWindows(m: map<nat, Controller>, n: map<nat, Controller>, keys: set<nat>)
    requires keys <= m.Keys && keys <= n.Keys && forall k :: k in keys ==> m[k] == n[k]
    ensures Windows(m, keys) == Windows(n, keys)
    decreases |keys|
  {
    if keys != {} {
      var k :| k in keys && Windows(m, keys) == m[k].Promised() + Windows(m, keys - {k});
      SameWindows(m, n, keys - {k});
      WindowsRemove(n, keys, k);
    }
  }

  lemma {:induction false} WindowsRemove(m: map<nat, Controller>, keys: set<nat>, k: nat)
    requires keys <= m.Keys && k in keys
    ensures Windows(m, keys) == m[k].Promised() + Windows(m, keys - {k})
    decreases |keys|
  {
    var j :| j in keys && Windows(m, keys) == m[j].Promised() + Windows(m, keys - {j});
    if j != k {
      WindowsRemove(m, keys - {j}, k);
      WindowsRemove(m, keys - {k}, j);
      assert keys - {j} - {k} == keys - {k} - {j};
    }
  }

  /** The windows of the streams in the table never exceed the configured limit. */
  lemma ConnectionLimitHolds(b: Budget)
    requires Reachable(b)
    ensures b.table <= b.controllers.Keys && Windows(b.controllers, b.table) <= b.settings.Limit()
  {
    ReachableHolds(b);
    WindowsBounded(b.controllers, b.table, b.measured);
  }

  // ---------------------------------------------------------------- the streams behind the controllers

  /** The controller counts what the record of the stream `s` holds. */
  predicate Counts(c: Controller, s: S.Stream) {
    c == Controller(Flow(s.receiveWindow, s.maxReceiveWindow, s.sendWindow), |s.buffer|, None)
  }

  /** A new stream has a new controller. */
  lemma CreateCounts(b: Budget, k: nat, flag: S.Flag)
    requires Possible(b, Create(k, DEFAULT_CREDIT))
    ensures Counts(Next(b, Create(k, DEFAULT_CREDIT)).controllers[k], S.Fresh(flag))
  {
  }

  /** A data frame that fits the window is an arrival of its bytes. */
  lemma ArriveCounts(b: Budget, k: nat, s: S.Stream, f: F.Frame, remoteId: bool, full: bool)
    requires k in b.controllers && Counts(b.controllers[k], s) && s.status.InTable?
    requires f.header.tag.Data? && !f.Syn() && !f.Rst() && |f.body| <= s.receiveWindow
    ensures Possible(b, Arrive(k, |f.body|))
    ensures Counts(Next(b, Arrive(k, |f.body|)).controllers[k], S.Receive(s, f, remoteId, full).1)
  {
    SL.ReceiveBrings(s, f, remoteId, full);
  }

  /** A read is a consumption of what it hands out. */
  lemma ConsumeCounts(b: Budget, k: nat, s: S.Stream, id: u32, n: nat, up: bool)
    requires k in b.controllers && Counts(b.controllers[k], s) && S.HandleEnabled(s, S.Read(n))
    ensures Possible(b, Consume(k, n)) && Counts(Next(b, Consume(k, n)).controllers[k], S.Handle(s, id, S.Read(n), up))
  {
  }

  /** The stream's own step for the new maximum `max`, from the check on. */
  predicate Grants(s: S.Stream, id: u32, max: int, up: bool, t: S.Stream) {
    var checked := s.(position := S.UpdateChecked);
    S.HandleEnabled(checked, S.UpdateGrant(max)) && t == S.Handle(checked, id, S.UpdateGrant(max), up)
  }

  /** A stream whose windows are in order. */
  predicate InOrder(s: S.Stream) {
    && !s.status.Absent? && !s.dropped && 0 <= s.receiveWindow && 0 <= s.sendWindow <= U32_MAX
    && DEFAULT_CREDIT <= s.maxReceiveWindow <= U32_MAX && s.receiveWindow + |s.buffer| <= s.maxReceiveWindow
  }

  /** An update without tuning is due for both at once, and is the same for both. */
  lemma GrantCounts(b: Budget, k: nat, s: S.Stream, id: u32, up: bool)
    requires k in b.controllers && Counts(b.controllers[k], s) && InOrder(s)
    ensures Possible(b, Grant(k)) <==> S.UpdateIsDue(s)
    ensures Possible(b, Grant(k)) ==>
              exists t :: Grants(s, id, s.maxReceiveWindow, up, t) && Counts(Next(b, Grant(k)).controllers[k], t)
  {
    if Possible(b, Grant(k)) {
      var t := S.Handle(s.(position := S.UpdateChecked), id, S.UpdateGrant(s.maxReceiveWindow), up);
      assert Grants(s, id, s.maxReceiveWindow, up, t);
    }
  }

  /** A tuned update: reserving and assigning is one of the updates a stream may make. */
  lemma TuneCounts(b: Budget, k: nat, s: S.Stream, id: u32, up: bool)
    requires k in b.controllers && Counts(b.controllers[k], s) && InOrder(s)
    requires b.accumulated <= b.settings.Spare() && Possible(b, Reserve(k))
    ensures var b1 := Next(b, Reserve(k));
            && Possible(b1, Assign(k))
            && var b2 := Next(b1, Assign(k));
               exists t :: Grants(s, id, b2.controllers[k].flow.maxReceiveWindow, up, t) && Counts(b2.controllers[k], t)
  {
    var b1 := Next(b, Reserve(k));
    var b2 := Next(b1, Assign(k));
    TuningBounds(b.controllers[k].flow, b.accumulated, b.settings, true);
    var max := b2.controllers[k].flow.maxReceiveWindow;
    var t := S.Handle(s.(position := S.UpdateChecked), id, S.UpdateGrant(max), up);
    assert Grants(s, id, max, up, t);
  }
}
