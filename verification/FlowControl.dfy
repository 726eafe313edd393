/** The flow controller of one stream and the counter all streams of a connection share. */
module FlowControl {
  import opened Basics
  import opened Settings

  datatype Flow = Flow(receiveWindow: int, maxReceiveWindow: int, sendWindow: int)

  /** `bytes.saturating_sub(buffer_len)` on 32 bits. */
  function Credit(f: Flow, bufferLen: nat): int {
    var received := f.maxReceiveWindow - f.receiveWindow;
    var buffered := Min(bufferLen, U32_MAX);
    if buffered <= received then received - buffered else 0
  }

  /** No update while half the window or more is still open to the sender. */
  predicate IsDue(f: Flow, bufferLen: nat) {
    Credit(f, bufferLen) >= f.maxReceiveWindow / 2
  }

  /** What the connection as a whole leaves this stream as its largest maximum. */
  function ConnectionLimit(f: Flow, accumulated: int, s: Settings): int {
    f.maxReceiveWindow + (s.Spare() - accumulated)
  }

  /** Twice the old maximum, unless 32 bits or the connection limit stop it earlier. */
  function NewMax(f: Flow, accumulated: int, s: Settings): int {
    Min(Min(2 * f.maxReceiveWindow, U32_MAX), Min(ConnectionLimit(f, accumulated, s), U32_MAX))
  }

  /** A stream's maximum after an update; `fast`: credit was used up within two round trips. */
  function Tuned(f: Flow, accumulated: int, s: Settings, fast: bool): int {
    if fast then NewMax(f, accumulated, s) else f.maxReceiveWindow
  }

  /** The controller, the counter and the credit to send after `next_window_update`. */
  function Update(f: Flow, accumulated: int, s: Settings, bufferLen: nat, fast: bool): (Flow, int, Option<int>) {
    if !IsDue(f, bufferLen) then (f, accumulated, None)
    else
      var max := Tuned(f, accumulated, s, fast);
      var f1 := f.(maxReceiveWindow := max);
      var credit := Credit(f1, bufferLen);
      (f1.(receiveWindow := f.receiveWindow + credit), accumulated + (max - f.maxReceiveWindow), Some(credit))
  }

  /** What `assert_invariants` asserts. */
  predicate Asserted(f: Flow, accumulated: int, s: Settings, bufferLen: nat, measured: bool) {
    && bufferLen <= f.maxReceiveWindow
    && f.receiveWindow <= f.maxReceiveWindow
    && f.maxReceiveWindow - DEFAULT_CREDIT <= s.Spare()
    && f.maxReceiveWindow - DEFAULT_CREDIT <= accumulated
    && (!measured ==> f.maxReceiveWindow == DEFAULT_CREDIT)
  }

  predicate InRange(f: Flow) {
    0 <= f.receiveWindow && DEFAULT_CREDIT <= f.maxReceiveWindow <= U32_MAX && 0 <= f.sendWindow <= U32_MAX
  }

  /** From `before` to `max`: doubled, unless 32 bits or the connection's budget is used up first; unchanged unless `fast`. */
  predicate GrownFully(before: int, max: int, accumulated: int, s: Settings, fast: bool) {
    if fast then before <= max && (max == Min(2 * before, U32_MAX) || (max < Min(2 * before, U32_MAX) && accumulated == s.Limit() - s.maxNumStreams * DEFAULT_CREDIT))
    else max == before
  }

  /** The maximum never shrinks, at most doubles, stays inside the connection's budget, and grows as far as these allow. */
  lemma TuningBounds(f: Flow, accumulated: int, s: Settings, fast: bool)
    requires InRange(f) && accumulated <= s.Spare()
    ensures var max := Tuned(f, accumulated, s, fast);
            && f.maxReceiveWindow <= max <= Min(2 * f.maxReceiveWindow, U32_MAX)
            && accumulated + (max - f.maxReceiveWindow) <= s.Spare()
            && GrownFully(f.maxReceiveWindow, max, accumulated + (max - f.maxReceiveWindow), s, fast)
  {
  }

  /**
    An update is granted exactly if at least half the window is used up and read, for any number of
    bytes buffered. It leaves the sender exactly what is not buffered, and what it adds to the
    maximum it takes from the budget.
  */
  lemma GrantFillsWindow(f: Flow, accumulated: int, s: Settings, bufferLen: nat, fast: bool)
    requires InRange(f) && accumulated <= s.Spare()
    ensures var (g, accumulated', credit) := Update(f, accumulated, s, bufferLen, fast);
            && (credit.Some? <==> 2 * (f.receiveWindow + bufferLen) <= f.maxReceiveWindow + f.maxReceiveWindow % 2)
            && (credit.None? ==> g == f && accumulated' == accumulated)
            && (credit.Some? ==>
                  && g.receiveWindow + bufferLen == g.maxReceiveWindow && credit.value == g.receiveWindow - f.receiveWindow
                  && g.sendWindow == f.sendWindow && accumulated' - accumulated == g.maxReceiveWindow - f.maxReceiveWindow
                  && GrownFully(f.maxReceiveWindow, g.maxReceiveWindow, accumulated', s, fast))
  {
    TuningBounds(f, accumulated, s, fast);
  }

  /** Every assertion that held before an update holds after it. */
  lemma UpdateKeepsAssertions(f: Flow, accumulated: int, s: Settings, bufferLen: nat, measured: bool, fast: bool)
    requires InRange(f) && accumulated <= s.Spare() && (fast ==> measured)
    requires Asserted(f, accumulated, s, bufferLen, measured)
    ensures var (g, accumulated', _) := Update(f, accumulated, s, bufferLen, fast);
            InRange(g) && accumulated' <= s.Spare() && Asserted(g, accumulated', s, bufferLen, measured)
  {
    TuningBounds(f, accumulated, s, fast);
  }

  /** The connection limit is computed in `usize`; it fits for every stream and every other stream's growth. */
  ghost predicate LimitAlwaysFits(s: Settings) {
    forall f: Flow, accumulated: int :: InRange(f) && f.maxReceiveWindow - DEFAULT_CREDIT <= accumulated <= s.Spare() ==>
      0 <= ConnectionLimit(f, accumulated, s) <= s.usizeMax
  }

  /**
    It does exactly if a stream is allowed at all or the limit leaves room for one more default
    window. With no stream allowed and no limit set the sum would overflow; no stream exists then.
  */
  lemma LimitFitsExactly(s: Settings)
    requires s.Valid()
    ensures LimitAlwaysFits(s) <==> s.maxNumStreams >= 1 || s.Limit() + DEFAULT_CREDIT <= s.usizeMax
  {
    if s.maxNumStreams == 0 && s.Limit() + DEFAULT_CREDIT > s.usizeMax {
      var f := Flow(DEFAULT_CREDIT, DEFAULT_CREDIT, 0);
      assert InRange(f) && ConnectionLimit(f, 0, s) > s.usizeMax;
    }
  }

  /** The failing case is not empty. */
  lemma LimitOverflowsWithoutStreams(usizeMax: nat)
    requires U32_MAX <= usizeMax
    ensures var s := Settings(None, 0, true, 0, usizeMax);
            s.Valid() && ConnectionLimit(Flow(DEFAULT_CREDIT, DEFAULT_CREDIT, 0), 0, s) > s.usizeMax
  {
  }

  /** `Connection::accumulated_max_stream_windows`, shared by all controllers of a connection. */
  class Counter {
    var value: int

    constructor ()
      ensures value == 0
    {
      value := 0;
    }
  }

  class FlowController {
    const settings: Settings
    const accumulated: Counter
    var receiveWindow: int
    var maxReceiveWindow: int
    var sendWindow: int

    function Value(): Flow
      reads this
    {
      Flow(receiveWindow, maxReceiveWindow, sendWindow)
    }

    constructor (receiveWindow: u32, sendWindow: u32, accumulated: Counter, settings: Settings)
      ensures Value() == Flow(receiveWindow, DEFAULT_CREDIT, sendWindow)
      ensures this.accumulated == accumulated && this.settings == settings
    {
      this.receiveWindow, this.sendWindow, this.maxReceiveWindow := receiveWindow, sendWindow, DEFAULT_CREDIT;
      this.accumulated, this.settings := accumulated, settings;
    }

    /**
      `measured`: a round trip was measured; `quick`: less than two of them since the last
      update. Each assertion in the body is an operation of the source that must not overflow.
    */
    method NextWindowUpdate(bufferLen: nat, measured: bool, quick: bool) returns (update: Option<int>)
      requires InRange(Value()) && settings.Valid() && settings.maxNumStreams >= 1
      requires Asserted(Value(), accumulated.value, settings, bufferLen, measured) && accumulated.value <= settings.Spare()
      modifies this, accumulated
      ensures (Value(), accumulated.value, update) == Update(old(Value()), old(accumulated.value), settings, bufferLen, measured && quick)
      ensures update.Some? <==> 2 * (old(receiveWindow) + bufferLen) <= old(maxReceiveWindow) + old(maxReceiveWindow) % 2
      ensures update.None? ==> Value() == old(Value()) && accumulated.value == old(accumulated.value)
      ensures update.Some? ==>
                && receiveWindow + bufferLen == maxReceiveWindow && update.value == receiveWindow - old(receiveWindow)
                && sendWindow == old(sendWindow)
                && accumulated.value - old(accumulated.value) == maxReceiveWindow - old(maxReceiveWindow)
                && GrownFully(old(maxReceiveWindow), maxReceiveWindow, accumulated.value, settings, measured && quick)
      ensures InRange(Value()) && accumulated.value <= settings.Spare()
      ensures Asserted(Value(), accumulated.value, settings, bufferLen, measured)
    {
      UpdateKeepsAssertions(Value(), accumulated.value, settings, bufferLen, measured, measured && quick);
      GrantFillsWindow(Value(), accumulated.value, settings, bufferLen, measured && quick);
      assert 0 <= maxReceiveWindow - receiveWindow;
      var nextWindowUpdate := Credit(Value(), bufferLen);
      if nextWindowUpdate < maxReceiveWindow / 2 {
        return None;
      }
      if measured && quick {
        Grow();
        assert 0 <= maxReceiveWindow - receiveWindow;
        nextWindowUpdate := Credit(Value(), bufferLen);
      }
      receiveWindow := receiveWindow + nextWindowUpdate;
      assert receiveWindow <= U32_MAX;
      update := Some(nextWindowUpdate);
    }

    /** The new maximum, and what it takes from the counter. */
    method Grow()
      requires InRange(Value()) && settings.Valid() && settings.maxNumStreams >= 1
      requires maxReceiveWindow - DEFAULT_CREDIT <= accumulated.value <= settings.Spare()
      modifies this`maxReceiveWindow, accumulated
      ensures maxReceiveWindow == NewMax(old(Value()), old(accumulated.value), settings)
      ensures accumulated.value == old(accumulated.value) + (maxReceiveWindow - old(maxReceiveWindow))
    {
      LimitFitsExactly(settings);
      assert 0 <= settings.Limit() - settings.maxNumStreams * DEFAULT_CREDIT;
      assert 0 <= settings.Spare() - accumulated.value;
      var connectionLimit := maxReceiveWindow + (settings.Spare() - accumulated.value);
      assert ConnectionLimit(Value(), accumulated.value, settings) == connectionLimit;
      assert connectionLimit <= settings.usizeMax;
      var newMax := Min(Min(2 * maxReceiveWindow, U32_MAX), Min(connectionLimit, U32_MAX));
      assert 0 <= newMax - maxReceiveWindow;
      accumulated.value := accumulated.value + (newMax - maxReceiveWindow);
      assert accumulated.value <= settings.usizeMax;
      maxReceiveWindow := newMax;
    }

    /** The two consuming operations and the increase fail instead of leaving 32 bits. */
    method ConsumeSendWindow(i: u32) returns (ok: bool)
      requires InRange(Value())
      modifies this
      ensures ok <==> i <= old(sendWindow)
      ensures Value() == if ok then old(Value()).(sendWindow := old(sendWindow) - i) else old(Value())
    {
      ok := i <= sendWindow;
      if ok { sendWindow := sendWindow - i; }
    }

    method IncreaseSendWindowBy(i: u32) returns (ok: bool)
      requires InRange(Value())
      modifies this
      ensures ok <==> old(sendWindow) + i <= U32_MAX
      ensures Value() == if ok then old(Value()).(sendWindow := old(sendWindow) + i) else old(Value())
    {
      ok := sendWindow + i <= U32_MAX;
      if ok { sendWindow := sendWindow + i; }
    }

    method ConsumeReceiveWindow(i: u32) returns (ok: bool)
      requires InRange(Value())
      modifies this
      ensures ok <==> i <= old(receiveWindow)
      ensures Value() == if ok then old(Value()).(receiveWindow := old(receiveWindow) - i) else old(Value())
    {
      ok := i <= receiveWindow;
      if ok { receiveWindow := receiveWindow - i; }
    }

    /** `Drop`: the controller returns what it had beyond the default. */
    method Drop()
      requires InRange(Value()) && maxReceiveWindow - DEFAULT_CREDIT <= accumulated.value
      modifies accumulated
      ensures accumulated.value == old(accumulated.value) - (maxReceiveWindow - DEFAULT_CREDIT) && 0 <= accumulated.value
    {
      accumulated.value := accumulated.value - (maxReceiveWindow - DEFAULT_CREDIT);
    }
  }
}
