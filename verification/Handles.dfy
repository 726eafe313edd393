/**
  `Stream`, the user's handle, in place: each poll method of the source, proved to be a short
  run of the steps of `Streams` that the pair of endpoints interleaves. The flow controller,
  the chunk buffer and the shared counter are the objects of their own modules.
*/
module Handles {
  import opened Basics
  import opened Frames
  import opened Streams
  import opened StreamLaws
  import opened Settings
  import FC = FlowControl
  import C = Chunks

  /** What `poll_ready` on the command channel says. */
  datatype Channel = Free | Full | Disconnected

  datatype Polled = Pending | WriteZero | Done(n: nat) | EndOfFile

  /** Several steps of one handle, if each of them is possible. */
  function Plays(s: Stream, id: u32, ops: seq<HandleOp>, up: bool): Option<Stream>
    decreases ops
  {
    if ops == [] then Some(s)
    else if !HandleEnabled(s, ops[0]) then None
    else Plays(Handle(s, id, ops[0], up), id, ops[1..], up)
  }

  /** Steps a connection with these settings allows: its split size, no growth before a round trip is measured. */
  predicate Allowed(ops: seq<HandleOp>, split: nat, measured: bool) {
    forall op :: op in ops ==> (op.WriteBegin? ==> op.split == split) && (op.UpdateGrant? && !measured ==> op.newMax == DEFAULT_CREDIT)
  }

  lemma {:induction false} PlaysAppend(s: Stream, id: u32, first: seq<HandleOp>, second: seq<HandleOp>, up: bool)
    requires Plays(s, id, first, up).Some?
    ensures Plays(s, id, first + second, up) == Plays(Plays(s, id, first, up).value, id, second, up)
    decreases first
  {
    if first == [] {
      assert first + second == second;
    } else {
      PlaysAppend(Handle(s, id, first[0], up), id, first[1..], second, up);
      assert (first + second)[1..] == first[1..] + second;
    }
  }

  lemma PlaysCons(s: Stream, id: u32, op: HandleOp, rest: seq<HandleOp>, up: bool)
    requires HandleEnabled(s, op)
    ensures Plays(s, id, [op] + rest, up) == Plays(Handle(s, id, op, up), id, rest, up)
  {
    assert ([op] + rest)[1..] == rest;
  }

  lemma PlaysTwo(s: Stream, id: u32, a: HandleOp, b: HandleOp, up: bool)
    requires HandleEnabled(s, a) && HandleEnabled(Handle(s, id, a, up), b)
    ensures Plays(s, id, [a, b], up) == Some(Handle(Handle(s, id, a, up), id, b, up))
  {
    var t := Handle(s, id, a, up);
    PlaysCons(s, id, a, [b], up);
    PlaysCons(t, id, b, [], up);
    assert [a, b] == [a] + [b] && [b] == [b] + [];
  }

  lemma PlaysThree(s: Stream, id: u32, a: HandleOp, b: HandleOp, c: HandleOp, up: bool)
    requires HandleEnabled(s, a) && HandleEnabled(Handle(s, id, a, up), b)
    requires HandleEnabled(Handle(Handle(s, id, a, up), id, b, up), c)
    ensures Plays(s, id, [a, b, c], up) == Some(Handle(Handle(Handle(s, id, a, up), id, b, up), id, c, up))
  {
    PlaysCons(s, id, a, [b, c], up);
    PlaysTwo(Handle(s, id, a, up), id, b, c, up);
    assert [a, b, c] == [a] + [b, c];
  }

  /** A write of `body` that goes through undisturbed. */
  function Written(s: Stream, id: u32, body: seq<byte>, up: bool): Stream
    requires |body| <= U32_MAX
  {
    var frame := WithFlag(DataFrame(id, body), s.flag);
    s.(sendWindow := s.sendWindow - |body|, wrote := s.wrote + body, flag := NoFlag,
       state := if s.flag.OweAck? then UpdateState(s.state, Open(true)) else s.state,
       queue := if up then s.queue + [frame] else s.queue)
  }

  lemma WritePlays(s: Stream, id: u32, buf: seq<byte>, split: nat, up: bool)
    requires s.position.Idle? && !s.dropped && !s.status.Absent? && s.state.CanWrite() && 0 < s.sendWindow <= U32_MAX
    ensures var k := WriteSize(s.sendWindow, |buf|, split);
            Plays(s, id, [WriteBegin(buf, split), WriteFlag, Send], up) == Some(Written(s, id, buf[..k], up))
  {
    PlaysThree(s, id, WriteBegin(buf, split), WriteFlag, Send, up);
  }

  /** A close that goes through undisturbed. */
  function ClosedBy(s: Stream, id: u32): Stream {
    s.(flag := if s.flag.OweAck? then NoFlag else s.flag, queue := s.queue + [CloseFrame(id, s.flag.OweAck?)],
       state := UpdateState(s.state, SendClosed))
  }

  lemma ClosePlays(s: Stream, id: u32)
    requires s.position.Idle? && !s.dropped && !s.status.Absent? && !s.state.Closed?
    ensures Plays(s, id, [CloseCheck, CloseSend, CloseMark], true) == Some(ClosedBy(s, id))
    ensures Plays(s, id, [CloseCheck, CloseSend], false) == Some(s.(flag := if s.flag.OweAck? then NoFlag else s.flag))
  {
    PlaysThree(s, id, CloseCheck, CloseSend, CloseMark, true);
    PlaysTwo(s, id, CloseCheck, CloseSend, false);
  }

  /** A window update that is due and goes through undisturbed. */
  function Granted(s: Stream, id: u32, newMax: int, up: bool): Stream
    requires 0 <= Due(s, newMax) <= U32_MAX
  {
    var frame := WithFlag(WindowUpdateFrame(id, Due(s, newMax)), s.flag);
    s.(maxReceiveWindow := newMax, receiveWindow := newMax - |s.buffer|, flag := NoFlag,
       queue := if up then s.queue + [frame] else s.queue)
  }

  /** A stream whose windows are in order and whose handle is between two calls. */
  predicate Resting(s: Stream) {
    && s.position.Idle? && !s.dropped && !s.status.Absent?
    && 0 <= s.receiveWindow && s.receiveWindow + |s.buffer| <= s.maxReceiveWindow <= U32_MAX
  }

  lemma UpdatePlays(s: Stream, id: u32, newMax: int, up: bool)
    requires Resting(s) && s.state.CanRead() && GrowthAllowed(s, newMax)
    ensures UpdateIsDue(s) ==> Plays(s, id, [UpdateCheck, UpdateGrant(newMax), Send], up) == Some(Granted(s, id, newMax, up))
    ensures !UpdateIsDue(s) ==> Plays(s, id, [UpdateCheck, UpdateGrant(newMax)], up) == Some(s)
  {
    if UpdateIsDue(s) {
      PlaysThree(s, id, UpdateCheck, UpdateGrant(newMax), Send, up);
    } else {
      PlaysTwo(s, id, UpdateCheck, UpdateGrant(newMax), up);
    }
  }

  lemma UpdateAllowed(newMax: int, split: nat, measured: bool)
    requires !measured ==> newMax == DEFAULT_CREDIT
    ensures Allowed([UpdateCheck, UpdateGrant(newMax)], split, measured)
    ensures Allowed([UpdateCheck, UpdateGrant(newMax), Send], split, measured)
  {
  }

  /** One more step after those that led from `s` to `t`. */
  lemma PlaysThen(s: Stream, id: u32, ops: seq<HandleOp>, t: Stream, op: HandleOp, up: bool)
    requires Plays(s, id, ops, up) == Some(t) && HandleEnabled(t, op)
    ensures Plays(s, id, ops + [op], up) == Some(Handle(t, id, op, up))
  {
    PlaysAppend(s, id, ops, [op], up);
    PlaysCons(t, id, op, [], up);
    assert [op] + [] == [op];
  }

  /** A stream that owes its peer credit, with room in its channel to say so. */
  predicate OwesCredit(s: Stream, channel: Channel) {
    s.state.CanRead() && channel.Free? && UpdateIsDue(s)
  }

  /** From `s` to `t`: the window is full again, its maximum grown as far as it may, and the credit this takes is queued. */
  predicate Replenished(s: Stream, t: Stream, id: u32, accumulated: int, settings: Settings, fast: bool, up: bool) {
    var credit := t.receiveWindow - s.receiveWindow;
    && t.receiveWindow + |s.buffer| == t.maxReceiveWindow && 0 <= credit <= U32_MAX && t.flag.NoFlag?
    && FC.GrownFully(s.maxReceiveWindow, t.maxReceiveWindow, accumulated, settings, fast)
    && t.queue == if up then s.queue + [WithFlag(WindowUpdateFrame(id, credit), s.flag)] else s.queue
  }

  /** Neither window nor queue changed. */
  predicate LeftAlone(s: Stream, t: Stream) {
    t.receiveWindow == s.receiveWindow && t.maxReceiveWindow == s.maxReceiveWindow && t.flag == s.flag && t.queue == s.queue
  }

  /** What a read does about credit before it looks at the buffer. */
  predicate Credits(s: Stream, t: Stream, due: bool, id: u32, accumulated: int, settings: Settings, fast: bool, up: bool) {
    if due then Replenished(s, t, id, accumulated, settings, fast, up) else LeftAlone(s, t)
  }

  lemma GrantedReplenishes(s: Stream, id: u32, newMax: int, accumulated: int, settings: Settings, fast: bool, up: bool)
    requires 0 <= Due(s, newMax) <= U32_MAX && FC.GrownFully(s.maxReceiveWindow, newMax, accumulated, settings, fast)
    ensures Replenished(s, Granted(s, id, newMax, up), id, accumulated, settings, fast, up)
  {
  }

  lemma CreditsThen(s: Stream, t: Stream, u: Stream, due: bool, id: u32, accumulated: int, settings: Settings, fast: bool, up: bool)
    requires Credits(s, t, due, id, accumulated, settings, fast, up) && LeftAlone(t, u)
    ensures Credits(s, u, due, id, accumulated, settings, fast, up)
  {
  }

  class StreamHandle {
    const id: u32
    const settings: Settings
    const flow: FC.FlowController
    const buffer: C.Chunks
    var flag: Flag
    var state: State
    var reader: bool
    var writer: bool
    var queue: seq<Frame>
    ghost var status: Status
    ghost var wrote: seq<byte>
    ghost var got: seq<byte>
    ghost var room: bool

    ghost function Value(): Stream
      reads this, flow, buffer
      requires buffer.Valid()
    {
      Stream(status, state, flow.sendWindow, flow.receiveWindow, flow.maxReceiveWindow, buffer.Contents(),
             reader, room, writer, flag, Idle, false, queue, wrote, got)
    }

    /** What the windows and the shared counter satisfy between two calls; see `Budget` and `Link`. */
    ghost predicate Valid()
      reads this, flow, flow.accumulated, buffer
    {
      && buffer.Valid() && !status.Absent?
      && flow.settings == settings && settings.Valid() && settings.maxNumStreams >= 1
      && FC.InRange(flow.Value())
      && flow.receiveWindow + |buffer.Contents()| <= flow.maxReceiveWindow
      && flow.maxReceiveWindow - DEFAULT_CREDIT <= flow.accumulated.value <= settings.Spare()
    }

    /** `new_inbound` and `new_outbound`. */
    constructor (id: u32, inbound: bool, sendWindow: u32, accumulated: FC.Counter, settings: Settings)
      requires settings.Valid() && settings.maxNumStreams >= 1 && 0 <= accumulated.value <= settings.Spare()
      ensures Valid() && fresh(flow) && fresh(buffer) && flow.accumulated == accumulated
      ensures this.id == id && this.settings == settings
      ensures Value() == Fresh(if inbound then OweAck else OweSyn).(status := InTable, sendWindow := sendWindow)
    {
      this.id, this.settings := id, settings;
      flow := new FC.FlowController(DEFAULT_CREDIT, sendWindow, accumulated, settings);
      buffer := new C.Chunks();
      flag := if inbound then OweAck else OweSyn;
      state, reader, writer, queue := Open(false), false, false, [];
      status, wrote, got, room := InTable, [], [], false;
    }

    /** `add_flag`: the first frame sent tells the peer what it has to know. */
    method AddFlag(f: Frame) returns (g: Frame)
      modifies this`flag
      ensures g == WithFlag(f, old(flag)) && flag == NoFlag
    {
      g := f;
      match flag {
        case NoFlag =>
        case OweSyn =>
          g := f.(header := f.header.(flags := f.header.flags.(syn := true)));
          flag := NoFlag;
        case OweAck =>
          g := f.(header := f.header.(flags := f.header.flags.(ack := true)));
          flag := NoFlag;
      }
    }

    /** `start_send`: the channel refuses once the connection is gone. */
    method StartSend(f: Frame, up: bool)
      modifies this`queue
      ensures queue == if up then old(queue) + [f] else old(queue)
    {
      if up {
        queue := queue + [f];
      }
    }

    /** `Shared::update_state`, which returns the state it replaces. */
    method UpdateStateTo(next: State) returns (previous: State)
      modifies this`state
      ensures state == UpdateState(old(state), next) && previous == old(state)
    {
      previous := state;
      match (state, next) {
        case (Closed, _) =>
        case (Open(_), _) => state := next;
        case (RecvClosed, Closed) => state := Streams.Closed;
        case (RecvClosed, SendClosed) => state := Streams.Closed;
        case (RecvClosed, _) =>
        case (SendClosed, Closed) => state := Streams.Closed;
        case (SendClosed, RecvClosed) => state := Streams.Closed;
        case (SendClosed, _) =>
      }
    }

    /** `poll_write`: as much of `buf` as credit and split size let through, as one frame. */
    method PollWrite(buf: seq<byte>, channel: Channel, up: bool) returns (r: Polled, ghost ops: seq<HandleOp>)
      requires Valid()
      modifies this, flow
      ensures Valid()
      ensures Plays(old(Value()), id, ops, up) == Some(Value())
      ensures Allowed(ops, settings.splitSendSize, false)
      ensures channel.Full? ==> r.Pending?
      ensures channel.Disconnected? ==> r.WriteZero?
      ensures channel.Free? ==>
                if !old(state).CanWrite() || (!up && old(flow.sendWindow) != 0) then r.WriteZero?
                else if old(flow.sendWindow) == 0 then r.Pending? && writer
                else r.Done? && r.n <= old(flow.sendWindow) && r.n <= |buf| && r.n <= settings.splitSendSize
                     && (r.n == old(flow.sendWindow) || r.n == |buf| || r.n == settings.splitSendSize)
      ensures r.Done? ==>
                && r.n <= |buf| && wrote == old(wrote) + buf[..r.n] && flow.sendWindow == old(flow.sendWindow) - r.n
                && r.n <= U32_MAX && queue == old(queue) + [WithFlag(DataFrame(id, buf[..r.n]), old(flag))] && flag.NoFlag?
                && state == if old(flag).OweAck? then UpdateState(old(state), Open(true)) else old(state)
    {
      ops := [];
      if channel.Full? {
        return Pending, [];
      }
      if channel.Disconnected? {
        return WriteZero, [];
      }
      if !state.CanWrite() {
        return WriteZero, [];
      }
      if flow.sendWindow == 0 {
        writer := true;
        return Pending, [WriteBegin(buf, settings.splitSendSize)];
      }
      WritePlays(Value(), id, buf, settings.splitSendSize, up);
      WriteSizeIsLargest(flow.sendWindow, |buf|, settings.splitSendSize);
      var body := TakeCredit(buf);
      QueueData(body, up);
      r := if up then Done(|body|) else WriteZero;
      ops := [WriteBegin(buf, settings.splitSendSize), WriteFlag, Send];
    }

    /** The locked part of a write that has credit. */
    method TakeCredit(buf: seq<byte>) returns (body: seq<byte>)
      requires Valid() && state.CanWrite() && flow.sendWindow > 0
      modifies this`wrote, flow
      ensures Valid() && body == buf[..WriteSize(old(flow.sendWindow), |buf|, settings.splitSendSize)]
      ensures Value() == old(Value()).(sendWindow := old(flow.sendWindow) - |body|, wrote := old(wrote) + body)
    {
      var k := Min(flow.sendWindow, |buf|);
      k := Min(k, settings.splitSendSize);
      var ok := flow.ConsumeSendWindow(k);
      assert ok;
      body := buf[..k];
      wrote := wrote + body;
    }

    /** The rest of a write, with the lock released. */
    method QueueData(body: seq<byte>, up: bool)
      requires Valid() && |body| <= U32_MAX
      modifies this
      ensures Valid()
      ensures Value() == old(Value()).(flag := NoFlag,
                           state := if old(flag).OweAck? then UpdateState(old(state), Open(true)) else old(state),
                           queue := if up then old(queue) + [WithFlag(DataFrame(id, body), old(flag))] else old(queue))
    {
      var frame := DataFrame(id, body);
      frame := AddFlag(frame);
      if frame.Ack() {
        var _ := UpdateStateTo(Open(true));
      }
      StartSend(frame, up);
    }

    /** `poll_close`: the FIN is queued once per call, and the state follows only if it could be. */
    method PollClose(channel: Channel, up: bool) returns (r: Polled, ghost ops: seq<HandleOp>)
      requires Valid()
      modifies this
      ensures Valid()
      ensures Plays(old(Value()), id, ops, up) == Some(Value())
      ensures Allowed(ops, settings.splitSendSize, false)
      ensures if old(state).Closed? then r == Done(0) && Value() == old(Value())
              else if channel.Full? then r.Pending? && Value() == old(Value())
              else if channel.Disconnected? || !up then r.WriteZero? && state == old(state) && queue == old(queue)
              else r == Done(0) && !state.CanWrite() && queue == old(queue) + [CloseFrame(id, old(flag).OweAck?)]
    {
      if state.Closed? {
        return Done(0), [];
      }
      if channel.Full? {
        return Pending, [];
      }
      if channel.Disconnected? {
        return WriteZero, [];
      }
      ClosePlays(Value(), id);
      QueueClose(up);
      if up {
        r, ops := Done(0), [CloseCheck, CloseSend, CloseMark];
      } else {
        r, ops := WriteZero, [CloseCheck, CloseSend];
      }
    }

    /** The FIN with the ACK that is owed, and the state if the FIN could be queued. */
    method QueueClose(up: bool)
      requires Valid()
      modifies this
      ensures Valid()
      ensures Value() == if up then ClosedBy(old(Value()), id)
                         else old(Value()).(flag := if old(flag).OweAck? then NoFlag else old(flag))
    {
      var ack := flag.OweAck?;
      if ack {
        flag := NoFlag;
      }
      StartSend(CloseFrame(id, ack), up);
      if up {
        var _ := UpdateStateTo(SendClosed);
      }
    }

    /**
      `send_window_update`. `measured`: a round trip was measured; `quick`: less than two of them
      passed since the last update. The growth of the maximum is what the controller works out.
    */
    method SendWindowUpdate(channel: Channel, up: bool, measured: bool, quick: bool) returns (r: Polled, ghost ops: seq<HandleOp>)
      requires Valid() && (!measured ==> flow.maxReceiveWindow == DEFAULT_CREDIT)
      modifies this`flag, this`queue, flow, flow.accumulated
      ensures Valid()
      ensures Plays(old(Value()), id, ops, up) == Some(Value())
      ensures Allowed(ops, settings.splitSendSize, measured)
      ensures Credits(old(Value()), Value(), OwesCredit(old(Value()), channel), id, flow.accumulated.value, settings, measured && quick, up)
      ensures var idle := !OwesCredit(old(Value()), channel);
              && (idle ==> Value() == old(Value()) && flow.accumulated.value == old(flow.accumulated.value))
              && r == if !old(state).CanRead() then Done(0)
                      else if channel.Full? then Polled.Pending
                      else if channel.Disconnected? || (!idle && !up) then WriteZero
                      else Done(0)
      ensures got == old(got) && reader == old(reader)
    {
      if !state.CanRead() {
        return Done(0), [];
      }
      if channel.Full? {
        return Polled.Pending, [];
      }
      if channel.Disconnected? {
        return WriteZero, [];
      }
      r, ops := GrantCredit(up, measured, quick);
    }

    /** A readable stream with room in its channel: what is due is granted and queued. */
    method GrantCredit(up: bool, measured: bool, quick: bool) returns (r: Polled, ghost ops: seq<HandleOp>)
      requires Valid() && state.CanRead() && (!measured ==> flow.maxReceiveWindow == DEFAULT_CREDIT)
      modifies this`flag, this`queue, flow, flow.accumulated
      ensures Valid()
      ensures Plays(old(Value()), id, ops, up) == Some(Value())
      ensures Allowed(ops, settings.splitSendSize, measured)
      ensures !UpdateIsDue(old(Value())) ==> Value() == old(Value()) && flow.accumulated.value == old(flow.accumulated.value)
      ensures UpdateIsDue(old(Value())) ==>
                Replenished(old(Value()), Value(), id, flow.accumulated.value, settings, measured && quick, up)
      ensures r == if UpdateIsDue(old(Value())) && !up then WriteZero else Done(0)
    {
      ghost var before := Value();
      ghost var newMax;
      var credit;
      credit, newMax := NextWindowUpdate(measured, quick);
      UpdatePlays(before, id, newMax, up);
      UpdateAllowed(newMax, settings.splitSendSize, measured);
      if credit.None? {
        return Done(0), [UpdateCheck, UpdateGrant(newMax)];
      }
      SendCredit(before, newMax, credit.value, up);
      GrantedReplenishes(before, id, newMax, flow.accumulated.value, settings, measured && quick, up);
      r := if up then Done(0) else WriteZero;
      ops := [UpdateCheck, UpdateGrant(newMax), Send];
    }

    /** The credit of an update from `before` goes out. */
    method SendCredit(ghost before: Stream, ghost newMax: int, credit: u32, up: bool)
      requires Valid() && 0 <= Due(before, newMax) <= U32_MAX && credit == Due(before, newMax)
      requires Value() == before.(maxReceiveWindow := newMax, receiveWindow := newMax - |before.buffer|)
      modifies this`flag, this`queue
      ensures Valid() && Value() == Granted(before, id, newMax, up)
    {
      QueueCredit(credit, up);
    }

    method QueueCredit(credit: u32, up: bool)
      requires Valid()
      modifies this`flag, this`queue
      ensures Valid()
      ensures Value() == old(Value()).(flag := NoFlag,
                           queue := if up then old(queue) + [WithFlag(WindowUpdateFrame(id, credit), old(flag))] else old(queue))
    {
      var frame := AddFlag(WindowUpdateFrame(id, credit));
      StartSend(frame, up);
    }

    /** `Shared::next_window_update`: the controller is told how much is buffered. */
    method NextWindowUpdate(measured: bool, quick: bool) returns (credit: Option<int>, ghost newMax: int)
      requires Valid() && (!measured ==> flow.maxReceiveWindow == DEFAULT_CREDIT)
      modifies flow, flow.accumulated
      ensures Valid() && GrowthAllowed(old(Value()), newMax) && 0 <= Due(old(Value()), newMax) <= U32_MAX
      ensures !(measured && quick) ==> newMax == old(flow.maxReceiveWindow)
      ensures credit.Some? ==> FC.GrownFully(old(flow.maxReceiveWindow), newMax, flow.accumulated.value, settings, measured && quick)
      ensures credit == if UpdateIsDue(old(Value())) then Some(Due(old(Value()), newMax)) else None
      ensures Value() == if credit.None? then old(Value())
                         else old(Value()).(maxReceiveWindow := newMax, receiveWindow := newMax - |old(buffer.Contents())|)
      ensures credit.None? ==> flow.accumulated.value == old(flow.accumulated.value)
    {
      var bufferLen := buffer.Len();
      FC.TuningBounds(flow.Value(), flow.accumulated.value, settings, measured && quick);
      FC.GrantFillsWindow(flow.Value(), flow.accumulated.value, settings, bufferLen, measured && quick);
      newMax := FC.Tuned(flow.Value(), flow.accumulated.value, settings, measured && quick);
      credit := flow.NextWindowUpdate(bufferLen, measured, quick);
    }

    /** A read fails only because the window update it owes finds the connection gone. */
    predicate Refused(closed: bool, channel: Channel, up: bool, s: Stream) {
      && (settings.readAfterClose || !closed) && s.state.CanRead()
      && (channel.Disconnected? || (channel.Free? && UpdateIsDue(s) && !up))
    }

    /**
      `poll_read`. `closed`: the connection no longer takes commands. A caller that offers no
      room is parked even though there may be something to read.
    */
    method PollRead(buf: array<byte>, closed: bool, channel: Channel, up: bool, measured: bool, quick: bool)
      returns (r: Polled, ghost ops: seq<HandleOp>)
      requires Valid() && (!measured ==> flow.maxReceiveWindow == DEFAULT_CREDIT)
      modifies this, flow, flow.accumulated, buffer, buf
      ensures Valid()
      ensures Plays(old(Value()), id, ops, up) == Some(Value())
      ensures Allowed(ops, settings.splitSendSize, measured)
      ensures !settings.readAfterClose && closed ==> r.EndOfFile? && Value() == old(Value())
      ensures r.WriteZero? <==> Refused(closed, channel, up, old(Value()))
      ensures Credits(old(Value()), Value(), (settings.readAfterClose || !closed) && OwesCredit(old(Value()), channel),
                      id, flow.accumulated.value, settings, measured && quick, up)
      ensures if r.Done? then 0 < r.n == Min(buf.Length, |old(buffer.Contents())|) else got == old(got) && buf[..] == old(buf[..])
      ensures r.Done? ==> && buf[..r.n] == old(buffer.Contents())[..r.n] && buf[r.n..] == old(buf[..])[r.n..]
                          && got == old(got) + buf[..r.n] && buffer.Contents() == old(buffer.Contents())[r.n..]
      ensures r.Done? <==> (settings.readAfterClose || !closed) && !r.WriteZero? && buf.Length > 0 && old(buffer.Contents()) != []
      ensures r.EndOfFile? ==> (!settings.readAfterClose && closed) || (!state.CanRead() && (buf.Length == 0 || buffer.Contents() == []))
      ensures r.Pending? ==> reader && state.CanRead() && (buf.Length == 0 || buffer.Contents() == []) && (room <==> buf.Length > 0)
    {
      if !settings.readAfterClose && closed {
        return EndOfFile, [];
      }
      r, ops := SendWindowUpdate(channel, up, measured, quick);
      if r.WriteZero? {
        return;
      }
      ghost var credited := Value();
      r, ops := ReadBuffered(buf, old(Value()), ops, up);
      CreditsThen(old(Value()), credited, Value(), OwesCredit(old(Value()), channel), id, flow.accumulated.value, settings, measured && quick, up);
    }

    /** The locked part of a read; `ops` led from `before` to where it starts. */
    method ReadBuffered(buf: array<byte>, ghost before: Stream, ghost ops: seq<HandleOp>, ghost up: bool)
      returns (r: Polled, ghost all: seq<HandleOp>)
      requires Valid() && Plays(before, id, ops, up) == Some(Value())
      modifies this, buffer, buf
      ensures Valid()
      ensures Plays(before, id, all, up) == Some(Value())
      ensures if r.Done? then 0 < r.n == Min(buf.Length, |old(buffer.Contents())|) else got == old(got) && buf[..] == old(buf[..])
      ensures r.Done? ==> && buf[..r.n] == old(buffer.Contents())[..r.n] && buf[r.n..] == old(buf[..])[r.n..]
                          && got == old(got) + buf[..r.n] && buffer.Contents() == old(buffer.Contents())[r.n..]
      ensures r.Done? <==> buf.Length > 0 && old(buffer.Contents()) != []
      ensures r.EndOfFile? ==> !state.CanRead() && (buf.Length == 0 || buffer.Contents() == [])
      ensures r.Pending? ==> reader && state.CanRead() && (buf.Length == 0 || buffer.Contents() == []) && (room <==> buf.Length > 0)
      ensures LeftAlone(old(Value()), Value())
      ensures all == ops + [if buf.Length == 0 then ReadNothing else Read(if r.Done? then r.n else 0)] && !r.WriteZero?
    {
      var n := buffer.PollRead(buf);
      ghost var op := if buf.Length == 0 then ReadNothing else Read(n);
      PlaysThen(before, id, ops, old(Value()), op, up);
      all := ops + [op];
      if n > 0 {
        got := got + buf[..n];
        return Done(n), all;
      }
      if !state.CanRead() {
        return EndOfFile, all;
      }
      reader := true;
      room := buf.Length > 0;
      r := Polled.Pending;
    }

    /** `poll_next`: the next packet, which is empty only if a read had used up its chunk exactly. */
    method PollNext(closed: bool, channel: Channel, up: bool, measured: bool, quick: bool)
      returns (r: Polled, packet: seq<byte>, ghost ops: seq<HandleOp>)
      requires Valid() && (!measured ==> flow.maxReceiveWindow == DEFAULT_CREDIT)
      modifies this, flow, flow.accumulated, buffer
      ensures Valid()
      ensures Plays(old(Value()), id, ops, up) == Some(Value())
      ensures Allowed(ops, settings.splitSendSize, measured)
      ensures !settings.readAfterClose && closed ==> r.EndOfFile? && Value() == old(Value())
      ensures r.WriteZero? <==> Refused(closed, channel, up, old(Value()))
      ensures Credits(old(Value()), Value(), (settings.readAfterClose || !closed) && OwesCredit(old(Value()), channel),
                      id, flow.accumulated.value, settings, measured && quick, up)
      ensures r.Done? <==> (settings.readAfterClose || !closed) && !r.WriteZero? && old(buffer.chunks) != []
      ensures r.Done? ==> packet == old(buffer.chunks)[0].Rest() && buffer.chunks == old(buffer.chunks)[1..]
      ensures got == old(got) + packet && old(buffer.Contents()) == packet + buffer.Contents()
      ensures r.Done? ==> r.n == |packet|
      ensures r.EndOfFile? ==> (!settings.readAfterClose && closed) || (!state.CanRead() && buffer.Contents() == [])
      ensures r.Pending? ==> reader && state.CanRead() && buffer.Contents() == []
    {
      if !settings.readAfterClose && closed {
        return EndOfFile, [], [];
      }
      r, packet, ops := NextOpen(channel, up, measured, quick);
    }

    /** The same once the caller may read at all. */
    method NextOpen(channel: Channel, up: bool, measured: bool, quick: bool)
      returns (r: Polled, packet: seq<byte>, ghost ops: seq<HandleOp>)
      requires Valid() && (!measured ==> flow.maxReceiveWindow == DEFAULT_CREDIT)
      modifies this, flow, flow.accumulated, buffer
      ensures Valid()
      ensures Plays(old(Value()), id, ops, up) == Some(Value())
      ensures Allowed(ops, settings.splitSendSize, measured)
      ensures r.WriteZero? <==> old(state).CanRead() && (channel.Disconnected? || (OwesCredit(old(Value()), channel) && !up))
      ensures Credits(old(Value()), Value(), OwesCredit(old(Value()), channel), id, flow.accumulated.value, settings, measured && quick, up)
      ensures r.Done? <==> !r.WriteZero? && old(buffer.chunks) != []
      ensures r.Done? ==> packet == old(buffer.chunks)[0].Rest() && buffer.chunks == old(buffer.chunks)[1..] && r.n == |packet|
      ensures got == old(got) + packet && old(buffer.Contents()) == packet + buffer.Contents()
      ensures r.EndOfFile? ==> !state.CanRead() && buffer.Contents() == []
      ensures r.Pending? ==> reader && state.CanRead() && buffer.Contents() == []
    {
      r, ops := SendWindowUpdate(channel, up, measured, quick);
      if r.WriteZero? {
        return r, [], ops;
      }
      ghost var credited := Value();
      r, packet, ops := NextPacket(old(Value()), ops, up);
      CreditsThen(old(Value()), credited, Value(), OwesCredit(old(Value()), channel), id, flow.accumulated.value, settings, measured && quick, up);
    }

    /** The locked part of `poll_next`. */
    method NextPacket(ghost before: Stream, ghost ops: seq<HandleOp>, ghost up: bool)
      returns (r: Polled, packet: seq<byte>, ghost all: seq<HandleOp>)
      requires Valid() && Plays(before, id, ops, up) == Some(Value())
      modifies this, buffer
      ensures Valid()
      ensures Plays(before, id, all, up) == Some(Value())
      ensures got == old(got) + packet && old(buffer.Contents()) == packet + buffer.Contents()
      ensures r.Done? <==> old(buffer.chunks) != []
      ensures r.Done? ==> packet == old(buffer.chunks)[0].Rest() && buffer.chunks == old(buffer.chunks)[1..]
      ensures r.Done? ==> r.n == |packet|
      ensures r.EndOfFile? ==> !state.CanRead() && buffer.Contents() == []
      ensures r.Pending? ==> reader && state.CanRead() && buffer.Contents() == []
      ensures LeftAlone(old(Value()), Value())
      ensures (all == ops || exists n :: all == ops + [Read(n)]) && !r.WriteZero?
    {
      r, packet := TakePacket();
      all := PacketPlays(before, ops, old(Value()), r, packet, Value(), up);
    }

    method TakePacket() returns (r: Polled, packet: seq<byte>)
      requires Valid()
      modifies this, buffer
      ensures Valid() && !r.WriteZero?
      ensures r.Done? <==> old(buffer.chunks) != []
      ensures r.Done? ==> packet == old(buffer.chunks)[0].Rest() && buffer.chunks == old(buffer.chunks)[1..]
      ensures old(buffer.Contents()) == packet + buffer.Contents()
      ensures if r.Done? then r.n == |packet|
                              && Value() == old(Value()).(buffer := buffer.Contents(), got := old(got) + packet)
              else packet == [] && buffer.Contents() == [] && (r.Pending? <==> state.CanRead())
                   && Value() == if state.CanRead() then old(Value()).(reader := true, room := true) else old(Value())
    {
      var taken := buffer.PollNext();
      if taken.Some? {
        packet := taken.value;
        got := got + packet;
        return Done(|packet|), packet;
      }
      packet := [];
      if !state.CanRead() {
        return EndOfFile, packet;
      }
      reader, room := true, true;
      r := Polled.Pending;
    }

    /** Taking a packet off the front is a read of its length, and no step if it is empty. */
    lemma PacketPlays(before: Stream, ops: seq<HandleOp>, s: Stream, r: Polled, packet: seq<byte>, t: Stream, up: bool)
      returns (all: seq<HandleOp>)
      requires Plays(before, id, ops, up) == Some(s)
      requires s.position.Idle? && !s.dropped && !s.status.Absent? && s.buffer == packet + t.buffer
      requires if r.Done? then t == s.(buffer := t.buffer, got := s.got + packet)
               else s.buffer == [] && t == if s.state.CanRead() then s.(reader := true, room := true) else s
      ensures Plays(before, id, all, up) == Some(t) && (all == ops || exists n :: all == ops + [Read(n)])
    {
      if r.Done? && packet == [] {
        assert s.got + packet == s.got && packet + t.buffer == t.buffer;
        return ops;
      }
      var n := if r.Done? then |packet| else 0;
      assert s.buffer[..|packet|] == packet && s.buffer[|packet|..] == t.buffer;
      PlaysThen(before, id, ops, s, Read(n), up);
      all := ops + [Read(n)];
    }
  }
}
