/**
  The resumable frame reader and writer. The socket moves as many bytes per call as the
  environment likes, or none; a schedule of outcomes stands for its choices.
*/
module FrameIo {
  import opened Basics
  import opened Header
  import opened Frames
  import opened Codec
  import opened Schedules

  // ---------------------------------------------------------------- reading

  /** The reading half of a socket: the bytes still to come before its end. */
  class Source {
    var incoming: seq<byte>
    const schedule: seq<Event>
    var at: nat                // events used so far

    constructor (incoming: seq<byte>, schedule: seq<Event>)
      ensures this.incoming == incoming && this.schedule == schedule && at == 0
    {
      this.incoming, this.schedule, at := incoming, schedule, 0;
    }

    /** Fills part of `buf[lo..]`; zero bytes mean the end of the stream. */
    method PollRead(buf: array<byte>, lo: nat) returns (io: Io)
      requires lo < buf.Length
      modifies this, buf
      ensures buf[..lo] == old(buf[..lo])
      ensures UsedOne(schedule, old(at), at, io)
      ensures !io.Ready? ==> incoming == old(incoming)
      ensures io.Ready? ==> lo + io.n <= buf.Length && old(incoming) == buf[lo..lo + io.n] + incoming
      ensures io.Ready? ==> schedule[old(at)].Moves? && (io.n == 0 <==> old(incoming) == [])
    {
      if at >= |schedule| {
        return Pending;
      }
      var event := schedule[at];
      at := at + 1;
      match event {
        case Blocked => io := Pending;
        case Moves(more) =>
          var n := Min(Min(1 + more, buf.Length - lo), |incoming|);
          forall i | 0 <= i < n {
            buf[lo + i] := incoming[i];
          }
          incoming := incoming[n..];
          io := Ready(n);
        case _ => io := Failed;
      }
    }
  }

  datatype ReadError = SocketError | Eof | Undecodable(e: DecodeError) | TooLarge(len: nat)

  datatype Next = NotYet | Got(frame: Frame) | Done | Failure(error: ReadError)

  /**
    What a call says about the schedule it went through: every event brought a byte, or the
    schedule ran out after such events, or the last event is to blame. Nothing is withheld from
    the caller while the socket delivers.
  */
  predicate Accounted(io: Io, schedule: seq<Event>, i: nat, j: nat, had: nat, left: nat) {
    && i <= j && left <= had
    && match io
       case Ready(n) => n > 0 ==> Spent(schedule, i, j, 0, had - left)
       case Pending => Held(schedule, i, j, had - left)
       case Failed => i < j <= |schedule| && !schedule[j - 1].Moves? && !schedule[j - 1].Blocked?
  }

  /** The same for what a reader returns; an end of the byte string blames nobody. */
  function IoOf(next: Option<Next>): Io {
    if next == Some(NotYet) then Pending
    else if next == Some(Failure(SocketError)) then Failed
    else if next.Some? && Final(next.value) then Ready(0)
    else Ready(1)
  }

  lemma AccountedTwice(io: Io, schedule: seq<Event>, i: nat, j: nat, k: nat, n0: nat, n1: nat, n2: nat)
    requires Accounted(Ready(1), schedule, i, j, n0, n1) && Accounted(io, schedule, j, k, n1, n2)
    ensures Accounted(io, schedule, i, k, n0, n2)
  {
  }

  /** While a socket delivers, a call that had enough moves ahead of it makes progress or waits once. */
  lemma DeliveringGoesOn(io: Io, schedule: seq<Event>, i: nat, j: nat, had: nat, left: nat)
    requires Delivers(schedule) && Moving(schedule, i) > had && Accounted(io, schedule, i, j, had, left)
    ensures !io.Failed?
    ensures io.Pending? ==> Spent(schedule, i, j, 1, had - left) && Moving(schedule, j) > left
    ensures io.Ready? && io.n > 0 ==> Spent(schedule, i, j, 0, had - left) && Moving(schedule, j) > left
  {
    if io.Pending? {
      HeldOnce(schedule, i, j, had - left);
    }
  }

  datatype ReadState = Init | InHeader | InBody(header: Header)

  class Reader {
    const source: Source
    var state: ReadState
    var buffer: array<byte>
    var offset: nat
    ghost var raw: seq<byte>  // the bytes the header in `InBody` was decoded from

    ghost predicate Valid()
      reads this
    {
      && offset <= buffer.Length
      && (state.InHeader? ==> buffer.Length == HEADER_SIZE)
      && (state.InBody? ==> DataHeader(raw, state.header) && state.header.length == buffer.Length)
    }

    /** Bytes taken from the socket and not yet handed over in a frame. */
    ghost function Taken(): seq<byte>
      reads this, buffer
      requires Valid()
    {
      match state
      case Init => []
      case InHeader => buffer[..offset]
      case InBody(h) => raw + buffer[..offset]
    }

    /** Everything the reader has still to account for. */
    ghost function Stream(): seq<byte>
      reads this, buffer, source
      requires Valid()
    {
      Taken() + source.incoming
    }

    constructor (source: Source)
      ensures Valid() && fresh(buffer) && this.source == source
      ensures Stream() == source.incoming
    {
      this.source := source;
      state, offset, raw := Init, 0, [];
      buffer := new byte[0];
    }

    /** One read call into the unfilled part of the buffer. */
    method Fill() returns (io: Io)
      requires Valid() && !state.Init? && offset < buffer.Length
      modifies this`offset, buffer, source
      ensures Valid() && Stream() == old(Stream())
      ensures Remaining(source.schedule, source.at) < Remaining(source.schedule, old(source.at)) || io.Pending?
      ensures Accounted(io, source.schedule, old(source.at), source.at, |old(source.incoming)|, |source.incoming|)
      ensures io.Ready? ==> offset == old(offset) + io.n && (io.n == 0 ==> source.incoming == [])
      ensures io.Ready? && io.n == 0 ==> Taken() == old(Taken())
    {
      ghost var before := buffer[..offset];
      io := source.PollRead(buffer, offset);
      if io.Ready? {
        ghost var arrived := buffer[offset..offset + io.n];
        assert buffer[..offset + io.n] == before + arrived;
        offset := offset + io.n;
        if state.InBody? {
          Regroup(raw, before, arrived);
        }
        assert Taken() == old(Taken()) + arrived;
        Regroup(old(Taken()), arrived, source.incoming);
      }
    }

    /** One round in `ReadState::Header`. */
    method PollHeader() returns (next: Option<Next>)
      requires Valid() && state.InHeader?
      modifies this, buffer, source
      ensures Valid() && (buffer == old(buffer) || fresh(buffer))
      ensures next.None? ==> Stream() == old(Stream()) && (state.InBody? || state.InHeader?)
      ensures next.None? && state.InHeader? ==>
                Remaining(source.schedule, source.at) < Remaining(source.schedule, old(source.at))
      ensures next.Some? ==> Reported(next.value, old(Stream()), Stream())
      ensures Accounted(IoOf(next), source.schedule, old(source.at), source.at, |old(source.incoming)|, |source.incoming|)
    {
      if offset == HEADER_SIZE {
        next := HeaderComplete();
      } else {
        var io := Fill();
        match io {
          case Pending => next := Some(NotYet);
          case Failed => next := Some(Failure(SocketError));
          case Ready(n) =>
            if n != 0 { return None; }
            assert Stream() == Taken();
            HeaderMissing(Taken());
            next := Some(if offset == 0 then Done else Failure(Eof));
        }
      }
    }

    /** The header is complete: it ends the frame, starts a body, or is refused. */
    method HeaderComplete() returns (next: Option<Next>)
      requires Valid() && state.InHeader? && offset == HEADER_SIZE
      modifies this
      ensures Valid() && (buffer == old(buffer) || fresh(buffer))
      ensures next.None? ==> Stream() == old(Stream()) && state.InBody?
      ensures next.Some? ==> next.value.Got? || Final(next.value)
      ensures next.Some? ==> Reported(next.value, old(Stream()), Stream())
    {
      raw := buffer[..];
      var decoded := Decode(buffer[..]);
      ParseHeader(raw, source.incoming);
      assert Stream() == raw + source.incoming;
      if decoded.Err? {
        next := Some(Failure(Undecodable(decoded.error)));
      } else if !decoded.header.tag.Data? {
        state := Init;
        next := Some(Got(Frame(decoded.header, [])));
        assert Stream() == source.incoming;
      } else if decoded.header.length > MAX_FRAME_BODY_LEN {
        next := Some(Failure(TooLarge(decoded.header.length)));
      } else {
        state, offset := InBody(decoded.header), 0;
        buffer := new byte[decoded.header.length];
        next := None;
      }
    }

    /** One round in `ReadState::Body`. */
    method PollBody() returns (next: Option<Next>)
      requires Valid() && state.InBody?
      modifies this, buffer, source
      ensures Valid() && buffer == old(buffer)
      ensures next.None? ==> Stream() == old(Stream()) && state.InBody?
      ensures next.None? ==> Remaining(source.schedule, source.at) < Remaining(source.schedule, old(source.at))
      ensures next.Some? ==> Reported(next.value, old(Stream()), Stream())
      ensures Accounted(IoOf(next), source.schedule, old(source.at), source.at, |old(source.incoming)|, |source.incoming|)
    {
      if offset == state.header.length {
        next := FrameComplete();
        return;
      }
      var io := Fill();
      match io {
        case Pending => next := Some(NotYet);
        case Failed => next := Some(Failure(SocketError));
        case Ready(n) =>
          if n != 0 { return None; }
          assert Stream() == raw + buffer[..offset];
          BodyMissing(raw, state.header, buffer[..offset]);
          next := Some(Failure(Eof));
      }
    }

    /** The body is complete. */
    method FrameComplete() returns (next: Option<Next>)
      requires Valid() && state.InBody? && offset == state.header.length
      modifies this`state
      ensures Valid() && next.Some? && next.value.Got?
      ensures Reported(next.value, old(Stream()), Stream())
    {
      var header := state.header;
      BodyComplete(raw, header, buffer[..], source.incoming);
      assert Stream() == raw + buffer[..] + source.incoming;
      state := Init;
      assert Stream() == source.incoming;
      next := Some(Got(Frame(header, buffer[..])));
    }

    /** One round of the loop in `poll_next`. */
    method Round() returns (next: Option<Next>)
      requires Valid()
      modifies this, buffer, source
      ensures Valid() && (buffer == old(buffer) || fresh(buffer))
      ensures next.None? ==> Stream() == old(Stream())
      ensures next.None? ==> Remaining(source.schedule, source.at) < Remaining(source.schedule, old(source.at)) || Stage() < old(Stage())
      ensures next.Some? ==> Reported(next.value, old(Stream()), Stream())
      ensures Accounted(IoOf(next), source.schedule, old(source.at), source.at, |old(source.incoming)|, |source.incoming|)
    {
      match state {
        case Init =>
          state, offset := InHeader, 0;
          buffer := new byte[HEADER_SIZE];
          next := None;
        case InHeader => next := PollHeader();
        case InBody(_) => next := PollBody();
      }
    }

    /** Rounds that need no socket call before the next one that does. */
    ghost function Stage(): nat
      reads this
    {
      match state case Init => 2 case InHeader => 1 case InBody(_) => 0
    }

    /** `Io::poll_next`: one frame, the end, an error, or nothing yet. */
    method PollNext() returns (next: Next)
      requires Valid()
      modifies this, buffer, source
      ensures Valid() && (buffer == old(buffer) || fresh(buffer))
      ensures Accounted(IoOf(Some(next)), source.schedule, old(source.at), source.at, |old(source.incoming)|, |source.incoming|)
      ensures Reported(next, old(Stream()), Stream())
    {
      while true
        invariant Valid() && (buffer == old(buffer) || fresh(buffer))
        invariant Accounted(Ready(1), source.schedule, old(source.at), source.at, |old(source.incoming)|, |source.incoming|)
        invariant Stream() == old(Stream())
        decreases Remaining(source.schedule, source.at), Stage()
      {
        ghost var at, had := source.at, |source.incoming|;
        var result := Round();
        AccountedTwice(IoOf(result), source.schedule, old(source.at), at, source.at, |old(source.incoming)|, had, |source.incoming|);
        if result.Some? {
          return result.value;
        }
      }
    }
  }

  /** What a result says about the bytes the reader had before and has after. */
  ghost predicate Reported(next: Next, before: seq<byte>, after: seq<byte>) {
    match next
    case NotYet => after == before
    case Got(frame) => Parse(before) == Before(frame, Parse(after))
    case Done => Parse(before) == Parsed([], CleanEnd)
    case Failure(e) =>
      match e
      case SocketError => after == before
      case Eof => Parse(before) == Parsed([], UnexpectedEof)
      case Undecodable(d) => Parse(before) == Parsed([], BadHeader(d))
      case TooLarge(n) => Parse(before) == Parsed([], End.FrameTooLarge(n))
  }

  /** How a finished read ends the byte string it came from. */
  predicate Ends(last: Next, end: End) {
    match last
    case Done => end == CleanEnd
    case Failure(Eof) => end == UnexpectedEof
    case Failure(Undecodable(e)) => end == BadHeader(e)
    case Failure(TooLarge(n)) => end == End.FrameTooLarge(n)
    case _ => false
  }

  predicate Final(next: Next) {
    next.Done? || (next.Failure? && !next.error.SocketError?)
  }

  /**
    How far a run of polls has come after `i` of them: what was handed over and what the rest of
    the bytes holds are the whole, and while the socket delivers each poll gave a frame or waited.
  */
  predicate Going(len: nat, whole: Parsed, schedule: seq<Event>, i: nat, frames: seq<Frame>, rest: Parsed, at: nat, left: nat) {
    && whole == Parsed(frames + rest.frames, rest.end) && left <= len
    && (Delivers(schedule) && Moving(schedule, 0) > len ==> Paced(schedule, at, i, |frames|, len - left))
  }

  lemma GoesOn(len: nat, whole: Parsed, schedule: seq<Event>, i: nat, frames: seq<Frame>, rest: Parsed, at: nat, left: nat,
               next: Next, rest2: Parsed, at2: nat, left2: nat)
    requires Going(len, whole, schedule, i, frames, rest, at, left) && !Final(next)
    requires Accounted(IoOf(Some(next)), schedule, at, at2, left, left2)
    requires rest == if next.Got? then Before(next.frame, rest2) else rest2
    ensures Going(len, whole, schedule, i + 1, if next.Got? then frames + [next.frame] else frames, rest2, at2, left2)
  {
    if next.Got? {
      FramesSoFar(frames, next.frame, rest2);
    }
    if Delivers(schedule) && Moving(schedule, 0) > len {
      DeliveringGoesOn(IoOf(Some(next)), schedule, at, at2, left, left2);
      PacedOn(schedule, at, at2, if next.Got? then 0 else 1, i, |frames|, len - left, left - left2);
    }
  }

  /** A run that has not come to its end was not polled often enough. */
  lemma GoingShort(len: nat, whole: Parsed, schedule: seq<Event>, i: nat, frames: seq<Frame>, rest: Parsed, at: nat, left: nat)
    requires Going(len, whole, schedule, i, frames, rest, at, left)
    ensures frames <= whole.frames && !Suffices(schedule, len, |whole.frames|, i)
  {
  }

  /**
    Any number of polls against any schedule: the frames handed over are those the whole byte
    string starts with, and the end reported is its end. A socket that delivers, however often
    it blocks in between, is read to that end if it is polled often enough.
  */
  method ReadAll(incoming: seq<byte>, schedule: seq<Event>, polls: nat) returns (frames: seq<Frame>, last: Next)
    ensures frames <= Parse(incoming).frames
    ensures Final(last) ==> frames == Parse(incoming).frames && Ends(last, Parse(incoming).end)
    ensures Suffices(schedule, |incoming|, |Parse(incoming).frames|, polls) ==> Final(last)
  {
    var source := new Source(incoming, schedule);
    var reader := new Reader(source);
    frames, last := [], NotYet;
    ghost var whole := Parse(incoming);
    ghost var rest := whole;
    assert [] + rest.frames == rest.frames;
    for i := 0 to polls
      invariant reader.Valid() && fresh(reader) && fresh(reader.buffer) && fresh(source)
      invariant source.schedule == schedule && reader.source == source && !Final(last)
      invariant rest == Parse(reader.Stream())
      invariant Going(|incoming|, whole, schedule, i, frames, rest, source.at, |source.incoming|)
    {
      ghost var at, left := source.at, |source.incoming|;
      last := reader.PollNext();
      if Final(last) {
        return;
      }
      GoesOn(|incoming|, whole, schedule, i, frames, rest, at, left, last, Parse(reader.Stream()), source.at, |source.incoming|);
      rest := Parse(reader.Stream());
      frames := if last.Got? then frames + [last.frame] else frames;
    }
    GoingShort(|incoming|, whole, schedule, polls, frames, rest, source.at, |source.incoming|);
  }

  lemma FramesSoFar(frames: seq<Frame>, f: Frame, rest: Parsed)
    ensures frames + Before(f, rest).frames == frames + [f] + rest.frames && Before(f, rest).end == rest.end
  {
  }

  // ---------------------------------------------------------------- writing

  /** The writing half of a socket. */
  class Sink {
    var written: seq<byte>
    const schedule: seq<Event>
    var at: nat

    constructor (schedule: seq<Event>)
      ensures written == [] && this.schedule == schedule && at == 0
    {
      written, this.schedule, at := [], schedule, 0;
    }

    /**
      Accepts a prefix of `buf` and says how long it was. A faulty socket may name more bytes
      than it was given; it has then taken them all.
    */
    method PollWrite(buf: seq<byte>) returns (io: Io)
      requires buf != []
      modifies this
      ensures UsedOne(schedule, old(at), at, io)
      ensures !io.Ready? ==> written == old(written)
      ensures io.Ready? ==> written == old(written) + buf[..Min(io.n, |buf|)]
      ensures io.Failed? ==> schedule[old(at)].Broken?
      ensures io.Ready? ==>
                match schedule[old(at)]
                case Moves(_) => 0 < io.n <= |buf|
                case TakesNone => io.n == 0
                case Overclaims => io.n > |buf|
                case _ => false
    {
      if at >= |schedule| {
        return Pending;
      }
      var event := schedule[at];
      at := at + 1;
      match event {
        case Blocked => io := Pending;
        case Broken => io := Failed;
        case Moves(more) =>
          var n := Min(1 + more, |buf|);
          written := written + buf[..n];
          io := Ready(n);
        case TakesNone =>
          assert written + buf[..0] == written;
          io := Ready(0);
        case Overclaims =>
          written := written + buf;
          assert buf[..|buf|] == buf;
          io := Ready(|buf| + 1);
      }
    }
  }

  datatype WriteState =
    | Idle
    | Head(header: seq<byte>, buffer: seq<byte>, offset: nat)
    | Body(buffer: seq<byte>, offset: nat)
    | Poisoned

  datatype Readiness = Blocking | Clear | WriteZero | WriteFailed | Overrun | Unusable

  /** What a result says about the schedule when `wrote` bytes went out: who is to blame for an unfinished write. */
  predicate Blamed(r: Readiness, schedule: seq<Event>, i: nat, j: nat, wrote: int) {
    && i <= j
    && match r
       case Clear => Spent(schedule, i, j, 0, wrote)
       case Blocking => Held(schedule, i, j, wrote)
       case WriteZero => LastUsed(schedule, i, j, TakesNone)
       case WriteFailed => LastUsed(schedule, i, j, Broken)
       case Overrun => LastUsed(schedule, i, j, Overclaims)
       case Unusable => j == i
  }

  lemma BlamedTwice(r: Readiness, schedule: seq<Event>, i: nat, j: nat, k: nat, n0: int, n1: int)
    requires Blamed(Clear, schedule, i, j, n0) && Blamed(r, schedule, j, k, n1) && !r.Unusable?
    ensures Blamed(r, schedule, i, k, n0 + n1)
  {
  }

  /** Bytes written and bytes held never change as a whole; a socket that claims too much took what there was. */
  predicate Kept(all: seq<byte>, written: seq<byte>, unsent: seq<byte>, poisoned: bool) {
    if poisoned then written <= all else written + unsent == all
  }

  class Writer {
    const sink: Sink
    var state: WriteState

    predicate Valid()
      reads this
    {
      match state
      case Head(header, _, offset) => |header| == HEADER_SIZE && offset < HEADER_SIZE
      case Body(buffer, offset) => offset < |buffer|
      case _ => true
    }

    /** Bytes of the current frame the socket has not taken. */
    function Unsent(): seq<byte>
      reads this
      requires Valid()
    {
      match state
      case Head(header, buffer, offset) => header[offset..] + buffer
      case Body(buffer, offset) => buffer[offset..]
      case _ => []
    }

    constructor (sink: Sink)
      ensures Valid() && state.Idle? && this.sink == sink
    {
      this.sink, state := sink, Idle;
    }

    /** `start_send`: the sink contract has the caller wait for `PollReady` first. */
    method StartSend(f: Frame)
      requires Valid() && state.Idle?
      modifies this
      ensures Valid() && Unsent() == EncodeFrame(f)
    {
      state := Head(Encode(f.header), f.body, 0);
    }

    /** The part of the frame being written. */
    function Part(): seq<byte>
      reads this
      requires state.Head? || state.Body?
    {
      if state.Head? then state.header else state.buffer
    }

    /** The socket took `n` more bytes of the current part. */
    method Advance(n: nat)
      requires Valid() && (state.Head? || state.Body?) && 0 < n <= |Part()| - state.offset
      modifies this
      ensures Valid() && !state.Poisoned? && Unsent() == old(Unsent())[n..]
    {
      if state.Head? {
        DropMore(state.header, state.offset, n, state.buffer);
      } else {
        DropMore(state.buffer, state.offset, n, []);
      }
      if state.offset + n < |Part()| {
        state := state.(offset := state.offset + n);
      } else if state.Head? && state.buffer != [] {
        state := Body(state.buffer, 0);
      } else {
        state := Idle;
      }
    }

    /** One write call of `poll_ready`; `Clear` if the loop goes on. */
    method WriteSome() returns (r: Readiness)
      requires Valid() && (state.Head? || state.Body?)
      modifies this, sink
      ensures Valid() && !r.Unusable? && (state.Idle? ==> r.Clear?) && (state.Poisoned? <==> r.Overrun?)
      ensures Blamed(r, sink.schedule, old(sink.at), sink.at, |sink.written| - |old(sink.written)|)
      ensures Kept(old(sink.written + Unsent()), sink.written, Unsent(), state.Poisoned?)
      ensures |old(sink.written)| <= |sink.written|
      ensures r.Clear? ==> old(sink.at) < sink.at <= |sink.schedule|
    {
      ghost var whole, before := Unsent(), sink.written;
      var rest := Part()[state.offset..];
      assert rest <= whole;
      var io := sink.PollWrite(rest);
      match io {
        case Pending => r := Blocking;
        case Failed => r := WriteFailed;
        case Ready(n) =>
          TakenPart(before, rest, whole, Min(n, |rest|));
          if n == 0 {
            assert sink.written == before;
            r := WriteZero;
          } else if n > |rest| {
            state := Poisoned;
            r := Overrun;
          } else {
            Advance(n);
            r := Clear;
          }
      }
    }

    /** `poll_ready`: writes until the frame is out, the socket blocks, or it misbehaves. */
    method PollReady() returns (r: Readiness)
      requires Valid()
      modifies this, sink
      ensures Valid()
      ensures Blamed(r, sink.schedule, old(sink.at), sink.at, |sink.written| - |old(sink.written)|)
      ensures Kept(old(sink.written + Unsent()), sink.written, Unsent(), state.Poisoned?)
      ensures |old(sink.written)| <= |sink.written|
      ensures r.Clear? <==> state.Idle?
      ensures r.Overrun? || r.Unusable? <==> state.Poisoned?
      ensures r.Unusable? <==> old(state).Poisoned?
      ensures r.Unusable? ==> sink.written == old(sink.written)
    {
      if state.Poisoned? {
        r := Unusable;
      } else {
        r := WriteOut();
      }
      assert old(sink.written) <= old(sink.written + Unsent());
    }

    /** The loop of `poll_ready` on a writer that can be used. */
    method WriteOut() returns (r: Readiness)
      requires Valid() && !state.Poisoned?
      modifies this, sink
      ensures Valid() && !r.Unusable?
      ensures Blamed(r, sink.schedule, old(sink.at), sink.at, |sink.written| - |old(sink.written)|)
      ensures Kept(old(sink.written + Unsent()), sink.written, Unsent(), state.Poisoned?)
      ensures |old(sink.written)| <= |sink.written|
      ensures (r.Clear? <==> state.Idle?) && (r.Overrun? <==> state.Poisoned?)
    {
      r := Clear;
      ghost var all := sink.written + Unsent();
      while r.Clear? && !state.Idle?
        invariant Valid() && (r.Overrun? <==> state.Poisoned?) && !r.Unusable? && (state.Idle? ==> r.Clear?)
        invariant Kept(all, sink.written, Unsent(), state.Poisoned?) && |old(sink.written)| <= |sink.written|
        invariant Blamed(r, sink.schedule, old(sink.at), sink.at, |sink.written| - |old(sink.written)|)
        decreases if r.Clear? then 1 else 0, Remaining(sink.schedule, sink.at)
      {
        ghost var at, wrote := sink.at, |sink.written|;
        r := WriteSome();
        BlamedTwice(r, sink.schedule, old(sink.at), at, sink.at, wrote - |old(sink.written)|, |sink.written| - wrote);
      }
    }
  }

  lemma DropMore(s: seq<byte>, offset: nat, n: nat, rest: seq<byte>)
    requires offset + n <= |s|
    ensures (s[offset..] + rest)[n..] == s[offset + n..] + rest && s[offset..][n..] == s[offset + n..]
    ensures offset + n == |s| ==> s[offset + n..] == [] && s[offset + n..] + rest == rest
  {
  }

  lemma TakenPart(before: seq<byte>, rest: seq<byte>, whole: seq<byte>, n: nat)
    requires rest <= whole && n <= |rest|
    ensures before + rest[..n] + whole[n..] == before + whole && before + rest[..n] <= before + whole
  {
    assert rest[..n] == whole[..n];
  }

  /** While a socket delivers, a write that had enough moves ahead of it ends or waits once. */
  lemma DeliveringTakes(r: Readiness, schedule: seq<Event>, i: nat, j: nat, wrote: nat)
    requires Delivers(schedule) && Moving(schedule, i) > wrote && Blamed(r, schedule, i, j, wrote) && !r.Unusable?
    ensures (r.Clear? || r.Blocking?) && Spent(schedule, i, j, if r.Blocking? then 1 else 0, wrote)
  {
    if r.Blocking? {
      HeldOnce(schedule, i, j, wrote);
    }
  }

  /** After `i` polls of a writer that puts `total` bytes out: each was clear for a frame or waited. */
  predicate Pumping(total: nat, schedule: seq<Event>, i: nat, started: nat, at: nat, wrote: nat) {
    Delivers(schedule) && Moving(schedule, 0) > total ==> Paced(schedule, at, i, started, wrote)
  }

  lemma PumpsOn(total: nat, schedule: seq<Event>, i: nat, started: nat, at: nat, wrote: nat, r: Readiness, at2: nat, wrote2: nat)
    requires Pumping(total, schedule, i, started, at, wrote) && wrote <= wrote2 <= total
    requires Blamed(r, schedule, at, at2, wrote2 - wrote) && !r.Unusable?
    ensures Pumping(total, schedule, i + 1, if r.Clear? then started + 1 else started, at2, wrote2)
    ensures Delivers(schedule) && Moving(schedule, 0) > total ==> r.Clear? || r.Blocking?
  {
    if Delivers(schedule) && Moving(schedule, 0) > total {
      DeliveringTakes(r, schedule, at, at2, wrote2 - wrote);
      PacedOn(schedule, at, at2, if r.Clear? then 0 else 1, i, started, wrote, wrote2 - wrote);
    }
  }

  /** One poll of the writer, and the next frame if it is clear; `done`: there was none left. */
  method WriteNext(writer: Writer, frames: seq<Frame>, started: nat) returns (r: Readiness, done: bool)
    requires writer.Valid() && !writer.state.Poisoned? && started <= |frames|
    requires writer.sink.written + writer.Unsent() == EncodeAll(frames[..started])
    modifies writer, writer.sink
    ensures writer.Valid() && !r.Unusable? && (r.Overrun? <==> writer.state.Poisoned?)
    ensures Blamed(r, writer.sink.schedule, old(writer.sink.at), writer.sink.at, |writer.sink.written| - |old(writer.sink.written)|)
    ensures |old(writer.sink.written)| <= |writer.sink.written| && writer.sink.written <= EncodeAll(frames[..started])
    ensures done <==> r.Clear? && started == |frames|
    ensures done ==> writer.sink.written == EncodeAll(frames)
    ensures r.Blocking? ==> writer.sink.written + writer.Unsent() == EncodeAll(frames[..started])
    ensures r.Clear? && !done ==> writer.sink.written + writer.Unsent() == EncodeAll(frames[..started + 1])
  {
    r := writer.PollReady();
    done := r.Clear? && started == |frames|;
    assert frames[..|frames|] == frames;
    if r.Clear? {
      assert writer.sink.written + [] == writer.sink.written;
      if !done {
        NextStarted(frames, started, writer.sink.written);
        writer.StartSend(frames[started]);
      }
    }
  }

  /**
    Sending frames one after the other as the connection does: poll, hand over a frame when the
    writer is clear, poll again when it had to wait. Against any schedule the bytes on the wire
    are a prefix of the encodings in order; against a socket that delivers, however often it
    blocks in the middle of a frame, all frames go out if the writer is polled often enough.
  */
  method WriteAll(frames: seq<Frame>, schedule: seq<Event>, polls: nat) returns (written: seq<byte>, done: bool)
    ensures written <= EncodeAll(frames)
    ensures done ==> written == EncodeAll(frames)
    ensures Suffices(schedule, |EncodeAll(frames)|, |frames|, polls) ==> done
  {
    var sink := new Sink(schedule);
    var writer := new Writer(sink);
    ghost var all := EncodeAll(frames);
    var started := 0;
    for i := 0 to polls
      invariant writer.Valid() && fresh(writer) && fresh(sink) && writer.sink == sink && sink.schedule == schedule
      invariant started <= |frames| && !writer.state.Poisoned?
      invariant sink.written + writer.Unsent() == EncodeAll(frames[..started])
      invariant Pumping(|all|, schedule, i, started, sink.at, |sink.written|)
    {
      ghost var at, wrote := sink.at, |sink.written|;
      var r;
      r, done := WriteNext(writer, frames, started);
      EncodePrefix(frames, started);
      PrefixLength(sink.written, EncodeAll(frames[..started]), all);
      PumpsOn(|all|, schedule, i, started, at, wrote, r, sink.at, |sink.written|);
      if done || (!r.Clear? && !r.Blocking?) {
        return sink.written, done;
      }
      if r.Clear? {
        started := started + 1;
      }
    }
    EncodePrefix(frames, started);
    PrefixLength(sink.written, EncodeAll(frames[..started]), all);
    return sink.written, false;
  }

  lemma PrefixLength(a: seq<byte>, b: seq<byte>, c: seq<byte>)
    requires a <= b <= c
    ensures a <= c && |a| <= |c|
  {
  }

  lemma NextStarted(frames: seq<Frame>, k: nat, written: seq<byte>)
    requires k < |frames| && written == EncodeAll(frames[..k])
    ensures written + EncodeFrame(frames[k]) == EncodeAll(frames[..k + 1])
  {
    assert frames[..k + 1] == frames[..k] + [frames[k]];
    EncodeAllAppend(frames[..k], frames[k]);
  }

  lemma {:induction false} EncodePrefix(frames: seq<Frame>, k: nat)
    requires k <= |frames|
    ensures EncodeAll(frames[..k]) <= EncodeAll(frames)
  {
    if k > 0 {
      assert frames[..k][1..] == frames[1..][..k - 1];
      EncodePrefix(frames[1..], k - 1);
    }
  }

  /**
    The wire round trip: whatever way the two sockets cut the bytes and however often they block,
    the reader hands over a prefix of the frames sent and never reports a malformed frame; if both
    sockets deliver and are polled often enough, it hands over all of them and then a clean end.
  */
  method Transfer(frames: seq<Frame>, writes: seq<Event>, writePolls: nat, reading: seq<Event>, readPolls: nat)
    returns (got: seq<Frame>, sent: bool, last: Next)
    requires AllSendable(frames)
    ensures got <= frames
    ensures sent && Final(last) ==> got == frames && last == Done
    ensures Final(last) ==> last == Done || last == Failure(Eof)
    ensures Suffices(writes, |EncodeAll(frames)|, |frames|, writePolls) && Suffices(reading, |EncodeAll(frames)|, |frames|, readPolls) ==>
              got == frames && sent && last == Done
  {
    var wire;
    wire, sent := WriteAll(frames, writes, writePolls);
    got, last := ReadAll(wire, reading, readPolls);
    CutIsPrefix(frames, wire);
    if sent {
      ParseEncodeAll(frames, [], Parse([]));
      assert EncodeAll(frames) + [] == EncodeAll(frames) && frames + [] == frames;
    }
  }
}
