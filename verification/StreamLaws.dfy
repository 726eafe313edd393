/** What frames, end markers and handles do to a stream, said by what its two tasks may still do. */
module StreamLaws {
  import opened Basics
  import opened Header
  import opened Frames
  import opened Streams

  /** A stream frame its receiver has no window for, or that grants more credit than 32 bits hold. */
  predicate Overflows(s: Stream, f: Frame) {
    !f.Rst() && if f.header.tag.Data? then |f.body| > s.receiveWindow else s.sendWindow + f.header.length > U32_MAX
  }

  /** A frame that ends what its receiver may read. */
  predicate EndsReading(f: Frame) {
    f.Fin() || f.Rst()
  }

  /**
    A frame for a stream of the table. An overflow is answered and changes nothing but the
    acknowledgement. Otherwise FIN and RST end reading, RST alone ends writing, the entry goes when
    both have ended so, ACK ends the wait for one, and each frame wakes the task it concerns.
  */
  lemma ReceiveMeans(s: Stream, f: Frame, remoteId: bool, full: bool)
    requires f.OfStream() && s.status.InTable? && !f.Syn()
    ensures var (verdict, t) := Receive(s, f, remoteId, full);
            var taken := !Overflows(s, f);
            && (if taken then verdict.Handled? else verdict.ProtocolError?)
            && (t.state.CanRead() <==> s.state.CanRead() && !(taken && EndsReading(f)))
            && (t.state.CanWrite() <==> s.state.CanWrite() && !f.Rst())
            && (t.state == Open(false) <==> s.state == Open(false) && !f.Ack() && !(taken && EndsReading(f)))
            && (t.status.Removed? <==> f.Rst() || (taken && f.Fin() && !s.state.CanWrite())) && !t.status.Absent?
            && (t.reader <==> s.reader && !(taken && (f.header.tag.Data? || EndsReading(f))))
            && (t.writer <==> s.writer && !(taken && (f.header.tag.WindowUpdate? || f.Rst())))
  {
    AcknowledgeMeans(s, f);
    DispatchMeans(Acknowledge(s, f), f, remoteId, full);
  }

  lemma AcknowledgeMeans(s: Stream, f: Frame)
    requires s.status.InTable?
    ensures var t := Acknowledge(s, f);
            && SameBut(s, t) && t.status == s.status && t.reader == s.reader && t.writer == s.writer
            && t.state.CanRead() == s.state.CanRead() && t.state.CanWrite() == s.state.CanWrite()
            && (t.state == Open(false) <==> s.state == Open(false) && !f.Ack())
  {
  }

  lemma DispatchMeans(s: Stream, f: Frame, remoteId: bool, full: bool)
    requires f.OfStream() && s.status.InTable? && !f.Syn()
    ensures var (verdict, t) := Dispatch(s, f, remoteId, full);
            var taken := !Overflows(s, f);
            && (if taken then verdict.Handled? else verdict.ProtocolError?)
            && (t.state.CanRead() <==> s.state.CanRead() && !(taken && EndsReading(f)))
            && (t.state.CanWrite() <==> s.state.CanWrite() && !f.Rst())
            && (t.state == Open(false) <==> s.state == Open(false) && !(taken && EndsReading(f)))
            && (t.status.Removed? <==> f.Rst() || (taken && f.Fin() && !s.state.CanWrite())) && !t.status.Absent?
            && (t.reader <==> s.reader && !(taken && (f.header.tag.Data? || EndsReading(f))))
            && (t.writer <==> s.writer && !(taken && (f.header.tag.WindowUpdate? || f.Rst())))
  {
  }

  /** What such a frame brings: its bytes go behind those buffered and use up window, its credit is added. */
  lemma ReceiveBrings(s: Stream, f: Frame, remoteId: bool, full: bool)
    requires f.OfStream() && s.status.InTable? && !f.Syn()
    ensures var t := Receive(s, f, remoteId, full).1;
            var taken := !Overflows(s, f) && !f.Rst();
            && t.buffer == s.buffer + (if taken && f.header.tag.Data? then f.body else [])
            && t.receiveWindow == s.receiveWindow - (if taken && f.header.tag.Data? then |f.body| else 0)
            && t.sendWindow == s.sendWindow + (if taken && f.header.tag.WindowUpdate? then f.header.length else 0)
            && t.maxReceiveWindow == s.maxReceiveWindow && t.flag == s.flag && t.position == s.position
            && t.queue == s.queue && t.dropped == s.dropped && t.wrote == s.wrote && t.got == s.got
  {
    AcknowledgeBrings(s, f);
    DispatchBrings(Acknowledge(s, f), f, remoteId, full);
    assert s.buffer + [] == s.buffer;
  }

  predicate SameBut(s: Stream, t: Stream) {
    t == s.(status := t.status, state := t.state, reader := t.reader, writer := t.writer)
  }

  lemma AcknowledgeBrings(s: Stream, f: Frame)
    ensures SameBut(s, Acknowledge(s, f)) && Acknowledge(s, f).status == s.status
  {
  }

  lemma DispatchBrings(s: Stream, f: Frame, remoteId: bool, full: bool)
    requires f.OfStream() && s.status.InTable? && !f.Syn()
    ensures var t := Dispatch(s, f, remoteId, full).1;
            var taken := !Overflows(s, f) && !f.Rst();
            SameBut(if !taken then s
                    else if f.header.tag.Data? then s.(buffer := s.buffer + f.body, receiveWindow := s.receiveWindow - |f.body|)
                    else s.(sendWindow := s.sendWindow + f.header.length), t)
  {
  }

  /** When a frame opens a stream, and how it is refused otherwise. */
  lemma OpeningMeans(s: Stream, f: Frame, remoteId: bool, full: bool)
    requires f.OfStream() && f.Syn() && !f.Rst()
    ensures var (verdict, t) := Receive(s, f, remoteId, full);
            var fits := if f.header.tag.Data? then |f.body| <= DEFAULT_CREDIT else f.header.length + DEFAULT_CREDIT <= U32_MAX;
            && (verdict.New? <==> remoteId && !s.status.InTable? && !full && fits)
            && (verdict.InternalError? <==> remoteId && !s.status.InTable? && full && f.header.tag.Data?)
            && (!verdict.New? && !verdict.InternalError? ==> verdict.ProtocolError?)
            && (!verdict.New? && !s.status.InTable? ==> t == s)
  {
  }

  /** The stream it opens: both directions open unless it brings FIN, windows at the default, its bytes and credit counted. */
  lemma OpenedMeans(s: Stream, f: Frame, remoteId: bool, full: bool)
    requires f.OfStream() && Receive(s, f, remoteId, full).0.New?
    ensures var t := Receive(s, f, remoteId, full).1;
            && t.status.InTable? && t.flag.OweAck? && t.state.CanWrite() && (t.state.CanRead() <==> !f.Fin())
            && (!f.Fin() ==> t.state == Open(false))
            && t.buffer == (if f.header.tag.Data? then f.body else [])
            && t.receiveWindow + |t.buffer| == DEFAULT_CREDIT == t.maxReceiveWindow
            && t.sendWindow == DEFAULT_CREDIT + (if f.header.tag.Data? then 0 else f.header.length)
            && !t.reader && !t.writer && !t.dropped && t.queue == [] && t.wrote == [] && t.got == []
  {
  }

  /** A reset shuts a known stream, even one that carries SYN; anything else for an unknown one is dropped. */
  lemma UnknownMeans(s: Stream, f: Frame, remoteId: bool, full: bool)
    requires f.OfStream() && !s.status.InTable? && (!f.Syn() || f.Rst())
    ensures var (verdict, t) := Receive(s, f, remoteId, full); t == s && !verdict.New? && !verdict.ProtocolError? && !verdict.InternalError?
  {
  }

  // ---------------------------------------------------------------- frames that end something

  /** The frame `poll_close` queues ends what its receiver may read, and nothing else. */
  lemma CloseFrameMeans(u: Stream, id: u32, ack: bool, remoteId: bool, full: bool)
    requires u.status.InTable? && 0 <= u.receiveWindow
    ensures var f := CloseFrame(id, ack);
            var (verdict, t) := Receive(u, f, remoteId, full);
            && f.OfStream() && f.header.streamId == id && verdict.Handled? && t.buffer == u.buffer && t.receiveWindow == u.receiveWindow
            && !t.state.CanRead() && (t.state.CanWrite() <==> u.state.CanWrite()) && (f.Ack() <==> ack)
  {
    ReceiveMeans(u, CloseFrame(id, ack), remoteId, full);
    ReceiveBrings(u, CloseFrame(id, ack), remoteId, full);
  }

  /**
    A dropped handle: the entry is closed, its tasks are woken, and the peer is owed a frame exactly
    if it may still expect bytes. That frame ends the peer's reading, and its writing exactly if
    nobody is left here who would read.
  */
  lemma MarkerMeans(s: Stream, id: u32, u: Stream, remoteId: bool, full: bool)
    requires s.status.InTable? && u.status.InTable? && 0 <= u.receiveWindow
    ensures var (t, out) := EndMarker(s, id);
            && t.status.Removed? && t.state.Closed? && !t.reader && !t.writer
            && |out| <= 1 && (out != [] <==> s.state.CanWrite())
            && (out != [] ==>
                  && out[0].OfStream() && out[0].header.streamId == id
                  && var w := Receive(u, out[0], remoteId, full).1;
                     !w.state.CanRead() && (w.state.CanWrite() <==> u.state.CanWrite() && !s.state.CanRead()))
  {
    var out := EndMarker(s, id).1;
    if out != [] {
      ReceiveMeans(u, out[0], remoteId, full);
    }
  }

  // ---------------------------------------------------------------- what a write takes

  /** As many bytes as credit, caller and split size all allow, and not one less. */
  lemma WriteSizeIsLargest(sendWindow: int, len: nat, split: nat)
    ensures var k := WriteSize(sendWindow, len, split);
            k <= sendWindow && k <= len && k <= split && (k == sendWindow || k == len || k == split)
  {
  }
}
