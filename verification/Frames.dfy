/** Frames and the constructors of those an endpoint sends. */
module Frames {
  import opened Basics
  import opened Header

  datatype Frame = Frame(header: Header, body: seq<byte>) {
    predicate Syn() { header.flags.syn }
    predicate Ack() { header.flags.ack }
    predicate Fin() { header.flags.fin }
    predicate Rst() { header.flags.rst }

    /** Data and window updates belong to a stream; pings and go-aways to the session. */
    predicate OfStream() { header.tag.Data? || header.tag.WindowUpdate? }
  }

  function DataFrame(id: u32, body: seq<byte>): Frame
    requires |body| <= U32_MAX
  {
    Frame(Header(Data, NO_FLAGS, id, |body|), body)
  }

  function WindowUpdateFrame(id: u32, credit: u32): Frame {
    Frame(Header(WindowUpdate, NO_FLAGS, id, credit), [])
  }

  /** `Frame::close_stream`: an empty data frame with FIN, and with ACK if still owed. */
  function CloseFrame(id: u32, ack: bool): Frame {
    Frame(Header(Data, NO_FLAGS.(fin := true, ack := ack), id, 0), [])
  }

  function ResetFrame(id: u32): Frame {
    Frame(Header(Data, NO_FLAGS.(rst := true), id, 0), [])
  }

  function PingFrame(nonce: u32): Frame {
    Frame(Header(Ping, NO_FLAGS.(syn := true), 0, nonce), [])
  }

  function PongFrame(nonce: u32): Frame {
    Frame(Header(Ping, NO_FLAGS.(ack := true), 0, nonce), [])
  }

  const TERM: u32 := 0
  const PROTOCOL_ERROR: u32 := 1
  const INTERNAL_ERROR: u32 := 2

  function GoAwayFrame(code: u32): Frame {
    Frame(Header(GoAway, NO_FLAGS, 0, code), [])
  }

  /** A frame begins with version 0, the number of its type and its flags. */
  predicate Begins(f: Frame, tag: byte, flags: byte) {
    Encode(f.header)[..4] == [0, tag, 0, flags]
  }

  lemma BeginsWith(f: Frame, tag: byte, flags: byte)
    requires TagVal(f.header.tag) == tag && FlagsVal(f.header.flags) == flags
    ensures Begins(f, tag, flags)
  {
    var b := Encode(f.header);
    FlagsOfVal(f.header.flags);
    WireFormat(f.header);
    assert 0x100 * (b[2] as int) + b[3] == flags;
  }

  /** The frames of an open stream, as they begin on the wire. */
  lemma OpenLayouts(id: u32, n: u32, body: seq<byte>)
    requires |body| <= U32_MAX
    ensures Begins(DataFrame(id, body), 0, 0) && Begins(WindowUpdateFrame(id, n), 1, 0)
  {
    BeginsWith(DataFrame(id, body), 0, 0);
    BeginsWith(WindowUpdateFrame(id, n), 1, 0);
  }

  /** The frames that end one. */
  lemma EndLayouts(id: u32)
    ensures Begins(CloseFrame(id, false), 0, 4) && Begins(CloseFrame(id, true), 0, 6) && Begins(ResetFrame(id), 0, 8)
  {
    BeginsWith(CloseFrame(id, false), 0, 4);
    BeginsWith(CloseFrame(id, true), 0, 6);
    BeginsWith(ResetFrame(id), 0, 8);
  }

  /** The frames of the session. */
  lemma SessionLayouts(n: u32)
    ensures Begins(PingFrame(n), 2, 1) && Begins(PongFrame(n), 2, 2) && Begins(GoAwayFrame(n), 3, 0)
  {
    BeginsWith(PingFrame(n), 2, 1);
    BeginsWith(PongFrame(n), 2, 2);
    BeginsWith(GoAwayFrame(n), 3, 0);
  }

  /** The reasons of a go-away by the number that ends its header: normal end 0, protocol error 1, internal error 2. */
  lemma GoAwayCodes()
    ensures LastByte(GoAwayFrame(TERM)) == 0 && LastByte(GoAwayFrame(PROTOCOL_ERROR)) == 1 && LastByte(GoAwayFrame(INTERNAL_ERROR)) == 2
  {
    WireFormat(GoAwayFrame(TERM).header);
    WireFormat(GoAwayFrame(PROTOCOL_ERROR).header);
    WireFormat(GoAwayFrame(INTERNAL_ERROR).header);
  }

  function LastByte(f: Frame): byte {
    Encode(f.header)[HEADER_SIZE - 1]
  }
}
