/** The whole-buffer codec: what a byte string means, with no sockets and no pauses. */
module Codec {
  import opened Basics
  import opened Header
  import opened Frames

  datatype End =
    | CleanEnd
    | UnexpectedEof
    | BadHeader(error: DecodeError)
    | FrameTooLarge(len: nat)

  datatype Parsed = Parsed(frames: seq<Frame>, end: End)

  /** The frames of a byte string and how it ends. */
  function Parse(s: seq<byte>): Parsed
    decreases |s|
  {
    if s == [] then Parsed([], CleanEnd)
    else if |s| < HEADER_SIZE then Parsed([], UnexpectedEof)
    else
      match Decode(s[..HEADER_SIZE])
      case Err(e) => Parsed([], BadHeader(e))
      case Ok(h) =>
        if !h.tag.Data? then Before(Frame(h, []), Parse(s[HEADER_SIZE..]))
        else if h.length > MAX_FRAME_BODY_LEN then Parsed([], FrameTooLarge(h.length))
        else if |s| < HEADER_SIZE + h.length then Parsed([], UnexpectedEof)
        else Before(Frame(h, s[HEADER_SIZE..HEADER_SIZE + h.length]), Parse(s[HEADER_SIZE + h.length..]))
  }

  function Before(f: Frame, p: Parsed): Parsed {
    Parsed([f] + p.frames, p.end)
  }

  /** Frames the reader can reproduce. */
  predicate Sendable(f: Frame) {
    if f.header.tag.Data? then f.header.length == |f.body| <= MAX_FRAME_BODY_LEN else f.body == []
  }

  predicate AllSendable(fs: seq<Frame>) {
    forall f :: f in fs ==> Sendable(f)
  }

  function EncodeFrame(f: Frame): seq<byte> {
    Encode(f.header) + f.body
  }

  function EncodeAll(fs: seq<Frame>): seq<byte> {
    if fs == [] then [] else EncodeFrame(fs[0]) + EncodeAll(fs[1..])
  }

  lemma {:induction false} EncodeAllAppend(fs: seq<Frame>, f: Frame)
    ensures EncodeAll(fs + [f]) == EncodeAll(fs) + EncodeFrame(f)
  {
    if fs == [] {
      assert [f][1..] == [];
    } else {
      assert (fs + [f])[1..] == fs[1..] + [f];
      EncodeAllAppend(fs[1..], f);
    }
  }

  /** An encoded frame in front of anything is read back first. */
  lemma ParseFirst(f: Frame, rest: seq<byte>)
    requires Sendable(f)
    ensures Parse(EncodeFrame(f) + rest) == Before(f, Parse(rest))
  {
    DecodeEncode(f.header);
    var s := EncodeFrame(f) + rest;
    assert s[..HEADER_SIZE] == Encode(f.header);
    assert s[HEADER_SIZE..HEADER_SIZE + |f.body|] == f.body;
    assert s[HEADER_SIZE + |f.body|..] == rest;
  }

  lemma Regroup(a: seq<byte>, b: seq<byte>, c: seq<byte>)
    ensures (a + b) + c == a + (b + c)
  {
  }

  lemma EncodeAllHead(fs: seq<Frame>, rest: seq<byte>)
    requires fs != []
    ensures EncodeAll(fs) + rest == EncodeFrame(fs[0]) + (EncodeAll(fs[1..]) + rest)
  {
    Regroup(EncodeFrame(fs[0]), EncodeAll(fs[1..]), rest);
  }

  lemma JoinBefore(f: Frame, fs: seq<Frame>, more: seq<Frame>, end: End)
    ensures Before(f, Parsed(fs + more, end)) == Parsed([f] + fs + more, end)
  {
  }

  /** Reading what was written gives back the frames, whatever follows them. */
  lemma {:induction false} ParseEncodeAll(fs: seq<Frame>, rest: seq<byte>, p: Parsed)
    requires AllSendable(fs) && p == Parse(rest)
    ensures Parse(EncodeAll(fs) + rest) == Parsed(fs + p.frames, p.end)
  {
    if fs == [] {
      assert EncodeAll(fs) + rest == rest;
    } else {
      EncodeAllHead(fs, rest);
      ParseEncodeAll(fs[1..], rest, p);
      ParseFirst(fs[0], EncodeAll(fs[1..]) + rest);
      JoinBefore(fs[0], fs[1..], p.frames, p.end);
      assert [fs[0]] + fs[1..] == fs;
    }
  }

  // ---------------------------------------------------------------- the shapes of a byte string

  /** `raw` is the encoding of the header of a data frame of acceptable length. */
  ghost predicate DataHeader(raw: seq<byte>, h: Header) {
    |raw| == HEADER_SIZE && Decode(raw) == Ok(h) && h.tag.Data? && h.length <= MAX_FRAME_BODY_LEN
  }

  lemma ParseHeader(b: seq<byte>, rest: seq<byte>)
    requires |b| == HEADER_SIZE
    ensures Decode(b).Err? ==> Parse(b + rest) == Parsed([], BadHeader(Decode(b).error))
    ensures Decode(b).Ok? && !Decode(b).header.tag.Data? ==> Parse(b + rest) == Before(Frame(Decode(b).header, []), Parse(rest))
    ensures Decode(b).Ok? && Decode(b).header.tag.Data? && Decode(b).header.length > MAX_FRAME_BODY_LEN ==>
              Parse(b + rest) == Parsed([], FrameTooLarge(Decode(b).header.length))
  {
    assert (b + rest)[..HEADER_SIZE] == b && (b + rest)[HEADER_SIZE..] == rest;
  }

  lemma HeaderMissing(part: seq<byte>)
    requires |part| < HEADER_SIZE
    ensures Parse(part) == Parsed([], if part == [] then CleanEnd else UnexpectedEof)
  {
  }

  lemma BodyComplete(raw: seq<byte>, h: Header, body: seq<byte>, rest: seq<byte>)
    requires DataHeader(raw, h) && h.length == |body|
    ensures Parse(raw + body + rest) == Before(Frame(h, body), Parse(rest))
  {
    var s := raw + body + rest;
    assert s[..HEADER_SIZE] == raw && s[HEADER_SIZE..HEADER_SIZE + |body|] == body && s[HEADER_SIZE + |body|..] == rest;
  }

  lemma BodyMissing(raw: seq<byte>, h: Header, part: seq<byte>)
    requires DataHeader(raw, h) && |part| < h.length
    ensures Parse(raw + part) == Parsed([], UnexpectedEof)
  {
    assert (raw + part)[..HEADER_SIZE] == raw;
  }

  // ---------------------------------------------------------------- what was read

  /** `f` is the first frame of `s`, made of its first `n` bytes. */
  predicate First(s: seq<byte>, f: Frame, n: nat) {
    n <= |s| && Sendable(f) && EncodeFrame(f) == s[..n] && Parse(s) == Before(f, Parse(s[n..]))
  }

  lemma BareFirst(raw: seq<byte>, h: Header, rest: seq<byte>)
    requires |raw| == HEADER_SIZE && Decode(raw) == Ok(h) && !h.tag.Data?
    ensures First(raw + rest, Frame(h, []), HEADER_SIZE)
  {
    ParseHeader(raw, rest);
    EncodeDecode(raw);
    assert (raw + rest)[..HEADER_SIZE] == raw == raw + [] && (raw + rest)[HEADER_SIZE..] == rest;
  }

  lemma DataFirst(raw: seq<byte>, h: Header, body: seq<byte>, rest: seq<byte>)
    requires DataHeader(raw, h) && h.length == |body|
    ensures First(raw + body + rest, Frame(h, body), HEADER_SIZE + |body|)
  {
    BodyComplete(raw, h, body, rest);
    EncodeDecode(raw);
    var s := raw + body + rest;
    assert s[..HEADER_SIZE + |body|] == raw + body && s[HEADER_SIZE + |body|..] == rest;
  }

  lemma DataStep(raw: seq<byte>, h: Header, rest: seq<byte>)
    requires DataHeader(raw, h) && Parse(raw + rest).frames != []
    ensures |rest| >= h.length && First(raw + rest, Frame(h, rest[..h.length]), HEADER_SIZE + h.length)
  {
    if |rest| < h.length {
      BodyMissing(raw, h, rest);
    } else {
      var body, more := rest[..h.length], rest[h.length..];
      assert raw + rest == raw + body + more;
      DataFirst(raw, h, body, more);
    }
  }

  /** What the first frame read says about the bytes. */
  lemma ParseStep(s: seq<byte>)
    requires Parse(s).frames != []
    ensures First(s, Parse(s).frames[0], HEADER_SIZE + |Parse(s).frames[0].body|)
  {
    if |s| < HEADER_SIZE {
      HeaderMissing(s);
    } else {
      var raw, rest := s[..HEADER_SIZE], s[HEADER_SIZE..];
      assert s == raw + rest;
      ParseHeader(raw, rest);
      var h := Decode(raw).header;
      if h.tag.Data? {
        DataStep(raw, h, rest);
      } else {
        BareFirst(raw, h, rest);
      }
    }
  }

  lemma EncodeCons(f: Frame, fs: seq<Frame>, s: seq<byte>, n: nat)
    requires n <= |s| && EncodeFrame(f) == s[..n] && EncodeAll(fs) <= s[n..]
    ensures EncodeAll([f] + fs) <= s && (EncodeAll(fs) == s[n..] ==> EncodeAll([f] + fs) == s)
  {
    assert ([f] + fs)[1..] == fs;
    assert s == s[..n] + s[n..];
  }

  /** Conversely, the frames read are an exact account of the bytes they came from. */
  lemma {:induction false} EncodeParse(s: seq<byte>, p: Parsed)
    requires p == Parse(s)
    ensures AllSendable(p.frames) && EncodeAll(p.frames) <= s
    ensures p.end == CleanEnd ==> EncodeAll(p.frames) == s
    decreases |s|
  {
    if p.frames != [] {
      ParseStep(s);
      var f := p.frames[0];
      var n := HEADER_SIZE + |f.body|;
      var tail := Parse(s[n..]);
      EncodeParse(s[n..], tail);
      assert p.frames == [f] + tail.frames;
      EncodeCons(f, tail.frames, s, n);
    } else {
      NoFrames(s);
    }
  }

  lemma NoFrames(s: seq<byte>)
    requires Parse(s).frames == []
    ensures Parse(s).end == CleanEnd ==> s == []
  {
  }

  /** How a cut stream may be read: the frames before the cut, and no error but the missing rest. */
  predicate CutShort(p: Parsed, fs: seq<Frame>) {
    p.frames <= fs && (p.end.CleanEnd? || p.end.UnexpectedEof?)
  }

  /** A stream cut anywhere never yields a frame the whole stream would not. */
  lemma {:induction false} CutIsPrefix(fs: seq<Frame>, s: seq<byte>)
    requires AllSendable(fs) && s <= EncodeAll(fs)
    ensures CutShort(Parse(s), fs)
  {
    if fs != [] {
      var first, others := EncodeFrame(fs[0]), EncodeAll(fs[1..]);
      SplitPrefix(first, others, s);
      if |s| < |first| {
        CutInFirst(fs[0], |s|);
      } else {
        var tail := others[..|s| - |first|];
        CutIsPrefix(fs[1..], tail);
        CutLater(fs, s, tail);
      }
    }
  }

  lemma CutLater(fs: seq<Frame>, s: seq<byte>, tail: seq<byte>)
    requires fs != [] && Sendable(fs[0]) && s == EncodeFrame(fs[0]) + tail && CutShort(Parse(tail), fs[1..])
    ensures CutShort(Parse(s), fs)
  {
    ParseFirst(fs[0], tail);
  }

  lemma SplitPrefix(a: seq<byte>, b: seq<byte>, s: seq<byte>)
    requires s <= a + b
    ensures |s| < |a| ==> s == a[..|s|]
    ensures |s| >= |a| ==> s == a + b[..|s| - |a|] && b[..|s| - |a|] <= b
  {
    assert s == (a + b)[..|s|];
  }

  lemma CutInFirst(f: Frame, k: nat)
    requires Sendable(f) && k < |EncodeFrame(f)|
    ensures Parse(EncodeFrame(f)[..k]) == Parsed([], if k == 0 then CleanEnd else UnexpectedEof)
  {
    if k < HEADER_SIZE {
      HeaderMissing(EncodeFrame(f)[..k]);
    } else {
      DecodeEncode(f.header);
      CutTail(Encode(f.header), f.body, k);
      BodyMissing(Encode(f.header), f.header, f.body[..k - HEADER_SIZE]);
    }
  }

  lemma CutTail(a: seq<byte>, b: seq<byte>, k: nat)
    requires |a| <= k <= |a| + |b|
    ensures (a + b)[..k] == a + b[..k - |a|]
  {
  }
}
