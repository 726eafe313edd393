/** The receive buffer: a queue of byte vectors of which the first may be partly consumed. */
module Chunks {
  import opened Basics

  /** A vector and the position a reader has advanced to. */
  datatype Chunk = Chunk(vec: seq<byte>, offset: nat) {
    predicate Valid() { offset <= |vec| }

    /** Bytes still to be read. */
    function Rest(): seq<byte>
      requires Valid()
    {
      vec[offset..]
    }
  }

  predicate AllValid(cs: seq<Chunk>) {
    forall i :: 0 <= i < |cs| ==> cs[i].Valid()
  }

  /** The unread bytes of a queue, in order. */
  function Unread(cs: seq<Chunk>): seq<byte>
    requires AllValid(cs)
  {
    if cs == [] then [] else cs[0].Rest() + Unread(cs[1..])
  }

  /** The length of all vectors, read or not. */
  function Total(cs: seq<Chunk>): nat {
    if cs == [] then 0 else |cs[0].vec| + Total(cs[1..])
  }

  lemma {:induction false} UnreadAppend(cs: seq<Chunk>, c: Chunk)
    requires AllValid(cs) && c.Valid()
    ensures Unread(cs + [c]) == Unread(cs) + c.Rest() && Total(cs + [c]) == Total(cs) + |c.vec|
  {
    if cs == [] {
      assert [c][1..] == [];
    } else {
      assert (cs + [c])[1..] == cs[1..] + [c];
      UnreadAppend(cs[1..], c);
    }
  }

  lemma {:induction false} UnreadLength(cs: seq<Chunk>)
    requires AllValid(cs) && forall i :: 0 <= i < |cs| ==> cs[i].offset == 0
    ensures |Unread(cs)| == Total(cs)
  {
    if cs != [] {
      UnreadLength(cs[1..]);
    }
  }

  /** `copy_from_slice` into `dst[at..]`. */
  method CopySlice(src: seq<byte>, dst: array<byte>, at: nat)
    requires at + |src| <= dst.Length
    modifies dst
    ensures dst[..at + |src|] == old(dst[..at]) + src
    ensures dst[at + |src|..] == old(dst[..])[at + |src|..]
  {
    forall i | 0 <= i < |src| {
      dst[at + i] := src[i];
    }
  }

  lemma CopyStep(all: seq<byte>, n: nat, k: nat)
    requires n + k <= |all|
    ensures all[n..][..k] == all[n..n + k] && all[n..][k..] == all[n + k..] && all[..n] + all[n..n + k] == all[..n + k]
  {
  }

  class Chunks {
    var chunks: seq<Chunk>
    var total: nat

    /** Only the first chunk may be partly consumed, and `total` counts consumed bytes too. */
    predicate Valid()
      reads this
    {
      && AllValid(chunks)
      && (forall i :: 0 < i < |chunks| ==> chunks[i].offset == 0)
      && (forall i :: 0 <= i < |chunks| ==> chunks[i].vec != [])
      && total == Total(chunks)
    }

    function Contents(): seq<byte>
      reads this
      requires Valid()
    {
      Unread(chunks)
    }

    /** A used-up chunk is still in front. */
    predicate UsedUp()
      reads this
    {
      chunks != [] && chunks[0].offset == |chunks[0].vec|
    }

    constructor ()
      ensures Valid() && Contents() == []
    {
      chunks, total := [], 0;
    }

    method Len() returns (n: nat)
      requires Valid()
      ensures n == |Contents()|
    {
      if chunks == [] {
        n := total;
      } else {
        UnreadLength(chunks[1..]);
        n := total - chunks[0].offset;
      }
    }

    method Push(x: seq<byte>)
      requires Valid()
      modifies this
      ensures Valid() && Contents() == old(Contents()) + x
      ensures chunks == if x == [] then old(chunks) else old(chunks) + [Chunk(x, 0)]
    {
      UnreadAppend(chunks, Chunk(x, 0));
      total := total + |x|;
      if x != [] {
        chunks := chunks + [Chunk(x, 0)];
      }
    }

    /** The first chunk with its consumed part, if there is one. */
    method Pop() returns (c: Option<Chunk>)
      requires Valid()
      modifies this
      ensures Valid()
      ensures c.None? <==> old(chunks) == []
      ensures c.None? ==> chunks == [] && Contents() == []
      ensures c.Some? ==> c.value == old(chunks)[0] && c.value.Valid() && chunks == old(chunks)[1..]
      ensures c.Some? ==> old(Contents()) == c.value.Rest() + Contents()
    {
      if chunks == [] {
        c := None;
      } else {
        c := Some(chunks[0]);
        total := total - |chunks[0].vec|;
        chunks := chunks[1..];
      }
    }

    /** `Chunk::advance` on `front_mut`: move past `amount` more bytes of the first chunk. */
    method AdvanceFront(amount: nat)
      requires Valid() && chunks != [] && chunks[0].offset + amount <= |chunks[0].vec|
      modifies this`chunks
      ensures Valid() && Contents() == old(Contents())[amount..]
      ensures chunks == [old(chunks)[0].(offset := old(chunks)[0].offset + amount)] + old(chunks)[1..]
    {
      var front := chunks[0];
      chunks := [front.(offset := front.offset + amount)] + chunks[1..];
      assert chunks[1..] == old(chunks)[1..];
      assert front.vec[front.offset + amount..] == front.Rest()[amount..];
    }

    /** One round of the copy loop: as much of the first chunk as fits behind the first `n` bytes. */
    method CopyFront(buf: array<byte>, n: nat) returns (k: nat)
      requires Valid() && chunks != [] && chunks[0].Rest() != [] && n <= buf.Length
      modifies this`chunks, buf
      ensures Valid() && k == Min(|old(chunks)[0].Rest()|, buf.Length - n) && k <= |old(Contents())|
      ensures buf[..n + k] == old(buf[..n]) + old(Contents())[..k] && buf[n + k..] == old(buf[..])[n + k..]
      ensures Contents() == old(Contents())[k..]
      ensures |chunks| == |old(chunks)| && |chunks[0].Rest()| == |old(chunks)[0].Rest()| - k
      ensures UsedUp() ==> k > 0
    {
      var chunk := chunks[0];
      k := Min(|chunk.Rest()|, buf.Length - n);
      assert chunk.Rest()[..k] == Contents()[..k];
      CopySlice(chunk.Rest()[..k], buf, n);
      AdvanceFront(k);
    }

    /** The copy loop of `poll_read`. */
    method PollRead(buf: array<byte>) returns (n: nat)
      requires Valid()
      modifies this, buf
      ensures Valid()
      ensures n == Min(buf.Length, |old(Contents())|)
      ensures buf[..n] == old(Contents())[..n] && buf[n..] == old(buf[n..])
      ensures n < buf.Length ==> chunks == []
      ensures 0 < n == buf.Length ==> chunks != []
      ensures UsedUp() ==> 0 < n == buf.Length
      ensures Contents() == old(Contents())[n..]
    {
      ghost var all := Contents();
      n := 0;
      while chunks != []
        invariant Valid() && n <= buf.Length && n <= |all| && (n == buf.Length ==> n == 0)
        invariant buf[..n] == all[..n]
        invariant buf[n..] == old(buf[..])[n..]
        invariant Contents() == all[n..]
        decreases |chunks|, if chunks == [] then 0 else |chunks[0].Rest()|
      {
        var chunk := chunks[0];
        if chunk.Rest() == [] {
          var _ := Pop();
          continue;
        }
        var k := CopyFront(buf, n);
        CopyStep(all, n, k);
        n := n + k;
        if n == buf.Length {
          break;
        }
      }
    }

    /**
      The buffer part of `poll_next`: the unread rest of the first chunk. The packet is empty
      exactly when `PollRead` has consumed that chunk and left it in place.
    */
    method PollNext() returns (packet: Option<seq<byte>>)
      requires Valid()
      modifies this
      ensures Valid()
      ensures packet.None? <==> old(chunks) == []
      ensures packet.None? ==> old(Contents()) == [] && Contents() == []
      ensures packet.Some? ==> old(Contents()) == packet.value + Contents()
      ensures packet.Some? ==> packet.value == old(chunks)[0].Rest() && chunks == old(chunks)[1..]
      ensures packet == Some([]) <==> old(UsedUp())
    {
      var c := Pop();
      if c.None? {
        return None;
      }
      packet := Some(c.value.vec[c.value.offset..]);
    }
  }

  /** A caller's choice: bytes arrive, a slice is read, or a packet is taken. */
  datatype Use = Arrive(bytes: seq<byte>) | ReadInto(size: nat) | TakePacket

  /** All bytes that arrive in the course of some uses. */
  function Arrived(uses: seq<Use>): seq<byte> {
    if uses == [] then []
    else Arrived(uses[..|uses| - 1]) + if uses[|uses| - 1].Arrive? then uses[|uses| - 1].bytes else []
  }

  /** What one use hands to its caller and what it leaves. */
  predicate UseEffect(use: Use, returned: seq<byte>, before: seq<byte>, after: seq<byte>) {
    match use
    case Arrive(bytes) => returned == [] && after == before + bytes
    case ReadInto(size) => |returned| == Min(size, |before|) && before == returned + after
    case TakePacket => before == returned + after
  }

  lemma UseBalances(use: Use, more: seq<byte>, before: seq<byte>, after: seq<byte>, returned: seq<byte>)
    requires UseEffect(use, more, before, after)
    ensures returned + more + after == returned + before + if use.Arrive? then use.bytes else []
  {
    if use.Arrive? {
      assert returned + [] + (before + use.bytes) == returned + before + use.bytes;
    } else {
      assert returned + more + after == returned + (more + after);
    }
  }

  method UseOnce(b: Chunks, use: Use) returns (returned: seq<byte>)
    requires b.Valid()
    modifies b
    ensures b.Valid() && UseEffect(use, returned, old(b.Contents()), b.Contents())
  {
    match use {
      case Arrive(bytes) =>
        b.Push(bytes);
        returned := [];
      case ReadInto(size) =>
        var buf := new byte[size];
        var n := b.PollRead(buf);
        returned := buf[..n];
      case TakePacket =>
        var packet := b.PollNext();
        returned := if packet.Some? then packet.value else [];
    }
  }

  /** Under any mix of uses, what was returned and what is unread is what arrived. */
  method UseAll(uses: seq<Use>) returns (b: Chunks, returned: seq<byte>)
    ensures b.Valid() && returned + b.Contents() == Arrived(uses)
  {
    b := new Chunks();
    returned := [];
    for i := 0 to |uses|
      invariant b.Valid() && fresh(b) && returned + b.Contents() == Arrived(uses[..i])
    {
      ghost var before := b.Contents();
      var more := UseOnce(b, uses[i]);
      assert uses[..i + 1][..i] == uses[..i];
      UseBalances(uses[i], more, before, b.Contents(), returned);
      returned := returned + more;
    }
    assert uses[..|uses|] == uses;
  }

  /** It does happen: a read that fills its slice with the only byte there is leaves an empty packet. */
  method EmptyPacket() returns (packet: Option<seq<byte>>)
    ensures packet == Some([])
  {
    var b := new Chunks();
    b.Push([1]);
    var buf := new byte[1];
    var n := b.PollRead(buf);
    assert b.Contents() == [];
    packet := b.PollNext();
  }
}
