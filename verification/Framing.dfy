/** The wire format: a byte stream is a sequence of frames, each starting with a THeader whose first
    two bytes are the little-endian length of the frame. `Frames` and `Rest` are the reference
    decoder that the server's CNode::recv and the C client's receive loop are measured against. */
module Framing {
  import opened Prelude

  const HEADER: nat := 29          // sizeof(THeader)
  const MSG_MAX_LENGTH: nat := 512
  const EXT: nat := 21             // where THeader.ext is
  const EXT_SIZE: nat := 8

  type Frame = seq<byte>

  function SizeField(b: seq<byte>): nat
    requires 2 <= |b|
  {
    b[0] as nat + 256 * b[1] as nat
  }

  /** The low byte of the size comes first. */
  lemma LittleEndian(b: seq<byte>, size: nat)
    requires 2 <= |b|
    ensures SizeField(b) == size <==> b[0] as nat == size % 256 && b[1] as nat == size / 256
  {
    var low, high := b[0] as nat, b[1] as nat;
    assert (low + 256 * high) % 256 == low && (low + 256 * high) / 256 == high;
  }

  predicate WellFormed(f: Frame) {
    HEADER <= |f| <= MSG_MAX_LENGTH && SizeField(f) == |f|
  }

  /** Every header that is complete in the stream announces a legal size. */
  ghost predicate Sane(s: seq<byte>)
    decreases |s|
  {
    HEADER <= |s| ==>
      && HEADER <= SizeField(s) <= MSG_MAX_LENGTH
      && (SizeField(s) <= |s| ==> Sane(s[SizeField(s)..]))
  }

  /** The stream starts with a whole frame. */
  ghost predicate HasFrame(s: seq<byte>) {
    HEADER <= |s| && HEADER <= SizeField(s) <= |s|
  }

  ghost function Frames(s: seq<byte>): (fs: seq<Frame>)
    decreases |s|
  {
    if HasFrame(s) then [s[..SizeField(s)]] + Frames(s[SizeField(s)..]) else []
  }

  /** What is left behind the last whole frame. */
  ghost function Rest(s: seq<byte>): (r: seq<byte>)
    ensures |r| <= |s|
    decreases |s|
  {
    if HasFrame(s) then Rest(s[SizeField(s)..]) else s
  }

  ghost function Flatten(fs: seq<Frame>): seq<byte> {
    if fs == [] then [] else fs[0] + Flatten(fs[1..])
  }

  // ----- the reference decoder and encoder undo each other -----

  lemma FrontFrame(f: Frame, tail: seq<byte>)
    requires WellFormed(f)
    ensures HasFrame(f + tail)
    ensures Frames(f + tail) == [f] + Frames(tail) && Rest(f + tail) == Rest(tail)
    ensures Sane(tail) ==> Sane(f + tail)
  {
    assert (f + tail)[..|f|] == f && (f + tail)[|f|..] == tail;
  }

  lemma {:induction false} DecodeEncode(fs: seq<Frame>, tail: seq<byte>)
    requires forall f | f in fs :: WellFormed(f)
    ensures Frames(Flatten(fs) + tail) == fs + Frames(tail)
    ensures Rest(Flatten(fs) + tail) == Rest(tail)
    ensures Sane(tail) ==> Sane(Flatten(fs) + tail)
  {
    if fs == [] {
      assert Flatten(fs) + tail == tail;
    } else {
      assert Flatten(fs) + tail == fs[0] + (Flatten(fs[1..]) + tail);
      DecodeEncode(fs[1..], tail);
      FrontFrame(fs[0], Flatten(fs[1..]) + tail);
      assert fs == [fs[0]] + fs[1..];
    }
  }

  lemma {:induction false} EncodeDecode(s: seq<byte>)
    ensures Flatten(Frames(s)) + Rest(s) == s
    decreases |s|
  {
    if HasFrame(s) {
      var n := SizeField(s);
      EncodeDecode(s[n..]);
      var fs := Frames(s[n..]);
      assert Frames(s)[1..] == fs;
      calc {
        Flatten(Frames(s)) + Rest(s);
        (s[..n] + Flatten(fs)) + Rest(s[n..]);
        s[..n] + (Flatten(fs) + Rest(s[n..]));
        s[..n] + s[n..];
        s;
      }
    }
  }

  /** What a sane stream decodes to is legal, and so is what is left over. */
  lemma {:induction false} SaneFrames(s: seq<byte>)
    requires Sane(s)
    ensures forall f | f in Frames(s) :: WellFormed(f)
    ensures !HasFrame(Rest(s)) && Sane(Rest(s))
    decreases |s|
  {
    if HasFrame(s) {
      SaneFrames(s[SizeField(s)..]);
    }
  }

  lemma Regrouped(a: seq<byte>, b: seq<byte>, c: seq<byte>)
    ensures a + (b + c) == (a + b) + c
  {
  }

  lemma {:induction false} FlattenAppend(fs: seq<Frame>, gs: seq<Frame>)
    ensures Flatten(fs + gs) == Flatten(fs) + Flatten(gs)
  {
    if fs == [] {
      assert fs + gs == gs;
    } else {
      FlattenAppend(fs[1..], gs);
      assert (fs + gs)[1..] == fs[1..] + gs;
      Regrouped(fs[0], Flatten(fs[1..]), Flatten(gs));
    }
  }

  /** Sanity of a stream is sanity of every part that has arrived. */
  lemma {:induction false} SanePrefix(s: seq<byte>, t: seq<byte>)
    requires Sane(s + t)
    ensures Sane(s)
    decreases |s|
  {
    if HEADER <= |s| {
      assert SizeField(s) == SizeField(s + t);
      var n := SizeField(s);
      if n <= |s| {
        assert (s + t)[n..] == s[n..] + t;
        SanePrefix(s[n..], t);
      }
    }
  }

  /** Bytes that arrive later only concern what was left over. */
  lemma {:induction false} DecodeMore(s: seq<byte>, t: seq<byte>)
    ensures Frames(s + t) == Frames(s) + Frames(Rest(s) + t)
    ensures Rest(s + t) == Rest(Rest(s) + t)
    decreases |s|
  {
    if HasFrame(s) {
      var n := SizeField(s);
      assert SizeField(s + t) == n;
      assert (s + t)[..n] == s[..n] && (s + t)[n..] == s[n..] + t;
      DecodeMore(s[n..], t);
    }
  }

  /** How many bytes a receiver asks for when it has `partial` of a frame. */
  ghost function Wants(partial: seq<byte>): nat
    requires |partial| < HEADER || |partial| <= SizeField(partial)
  {
    if |partial| < HEADER then HEADER - |partial| else SizeField(partial) - |partial|
  }

  /** A chunk of at most the wanted bytes leaves the frame incomplete or completes exactly it. */
  lemma FeedChunk(s: seq<byte>, chunk: seq<byte>)
    requires Sane(s + chunk) && 0 < |chunk|
    requires |Rest(s)| < HEADER || |Rest(s)| <= SizeField(Rest(s))
    requires |chunk| <= Wants(Rest(s))
    ensures var p := Rest(s) + chunk;
      && (HEADER <= |p| ==> HEADER <= SizeField(p) <= MSG_MAX_LENGTH)
      && (HasFrame(p) ==> SizeField(p) == |p|)
      && Frames(s + chunk) == Frames(s) + (if HasFrame(p) then [p] else [])
      && Rest(s + chunk) == (if HasFrame(p) then [] else p)
  {
    var p := Rest(s) + chunk;
    SanePrefix(s, chunk);
    SaneFrames(s);
    DecodeMore(s, chunk);
    SaneFrames(s + chunk);
    if HasFrame(p) {
      assert p[SizeField(p)..] == [];
      assert p[..SizeField(p)] == p;
      assert Frames(p) == [p] + Frames([]);
    }
  }

  // ----- the ext field -----

  /** The frame with its ext field overwritten: recv puts the transaction there, send puts 0. */
  function WithExt(f: Frame, ext: seq<byte>): (g: Frame)
    requires HEADER <= |f| && |ext| == EXT_SIZE
    ensures |g| == |f| && SizeField(g) == SizeField(f)
  {
    f[..EXT] + ext + f[HEADER..]
  }

  /** Bytes 21 to 28 of the message, and no others, are replaced. */
  lemma ExtReplaced(f: Frame, ext: seq<byte>, k: nat)
    requires HEADER <= |f| && |ext| == EXT_SIZE && k < |f|
    ensures WithExt(f, ext)[k] == if 21 <= k < 29 then ext[k - 21] else f[k]
  {
  }

  ghost function AllWithExt(fs: seq<Frame>, ext: seq<byte>): (gs: seq<Frame>)
    requires |ext| == EXT_SIZE && forall f | f in fs :: HEADER <= |f|
  {
    seq(|fs|, k requires 0 <= k < |fs| => WithExt(fs[k], ext))
  }
}
