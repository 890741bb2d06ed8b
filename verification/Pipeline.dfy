/** From the sockets to the group worker: CNode::recv of every connection, CNodeGroup::putMessage over
    the byte queue, and the worker's CNodeGroup::_rollingQueue, which reads a message in two
    separately locked pieces. Every read(), putMessage and queue read is one step, so that chunks of
    all connections, timer and over messages, and the worker interleave freely. */
module Pipeline {
  import opened Prelude
  import opened Framing

  /** The receiving side of one connection (CNode from onAttach to onDetach). `stuck` says that the
      queue has refused its last frame. */
  datatype Rx = Rx(ext: seq<byte>, consumed: seq<byte>, partial: seq<byte>, stuck: bool)

  datatype Origin = Net(c: nat) | Internal

  datatype Entry = Entry(origin: Origin, frame: Frame)

  datatype State = State(
    rx: map<nat, Rx>,
    queue: seq<byte>,               // contents of the loop buffer
    accepted: seq<Entry>,           // every message putMessage has accepted
    half: Option<seq<byte>>,        // what the worker has in _buffer between its two reads
    dispatched: seq<Frame>,         // every message the worker has read whole
    mismatch: bool)                 // the "size doesn't match" branch was taken

  datatype Step =
    | Connect(c: nat, ext: seq<byte>)
    | Chunk(c: nat, bytes: seq<byte>, room: bool)
    | PutInternal(frame: Frame, room: bool)
    | ReadSize
    | ReadBody

  ghost predicate Enabled(s: State, step: Step) {
    match step
    case Connect(c, ext) => c !in s.rx && |ext| == EXT_SIZE
    case Chunk(c, bytes, _) =>
      && c in s.rx && !s.rx[c].stuck
      && (|s.rx[c].partial| < HEADER || |s.rx[c].partial| <= SizeField(s.rx[c].partial))
      && 0 < |bytes| <= Wants(s.rx[c].partial)
      && |s.rx[c].ext| == EXT_SIZE
      && Sane(s.rx[c].consumed + bytes)   // the peer sends legal frames
    case PutInternal(frame, _) => WellFormed(frame)
    case ReadSize => s.half == None && s.queue != []
    case ReadBody => s.half.Some? && 2 <= |s.half.value|
  }

  ghost function Put(s: State, origin: Origin, frame: Frame): State {
    s.(queue := s.queue + frame, accepted := s.accepted + [Entry(origin, frame)])
  }

  ghost function Next(s: State, step: Step): State
    requires Enabled(s, step)
  {
    match step
    case Connect(c, ext) => s.(rx := s.rx[c := Rx(ext, [], [], false)])
    case Chunk(c, bytes, room) =>
      var r := s.rx[c];
      var p := r.partial + bytes;
      var r' := r.(consumed := r.consumed + bytes, partial := p);
      if !HasFrame(p) then
        s.(rx := s.rx[c := r'])
      else if room then
        Put(s.(rx := s.rx[c := r'.(partial := [])]), Net(c), WithExt(p, r.ext))
      else
        s.(rx := s.rx[c := r'.(stuck := true)])
    case PutInternal(frame, room) => if room then Put(s, Internal, frame) else s
    case ReadSize =>
      var n := if |s.queue| < 2 then |s.queue| else 2;
      s.(half := Some(s.queue[..n]), queue := s.queue[n..])
    case ReadBody =>
      var size := SizeField(s.half.value);
      var wanted := if size < 2 then 0 else size - 2;
      var n := if |s.queue| < wanted then |s.queue| else wanted;
      var rest := s.(half := None, queue := s.queue[n..]);
      if n + 2 != size then rest.(mismatch := true)
      else rest.(dispatched := s.dispatched + [s.half.value + s.queue[..n]])
  }

  ghost predicate Initial(s: State) {
    s == State(map[], [], [], None, [], false)
  }

  // ----- the worker reads whole messages -----

  ghost function FramesOf(es: seq<Entry>): (fs: seq<Frame>)
    ensures |fs| == |es|
  {
    seq(|es|, k requires 0 <= k < |es| => es[k].frame)
  }

  ghost function InHand(s: State): seq<byte> {
    match s.half case None => [] case Some(b) => b
  }

  /** What the worker has in hand and what is queued are exactly the accepted messages that have not
      been dispatched, in order. */
  ghost predicate QueueInv(s: State) {
    && !s.mismatch
    && |s.dispatched| <= |s.accepted|
    && s.dispatched == FramesOf(s.accepted[..|s.dispatched|])
    && (forall e | e in s.accepted :: WellFormed(e.frame))
    && InHand(s) + s.queue == Flatten(FramesOf(s.accepted[|s.dispatched|..]))
    && (s.half.Some? ==> |s.half.value| == 2)
  }

  lemma PutQueueInv(s: State, origin: Origin, frame: Frame)
    requires QueueInv(s) && WellFormed(frame)
    ensures QueueInv(Put(s, origin, frame))
  {
    var r, d := Put(s, origin, frame), |s.dispatched|;
    assert r.accepted[..d] == s.accepted[..d];
    assert r.accepted[d..] == s.accepted[d..] + [Entry(origin, frame)];
    assert FramesOf(r.accepted[d..]) == FramesOf(s.accepted[d..]) + [frame];
    FlattenAppend(FramesOf(s.accepted[d..]), [frame]);
    assert Flatten([frame]) == frame + Flatten([]) == frame;
    assert InHand(r) + r.queue == (InHand(s) + s.queue) + frame;
  }

  /** The next message, when something is in hand or queued. */
  lemma FrontMessage(s: State)
    requires QueueInv(s) && InHand(s) + s.queue != []
    ensures |s.dispatched| < |s.accepted|
    ensures var f := s.accepted[|s.dispatched|].frame;
      WellFormed(f)
      && InHand(s) + s.queue == f + Flatten(FramesOf(s.accepted[|s.dispatched| + 1..]))
  {
    var d := |s.dispatched|;
    var todo := s.accepted[d..];
    assert todo != [];
    assert s.accepted[d] in s.accepted;
    assert FramesOf(todo)[1..] == FramesOf(todo[1..]);
    assert todo[1..] == s.accepted[d + 1..];
  }

  lemma ReadSizeInv(s: State)
    requires QueueInv(s) && Enabled(s, ReadSize)
    ensures QueueInv(Next(s, ReadSize)) && 2 <= |s.queue|
  {
    FrontMessage(s);
    assert InHand(s) + s.queue == s.queue;
    assert s.queue == s.queue[..2] + s.queue[2..];
  }

  lemma ReadBodyInv(s: State)
    requires QueueInv(s) && Enabled(s, ReadBody)
    ensures QueueInv(Next(s, ReadBody))
    ensures Next(s, ReadBody).dispatched == s.dispatched + [s.accepted[|s.dispatched|].frame]
  {
    FrontMessage(s);
    var b, d := s.half.value, |s.dispatched|;
    var f, tail := s.accepted[d].frame, Flatten(FramesOf(s.accepted[d + 1..]));
    assert b + s.queue == f + tail;
    assert b == (b + s.queue)[..2] == (f + tail)[..2] == f[..2];
    assert SizeField(b) == SizeField(f) == |f|;
    assert s.queue == (b + s.queue)[2..] == f[2..] + tail;
    assert s.queue[..|f| - 2] == f[2..] && s.queue[|f| - 2..] == tail;
    assert b + f[2..] == f;
    assert FramesOf(s.accepted[..d + 1]) == FramesOf(s.accepted[..d]) + [f];
  }

  // ----- each connection's messages -----

  /** The messages that came from connection c, in order. */
  ghost function From(es: seq<Entry>, c: nat): (fs: seq<Frame>)
    ensures |fs| <= |es|
  {
    if es == [] then []
    else
      var before := From(es[..|es| - 1], c);
      if es[|es| - 1].origin == Net(c) then before + [es[|es| - 1].frame] else before
  }

  lemma FromAppend(es: seq<Entry>, e: Entry, c: nat)
    ensures From(es + [e], c) == if e.origin == Net(c) then From(es, c) + [e.frame] else From(es, c)
  {
    assert (es + [e])[..|es|] == es;
  }

  lemma {:induction false} FromPrefix(es: seq<Entry>, n: nat, c: nat)
    requires n <= |es|
    ensures From(es[..n], c) <= From(es, c)
  {
    if n < |es| {
      FromPrefix(es[..|es| - 1], n, c);
      assert es[..|es| - 1][..n] == es[..n];
    } else {
      assert es[..n] == es;
    }
  }

  /** The frames of the stream that the queue had room for: all of them, or all but the last. */
  ghost function Admitted(r: Rx): seq<Frame> {
    var fs := Frames(r.consumed);
    if r.stuck && fs != [] then fs[..|fs| - 1] else fs
  }

  ghost predicate RxInv(s: State, c: nat)
    requires c in s.rx
  {
    var r := s.rx[c];
    && |r.ext| == EXT_SIZE && Sane(r.consumed)
    && (forall f | f in Admitted(r) :: HEADER <= |f|)
    && From(s.accepted, c) == AllWithExt(Admitted(r), r.ext)
    && (if r.stuck then Frames(r.consumed) != [] else r.partial == Rest(r.consumed))
  }

  ghost predicate Inv(s: State) {
    && QueueInv(s)
    && (forall c | c in s.rx :: RxInv(s, c))
    && (forall e | e in s.accepted && e.origin.Net? :: e.origin.c in s.rx)
  }

  lemma {:induction false} FromNone(es: seq<Entry>, c: nat)
    requires forall e | e in es :: e.origin != Net(c)
    ensures From(es, c) == []
  {
    if es != [] {
      assert es[|es| - 1] in es;
      FromNone(es[..|es| - 1], c);
    }
  }

  lemma AllWithExtAppend(fs: seq<Frame>, f: Frame, ext: seq<byte>)
    requires |ext| == EXT_SIZE && HEADER <= |f| && forall g | g in fs :: HEADER <= |g|
    ensures forall g | g in fs + [f] :: HEADER <= |g|
    ensures AllWithExt(fs + [f], ext) == AllWithExt(fs, ext) + [WithExt(f, ext)]
  {
  }

  /** The stream of c after the chunk: its frames are those before, and the one just completed. */
  lemma ChunkFrames(s: State, c: nat, bytes: seq<byte>)
    requires c in s.rx && RxInv(s, c) && Enabled(s, Chunk(c, bytes, true))
    ensures var r := s.rx[c]; var p := r.partial + bytes;
      && Frames(r.consumed + bytes) == Frames(r.consumed) + (if HasFrame(p) then [p] else [])
      && Rest(r.consumed + bytes) == (if HasFrame(p) then [] else p)
      && (HasFrame(p) ==> WellFormed(p) && WellFormed(WithExt(p, r.ext)))
  {
    FeedChunk(s.rx[c].consumed, bytes);
  }

  lemma ChunkPartial(s: State, c: nat, bytes: seq<byte>, room: bool)
    requires c in s.rx && RxInv(s, c) && Enabled(s, Chunk(c, bytes, room))
    requires !HasFrame(s.rx[c].partial + bytes)
    ensures RxInv(Next(s, Chunk(c, bytes, room)), c)
  {
    ChunkFrames(s, c, bytes);
  }

  lemma ChunkRefused(s: State, c: nat, bytes: seq<byte>)
    requires c in s.rx && RxInv(s, c) && Enabled(s, Chunk(c, bytes, false))
    requires HasFrame(s.rx[c].partial + bytes)
    ensures RxInv(Next(s, Chunk(c, bytes, false)), c)
  {
    ChunkFrames(s, c, bytes);
    var fs, p := Frames(s.rx[c].consumed), s.rx[c].partial + bytes;
    assert (fs + [p])[..|fs|] == fs;
  }

  lemma ChunkAccepted(s: State, c: nat, bytes: seq<byte>)
    requires c in s.rx && RxInv(s, c) && Enabled(s, Chunk(c, bytes, true))
    requires HasFrame(s.rx[c].partial + bytes)
    ensures RxInv(Next(s, Chunk(c, bytes, true)), c)
  {
    ChunkFrames(s, c, bytes);
    var r, p := s.rx[c], s.rx[c].partial + bytes;
    AllWithExtAppend(Frames(r.consumed), p, r.ext);
    FromAppend(s.accepted, Entry(Net(c), WithExt(p, r.ext)), c);
  }

  lemma ChunkOther(s: State, step: Step, d: nat)
    requires Enabled(s, step) && step.Chunk? && d != step.c && d in s.rx && RxInv(s, d)
    ensures d in Next(s, step).rx && RxInv(Next(s, step), d)
  {
    var p := s.rx[step.c].partial + step.bytes;
    if HasFrame(p) && step.room {
      FromAppend(s.accepted, Entry(Net(step.c), WithExt(p, s.rx[step.c].ext)), d);
    }
  }

  lemma ChunkInv(s: State, step: Step)
    requires Inv(s) && Enabled(s, step) && step.Chunk?
    ensures Inv(Next(s, step))
  {
    var c, t := step.c, Next(s, step);
    var p := s.rx[c].partial + step.bytes;
    forall d | d in t.rx
      ensures RxInv(t, d)
    {
      assert RxInv(s, d);
      if d != c {
        ChunkOther(s, step, d);
      } else if !HasFrame(p) {
        ChunkPartial(s, c, step.bytes, step.room);
      } else if step.room {
        ChunkAccepted(s, c, step.bytes);
      } else {
        ChunkRefused(s, c, step.bytes);
      }
    }
    ChunkQueue(s, step);
  }

  lemma ChunkQueue(s: State, step: Step)
    requires QueueInv(s) && Enabled(s, step) && step.Chunk? && RxInv(s, step.c)
    requires forall e | e in s.accepted && e.origin.Net? :: e.origin.c in s.rx
    ensures var t := Next(s, step);
      QueueInv(t) && forall e | e in t.accepted && e.origin.Net? :: e.origin.c in t.rx
  {
    ChunkFrames(s, step.c, step.bytes);
    var r, p := s.rx[step.c], s.rx[step.c].partial + step.bytes;
    if HasFrame(p) && step.room {
      PutQueueInv(s, Net(step.c), WithExt(p, r.ext));
    }
  }

  /** RxInv speaks of the connections and the accepted messages only. */
  lemma RxSame(s: State, t: State)
    requires s.rx == t.rx && s.accepted == t.accepted
    requires forall c | c in s.rx :: RxInv(s, c)
    ensures forall c | c in t.rx :: RxInv(t, c)
  {
    forall c | c in t.rx
      ensures RxInv(t, c)
    {
      assert RxInv(s, c);
    }
  }

  lemma PutInternalInv(s: State, frame: Frame)
    requires Inv(s) && WellFormed(frame)
    ensures Inv(Put(s, Internal, frame))
  {
    PutQueueInv(s, Internal, frame);
    var t := Put(s, Internal, frame);
    forall c | c in t.rx
      ensures RxInv(t, c)
    {
      assert RxInv(s, c);
      FromAppend(s.accepted, Entry(Internal, frame), c);
    }
  }

  lemma ConnectInv(s: State, c: nat, ext: seq<byte>)
    requires Inv(s) && Enabled(s, Connect(c, ext))
    ensures Inv(Next(s, Connect(c, ext)))
  {
    var t := Next(s, Connect(c, ext));
    FromNone(s.accepted, c);
    assert RxInv(t, c);
    forall d | d in t.rx
      ensures RxInv(t, d)
    {
      assert d != c ==> RxInv(s, d);
    }
  }

  lemma NextInv(s: State, step: Step)
    requires Inv(s) && Enabled(s, step)
    ensures Inv(Next(s, step))
  {
    match step
    case Connect(c, ext) => ConnectInv(s, c, ext);
    case Chunk(_, _, _) => ChunkInv(s, step);
    case PutInternal(frame, room) => if room { PutInternalInv(s, frame); }
    case ReadSize =>
      ReadSizeInv(s);
      RxSame(s, Next(s, step));
    case ReadBody =>
      ReadBodyInv(s);
      RxSame(s, Next(s, step));
  }

  /** A queue that is empty, with nothing in hand, holds back no message. */
  lemma NothingLeft(s: State)
    requires QueueInv(s) && s.queue == [] && s.half == None
    ensures |s.dispatched| == |s.accepted|
  {
    FlattenEmpty(FramesOf(s.accepted[|s.dispatched|..]));
  }

  lemma FlattenEmpty(fs: seq<Frame>)
    requires forall f | f in fs :: f != []
    ensures Flatten(fs) == [] ==> fs == []
  {
    if fs != [] {
      assert fs[0] in fs;
    }
  }

  // ----- whole runs -----

  ghost predicate Steps(s: State, t: State) {
    exists step :: Enabled(s, step) && t == Next(s, step)
  }

  ghost predicate Behavior(b: seq<State>) {
    && b != [] && Initial(b[0])
    && forall i | 0 < i < |b| :: Steps(b[i - 1], b[i])
  }

  lemma {:induction false} BehaviorInv(b: seq<State>, i: nat)
    requires Behavior(b) && i < |b|
    ensures Inv(b[i])
  {
    if i > 0 {
      BehaviorInv(b, i - 1);
      assert Steps(b[i - 1], b[i]);
      var step :| Enabled(b[i - 1], step) && b[i] == Next(b[i - 1], step);
      NextInv(b[i - 1], step);
    }
  }

  /** End to end, for any chunking and any interleaving: the worker never sees a size that does not
      match; it dispatches the accepted messages whole and in order; and of those the messages of each
      connection are, in order, the first frames of the stream it has sent, with ext replaced. */
  lemma EndToEnd(b: seq<State>, i: nat, c: nat)
    requires Behavior(b) && i < |b| && c in b[i].rx
    ensures var s := b[i]; var r := s.rx[c];
      && !s.mismatch
      && s.dispatched <= FramesOf(s.accepted)
      && |r.ext| == EXT_SIZE && (forall f | f in Admitted(r) :: HEADER <= |f|)
      && From(s.accepted[..|s.dispatched|], c) <= AllWithExt(Admitted(r), r.ext)
      && Admitted(r) <= Frames(r.consumed)
      && (!r.stuck ==> Admitted(r) == Frames(r.consumed))
  {
    BehaviorInv(b, i);
    var s := b[i];
    assert RxInv(s, c);
    FromPrefix(s.accepted, |s.dispatched|, c);
  }

  /** Once the worker has caught up, nothing of what the queue had room for is missing. */
  lemma CaughtUp(b: seq<State>, i: nat, c: nat)
    requires Behavior(b) && i < |b| && c in b[i].rx
    requires b[i].queue == [] && b[i].half == None
    ensures var s := b[i]; var r := s.rx[c];
      && s.dispatched == FramesOf(s.accepted)
      && |r.ext| == EXT_SIZE && (forall f | f in Admitted(r) :: HEADER <= |f|)
      && From(s.accepted[..|s.dispatched|], c) == AllWithExt(Admitted(r), r.ext)
  {
    BehaviorInv(b, i);
    var s := b[i];
    assert RxInv(s, c);
    NothingLeft(s);
    assert s.accepted[..|s.dispatched|] == s.accepted;
  }
}
