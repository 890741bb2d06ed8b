/** One direction of one connection: a sender that writes messages with partial writes, the bytes on
    the wire, and a receiver that reads them in chunks. Both directions have this shape: CNode::send
    to the C client's receive loop, and cnn_send to CNode::recv. */
module Link {
  import opened Prelude
  import opened Framing

  datatype Sending = Idle | Writing(msg: Frame, offset: nat)

  datatype State = State(
    sent: seq<Frame>,          // messages whose send loop has finished
    sending: Sending,
    wire: seq<byte>,           // written and not read yet
    consumed: seq<byte>,       // read by the receiver
    partial: seq<byte>,        // the receiver's incomplete frame
    delivered: seq<Frame>)     // the frames the receiver has handed on

  datatype Step = Begin(msg: Frame) | Write(n: nat) | Read(n: nat)

  ghost predicate Enabled(s: State, step: Step) {
    match step
    case Begin(msg) => s.sending.Idle? && WellFormed(msg)
    case Write(n) => s.sending.Writing? && 0 < n <= |s.sending.msg| - s.sending.offset
    case Read(n) =>
      && (|s.partial| < HEADER || |s.partial| <= SizeField(s.partial))
      && 0 < n <= Wants(s.partial) && n <= |s.wire|
  }

  ghost function Next(s: State, step: Step): State
    requires Enabled(s, step)
  {
    match step
    case Begin(msg) => s.(sending := Writing(msg, 0))
    case Write(n) =>
      var Writing(msg, offset) := s.sending;
      var written := s.(wire := s.wire + msg[offset..offset + n]);
      if offset + n == |msg| then written.(sending := Idle, sent := s.sent + [msg])
      else written.(sending := Writing(msg, offset + n))
    case Read(n) =>
      var p := s.partial + s.wire[..n];
      var r := s.(wire := s.wire[n..], consumed := s.consumed + s.wire[..n]);
      if HasFrame(p) then r.(partial := [], delivered := s.delivered + [p]) else r.(partial := p)
  }

  ghost predicate Initial(s: State) {
    s == State([], Idle, [], [], [], [])
  }

  /** The bytes of the message being written that are already out. */
  ghost function Begun(sending: Sending): seq<byte> {
    match sending
    case Idle => []
    case Writing(msg, offset) => if offset <= |msg| then msg[..offset] else []
  }

  ghost predicate Inv(s: State) {
    && (forall f | f in s.sent :: WellFormed(f))
    && (s.sending.Writing? ==> WellFormed(s.sending.msg) && s.sending.offset < |s.sending.msg|)
    && s.consumed + s.wire == Flatten(s.sent) + Begun(s.sending)
    && s.delivered == Frames(s.consumed)
    && s.partial == Rest(s.consumed)
  }

  /** Everything written so far is a sane stream that decodes to the messages sent. */
  lemma WrittenDecodes(s: State)
    requires Inv(s)
    ensures Sane(s.consumed + s.wire) && Frames(s.consumed + s.wire) == s.sent
    ensures Rest(s.consumed + s.wire) == Begun(s.sending)
  {
    var b := Begun(s.sending);
    DecodeEncode(s.sent, b);
    if s.sending.Writing? && HEADER <= |b| {
      assert SizeField(b) == SizeField(s.sending.msg);
    }
    assert !HasFrame(b);
  }

  lemma ReadInv(s: State, n: nat)
    requires Inv(s) && Enabled(s, Read(n))
    ensures Inv(Next(s, Read(n)))
  {
    WrittenDecodes(s);
    var chunk, rest := s.wire[..n], s.wire[n..];
    assert s.wire == chunk + rest;
    assert s.consumed + s.wire == (s.consumed + chunk) + rest;
    SanePrefix(s.consumed + chunk, rest);
    FeedChunk(s.consumed, chunk);
  }

  lemma WriteInv(s: State, n: nat)
    requires Inv(s) && Enabled(s, Write(n))
    ensures Inv(Next(s, Write(n)))
  {
    var Writing(msg, offset) := s.sending;
    var piece := msg[offset..offset + n];
    assert msg[..offset + n] == msg[..offset] + piece;
    assert s.consumed + (s.wire + piece) == (s.consumed + s.wire) + piece;
    if offset + n == |msg| {
      assert msg[..offset + n] == msg;
      FlattenAppend(s.sent, [msg]);
      assert Flatten([msg]) == msg + Flatten([]) == msg;
      assert (Flatten(s.sent) + msg[..offset]) + piece == Flatten(s.sent) + msg;
    } else {
      assert (Flatten(s.sent) + msg[..offset]) + piece == Flatten(s.sent) + msg[..offset + n];
    }
  }

  lemma NextInv(s: State, step: Step)
    requires Inv(s) && Enabled(s, step)
    ensures Inv(Next(s, step))
  {
    match step
    case Begin(msg) =>
    case Write(n) => WriteInv(s, n);
    case Read(n) => ReadInv(s, n);
  }

  ghost predicate Steps(s: State, t: State) {
    exists step :: Enabled(s, step) && t == Next(s, step)
  }

  ghost predicate Behavior(b: seq<State>) {
    && b != [] && Initial(b[0])
    && forall i | 0 < i < |b| :: Steps(b[i - 1], b[i])
  }

  lemma {:induction false} BehaviorInv(b: seq<State>, i: nat)
    requires Behavior(b) && i < |b|
    ensures Inv(b[i])
  {
    if i > 0 {
      BehaviorInv(b, i - 1);
      assert Steps(b[i - 1], b[i]);
      var step :| Enabled(b[i - 1], step) && b[i] == Next(b[i - 1], step);
      NextInv(b[i - 1], step);
    } else {
      assert Flatten([]) == [] && Frames([]) == [] && Rest([]) == [];
    }
  }

  /** Whatever the partial writes and partial reads, the receiver delivers messages that were sent,
      whole and in order; and all of them once the wire is empty. */
  lemma ReceiverUndoesSender(b: seq<State>, i: nat)
    requires Behavior(b) && i < |b|
    ensures b[i].delivered <= b[i].sent
    ensures b[i].wire == [] ==> b[i].delivered == b[i].sent && b[i].partial == Begun(b[i].sending)
  {
    BehaviorInv(b, i);
    var s := b[i];
    WrittenDecodes(s);
    DecodeMore(s.consumed, s.wire);
    if s.wire == [] {
      assert s.consumed + s.wire == s.consumed;
    }
  }
}
