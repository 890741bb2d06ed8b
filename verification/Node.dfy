/** The loops over sockets, in place: CNode::recv and CNode::send of src/traffic/CNode.cpp, and the
    receive loop and cnn_send of clients/c/connection.c, all measured against Framing's reference
    decoder. */
module Nodes {
  import opened Prelude
  import opened Framing
  import opened LoopBuffers

  const WOULD_BLOCK: int := -1     // EAGAIN
  const FAILED: int := -2          // any other errno

  /** A connected non-blocking socket. read() and write() move any part of what they could; a write
      is refused with EAGAIN only finitely often. */
  class Socket {
    var incoming: seq<byte>        // sent by the peer and not read yet
    var outgoing: seq<byte>        // written so far
    var patience: nat              // how many more writes would block

    constructor (incoming: seq<byte>, patience: nat)
      ensures this.incoming == incoming && outgoing == []
    {
      this.incoming, this.outgoing, this.patience := incoming, [], patience;
    }

    method Read(max: nat) returns (n: int, bytes: seq<byte>)
      modifies this`incoming
      ensures FAILED <= n <= max
      ensures n > 0 ==> |bytes| == n && old(incoming) == bytes + incoming
      ensures n <= 0 ==> bytes == [] && incoming == old(incoming)
      ensures max == 0 ==> n == 0
    {
      if max == 0 {
        return 0, [];
      }
      n :| FAILED <= n <= |incoming| && n <= max;
      bytes := if n > 0 then incoming[..n] else [];
      incoming := incoming[|bytes|..];
    }

    method Write(bytes: seq<byte>) returns (n: int)
      requires 0 < |bytes|
      modifies this`outgoing, this`patience
      ensures FAILED <= n <= |bytes|
      ensures n > 0 ==> outgoing == old(outgoing) + bytes[..n]
      ensures n <= 0 ==> outgoing == old(outgoing)
      ensures n == WOULD_BLOCK ==> patience < old(patience)
      ensures n != WOULD_BLOCK ==> patience == old(patience)
    {
      n :| FAILED <= n <= |bytes| && (n == WOULD_BLOCK ==> patience > 0);
      if n > 0 {
        outgoing := outgoing + bytes[..n];
      } else if n == WOULD_BLOCK {
        patience := patience - 1;
      }
    }
  }

  /** The write loop both sides use: do { n = write(...) } while (size > offset). */
  method WriteAll(socket: Socket, buffer: seq<byte>) returns (ok: bool)
    requires 0 < |buffer|
    modifies socket`outgoing, socket`patience
    ensures ok ==> socket.outgoing == old(socket.outgoing) + buffer
    ensures !ok ==> exists k: nat | k < |buffer| :: socket.outgoing == old(socket.outgoing) + buffer[..k]
  {
    var offset := 0;
    assert buffer[..0] == [];
    while true
      invariant 0 <= offset < |buffer|
      invariant socket.outgoing == old(socket.outgoing) + buffer[..offset]
      decreases socket.patience, |buffer| - offset
    {
      var n := socket.Write(buffer[offset..]);
      if n > 0 {
        assert buffer[..offset] + buffer[offset..][..n] == buffer[..offset + n];
        offset := offset + n;
      } else if n != WOULD_BLOCK {
        return false;
      }
      if |buffer| <= offset {
        assert buffer[..offset] == buffer;
        return true;
      }
    }
  }

  /** The accepted messages are these frames with ext replaced. */
  ghost predicate Records(accepted: seq<Frame>, fs: seq<Frame>, ext: seq<byte>) {
    var same := |ext| == EXT_SIZE && (forall f | f in fs :: HEADER <= |f|) && accepted == AllWithExt(fs, ext);
    same
  }

  lemma RecordsMore(accepted: seq<Frame>, fs: seq<Frame>, ext: seq<byte>, p: Frame)
    requires Records(accepted, fs, ext) && |ext| == EXT_SIZE && WellFormed(p)
    ensures Records(accepted + [WithExt(p, ext)], fs + [p], ext)
    ensures (fs + [p])[..|fs|] == fs && fs + [] == fs
  {
  }

  class Node {
    const ext: seq<byte>           // the address of the node's transaction
    const socket: Socket
    const queue: LoopBuffer        // of the group the node is attached to
    const recvBuffer: array<byte>
    var recvOffset: nat
    var recvDueSize: nat
    // since onAttach: the bytes read, the messages the queue has accepted, and whether it refused one
    ghost var consumed: seq<byte>
    ghost var accepted: seq<Frame>
    ghost var refused: bool

    /** The receiving side as onAttach leaves it. */
    constructor OnAttach(ext: seq<byte>, socket: Socket, queue: LoopBuffer)
      requires |ext| == EXT_SIZE
      ensures Valid() && consumed == [] && accepted == [] && !refused
      ensures this.ext == ext && this.socket == socket && this.queue == queue && fresh(recvBuffer)
    {
      this.ext, this.socket, this.queue := ext, socket, queue;
      recvBuffer := new byte[MSG_MAX_LENGTH](_ => 0);
      recvOffset, recvDueSize := 0, 0;
      consumed, accepted, refused := [], [], false;
    }

    /** The frames of the stream that the queue had room for. */
    ghost function Admitted(): seq<Frame>
      reads `consumed, `refused
    {
      var fs := Frames(consumed);
      if refused && fs != [] then fs[..|fs| - 1] else fs
    }

    ghost predicate Apart()
      reads queue
    {
      recvBuffer.Length == MSG_MAX_LENGTH && |ext| == EXT_SIZE && recvBuffer != queue.data
    }

    /** What is in the buffer is the unfinished frame of the stream; after a refusal, nothing can be
        read any more. */
    ghost predicate Valid()
      reads this, recvBuffer, queue
    {
      && Apart()
      && Sane(consumed)
      && Records(accepted, Admitted(), ext)
      && recvOffset <= MSG_MAX_LENGTH
      && if refused then 0 < recvDueSize == recvOffset && Frames(consumed) != []
         else Holds(Rest(consumed)) && Due(Rest(consumed), recvDueSize)
    }

    ghost predicate Holds(p: seq<byte>)
      reads `recvOffset, recvBuffer
    {
      recvOffset == |p| <= recvBuffer.Length && recvBuffer[..recvOffset] == p
    }

    /** The expected size: unknown, 0, until the header is complete. */
    ghost predicate Due(p: seq<byte>, due: nat) {
      if |p| < HEADER then due == 0 else due == SizeField(p) && |p| < due <= MSG_MAX_LENGTH
    }

    /** read() has put bytes behind what was in the buffer. */
    method Store(bytes: seq<byte>)
      requires recvOffset + |bytes| <= recvBuffer.Length
      modifies this`recvOffset, recvBuffer
      ensures recvOffset == old(recvOffset) + |bytes|
      ensures recvBuffer[..recvOffset] == old(recvBuffer[..recvOffset]) + bytes
    {
      forall i | 0 <= i < |bytes| {
        recvBuffer[recvOffset + i] := bytes[i];
      }
      recvOffset := recvOffset + |bytes|;
    }

    /** msg->ext = &_transaction; putMessage(msg); on success start over. */
    method Deliver(ghost p: seq<byte>) returns (ok: bool)
      requires Apart() && queue.Valid() && Holds(p) && WellFormed(p) && recvDueSize == |p|
      modifies this`recvOffset, this`recvDueSize, recvBuffer, queue, queue.data
      ensures queue.Valid()
      ensures queue.Contents() == old(queue.Contents()) + if ok then WithExt(p, ext) else []
      ensures if ok then recvOffset == recvDueSize == 0 else recvOffset == recvDueSize == |p|
    {
      forall i | 0 <= i < EXT_SIZE {
        recvBuffer[EXT + i] := ext[i];
      }
      var msg := recvBuffer[..recvDueSize];
      assert msg == WithExt(p, ext);
      ok := queue.Write(msg);
      if ok {
        recvOffset, recvDueSize := 0, 0;
      }
    }

    /** What the stream decodes to when `bytes` follow: the buffered frame grows, and may be complete. */
    lemma Grows(bytes: seq<byte>)
      requires Valid() && !refused && 0 < |bytes| && Sane(consumed + bytes)
      requires |bytes| <= if recvDueSize == 0 then HEADER - recvOffset else recvDueSize - recvOffset
      ensures var p := Rest(consumed) + bytes;
        && Frames(consumed + bytes) == Frames(consumed) + (if HasFrame(p) then [p] else [])
        && Rest(consumed + bytes) == (if HasFrame(p) then [] else p)
        && (HEADER <= |p| ==> HEADER <= SizeField(p) <= MSG_MAX_LENGTH)
        && (HasFrame(p) ==> WellFormed(p))
    {
      FeedChunk(consumed, bytes);
    }

    /** The received bytes are stored; a complete frame is put on the queue. */
    method TakeIn(bytes: seq<byte>) returns (ok: bool)
      requires Valid() && queue.Valid() && !refused && 0 < |bytes| && Sane(consumed + bytes)
      requires |bytes| <= if recvDueSize == 0 then HEADER - recvOffset else recvDueSize - recvOffset
      modifies this`recvOffset, this`recvDueSize, this`consumed, this`accepted, this`refused
      modifies recvBuffer, queue, queue.data
      ensures Valid() && queue.Valid()
      ensures consumed == old(consumed) + bytes
      ensures refused == !ok
      ensures Progress(old(accepted), accepted, old(queue.Contents()), queue.Contents())
    {
      hide Frames, Rest, Sane, Flatten, Records;
      ghost var p, fs := Rest(consumed) + bytes, Frames(consumed);
      Grows(bytes);
      assert fs + [] == fs;
      Store(bytes);
      consumed := consumed + bytes;
      if recvDueSize == 0 && recvOffset == HEADER {
        recvDueSize := recvBuffer[0] as nat + 256 * recvBuffer[1] as nat;
      }
      assert Holds(p);
      if recvDueSize == recvOffset {
        ok := Finish(p, fs);
      } else {
        ok := true;
        ProgressNone(accepted, queue.Contents());
      }
    }

    method Finish(ghost p: Frame, ghost fs: seq<Frame>) returns (ok: bool)
      requires Apart() && queue.Valid() && !refused
      requires Holds(p) && WellFormed(p) && recvDueSize == |p|
      requires Sane(consumed) && Frames(consumed) == fs + [p] && Rest(consumed) == [] && Records(accepted, fs, ext)
      modifies this`recvOffset, this`recvDueSize, this`accepted, this`refused, recvBuffer, queue, queue.data
      ensures Valid() && queue.Valid()
      ensures refused == !ok
      ensures Progress(old(accepted), accepted, old(queue.Contents()), queue.Contents())
    {
      hide Frames, Rest, Sane, Flatten, Records, Progress, WithExt;
      ok := Deliver(p);
      if ok {
        ProgressOne(accepted, WithExt(p, ext), old(queue.Contents()));
        NoteAccepted(p, fs);
      } else {
        ProgressNone(accepted, old(queue.Contents()));
        NoteRefused(p, fs);
      }
    }

    ghost method NoteAccepted(p: Frame, fs: seq<Frame>)
      requires Apart() && !refused && WellFormed(p) && recvOffset == recvDueSize == 0
      requires Sane(consumed) && Frames(consumed) == fs + [p] && Rest(consumed) == [] && Records(accepted, fs, ext)
      modifies this`accepted
      ensures Valid() && accepted == old(accepted) + [WithExt(p, ext)]
    {
      hide Frames, Rest, Sane, Records, WithExt;
      RecordsMore(accepted, fs, ext, p);
      accepted := accepted + [WithExt(p, ext)];
      assert Admitted() == fs + [p];
    }

    ghost method NoteRefused(p: Frame, fs: seq<Frame>)
      requires Apart() && !refused && recvOffset == recvDueSize == |p| && WellFormed(p)
      requires Sane(consumed) && Frames(consumed) == fs + [p] && Records(accepted, fs, ext)
      modifies this`refused
      ensures Valid() && refused
    {
      hide Frames, Rest, Sane, Records, WithExt;
      refused := true;
      assert Admitted() == fs;
    }

    ghost predicate Progress(was: seq<Frame>, now: seq<Frame>, queueWas: seq<byte>, queueNow: seq<byte>) {
      var appended := was <= now && queueNow == queueWas + Flatten(now[|was|..]);
      appended
    }

    /** CNode::recv. */
    method Recv() returns (ok: bool)
      requires Valid() && queue.Valid() && Sane(consumed + socket.incoming)
      modifies this`recvOffset, this`recvDueSize, this`consumed, this`accepted, this`refused
      modifies recvBuffer, queue, queue.data, socket`incoming
      ensures Valid() && queue.Valid()
      ensures consumed + socket.incoming == old(consumed + socket.incoming)
      ensures refused ==> !ok
      ensures old(refused) ==> accepted == old(accepted)
      ensures Progress(old(accepted), accepted, old(queue.Contents()), queue.Contents())
    {
      hide Frames, Rest, Sane, Flatten, Records;
      ProgressNone(accepted, queue.Contents());
      ghost var stream := consumed + socket.incoming;
      while true
        invariant Valid() && queue.Valid()
        invariant consumed + socket.incoming == stream
        invariant refused == old(refused) && (refused ==> accepted == old(accepted))
        invariant Progress(old(accepted), accepted, old(queue.Contents()), queue.Contents())
        decreases |socket.incoming|
      {
        var n, bytes;
        if 0 == recvDueSize {
          n, bytes := socket.Read(HEADER - recvOffset);
        } else {
          n, bytes := socket.Read(recvDueSize - recvOffset);
        }
        if 0 == n {
          return false;
        }
        if 0 > n {
          return n == WOULD_BLOCK;
        }
        ghost var was, contents := accepted, queue.Contents();
        StreamSane(consumed, bytes, socket.incoming, stream);
        ok := TakeIn(bytes);
        ProgressTwice(old(accepted), was, accepted, old(queue.Contents()), contents, queue.Contents());
        if !ok {
          return false;
        }
      }
    }

    lemma ProgressNone(a: seq<Frame>, x: seq<byte>)
      ensures Progress(a, a, x, x) && Progress(a, a, x, x + [])
    {
      assert a[|a|..] == [] && Flatten([]) == [];
    }

    lemma ProgressOne(a: seq<Frame>, g: Frame, x: seq<byte>)
      ensures Progress(a, a + [g], x, x + g)
    {
      assert (a + [g])[|a|..] == [g];
      assert Flatten([g]) == g + Flatten([]) == g;
    }

    lemma ProgressTwice(a: seq<Frame>, b: seq<Frame>, c: seq<Frame>, x: seq<byte>, y: seq<byte>, z: seq<byte>)
      requires Progress(a, b, x, y) && Progress(b, c, y, z)
      ensures Progress(a, c, x, z)
    {
      FlattenAppend(b[|a|..], c[|b|..]);
      assert c[|a|..] == b[|a|..] + c[|b|..];
      assert (x + Flatten(b[|a|..])) + Flatten(c[|b|..]) == x + Flatten(c[|a|..]);
    }

    /** CNode::send: ext is not the peer's business. */
    method Send(msg: Frame) returns (ok: bool)
      requires WellFormed(msg)
      modifies socket`outgoing, socket`patience
      ensures WellFormed(WithExt(msg, NO_EXT))
      ensures ok ==> socket.outgoing == old(socket.outgoing) + WithExt(msg, NO_EXT)
      ensures !ok ==> exists k: nat | k < |msg| ::
        socket.outgoing == old(socket.outgoing) + WithExt(msg, NO_EXT)[..k]
    {
      ok := WriteAll(socket, WithExt(msg, NO_EXT));
    }
  }

  const NO_EXT: seq<byte> := [0, 0, 0, 0, 0, 0, 0, 0]

  /** The C client's connection_info. */
  class Connection {
    const socket: Socket
    const msgBuf: array<byte>
    var isConnected: bool
    var offset: nat
    var pendingSize: nat
    var received: seq<Frame>       // every message on_received was called with
    ghost var consumed: seq<byte>  // the bytes read since the connection was made

    constructor (socket: Socket)
      ensures Valid() && received == [] && consumed == [] && this.socket == socket && fresh(msgBuf)
    {
      this.socket := socket;
      msgBuf := new byte[MSG_MAX_LENGTH](_ => 0);
      isConnected, offset, pendingSize, received, consumed := true, 0, 0, [], [];
    }

    ghost predicate Valid()
      reads this, msgBuf
    {
      && msgBuf.Length == MSG_MAX_LENGTH
      && Sane(consumed)
      && received == Frames(consumed)
      && offset == |Rest(consumed)| <= MSG_MAX_LENGTH && msgBuf[..offset] == Rest(consumed)
      && Pending(Rest(consumed), pendingSize)
    }

    /** How long the frame will be, as far as is known. */
    ghost predicate Pending(p: seq<byte>, size: nat) {
      if |p| < HEADER then size == HEADER || (size == 0 && p == [])
      else size == SizeField(p) && |p| < size <= MSG_MAX_LENGTH
    }

    method Store(bytes: seq<byte>)
      requires offset + |bytes| <= msgBuf.Length
      modifies this`offset, msgBuf
      ensures offset == old(offset) + |bytes|
      ensures msgBuf[..offset] == old(msgBuf[..offset]) + bytes
    {
      forall i | 0 <= i < |bytes| {
        msgBuf[offset + i] := bytes[i];
      }
      offset := offset + |bytes|;
    }

    method TakeIn(bytes: seq<byte>)
      requires Valid() && 0 < |bytes| <= pendingSize - offset && Sane(consumed + bytes)
      modifies this`offset, this`pendingSize, this`received, this`consumed, msgBuf
      ensures Valid() && consumed == old(consumed) + bytes
    {
      FeedChunk(consumed, bytes);
      hide Frames, Rest, Sane;
      ghost var p, fs := Rest(consumed) + bytes, Frames(consumed);
      assert fs + [] == fs;
      Store(bytes);
      consumed := consumed + bytes;
      if offset == HEADER {
        var size := msgBuf[0] as nat + 256 * msgBuf[1] as nat;
        if size == HEADER {
          HandOn(p, fs);
        } else {
          pendingSize := size;
        }
      } else if pendingSize == offset {
        HandOn(p, fs);
      }
    }

    /** on_received, and start over. */
    method HandOn(ghost p: Frame, ghost fs: seq<Frame>)
      requires msgBuf.Length == MSG_MAX_LENGTH && Sane(consumed) && received == fs
      requires Frames(consumed) == fs + [p] && Rest(consumed) == []
      requires offset <= MSG_MAX_LENGTH && msgBuf[..offset] == p
      modifies this`offset, this`pendingSize, this`received
      ensures Valid() && received == fs + [p]
    {
      hide Frames, Rest, Sane;
      received := received + [msgBuf[..offset]];
      offset, pendingSize := 0, 0;
    }

    /** The for(;;) loop of _working that follows a readable socket. */
    method Receive() returns (alive: bool)
      requires Valid() && Sane(consumed + socket.incoming)
      modifies this`offset, this`pendingSize, this`received, this`consumed, this`isConnected
      modifies msgBuf, socket`incoming
      ensures Valid()
      ensures consumed + socket.incoming == old(consumed + socket.incoming)
      ensures old(received) <= received
      ensures !alive ==> !isConnected
    {
      hide Frames, Rest, Sane;
      ghost var stream := consumed + socket.incoming;
      while true
        invariant Valid() && consumed + socket.incoming == stream
        invariant old(received) <= received
        decreases |socket.incoming|
      {
        if 0 == pendingSize {
          pendingSize := HEADER;
        }
        var len, bytes := socket.Read(pendingSize - offset);
        if len == WOULD_BLOCK {
          return true;
        }
        if len <= 0 {
          isConnected := false;
          return false;
        }
        StreamSane(consumed, bytes, socket.incoming, stream);
        DecodeMore(consumed, bytes);
        TakeIn(bytes);
      }
    }

    /** cnn_send. */
    method Send(buffer: seq<byte>) returns (code: int)
      requires 0 < |buffer|
      modifies socket`outgoing, socket`patience
      ensures code == -1 <==> !isConnected
      ensures code == 0 ==> socket.outgoing == old(socket.outgoing) + buffer
      ensures code == -2 ==> exists k: nat | k < |buffer| :: socket.outgoing == old(socket.outgoing) + buffer[..k]
      ensures -2 <= code <= 0
    {
      if isConnected {
        var ok := WriteAll(socket, buffer);
        code := if ok then 0 else -2;
      } else {
        code := -1;
      }
    }
  }

  lemma StreamSane(a: seq<byte>, b: seq<byte>, c: seq<byte>, stream: seq<byte>)
    requires a + (b + c) == stream && Sane(stream)
    ensures Sane(a + b) && (a + b) + c == stream
  {
    assert a + (b + c) == (a + b) + c;
    SanePrefix(a + b, c);
  }
}
