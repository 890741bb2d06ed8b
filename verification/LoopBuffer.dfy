/** The byte ring buffer of src/common/CLoopBuffer.cpp, refined to a plain FIFO byte queue.

    Positions are offsets from the start of the buffer. The buffer is either LINEAR (the bytes are
    data[readPos..writePos]) or WRAPPED (data[readPos..actualSize] followed by data[..writePos]); in
    padding mode a wrapped buffer may have a hole of `padding` bytes behind actualSize. */
module LoopBuffers {

  import opened Prelude

  /** How many bytes a read takes: those wanted, or all there are. */
  function Taken(stored: nat, wanted: nat): (n: nat)
    ensures n <= stored && n <= wanted && (n == wanted || n == stored)
  {
    if wanted <= stored then wanted else stored
  }

  lemma Assoc(a: seq<byte>, b: seq<byte>, c: seq<byte>)
    ensures (a + b) + c == a + (b + c)
  {
  }

  lemma Slice(d: seq<byte>, k: nat, i: nat, j: nat)
    requires k <= i <= j <= |d|
    ensures d[i..j] == d[k..][i - k..j - k]
  {
  }

  lemma SplitRight(d: seq<byte>, r: nat, size: nat, a: nat, w: nat)
    requires r + size <= a <= |d| && w <= |d|
    ensures d[r..a] + d[..w] == d[r..r + size] + (d[r + size..a] + d[..w])
  {
  }

  lemma SplitLeft(d: seq<byte>, r: nat, k: nat, a: nat, w: nat)
    requires r <= a <= |d| && k <= w <= |d|
    ensures d[r..a] + d[..w] == (d[r..a] + d[..k]) + d[k..w]
  {
    assert d[..w] == d[..k] + d[k..w];
  }

  lemma SplitNew(stored: seq<byte>, added: seq<byte>, k: nat)
    requires k <= |added|
    ensures (stored + added[..k]) + added[k..] == stored + added
  {
    assert added == added[..k] + added[k..];
  }

  class LoopBuffer {
    const totalSize: nat
    const isPadding: bool
    const data: array<byte>
    var actualSize: nat
    var usedSize: nat
    var freeSize: nat
    var padding: nat
    var writePos: nat
    var readPos: nat
    // the history since the last reset
    ghost var accepted: seq<byte>
    ghost var delivered: seq<byte>

    ghost predicate Linear()
      reads this
    {
      && padding == 0
      && actualSize == totalSize
      && readPos <= writePos <= totalSize
      && usedSize == writePos - readPos
      && freeSize == totalSize - usedSize
    }

    ghost predicate Wrapped()
      reads this
    {
      && padding <= totalSize
      && actualSize == totalSize - padding
      && writePos <= readPos <= actualSize
      && freeSize == readPos - writePos
      && usedSize == actualSize - freeSize
      && 0 < actualSize
      && (padding > 0 ==> isPadding && 0 < writePos)
    }

    /** The counters and positions agree. */
    ghost predicate Shape()
      reads this
    {
      && 0 < totalSize == data.Length
      && (Linear() || Wrapped())
    }

    /** The queue of bytes the buffer stands for. */
    ghost function Contents(): (s: seq<byte>)
      requires Shape()
      reads this, data
      ensures |s| == usedSize
    {
      if Linear() then data[readPos..writePos] else data[readPos..actualSize] + data[..writePos]
    }

    /** In every state: what was accepted since the last reset is what was read, then what is stored. */
    ghost predicate Valid()
      reads this, data
      ensures Valid() ==> Shape()
    {
      var kept := Shape() && accepted == delivered + Contents();
      kept
    }

    /** The buffer has room for `size` more bytes: in padding mode they must fit in one piece. */
    ghost predicate Fits(size: nat): (fits: bool)
      requires Shape()
      reads this
      ensures !isPadding ==> fits == (size <= totalSize - usedSize)
      ensures fits <== 2 * size <= freeSize + 1 && size <= freeSize
    {
      && size <= freeSize
      && (isPadding && Linear() && freeSize > 0 ==> size <= totalSize - writePos || size <= readPos)
    }

    constructor (size: nat, isPadding: bool)
      requires 0 < size
      ensures Valid() && fresh(data)
      ensures totalSize == size && this.isPadding == isPadding
      ensures Contents() == []
    {
      totalSize, this.isPadding := size, isPadding;
      actualSize, usedSize, freeSize := size, 0, size;
      padding, writePos, readPos := 0, 0, 0;
      data := new byte[size](_ => 0);
      accepted, delivered := [], [];
    }

    /** memcpy from `src` to the buffer at `at`; what lies on either side stays. */
    method Copy(at: nat, src: seq<byte>)
      requires at + |src| <= data.Length
      modifies data
      ensures data[..at] == old(data[..at])
      ensures data[at..at + |src|] == src
      ensures data[at + |src|..] == old(data[at + |src|..])
    {
      forall i | 0 <= i < |src| {
        data[at + i] := src[i];
      }
    }

    /** memcpy right behind the bytes lo..at. */
    method Extend(lo: nat, at: nat, src: seq<byte>)
      requires lo <= at && at + |src| <= data.Length
      modifies data
      ensures data[lo..at + |src|] == old(data[lo..at]) + src
      ensures data[at + |src|..] == old(data[at + |src|..])
    {
      Copy(at, src);
      assert data[lo..at + |src|] == data[..at][lo..] + data[at..at + |src|];
      assert old(data[lo..at]) == old(data[..at])[lo..];
    }

    /** memcpy behind the first `at` bytes and below the bytes lo..hi. */
    method Fill(at: nat, src: seq<byte>, lo: nat, hi: nat)
      requires at + |src| <= lo <= hi <= data.Length
      modifies data
      ensures data[..at + |src|] == old(data[..at]) + src
      ensures data[lo..hi] == old(data[lo..hi])
    {
      ghost var was := data[..];
      Copy(at, src);
      assert data[..at + |src|] == data[..at] + data[at..at + |src|];
      Slice(was, at + |src|, lo, hi);
      Slice(data[..], at + |src|, lo, hi);
    }

    method Write(buffer: seq<byte>) returns (ok: bool)
      requires Valid() && 0 < |buffer|
      modifies this, data
      ensures Valid()
      ensures ok == old(Fits(|buffer|))
      ensures Contents() == if ok then old(Contents()) + buffer else old(Contents())
      ensures accepted == if ok then old(accepted) + buffer else old(accepted)
      ensures delivered == old(delivered)
    {
      if |buffer| > freeSize {
        return false;
      }
      if writePos >= readPos {
        ok := WriteLinear(buffer);
      } else {
        WriteWrapped(buffer);
        ok := true;
      }
      if ok {
        Assoc(delivered, old(Contents()), buffer);
        accepted := accepted + buffer;
      }
    }

    /** Write's branch for writePos < readPos. */
    method WriteWrapped(buffer: seq<byte>)
      requires Shape() && 0 < |buffer| <= freeSize && writePos < readPos
      modifies this`writePos, this`usedSize, this`freeSize, data
      ensures Shape() && Contents() == old(Contents()) + buffer
    {
      var size := |buffer|;
      assert readPos - writePos == freeSize;
      Assoc(data[readPos..actualSize], data[..writePos], buffer);
      Fill(writePos, buffer, readPos, actualSize);
      writePos := writePos + size;
      assert writePos <= readPos;
      usedSize := usedSize + size;
      freeSize := freeSize - size;
    }

    /** Write's branch for writePos >= readPos. */
    method WriteLinear(buffer: seq<byte>) returns (ok: bool)
      requires Shape() && 0 < |buffer| <= freeSize && readPos <= writePos
      modifies this`writePos, this`usedSize, this`freeSize, this`padding, this`actualSize, data
      ensures Shape()
      ensures ok == old(Fits(|buffer|))
      ensures Contents() == if ok then old(Contents()) + buffer else old(Contents())
    {
      var size := |buffer|;
      var rightSize, leftSize := totalSize - writePos, readPos;
      assert Linear();
      assert padding == 0 && actualSize == totalSize && freeSize <= totalSize;
      assert writePos - readPos == usedSize;
      assert rightSize + leftSize == freeSize;
      if rightSize >= size {
        Extend(readPos, writePos, buffer);
        writePos := writePos + size;
        usedSize := usedSize + size;
        freeSize := freeSize - size;
        ok := true;
      } else if isPadding {
        ok := WritePadded(buffer);
      } else {
        WriteAround(buffer);
        ok := true;
      }
    }

    /** The padding branch: leave a hole behind the bytes rather than split the new ones. */
    method WritePadded(buffer: seq<byte>) returns (ok: bool)
      requires Shape() && Linear() && isPadding && totalSize - writePos < |buffer| <= freeSize
      modifies this`writePos, this`usedSize, this`freeSize, this`padding, this`actualSize, data
      ensures Shape()
      ensures ok == (|buffer| <= old(readPos))
      ensures Contents() == if ok then old(Contents()) + buffer else old(Contents())
    {
      if |buffer| > readPos {
        return false;
      }
      padding := totalSize - writePos;
      actualSize := actualSize - padding;
      freeSize := freeSize - padding;
      assert freeSize == readPos;
      Fill(0, buffer, readPos, actualSize);
      writePos := |buffer|;
      usedSize := usedSize + |buffer|;
      freeSize := freeSize - |buffer|;
      return true;
    }

    /** The other branch: split the new bytes over the end of the buffer. */
    method WriteAround(buffer: seq<byte>)
      requires Shape() && Linear() && !isPadding && totalSize - writePos < |buffer| <= freeSize
      modifies this`writePos, this`usedSize, this`freeSize, data
      ensures Shape() && Contents() == old(Contents()) + buffer
    {
      var rightSize := totalSize - writePos;
      SplitNew(data[readPos..writePos], buffer, rightSize);
      Extend(readPos, writePos, buffer[..rightSize]);
      Fill(0, buffer[rightSize..], readPos, totalSize);
      writePos := |buffer| - rightSize;
      usedSize := usedSize + |buffer|;
      freeSize := freeSize - |buffer|;
    }

    method Read(wanted: nat) returns (bytes: seq<byte>)
      requires Valid() && 0 < wanted
      modifies this
      ensures Valid()
      ensures old(Contents()) == bytes + Contents()
      ensures |bytes| == Taken(old(usedSize), wanted)
      ensures delivered == old(delivered) + bytes
      ensures accepted == old(accepted)
    {
      bytes := Take(wanted);
      Assoc(delivered, bytes, Contents());
      delivered := delivered + bytes;
    }

    method Take(wanted: nat) returns (bytes: seq<byte>)
      requires Shape() && 0 < wanted
      modifies this`actualSize, this`usedSize, this`freeSize, this`padding, this`readPos
      ensures Shape()
      ensures old(Contents()) == bytes + Contents()
      ensures |bytes| == Taken(old(usedSize), wanted)
    {
      if usedSize == 0 {
        return [];
      }
      if writePos > readPos {
        bytes := ReadLinear(if wanted > usedSize then usedSize else wanted);
      } else {
        bytes := ReadWrapped(wanted);
      }
    }

    /** Read's branch for writePos > readPos. */
    method ReadLinear(size: nat) returns (bytes: seq<byte>)
      requires Shape() && Linear() && 0 < size <= usedSize
      modifies this`usedSize, this`freeSize, this`readPos
      ensures Shape()
      ensures old(Contents()) == bytes + Contents() && |bytes| == size
    {
      assert padding == 0 && writePos - readPos == usedSize;
      bytes := data[readPos..readPos + size];
      readPos := readPos + size;
      usedSize := usedSize - size;
      freeSize := freeSize + size;
    }

    /** Read's branch for writePos <= readPos in a buffer that is not empty. */
    method ReadWrapped(wanted: nat) returns (bytes: seq<byte>)
      requires Shape() && 0 < wanted && 0 < usedSize && writePos <= readPos
      modifies this`actualSize, this`usedSize, this`freeSize, this`padding, this`readPos
      ensures Shape()
      ensures old(Contents()) == bytes + Contents()
      ensures |bytes| == Taken(old(usedSize), wanted)
    {
      assert Wrapped();
      assert readPos - writePos == freeSize;
      assert actualSize == totalSize - padding;
      assert actualSize - readPos + writePos == usedSize;
      if actualSize - readPos >= wanted {
        bytes := ReadRight(wanted);
      } else {
        bytes := ReadAround(if usedSize < wanted then usedSize else wanted);
      }
    }

    /** The bytes up to the end of the buffer, or of its used part, are enough. */
    method ReadRight(size: nat) returns (bytes: seq<byte>)
      requires Shape() && Wrapped() && 0 < usedSize && 0 < size <= actualSize - readPos
      modifies this`actualSize, this`usedSize, this`freeSize, this`padding, this`readPos
      ensures Shape()
      ensures old(Contents()) == bytes + Contents() && |bytes| == size
    {
      bytes := Advance(size);
      if actualSize == readPos && padding > 0 {
        ReleaseHole();
      }
    }

    method Advance(size: nat) returns (bytes: seq<byte>)
      requires Shape() && Wrapped() && 0 < usedSize && 0 < size <= actualSize - readPos
      modifies this`usedSize, this`freeSize, this`readPos
      ensures Shape() && Wrapped()
      ensures old(Contents()) == bytes + Contents() && |bytes| == size
    {
      SplitRight(data[..], readPos, size, actualSize, writePos);
      bytes := data[readPos..readPos + size];
      usedSize := usedSize - size;
      freeSize := freeSize + size;
      readPos := readPos + size;
    }

    /** All bytes in front of the hole are read: the hole is free space again. */
    method ReleaseHole()
      requires Shape() && Wrapped() && 0 < padding && readPos == actualSize
      modifies this`actualSize, this`freeSize, this`padding, this`readPos
      ensures Shape() && Contents() == old(Contents())
    {
      actualSize := actualSize + padding;
      freeSize := freeSize + padding;
      padding := 0;
      readPos := 0;
      assert data[0..writePos] == data[..writePos];
    }

    /** The read goes on at the start of the buffer; a hole left by padding is free again. */
    method ReadAround(size: nat) returns (bytes: seq<byte>)
      requires Shape() && Wrapped() && 0 < usedSize && actualSize - readPos <= size <= usedSize
      modifies this`actualSize, this`usedSize, this`freeSize, this`padding, this`readPos
      ensures Shape()
      ensures old(Contents()) == bytes + Contents() && |bytes| == size
    {
      var leftTaken := size - (actualSize - readPos);
      SplitLeft(data[..], readPos, leftTaken, actualSize, writePos);
      bytes := data[readPos..actualSize] + data[..leftTaken];
      readPos := leftTaken;
      if padding > 0 {
        actualSize := actualSize + padding;
        freeSize := freeSize + padding;
        padding := 0;
      }
      usedSize := usedSize - size;
      freeSize := freeSize + size;
      assert Linear();
    }

    method Reset()
      requires Valid()
      modifies this
      ensures Valid()
      ensures Contents() == [] && freeSize == totalSize
      ensures accepted == delivered == []
    {
      actualSize, usedSize, freeSize := totalSize, 0, totalSize;
      padding, writePos, readPos := 0, 0, 0;
      accepted, delivered := [], [];
    }
  }
}
