/** The mirrored ring buffer: one block of memory mapped twice, back to back, so that virtual index i and
    virtual index i + size name the same byte. The double mapping is the trusted memory contract. */
module Rings {
  import opened Framing

  /** The physical byte behind a virtual index. */
  function Phys(size: nat, i: nat): (p: nat)
    requires i < 2 * size
    ensures p < size
  {
    if i < size then i else i - size
  }

  /** The `len` bytes a reader sees at virtual address `off`. */
  ghost function Window(ring: seq<byte>, off: nat, len: nat): (w: seq<byte>)
    requires off + len <= 2 * |ring|
    ensures |w| == len
    ensures forall k :: 0 <= k < len ==> w[k] == ring[Phys(|ring|, off + k)]
  {
    seq(len, k requires 0 <= k < len => ring[Phys(|ring|, off + k)])
  }

  /** Memory after a copy of `bytes` to virtual address `off`. */
  ghost function Overwritten(ring: seq<byte>, off: nat, bytes: seq<byte>): (r: seq<byte>)
    requires |bytes| <= |ring| && off + |bytes| <= 2 * |ring|
    ensures |r| == |ring|
    ensures forall i :: 0 <= i < |ring| ==> r[i] == ByteAfter(ring, off, bytes, i)
  {
    seq(|ring|, i requires 0 <= i < |ring| => ByteAfter(ring, off, bytes, i))
  }

  ghost function ByteAfter(ring: seq<byte>, off: nat, bytes: seq<byte>, i: nat): byte
    requires |bytes| <= |ring| && i < |ring|
  {
    if off <= i < off + |bytes| then bytes[i - off]
    else if off <= i + |ring| < off + |bytes| then bytes[i + |ring| - off]
    else ring[i]
  }

  /** A copy placed right behind a window extends the window, and freezes every byte already in it, as long as
      old and new bytes together fit the ring. */
  lemma CopyAppends(ring: seq<byte>, off: nat, len: nat, bytes: seq<byte>)
    requires len + |bytes| <= |ring| && off + len + |bytes| <= 2 * |ring|
    ensures Window(Overwritten(ring, off + len, bytes), off, len + |bytes|) == Window(ring, off, len) + bytes
    ensures forall n :: 0 <= n <= len ==> Window(Overwritten(ring, off + len, bytes), off, n) == Window(ring, off, n)
  {
  }

  /** Rebasing: lowering both ends of a window by the ring size shows the same bytes. */
  lemma Rebase(ring: seq<byte>, off: nat, len: nat)
    requires |ring| <= off && off + len <= 2 * |ring|
    ensures Window(ring, off - |ring|, len) == Window(ring, off, len)
  {
  }

  lemma WindowSplit(ring: seq<byte>, off: nat, len: nat, n: nat)
    requires off + len <= 2 * |ring| && n <= len
    ensures Window(ring, off, len)[..n] == Window(ring, off, n)
    ensures Window(ring, off, len)[n..] == Window(ring, off + n, len - n)
  {
  }

  class MirroredRingBuffer {
    const size: nat
    const data: array<byte>

    ghost predicate Valid() {
      HEADER_SIZE <= size < 0x1_0000_0000 && data.Length == size
    }

    /** The mapping object's size is passed as a 32-bit value and is a positive multiple of the allocation
        granularity, hence larger than a header. */
    constructor (size: nat)
      requires HEADER_SIZE <= size < 0x1_0000_0000
      ensures Valid() && this.size == size && fresh(data)
    {
      this.size := size;
      data := new byte[size];
    }

    function At(i: nat): (b: byte)
      requires Valid() && i < 2 * size
      reads data
      ensures b == data[..][Phys(size, i)]
    {
      data[Phys(size, i)]
    }

    ghost function View(off: nat, len: nat): (w: seq<byte>)
      requires Valid() && off + len <= 2 * size
      reads data
      ensures |w| == len
    {
      Window(data[..], off, len)
    }

    /** memcpy into the doubled address range. */
    method CopyIn(off: nat, bytes: seq<byte>)
      requires Valid() && |bytes| <= size && off + |bytes| <= 2 * size
      modifies data
      ensures data[..] == Overwritten(old(data[..]), off, bytes)
    {
      var k := 0;
      while k < |bytes|
        invariant k <= |bytes|
        invariant forall i :: 0 <= i < size ==> data[i] == ByteAfter(old(data[..]), off, bytes[..k], i)
      {
        data[Phys(size, off + k)] := bytes[k];
        k := k + 1;
      }
      assert bytes[..k] == bytes;
    }

    /** memcpy out of the doubled address range. */
    method CopyOut(off: nat, len: nat) returns (bytes: seq<byte>)
      requires Valid() && off + len <= 2 * size
      ensures bytes == View(off, len)
    {
      bytes := [];
      while |bytes| < len
        invariant |bytes| <= len
        invariant bytes == View(off, |bytes|)
      {
        bytes := bytes + [At(off + |bytes|)];
      }
    }
  }
}
