/** The packet pool's memory: slots side by side, each a packet block followed by the pool's own fields, and the copies
    that put packets into blocks. */
module Blocks {
  import opened Framing

  // The layout of a slot of `PacketBlock`: the block, an 8-byte handle, an 8-byte count.
  const HANDLE_AT: nat := MAX_PACKET_SIZE
  const COUNT_AT: nat := HANDLE_AT + 8
  const SLOT_SIZE: nat := COUNT_AT + 8

  /** Memory goes on behind the last slot, for whatever a 16-bit size may announce there. */
  const BEHIND: nat := 0x1_0000

  /** Where the block of a slot starts. */
  function BlockOf(slot: nat): nat {
    slot * SLOT_SIZE
  }

  /** Memory after memcpy of `bytes` to address `at`. */
  function Overlaid(memory: seq<byte>, at: nat, bytes: seq<byte>): (m: seq<byte>)
    requires at + |bytes| <= |memory|
    ensures |m| == |memory|
    ensures forall i :: 0 <= i < |m| ==> m[i] == if at <= i < at + |bytes| then bytes[i - at] else memory[i]
  {
    memory[..at] + bytes + memory[at + |bytes|..]
  }

  /** Copying the packet into the slot does not change the byte at offset i of the slot. */
  ghost predicate SparesByte(memory: seq<byte>, slot: nat, packet: seq<byte>, i: nat)
    requires BlockOf(slot) + |packet| <= |memory| && BlockOf(slot) + i < |memory|
  {
    Overlaid(memory, BlockOf(slot), packet)[BlockOf(slot) + i] == memory[BlockOf(slot) + i]
  }

  /** Whatever the memory holds, copying the packet into the slot changes no byte at offsets from..to of the slot. */
  ghost predicate Spares(n: nat, slot: nat, packet: seq<byte>, from: nat, to: nat)
    requires BlockOf(slot) + |packet| <= n && BlockOf(slot) + to <= n
  {
    forall memory: seq<byte>, i: nat :: |memory| == n && from <= i < to ==> SparesByte(memory, slot, packet, i)
  }

  /** ... nor any byte before the slot. */
  lemma EarlierSlotsSpared(memory: seq<byte>, slot: nat, packet: seq<byte>)
    requires BlockOf(slot) + |packet| <= |memory|
    ensures Overlaid(memory, BlockOf(slot), packet)[..BlockOf(slot)] == memory[..BlockOf(slot)]
  {
  }

  /** A stretch of the slot and what follows it is spared by exactly the packets that end before it. */
  lemma SparesIff(n: nat, slot: nat, packet: seq<byte>, from: nat, to: nat)
    requires BlockOf(slot) + |packet| <= n && BlockOf(slot) + to <= n && from < to
    ensures Spares(n, slot, packet, from, to) <==> |packet| <= from
  {
    if |packet| > from {
      var memory: seq<byte> := seq(n, _ => if packet[from] == 0 then 1 else 0);
      assert !SparesByte(memory, slot, packet, from);
    }
  }

  /** A copy stays inside its block, whatever the memory: nothing behind the block changes either. */
  ghost predicate StaysInBlock(n: nat, slot: nat, packet: seq<byte>)
    requires BlockOf(slot) + |packet| <= n && BlockOf(slot) + SLOT_SIZE <= n
  {
    Spares(n, slot, packet, HANDLE_AT, n - BlockOf(slot))
  }

  /** How far a copy reaches: it stays inside its block up to 1024 bytes, reaches the handle field, which nothing reads
      in a slot of packets, with the 1025th byte, the count with the 1033rd, and the next slot with the 1041st. */
  lemma CopyReaches(n: nat, slot: nat, packet: seq<byte>)
    requires BlockOf(slot) + |packet| <= n && BlockOf(slot + 2) <= n
    ensures StaysInBlock(n, slot, packet) <==> |packet| <= 1024
    ensures Spares(n, slot, packet, HANDLE_AT, COUNT_AT) <==> |packet| <= 1024
    ensures Spares(n, slot, packet, COUNT_AT, SLOT_SIZE) <==> |packet| <= 1032
    ensures Spares(n, slot, packet, SLOT_SIZE, 2 * SLOT_SIZE) <==> |packet| <= 1040
  {
    SparesIff(n, slot, packet, HANDLE_AT, n - BlockOf(slot));
    SparesIff(n, slot, packet, HANDLE_AT, COUNT_AT);
    SparesIff(n, slot, packet, COUNT_AT, SLOT_SIZE);
    SparesIff(n, slot, packet, SLOT_SIZE, 2 * SLOT_SIZE);
  }

  /** The packet held at the start of a slot. */
  predicate Holds(memory: seq<byte>, slot: nat, packet: seq<byte>) {
    BlockOf(slot) + |packet| <= |memory| && memory[BlockOf(slot)..BlockOf(slot) + |packet|] == packet
  }

  /** Copies into other slots leave a packet alone, as long as all of them end before the next slot. */
  lemma FittingCopiesKeep(memory: seq<byte>, slot: nat, packet: seq<byte>, other: nat, bytes: seq<byte>)
    requires Holds(memory, slot, packet) && other != slot && BlockOf(other) + |bytes| <= |memory|
    requires |packet| <= SLOT_SIZE && |bytes| <= SLOT_SIZE
    ensures Holds(Overlaid(memory, BlockOf(other), bytes), slot, packet)
  {
  }

  function HeaderAt(memory: seq<byte>, slot: nat): (h: seq<byte>)
    requires BlockOf(slot) + HEADER_SIZE <= |memory|
    ensures |h| == HEADER_SIZE && forall k :: 0 <= k < HEADER_SIZE ==> h[k] == memory[BlockOf(slot) + k]
  {
    memory[BlockOf(slot)..BlockOf(slot) + HEADER_SIZE]
  }

  /** The size and id that a header at the start of a slot announces. */
  function SizeAt(memory: seq<byte>, slot: nat): (n: nat)
    requires BlockOf(slot) + HEADER_SIZE <= |memory|
    ensures n < 0x1_0000
  {
    SizeField(HeaderAt(memory, slot))
  }

  function IdAt(memory: seq<byte>, slot: nat): nat
    requires BlockOf(slot) + HEADER_SIZE <= |memory|
  {
    IdField(HeaderAt(memory, slot))
  }

  /** The whole packet announced, wherever it ends, is inside the memory. */
  predicate Reads(memory: seq<byte>, slot: nat) {
    BlockOf(slot) + HEADER_SIZE <= |memory| && BlockOf(slot) + SizeAt(memory, slot) <= |memory|
  }

  /** As many bytes from the start of a slot as the header there announces. */
  function PacketAt(memory: seq<byte>, slot: nat): seq<byte>
    requires Reads(memory, slot)
  {
    memory[BlockOf(slot)..BlockOf(slot) + SizeAt(memory, slot)]
  }

  /** A slot that holds a packet with a truthful size is read as that packet. */
  lemma HeldIsRead(memory: seq<byte>, slot: nat, packet: seq<byte>)
    requires Holds(memory, slot, packet) && HEADER_SIZE <= |packet| == SizeField(packet)
    ensures Reads(memory, slot) && PacketAt(memory, slot) == packet && IdAt(memory, slot) == IdField(packet)
  {
    var at := BlockOf(slot);
    var held := memory[at..at + |packet|];
    assert held[0] == memory[at] && held[1] == memory[at + 1] && held[2] == memory[at + 2] && held[3] == memory[at + 3];
  }

  class PacketPool {
    const memory: array<byte>

    constructor (slots: nat)
      ensures fresh(memory) && memory.Length == BlockOf(slots) + BEHIND
    {
      memory := new byte[BlockOf(slots) + BEHIND];
    }

    /** `AcquirePacket(header)`: `header.size` bytes are copied to the slot's block, whatever the size. */
    method AcquirePacket(slot: nat, packet: seq<byte>)
      requires BlockOf(slot) + |packet| <= memory.Length
      modifies memory
      ensures memory[..] == Overlaid(old(memory[..]), BlockOf(slot), packet)
      ensures Holds(memory[..], slot, packet)
    {
      var k := 0;
      while k < |packet|
        invariant k <= |packet|
        invariant memory[..] == Overlaid(old(memory[..]), BlockOf(slot), packet[..k])
      {
        memory[BlockOf(slot) + k] := packet[k];
        k := k + 1;
      }
      assert packet[..k] == packet;
    }

    /** Looks at the header at the start of a slot. */
    method ReadHeader(slot: nat) returns (size: nat, id: nat)
      requires BlockOf(slot) + HEADER_SIZE <= memory.Length
      ensures size == SizeAt(memory[..], slot) && id == IdAt(memory[..], slot)
    {
      var at := BlockOf(slot);
      size := (memory[at] as int) + 256 * (memory[at + 1] as int);
      id := (memory[at + 2] as int) + 256 * (memory[at + 3] as int);
    }

    /** Reads the packet a slot's header announces. */
    method ReadPacket(slot: nat) returns (packet: seq<byte>)
      requires Reads(memory[..], slot)
      ensures packet == PacketAt(memory[..], slot)
    {
      var size, _ := ReadHeader(slot);
      packet := memory[BlockOf(slot)..BlockOf(slot) + size];
    }

    /** The second copy, in `Execute`: as many bytes as the header in the first copy's slot announces. */
    method CopyAgain(slot: nat, copy: nat, ghost packet: seq<byte>)
      requires Reads(memory[..], slot) && BlockOf(copy) + SizeAt(memory[..], slot) <= memory.Length
      modifies memory
      ensures memory[..] == Overlaid(old(memory[..]), BlockOf(copy), PacketAt(old(memory[..]), slot))
      ensures Holds(old(memory[..]), slot, packet) && HEADER_SIZE <= |packet| == SizeField(packet) ==>
                Holds(memory[..], copy, packet)
    {
      ghost var before := memory[..];
      var bytes := ReadPacket(slot);
      if Holds(before, slot, packet) && HEADER_SIZE <= |packet| == SizeField(packet) {
        HeldIsRead(before, slot, packet);
      }
      hide Holds;
      AcquirePacket(copy, bytes);
    }
  }
}
