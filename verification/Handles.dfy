/** Generational handles: a slot index in the low 32 bits, a wrapping generation in the high 32 bits. */
module Handles {

  const TWO_32: nat := 0x1_0000_0000
  const TWO_64: nat := 0x1_0000_0000_0000_0000

  type uint32 = x: int | 0 <= x < TWO_32
  type uint64 = x: int | 0 <= x < TWO_64

  /** All bits set; its slot half is the largest 32-bit value, which no pool of at most 2^32 - 1 slots contains. */
  const INVALID_HANDLE: uint64 := TWO_64 - 1

  function Who(handle: uint64): uint32 {
    handle % TWO_32
  }

  function Generation(handle: uint64): uint32 {
    handle / TWO_32
  }

  /** `(generation << 32) | who`: the two halves have no bit in common, so the bitwise or is a sum. */
  function MakeHandle(generation: uint32, who: uint32): (handle: uint64)
    ensures Who(handle) == who && Generation(handle) == generation
    ensures handle % 0x1_0000_0000 == who && handle / 0x1_0000_0000 == generation
  {
    generation * TWO_32 + who
  }

  /** Unsigned 32-bit increment. */
  function NextGeneration(generation: uint32): uint32 {
    (generation + 1) % TWO_32
  }

  /** The generation after so many increments. */
  function Later(generation: uint32, increments: nat): uint32 {
    (generation + increments) % TWO_32
  }

  /** Wrapping once after each increment is wrapping once at the end. */
  lemma LaterNext(generation: uint32, increments: nat)
    ensures Later(NextGeneration(generation), increments) == Later(generation, increments + 1)
  {
  }

  lemma LaterNow(generation: uint32)
    ensures Later(generation, 0) == generation
  {
  }

  /** Decoding and encoding are mutually inverse on all 64-bit values. */
  lemma HandleCodecInverse(handle: uint64, generation: uint32, who: uint32)
    ensures MakeHandle(Generation(handle), Who(handle)) == handle
    ensures MakeHandle(generation, who) == handle <==> generation == Generation(handle) && who == Who(handle)
  {
  }

  /** The invalid handle is the encoding of exactly one pair, whose slot half is out of range for every pool. */
  lemma InvalidHandleDecodes()
    ensures Who(INVALID_HANDLE) == TWO_32 - 1 && Generation(INVALID_HANDLE) == TWO_32 - 1
  {
  }
}
