/** The declarations shared by the host program and the scan shader: the
    per-partition descriptor record and the compile-time block shape. */
module PrefixSum {
  import opened Types
  import Helper

  // ---------------------------------------------------------------------------
  // The descriptor record
  // ---------------------------------------------------------------------------

  /** `ELEMT`: `unsigned int` in C++ and `uint` in the shader, 32 bits in both. */
  type Elem = u32

  /** One slot of the descriptor table: a signed status word, the block's
      aggregate, its inclusive prefix and an explicit padding word. */
  datatype ProcessorDescriptor = ProcessorDescriptor(
    status: i32,
    blockAggregate: Elem,
    blockInclusivePrefix: Elem,
    pad: Elem)

  /** Sum of two elements as the 32-bit unsigned fields store it. */
  function AddElem(a: Elem, b: Elem): Elem {
    (a + b) % U32_MODULUS
  }

  /** The stored sum falls below an operand exactly when the true sum does not fit. */
  lemma AddElemWrapsOnOverflow(a: Elem, b: Elem)
    ensures AddElem(a, b) == (if a + b < U32_MODULUS then a + b else a + b - U32_MODULUS)
    ensures AddElem(a, b) < a <==> a + b >= U32_MODULUS
  {
  }

  // ---------------------------------------------------------------------------
  // Block shape
  // ---------------------------------------------------------------------------

  const WARP_SIZE: nat := 32
  const NUM_VALUES_PER_THREAD: nat := 16
  const NUM_THREADS_PER_BLOCK: nat := 128

  /** Input elements covered by one block (partition). */
  const ELEMENTS_PER_BLOCK: nat := NUM_VALUES_PER_THREAD * NUM_THREADS_PER_BLOCK

  /** A block is 2048 elements and a whole number (4) of warps. */
  lemma BlockShape()
    ensures ELEMENTS_PER_BLOCK == 2048
    ensures NUM_THREADS_PER_BLOCK % WARP_SIZE == 0
    ensures NUM_THREADS_PER_BLOCK / WARP_SIZE == 4
  {
  }

  /** Number of blocks for `n` inputs, by the ceiling rule for the partition count: `divideRoundUp(n, elements per block)`. */
  function NumBlocks(n: i32): (blocks: i32)
    requires 0 <= n <= I32_MAX - ELEMENTS_PER_BLOCK as int
  {
    Helper.DivideRoundUp(n, ELEMENTS_PER_BLOCK as i32)
  }

  /** The blocks cover the input, the last block is never empty, and every input
      index `k` falls into block `k / ELEMENTS_PER_BLOCK`, one of the counted ones. */
  lemma NumBlocksCoversInput(n: i32)
    requires 0 <= n <= I32_MAX - ELEMENTS_PER_BLOCK as int
    ensures NumBlocks(n) * ELEMENTS_PER_BLOCK >= n
    ensures (NumBlocks(n) - 1) * ELEMENTS_PER_BLOCK < n || n == 0
    ensures n == 0 <==> NumBlocks(n) == 0
    ensures forall k :: 0 <= k < n ==> k / ELEMENTS_PER_BLOCK < NumBlocks(n)
  {
    var q := NumBlocks(n);
    forall k | 0 <= k < n
      ensures k / ELEMENTS_PER_BLOCK < q
    {
      Helper.DivMod(k, ELEMENTS_PER_BLOCK);
      Helper.LessMul(k / ELEMENTS_PER_BLOCK, q, ELEMENTS_PER_BLOCK);
    }
    if n == 0 {
      Helper.DivUnique(ELEMENTS_PER_BLOCK - 1, ELEMENTS_PER_BLOCK, 0, ELEMENTS_PER_BLOCK - 1);
    }
  }

  /** The driver's input size, 2048 x 2048 elements. */
  const NUM_INPUTS: i32 := 2048 * 2048

  /** The driver's input splits into exactly 2048 full blocks. */
  lemma DriverInputBlocks()
    ensures NUM_INPUTS % ELEMENTS_PER_BLOCK == 0
    ensures NumBlocks(NUM_INPUTS) == 2048
    ensures NumBlocks(NUM_INPUTS) * ELEMENTS_PER_BLOCK == NUM_INPUTS
  {
    Helper.DivUnique(NUM_INPUTS + ELEMENTS_PER_BLOCK - 1, ELEMENTS_PER_BLOCK, 2048, ELEMENTS_PER_BLOCK - 1);
  }

  // ---------------------------------------------------------------------------
  // Byte layout shared by host and shader
  // ---------------------------------------------------------------------------

  /** Each field is one 32-bit word; a slot is four of them. */
  const FIELD_SIZE: nat := 4
  const DESCRIPTOR_SIZE: nat := 16
  const STATUS_OFFSET: nat := 0
  const BLOCK_AGGREGATE_OFFSET: nat := 4
  const BLOCK_INCLUSIVE_PREFIX_OFFSET: nat := 8
  const PAD_OFFSET: nat := 12

  function Pow256(n: nat): (r: nat)
    ensures r >= 1
  {
    if n == 0 then 1 else 256 * Pow256(n - 1)
  }

  /** The `n` low-order bytes of `x`, least significant first. */
  function LittleEndian(x: nat, n: nat): (bs: seq<byte>)
    ensures |bs| == n
  {
    if n == 0 then [] else [x % 256] + LittleEndian(x / 256, n - 1)
  }

  /** The number that a little-endian byte string denotes. */
  function FromLittleEndian(bs: seq<byte>): (x: nat)
    ensures x < Pow256(|bs|)
  {
    if |bs| == 0 then 0
    else
      var rest := FromLittleEndian(bs[1..]);
      Helper.MulLe(rest, Pow256(|bs| - 1) - 1, 256);
      bs[0] + 256 * rest
  }

  lemma {:induction false} FromLittleEndianOfLittleEndian(x: nat, n: nat)
    requires x < Pow256(n)
    ensures FromLittleEndian(LittleEndian(x, n)) == x
  {
    if n > 0 {
      Helper.DivMod(x, 256);
      Helper.LessMul(x / 256, Pow256(n - 1), 256);
      FromLittleEndianOfLittleEndian(x / 256, n - 1);
      assert LittleEndian(x, n)[1..] == LittleEndian(x / 256, n - 1);
    }
  }

  lemma {:induction false} LittleEndianOfFromLittleEndian(bs: seq<byte>)
    ensures LittleEndian(FromLittleEndian(bs), |bs|) == bs
  {
    if |bs| > 0 {
      var rest := FromLittleEndian(bs[1..]);
      Helper.DivUnique(FromLittleEndian(bs), 256, rest, bs[0]);
      LittleEndianOfFromLittleEndian(bs[1..]);
    }
  }

  /** The status word's bit pattern (two's complement). */
  function StatusBits(s: i32): u32 {
    if s < 0 then s + U32_MODULUS else s
  }

  function StatusFromBits(u: u32): i32 {
    if u > I32_MAX then u - U32_MODULUS else u
  }

  /** The 32-bit word stored at byte `offset`. */
  function WordAt(bs: seq<byte>, offset: nat): u32
    requires offset + FIELD_SIZE <= |bs|
  {
    FromLittleEndian(bs[offset..offset + FIELD_SIZE])
  }

  /** The 16 bytes of one slot, fields in declaration order, each a little-endian
      word: the layout of a little-endian host, which the model fixes. */
  function Encode(d: ProcessorDescriptor): (bs: seq<byte>)
    ensures |bs| == DESCRIPTOR_SIZE
  {
    LittleEndian(StatusBits(d.status), FIELD_SIZE)
      + LittleEndian(d.blockAggregate, FIELD_SIZE)
      + LittleEndian(d.blockInclusivePrefix, FIELD_SIZE)
      + LittleEndian(d.pad, FIELD_SIZE)
  }

  function Decode(bs: seq<byte>): ProcessorDescriptor
    requires |bs| == DESCRIPTOR_SIZE
  {
    ProcessorDescriptor(
      StatusFromBits(WordAt(bs, STATUS_OFFSET)),
      WordAt(bs, BLOCK_AGGREGATE_OFFSET),
      WordAt(bs, BLOCK_INCLUSIVE_PREFIX_OFFSET),
      WordAt(bs, PAD_OFFSET))
  }

  /** status, blockAggregate, blockInclusivePrefix and pad sit at byte offsets
      0, 4, 8 and 12 of the 16-byte slot. */
  lemma FieldOffsets(d: ProcessorDescriptor)
    ensures StatusFromBits(WordAt(Encode(d), STATUS_OFFSET)) == d.status
    ensures WordAt(Encode(d), BLOCK_AGGREGATE_OFFSET) == d.blockAggregate
    ensures WordAt(Encode(d), BLOCK_INCLUSIVE_PREFIX_OFFSET) == d.blockInclusivePrefix
    ensures WordAt(Encode(d), PAD_OFFSET) == d.pad
  {
    var bs := Encode(d);
    assert bs[0..4] == LittleEndian(StatusBits(d.status), 4);
    assert bs[4..8] == LittleEndian(d.blockAggregate, 4);
    assert bs[8..12] == LittleEndian(d.blockInclusivePrefix, 4);
    assert bs[12..16] == LittleEndian(d.pad, 4);
    FromLittleEndianOfLittleEndian(StatusBits(d.status), 4);
    FromLittleEndianOfLittleEndian(d.blockAggregate, 4);
    FromLittleEndianOfLittleEndian(d.blockInclusivePrefix, 4);
    FromLittleEndianOfLittleEndian(d.pad, 4);
  }

  /** Reading a slot back gives the record that was written. */
  lemma DecodeEncode(d: ProcessorDescriptor)
    ensures Decode(Encode(d)) == d
  {
    FieldOffsets(d);
  }

  lemma WordAtRoundTrip(bs: seq<byte>, offset: nat)
    requires offset + FIELD_SIZE <= |bs|
    ensures LittleEndian(WordAt(bs, offset), FIELD_SIZE) == bs[offset..offset + FIELD_SIZE]
  {
    LittleEndianOfFromLittleEndian(bs[offset..offset + FIELD_SIZE]);
  }

  lemma StatusBitsOfStatusFromBits(u: u32)
    ensures StatusBits(StatusFromBits(u)) == u
  {
  }

  /** The encoding of the record whose fields are read from the four words. */
  lemma EncodeOfWords(w0: u32, w1: u32, w2: u32, w3: u32)
    ensures Encode(ProcessorDescriptor(StatusFromBits(w0), w1, w2, w3))
      == LittleEndian(w0, FIELD_SIZE) + LittleEndian(w1, FIELD_SIZE)
         + LittleEndian(w2, FIELD_SIZE) + LittleEndian(w3, FIELD_SIZE)
  {
    StatusBitsOfStatusFromBits(w0);
  }

  /** A slot is the concatenation of its four words. */
  lemma SlotSplit(bs: seq<byte>)
    requires |bs| == DESCRIPTOR_SIZE
    ensures bs == bs[0..4] + bs[4..8] + bs[8..12] + bs[12..16]
  {
  }

  /** A slot is its four words, each the little-endian bytes of its value. */
  lemma SlotOfWords(bs: seq<byte>)
    requires |bs| == DESCRIPTOR_SIZE
    ensures bs == LittleEndian(WordAt(bs, STATUS_OFFSET), FIELD_SIZE)
      + LittleEndian(WordAt(bs, BLOCK_AGGREGATE_OFFSET), FIELD_SIZE)
      + LittleEndian(WordAt(bs, BLOCK_INCLUSIVE_PREFIX_OFFSET), FIELD_SIZE)
      + LittleEndian(WordAt(bs, PAD_OFFSET), FIELD_SIZE)
  {
    WordAtRoundTrip(bs, STATUS_OFFSET);
    WordAtRoundTrip(bs, BLOCK_AGGREGATE_OFFSET);
    WordAtRoundTrip(bs, BLOCK_INCLUSIVE_PREFIX_OFFSET);
    WordAtRoundTrip(bs, PAD_OFFSET);
    SlotSplit(bs);
  }

  /** Every 16-byte pattern is the encoding of exactly one record. */
  lemma EncodeDecode(bs: seq<byte>)
    requires |bs| == DESCRIPTOR_SIZE
    ensures Encode(Decode(bs)) == bs
  {
    EncodeOfWords(WordAt(bs, STATUS_OFFSET), WordAt(bs, BLOCK_AGGREGATE_OFFSET),
      WordAt(bs, BLOCK_INCLUSIVE_PREFIX_OFFSET), WordAt(bs, PAD_OFFSET));
    SlotOfWords(bs);
  }

  /** The descriptor table as device memory: slots back to back. */
  function EncodeTable(table: seq<ProcessorDescriptor>): (bs: seq<byte>)
    ensures |bs| == DESCRIPTOR_SIZE * |table|
  {
    if table == [] then [] else Encode(table[0]) + EncodeTable(table[1..])
  }

  /** Slot `i` occupies bytes `16 i .. 16 i + 16` of the table. */
  lemma {:induction false} TableSlotAt(table: seq<ProcessorDescriptor>, i: nat)
    requires i < |table|
    ensures DESCRIPTOR_SIZE * i + DESCRIPTOR_SIZE <= |EncodeTable(table)|
    ensures EncodeTable(table)[DESCRIPTOR_SIZE * i .. DESCRIPTOR_SIZE * i + DESCRIPTOR_SIZE] == Encode(table[i])
  {
    Helper.MulLe(i + 1, |table|, DESCRIPTOR_SIZE);
    if i > 0 {
      TableSlotAt(table[1..], i - 1);
      var rest := EncodeTable(table[1..]);
      assert EncodeTable(table) == Encode(table[0]) + rest;
      assert EncodeTable(table)[DESCRIPTOR_SIZE * i .. DESCRIPTOR_SIZE * i + DESCRIPTOR_SIZE]
          == rest[DESCRIPTOR_SIZE * (i - 1) .. DESCRIPTOR_SIZE * (i - 1) + DESCRIPTOR_SIZE];
    }
  }
}
