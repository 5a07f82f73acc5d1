/** HFS+ fork data (fshfs_fork_descriptor_t): an 80-byte record holding the fork's logical
    size, clump size, number of allocation blocks and its first eight extents. */
module ForkDescriptors {
  import opened Common
  import opened Bytes

  const ForkDescriptorSize: nat := 80
  const NumberOfExtents: nat := 8
  /** Offset of extents[0] inside the on-disk fork descriptor. */
  const ExtentsOffset: nat := 16

  /** One extent record: start block number and number of blocks. */
  datatype Extent = Extent(startBlock: uint32, blockCount: uint32)

  /** The values a fork descriptor holds once it has been read. */
  datatype Fork = Fork(size: uint64, clumpSize: uint32, numberOfBlocks: uint32, extents: seq<Extent>)

  function ZeroFork(): (f: Fork)
    ensures |f.extents| == NumberOfExtents
  {
    Fork(0, 0, 0, seq(NumberOfExtents, _ => Extent(0, 0)))
  }

  /** The extent stored at extents[8 * i .. 8 * i + 8] of the descriptor's data. */
  function ExtentAt(data: seq<byte>, i: nat): (e: Extent)
    requires ExtentsOffset + 8 * i + 8 <= |data|
    ensures EncodeExtents([e]) == data[ExtentsOffset + 8 * i .. ExtentsOffset + 8 * i + 8]
  {
    var at := ExtentsOffset + 8 * i;
    BE32Slice(data, at);
    BE32Slice(data, at + 4);
    Encode32Decode32(data[at .. at + 4]);
    Encode32Decode32(data[at + 4 .. at + 8]);
    assert data[at .. at + 8] == data[at .. at + 4] + data[at + 4 .. at + 8];
    Extent(BE32(data, at), BE32(data, at + 4))
  }

  /** Consecutive 8-byte extent records. */
  function DecodeExtents(data: seq<byte>): (es: seq<Extent>)
    ensures |es| == |data| / 8
    decreases |data|
  {
    if |data| < 8 then []
    else [Extent(BE32(data, 0), BE32(data, 4))] + DecodeExtents(data[8..])
  }

  function EncodeExtents(es: seq<Extent>): (data: seq<byte>)
    ensures |data| == 8 * |es|
  {
    if es == [] then []
    else Encode32(es[0].startBlock) + Encode32(es[0].blockCount) + EncodeExtents(es[1..])
  }

  /** The fork a well-formed 80-byte descriptor denotes. */
  function DecodeFork(data: seq<byte>): (f: Fork)
    requires |data| == ForkDescriptorSize
    ensures |f.extents| == NumberOfExtents
  {
    Fork(BE64(data, 0), BE32(data, 8), BE32(data, 12), DecodeExtents(data[ExtentsOffset..]))
  }

  function EncodeFork(f: Fork): (data: seq<byte>)
    requires |f.extents| == NumberOfExtents
    ensures |data| == ForkDescriptorSize
  {
    Encode64(f.size) + Encode32(f.clumpSize) + Encode32(f.numberOfBlocks) + EncodeExtents(f.extents)
  }

  /** Extent i of a decoded fork is the pair of big-endian words at 16 + 8 * i and 20 + 8 * i. */
  lemma {:induction false} DecodeExtentsAt(data: seq<byte>, i: nat)
    requires 8 * i + 8 <= |data|
    ensures DecodeExtents(data)[i] == Extent(BE32(data, 8 * i), BE32(data, 8 * i + 4))
    decreases i
  {
    if i > 0 {
      DecodeExtentsAt(data[8..], i - 1);
      BE32Drop(data, 8, 8 * (i - 1));
      BE32Drop(data, 8, 8 * (i - 1) + 4);
    }
  }

  lemma ForkExtentLayout(data: seq<byte>, i: nat)
    requires |data| == ForkDescriptorSize && i < NumberOfExtents
    ensures |DecodeFork(data).extents| == NumberOfExtents
    ensures DecodeFork(data).extents[i] == ExtentAt(data, i)
  {
    var tail := data[ExtentsOffset..];
    DecodeExtentsAt(tail, i);
    BE32Slice(tail, 8 * i);
    BE32Slice(data, ExtentsOffset + 8 * i);
    BE32Slice(tail, 8 * i + 4);
    BE32Slice(data, ExtentsOffset + 8 * i + 4);
    assert tail[8 * i .. 8 * i + 4] == data[ExtentsOffset + 8 * i .. ExtentsOffset + 8 * i + 4];
    assert tail[8 * i + 4 .. 8 * i + 8] == data[ExtentsOffset + 8 * i + 4 .. ExtentsOffset + 8 * i + 8];
  }

  lemma {:induction false} DecodeEncodeExtents(es: seq<Extent>)
    ensures DecodeExtents(EncodeExtents(es)) == es
  {
    if es != [] {
      var data := EncodeExtents(es);
      DecodeEncodeExtents(es[1..]);
      assert data[8..] == EncodeExtents(es[1..]);
      BE32Slice(data, 0);
      BE32Slice(data, 4);
      assert data[0 .. 4] == Encode32(es[0].startBlock);
      assert data[4 .. 8] == Encode32(es[0].blockCount);
      Decode32Encode32(es[0].startBlock);
      Decode32Encode32(es[0].blockCount);
    }
  }

  lemma {:induction false} EncodeDecodeExtents(data: seq<byte>)
    requires |data| % 8 == 0
    ensures EncodeExtents(DecodeExtents(data)) == data
    decreases |data|
  {
    if |data| >= 8 {
      EncodeDecodeExtents(data[8..]);
      BE32Slice(data, 0);
      BE32Slice(data, 4);
      Encode32Decode32(data[0 .. 4]);
      Encode32Decode32(data[4 .. 8]);
      assert data == data[0 .. 4] + data[4 .. 8] + data[8..];
    }
  }

  /** Reading the encoding of a fork gives back that fork. */
  lemma DecodeEncodeFork(f: Fork)
    requires |f.extents| == NumberOfExtents
    ensures DecodeFork(EncodeFork(f)) == f
  {
    var data := EncodeFork(f);
    assert data[0 .. 8] == Encode64(f.size);
    assert data[8 .. 12] == Encode32(f.clumpSize);
    assert data[12 .. 16] == Encode32(f.numberOfBlocks);
    assert data[ExtentsOffset..] == EncodeExtents(f.extents);
    BE64Slice(data, 0);
    BE32Slice(data, 8);
    BE32Slice(data, 12);
    Decode64Encode64(f.size);
    Decode32Encode32(f.clumpSize);
    Decode32Encode32(f.numberOfBlocks);
    DecodeEncodeExtents(f.extents);
  }

  /** Every field of the 80 bytes is significant: decoding loses nothing. */
  lemma EncodeDecodeFork(data: seq<byte>)
    requires |data| == ForkDescriptorSize
    ensures |DecodeFork(data).extents| == NumberOfExtents
    ensures EncodeFork(DecodeFork(data)) == data
  {
    var f := DecodeFork(data);
    var sizeBytes, clumpBytes, blockBytes, extentBytes := data[0 .. 8], data[8 .. 12], data[12 .. 16], data[ExtentsOffset..];
    assert Encode64(f.size) == sizeBytes by {
      BE64Slice(data, 0);
      Encode64Decode64(sizeBytes);
    }
    assert Encode32(f.clumpSize) == clumpBytes by {
      BE32Slice(data, 8);
      Encode32Decode32(clumpBytes);
    }
    assert Encode32(f.numberOfBlocks) == blockBytes by {
      BE32Slice(data, 12);
      Encode32Decode32(blockBytes);
    }
    assert EncodeExtents(f.extents) == extentBytes by {
      EncodeDecodeExtents(extentBytes);
    }
    assert data == sizeBytes + clumpBytes + blockBytes + extentBytes;
  }

  /** libfshfs_fork_descriptor_t. The extents are embedded in the structure. */
  class ForkDescriptor {
    var size: uint64
    var clumpSize: uint32
    var numberOfBlocks: uint32
    const extents: array<Extent>

    ghost predicate Valid()
      reads this
    {
      extents.Length == NumberOfExtents
    }

    function Value(): (f: Fork)
      reads this, extents
      ensures |f.extents| == extents.Length
    {
      Fork(size, clumpSize, numberOfBlocks, extents[..])
    }

    /** The zero-filled descriptor libfshfs_fork_descriptor_initialize allocates. */
    constructor ()
      ensures Valid() && fresh(extents)
      ensures Value() == ZeroFork()
    {
      size := 0;
      clumpSize := 0;
      numberOfBlocks := 0;
      extents := new Extent[NumberOfExtents](_ => Extent(0, 0));
    }
  }

  /** libfshfs_fork_descriptor_initialize: refuses a target that is already set. */
  method Initialize(target: ForkDescriptor?) returns (r: Status, descriptor: ForkDescriptor?)
    ensures r.Ok? <==> target == null
    ensures r.Ok? ==> descriptor != null && fresh(descriptor) && fresh(descriptor.extents)
                      && descriptor.Valid() && descriptor.Value() == ZeroFork()
    ensures r.Fail? ==> r.error == ValueAlreadySet && descriptor == target
  {
    if target != null {
      return Fail(ValueAlreadySet), target;
    }
    descriptor := new ForkDescriptor();
    r := Ok;
  }

  /** libfshfs_fork_descriptor_free: releases the descriptor if there is one and clears the
      reference; it always succeeds. */
  method Free(target: ForkDescriptor?) returns (r: Status, released: set<object>, descriptor: ForkDescriptor?)
    ensures r == Ok && descriptor == null
    ensures released == if target == null then {} else {target}
  {
    released := if target == null then {} else {target};
    descriptor := null;
    r := Ok;
  }

  /** libfshfs_fork_descriptor_read: decodes exactly 80 bytes into the descriptor. */
  method Read(descriptor: ForkDescriptor?, data: seq<byte>) returns (r: Status)
    requires descriptor != null ==> descriptor.Valid()
    modifies if descriptor == null then {} else {descriptor, descriptor.extents}
    ensures descriptor != null ==> descriptor.Valid()
    ensures r.Ok? <==> descriptor != null && |data| == ForkDescriptorSize
    ensures descriptor == null ==> r == Fail(InvalidArgument)
    ensures descriptor != null && |data| > SsizeMax ==> r == Fail(OutOfBounds)
    ensures descriptor != null && |data| <= SsizeMax && |data| != ForkDescriptorSize ==> r == Fail(Unsupported)
    ensures r.Ok? ==> descriptor.Value() == DecodeFork(data)
    ensures r.Fail? && descriptor != null ==> descriptor.Value() == old(descriptor.Value())
  {
    if descriptor == null {
      return Fail(InvalidArgument);
    }
    if |data| > SsizeMax {
      return Fail(OutOfBounds);
    }
    if |data| != ForkDescriptorSize {
      return Fail(Unsupported);
    }
    descriptor.size := BE64(data, 0);
    descriptor.clumpSize := BE32(data, 8);
    descriptor.numberOfBlocks := BE32(data, 12);

    var extentDataOffset: nat := 0;
    var extentIndex: nat := 0;
    while extentDataOffset < 64
      invariant extentDataOffset == 8 * extentIndex && extentIndex <= NumberOfExtents
      invariant forall k :: 0 <= k < extentIndex ==> descriptor.extents[k] == ExtentAt(data, k)
      modifies descriptor.extents
    {
      var startBlock := BE32(data, ExtentsOffset + extentDataOffset);
      extentDataOffset := extentDataOffset + 4;
      var blockCount := BE32(data, ExtentsOffset + extentDataOffset);
      extentDataOffset := extentDataOffset + 4;
      descriptor.extents[extentIndex] := Extent(startBlock, blockCount);
      extentIndex := extentIndex + 1;
    }

    forall k | 0 <= k < NumberOfExtents
      ensures descriptor.extents[k] == DecodeFork(data).extents[k]
    {
      ForkExtentLayout(data, k);
    }
    assert descriptor.extents[..] == DecodeFork(data).extents;
    r := Ok;
  }
}
