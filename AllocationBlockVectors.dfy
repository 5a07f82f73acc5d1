/** The allocation block vector of a fork: one data segment per extent of the fork descriptor,
    measured in bytes. Only the eight extents stored in the descriptor are used. */
module AllocationBlockVectors {
  import opened Common
  import opened ForkDescriptors
  import IoHandles

  /** A data segment of a libfdata vector: file index, byte offset, byte size and flags. */
  datatype Segment = Segment(fileIndex: int, offset: int, size: int, flags: uint32)

  /** The segment of one extent: start block and block count each multiplied by the allocation
      block size in 32-bit arithmetic, in file 0 without flags. */
  function SegmentFor(e: Extent, blockSize: uint32): (s: Segment)
    ensures s.fileIndex == 0 && s.flags == 0
    ensures 0 <= s.offset < 0x1_0000_0000 && (e.startBlock * blockSize - s.offset) % 0x1_0000_0000 == 0
    ensures 0 <= s.size < 0x1_0000_0000 && (e.blockCount * blockSize - s.size) % 0x1_0000_0000 == 0
  {
    Segment(0, MulU32(e.startBlock, blockSize), MulU32(e.blockCount, blockSize), 0)
  }

  /** The segments of the extents `es`, in order. */
  function SegmentsFor(es: seq<Extent>, blockSize: uint32): (segments: seq<Segment>)
    ensures |segments| == |es|
  {
    if es == [] then [] else SegmentsFor(es[..|es| - 1], blockSize) + [SegmentFor(es[|es| - 1], blockSize)]
  }

  /** The vector of data segments (libfdata_vector_t) the library builds for a fork. */
  class DataVector {
    const elementSize: uint64
    const dataHandle: IoHandles.IoHandle
    var segments: seq<Segment>

    constructor (elementSize: uint64, dataHandle: IoHandles.IoHandle)
      ensures this.elementSize == elementSize && this.dataHandle == dataHandle && segments == []
    {
      this.elementSize := elementSize;
      this.dataHandle := dataHandle;
      segments := [];
    }

    /** libfdata_vector_append_segment: the new segment goes at the end and its index is
        returned. */
    method AppendSegment(fileIndex: int, offset: int, size: int, flags: uint32) returns (r: Status, segmentIndex: nat)
      modifies this
      ensures r == Ok
      ensures segmentIndex == |old(segments)|
      ensures segments == old(segments) + [Segment(fileIndex, offset, size, flags)]
    {
      segmentIndex := |segments|;
      segments := segments + [Segment(fileIndex, offset, size, flags)];
      r := Ok;
    }
  }

  /** libfshfs_allocation_block_vector_initialize. The element size is `blockSize`, while the
      segments are measured with the IO handle's allocation block size. */
  method Initialize(ioHandle: IoHandles.IoHandle?, blockSize: uint32, fork: ForkDescriptor?) returns (r: Status, vector: DataVector?)
    requires fork != null ==> fork.Valid()
    ensures ioHandle == null || fork == null ==> r == Fail(InvalidArgument) && vector == null
    ensures ioHandle != null && fork != null ==>
      r == Ok && vector != null && fresh(vector)
      && vector.elementSize == blockSize && vector.dataHandle == ioHandle
      && vector.segments == SegmentsFor(fork.Value().extents, ioHandle.allocationBlockSize)
  {
    if ioHandle == null || fork == null {
      return Fail(InvalidArgument), null;
    }
    vector := new DataVector(blockSize, ioHandle);
    var allocationBlockSize := ioHandle.allocationBlockSize;
    for extentIndex := 0 to NumberOfExtents
      invariant vector.segments == SegmentsFor(fork.extents[..extentIndex], allocationBlockSize)
    {
      var extent := fork.extents[extentIndex];
      var segmentOffset := MulU32(extent.startBlock, allocationBlockSize);
      var segmentSize := MulU32(extent.blockCount, allocationBlockSize);
      var status, segmentIndex := vector.AppendSegment(0, segmentOffset, segmentSize, 0);
      assert fork.extents[..extentIndex + 1][..extentIndex] == fork.extents[..extentIndex];
    }
    assert fork.extents[..NumberOfExtents] == fork.Value().extents;
    r := Ok;
  }

  /** Segment i belongs to extent i. */
  lemma {:induction false} SegmentsForAt(es: seq<Extent>, blockSize: uint32, i: nat)
    requires i < |es|
    ensures SegmentsFor(es, blockSize)[i] == SegmentFor(es[i], blockSize)
  {
    if i < |es| - 1 {
      SegmentsForAt(es[..|es| - 1], blockSize, i);
    }
  }

  /** When the products fit in 32 bits, a segment starts at the byte offset of the extent's first
      block and spans exactly its blocks. */
  lemma SegmentBytes(e: Extent, blockSize: uint32)
    requires e.startBlock * blockSize < 0x1_0000_0000 && e.blockCount * blockSize < 0x1_0000_0000
    ensures SegmentFor(e, blockSize).offset == e.startBlock * blockSize
    ensures SegmentFor(e, blockSize).size == e.blockCount * blockSize
  {
  }

  /** An extent starting at block 0x10000 of a volume with 64 KiB blocks lies at byte 4 GiB,
      yet its segment is placed at offset 0. */
  lemma SegmentOffsetWraps()
    ensures SegmentFor(Extent(0x1_0000, 1), 0x1_0000).offset == 0
    ensures Extent(0x1_0000, 1).startBlock * 0x1_0000 == 0x1_0000_0000
  {
  }

  function TotalBlocks(es: seq<Extent>): nat {
    if es == [] then 0 else TotalBlocks(es[..|es| - 1]) + es[|es| - 1].blockCount
  }

  function TotalSize(segments: seq<Segment>): int {
    if segments == [] then 0 else TotalSize(segments[..|segments| - 1]) + segments[|segments| - 1].size
  }

  /** Without wrap-around the segments together span every block the extents hold. */
  lemma {:induction false} SegmentsSpanExtents(es: seq<Extent>, blockSize: uint32)
    requires forall i :: 0 <= i < |es| ==> es[i].blockCount * blockSize < 0x1_0000_0000
    ensures TotalSize(SegmentsFor(es, blockSize)) == TotalBlocks(es) * blockSize
  {
    if es != [] {
      var front := es[..|es| - 1];
      var segments := SegmentsFor(es, blockSize);
      assert segments[..|segments| - 1] == SegmentsFor(front, blockSize);
      SegmentsSpanExtents(front, blockSize);
      SegmentBytes(Extent(0, es[|es| - 1].blockCount), blockSize);
      assert TotalBlocks(es) * blockSize == TotalBlocks(front) * blockSize + es[|es| - 1].blockCount * blockSize;
    }
  }
}
