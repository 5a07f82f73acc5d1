/** The data handle behind an allocation block stream: it reads segment data at its current
    segment offset through the file IO handle, and seeks by setting that offset. */
module AllocationBlockStreams {
  import opened Common
  import opened FileIo
  import opened ForkDescriptors
  import IoHandles

  /** The outcome of one segment read: the count returned (-1 on error), the bytes delivered and
      the current segment offset afterwards. */
  datatype SegmentRead = SegmentRead(count: int, data: seq<byte>, offset: int)

  /** libfshfs_allocation_block_stream_data_handle_read_segment_data on a handle with
      `dataSize` and current segment offset `offset`, reading `size` bytes from `image` (None
      when there is no file IO handle, so the seek fails). */
  function ReadSegment(dataSize: uint64, offset: int, image: Option<seq<byte>>, size: nat): (s: SegmentRead)
    ensures s.count == -1 ==> s.data == [] && s.offset == offset
    ensures s.count != -1 ==> s.count == |s.data| && s.offset == offset + s.count
  {
    if offset < 0 || size > SsizeMax then SegmentRead(-1, [], offset)
    else if dataSize == 0 then SegmentRead(0, [], offset)
    else if image.None? then SegmentRead(-1, [], offset)
    else
      match ExactRead(image.value, offset, size)
      case Failure(_) => SegmentRead(-1, [], offset)
      case Success(bytes) => SegmentRead(size, bytes, offset + size)
  }

  /** libfshfs_allocation_block_stream_data_handle_seek_segment_offset: the value returned and
      the current segment offset afterwards. */
  function SeekSegment(offset: int, target: int): (s: (int, int))
    ensures s.0 == -1 <==> target < 0
    ensures target < 0 ==> s.1 == offset
    ensures target >= 0 ==> s.0 == target && s.1 == target
  {
    if target < 0 then (-1, offset) else (target, target)
  }

  function ImageOf(fileIo: FileIoHandle?): Option<seq<byte>> {
    if fileIo == null then None else Some(fileIo.image)
  }

  /** libfshfs_allocation_block_stream_data_handle_t. The cache field is never set by the core
      and is not part of this model. */
  class DataHandle {
    const ioHandle: IoHandles.IoHandle
    const dataSize: uint64
    var currentSegmentOffset: int

    constructor (ioHandle: IoHandles.IoHandle, dataSize: uint64)
      ensures this.ioHandle == ioHandle && this.dataSize == dataSize && currentSegmentOffset == 0
    {
      this.ioHandle := ioHandle;
      this.dataSize := dataSize;
      currentSegmentOffset := 0;
    }

    /** libfshfs_allocation_block_stream_data_handle_read_segment_data. The segment index,
        file index and flags are not used. */
    method ReadSegmentData(fileIo: FileIoHandle?, segmentDataSize: nat) returns (count: int, data: seq<byte>)
      requires fileIo != null ==> fileIo.Valid()
      modifies this, if fileIo == null then {} else {fileIo}
      ensures fileIo != null ==> fileIo.Valid()
      ensures SegmentRead(count, data, currentSegmentOffset)
           == ReadSegment(dataSize, old(currentSegmentOffset), ImageOf(fileIo), segmentDataSize)
    {
      data := [];
      if currentSegmentOffset < 0 || segmentDataSize > SsizeMax {
        return -1, data;
      }
      if dataSize == 0 {
        return 0, data;
      }
      if fileIo == null {
        return -1, data;
      }
      var bytes := SeekAndRead(fileIo, currentSegmentOffset, segmentDataSize);
      if bytes.Failure? {
        return -1, data;
      }
      data := bytes.value;
      count := |data|;
      currentSegmentOffset := currentSegmentOffset + count;
    }

    /** libfshfs_allocation_block_stream_data_handle_seek_segment_offset. */
    method SeekSegmentOffset(segmentOffset: int) returns (r: int)
      modifies this
      ensures (r, currentSegmentOffset) == SeekSegment(old(currentSegmentOffset), segmentOffset)
    {
      if segmentOffset < 0 {
        return -1;
      }
      currentSegmentOffset := segmentOffset;
      r := segmentOffset;
    }
  }

  /** A successful read delivers exactly the requested bytes of the image at the current offset
      and moves the offset past them. */
  lemma ReadSegmentDelivers(dataSize: uint64, offset: int, image: seq<byte>, size: nat)
    requires dataSize != 0 && size > 0
    ensures ReadSegment(dataSize, offset, Some(image), size).count != -1
        <==> 0 <= offset && offset + size <= |image| && size <= SsizeMax
    ensures ReadSegment(dataSize, offset, Some(image), size).count != -1 ==>
      ReadSegment(dataSize, offset, Some(image), size).data == image[offset .. offset + size]
      && ReadSegment(dataSize, offset, Some(image), size).offset == offset + size
  {
    ExactReadInside(image, offset, size);
  }

  /** A read inside the image on a handle with data delivers the bytes at the offset. */
  lemma ReadSegmentInside(dataSize: uint64, offset: int, image: seq<byte>, size: nat)
    requires dataSize != 0 && size <= SsizeMax
    requires 0 <= offset && offset + size <= |image|
    ensures ReadSegment(dataSize, offset, Some(image), size)
         == SegmentRead(size, image[offset .. offset + size], offset + size)
  {
  }

  /** Two successive reads inside the image deliver what one read of both sizes delivers, and
      end at the same offset. */
  lemma ReadSegmentsContiguous(dataSize: uint64, offset: int, image: seq<byte>, first: nat, second: nat)
    requires dataSize != 0 && first + second <= SsizeMax
    requires 0 <= offset && offset + first + second <= |image|
    ensures ReadSegment(dataSize, offset, Some(image), first).offset == offset + first
    ensures ReadSegment(dataSize, offset, Some(image), first).data
          + ReadSegment(dataSize, offset + first, Some(image), second).data
         == ReadSegment(dataSize, offset, Some(image), first + second).data
    ensures ReadSegment(dataSize, offset + first, Some(image), second).offset
         == ReadSegment(dataSize, offset, Some(image), first + second).offset
  {
    ReadSegmentInside(dataSize, offset, image, first);
    ReadSegmentInside(dataSize, offset + first, image, second);
    ReadSegmentInside(dataSize, offset, image, first + second);
    SliceSplit(image, offset, offset + first, offset + first + second);
  }

  lemma SliceSplit(s: seq<byte>, i: nat, j: nat, k: nat)
    requires i <= j <= k <= |s|
    ensures s[i .. k] == s[i .. j] + s[j .. k]
  {
  }

  /** After a successful seek a read starts at the offset sought. */
  lemma SeekThenRead(dataSize: uint64, offset: int, target: int, image: seq<byte>, size: nat)
    requires SeekSegment(offset, target).0 != -1
    ensures ReadSegment(dataSize, SeekSegment(offset, target).1, Some(image), size)
         == ReadSegment(dataSize, target, Some(image), size)
    ensures target >= 0
  {
  }

  /** A handle with data size 0 reads nothing and stays where it is. */
  lemma EmptyHandleReadsNothing(offset: int, image: Option<seq<byte>>, size: nat)
    requires offset >= 0 && size <= SsizeMax
    ensures ReadSegment(0, offset, image, size) == SegmentRead(0, [], offset)
  {
  }

  /** libfshfs_allocation_block_stream_data_handle_initialize. */
  method Initialize(target: DataHandle?, ioHandle: IoHandles.IoHandle?, dataSize: uint64) returns (r: Status, handle: DataHandle?)
    ensures target != null ==> r == Fail(ValueAlreadySet) && handle == target
    ensures target == null && ioHandle == null ==> r == Fail(InvalidArgument) && handle == null
    ensures target == null && ioHandle != null ==>
      r == Ok && handle != null && fresh(handle)
      && handle.ioHandle == ioHandle && handle.dataSize == dataSize && handle.currentSegmentOffset == 0
  {
    if target != null {
      return Fail(ValueAlreadySet), target;
    }
    if ioHandle == null {
      return Fail(InvalidArgument), null;
    }
    handle := new DataHandle(ioHandle, dataSize);
    r := Ok;
  }

  /** libfshfs_allocation_block_stream_data_handle_free: the IO handle is not released. */
  method Free(target: DataHandle?) returns (r: Status, released: set<object>, handle: DataHandle?)
    ensures r == Ok && handle == null
    ensures released == if target == null then {} else {target}
  {
    released := if target == null then {} else {target};
    handle := null;
    r := Ok;
  }

  /** libfshfs_allocation_block_stream_data_handle_clone: a missing source clones to a missing
      destination; otherwise the copy shares the IO handle and the data size and starts at
      offset 0. */
  method Clone(destination: DataHandle?, source: DataHandle?) returns (r: Status, handle: DataHandle?)
    ensures destination != null ==> r == Fail(ValueAlreadySet) && handle == destination
    ensures destination == null && source == null ==> r == Ok && handle == null
    ensures destination == null && source != null ==>
      r == Ok && handle != null && fresh(handle) && handle != source
      && handle.ioHandle == source.ioHandle && handle.dataSize == source.dataSize
      && handle.currentSegmentOffset == 0
  {
    if destination != null {
      return Fail(ValueAlreadySet), destination;
    }
    if source == null {
      return Ok, null;
    }
    var status;
    status, handle := Initialize(null, source.ioHandle, source.dataSize);
    r := Ok;
  }

  /** libfshfs_allocation_block_stream_initialize: the fork is only checked, and the data
      handle is created with data size 0. */
  method StreamInitialize(ioHandle: IoHandles.IoHandle?, fork: ForkDescriptor?) returns (r: Status, handle: DataHandle?)
    ensures fork == null ==> r == Fail(InvalidArgument) && handle == null
    ensures fork != null && ioHandle == null ==> r == Fail(InitializeFailed) && handle == null
    ensures fork != null && ioHandle != null ==>
      r == Ok && handle != null && fresh(handle) && handle.ioHandle == ioHandle
      && handle.dataSize == 0 && handle.currentSegmentOffset == 0
  {
    if fork == null {
      return Fail(InvalidArgument), null;
    }
    var status;
    status, handle := Initialize(null, ioHandle, 0);
    if status.Fail? {
      return Fail(InitializeFailed), null;
    }
    r := Ok;
  }
}
