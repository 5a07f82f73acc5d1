/** The IO handle and the HFS Plus volume header (HFSPlusVolumeHeader of TN1150): a signature,
    the allocation block size and the fork data of the five special files. */
module IoHandles {
  import opened Common
  import opened Bytes
  import opened FileIo
  import opened ForkDescriptors

  const VolumeHeaderReadSize: nat := 1024
  /** Offset of blockSize in the volume header. */
  const BlockSizeOffset: nat := 40
  /** Offset of allocationFile; extentsFile, catalogFile, attributesFile and startupFile follow
      at intervals of 80 bytes. */
  const ForkFieldsOffset: nat := 112
  const NumberOfSpecialForks: nat := 5

  /** The signatures "H+" and "HX". */
  const HfsPlusSignature: seq<byte> := [0x48, 0x2B]
  const HfsxSignature: seq<byte> := [0x48, 0x58]

  /** The file system type the IO handle records; the numeric values of the library's
      constants are not part of this model, only that a cleared handle has neither. */
  datatype FileSystemType = NoFileSystemType | HfsPlusFileSystem | HfsxFileSystem

  /** The decoded volume header fields the library uses. */
  datatype VolumeHeader = VolumeHeader(fileSystemType: FileSystemType, blockSize: uint32, forks: seq<Fork>)

  /** The 80-byte field of special file k: allocation, extents, catalog, attributes, startup. */
  function ForkField(header: seq<byte>, k: nat): (field: seq<byte>)
    requires |header| == VolumeHeaderReadSize && k < NumberOfSpecialForks
    ensures |field| == ForkDescriptorSize
  {
    header[ForkFieldsOffset + ForkDescriptorSize * k .. ForkFieldsOffset + ForkDescriptorSize * (k + 1)]
  }

  /** The file system type the signature in the first two bytes names, if any. */
  function SignatureType(header: seq<byte>): (t: Option<FileSystemType>)
    requires |header| >= 2
    ensures t == Some(HfsPlusFileSystem) <==> header[..2] == HfsPlusSignature
    ensures t == Some(HfsxFileSystem) <==> header[..2] == HfsxSignature
    ensures t != Some(NoFileSystemType)
  {
    if header[..2] == HfsPlusSignature then Some(HfsPlusFileSystem)
    else if header[..2] == HfsxSignature then Some(HfsxFileSystem)
    else None
  }

  /** The volume header a 1024-byte read denotes, or the signature error. */
  function DecodeVolumeHeader(header: seq<byte>): (r: Result<VolumeHeader>)
    requires |header| == VolumeHeaderReadSize
    ensures r.Success? ==> |r.value.forks| == NumberOfSpecialForks
  {
    match SignatureType(header)
    case None => Failure(Unsupported)
    case Some(t) =>
      Success(VolumeHeader(t, BE32(header, BlockSizeOffset),
                           seq(NumberOfSpecialForks, k requires 0 <= k < NumberOfSpecialForks => DecodeFork(ForkField(header, k)))))
  }

  predicate WellFormedVolumeHeader(vh: VolumeHeader) {
    vh.fileSystemType != NoFileSystemType
    && |vh.forks| == NumberOfSpecialForks
    && forall k :: 0 <= k < |vh.forks| ==> |vh.forks[k].extents| == NumberOfExtents
  }

  /** The fork data fields laid end to end. */
  function EncodeForks(forks: seq<Fork>): (s: seq<byte>)
    requires forall k :: 0 <= k < |forks| ==> |forks[k].extents| == NumberOfExtents
    ensures |s| == ForkDescriptorSize * |forks|
  {
    if forks == [] then [] else EncodeFork(forks[0]) + EncodeForks(forks[1..])
  }

  lemma {:induction false} EncodeForksField(forks: seq<Fork>, k: nat)
    requires forall i :: 0 <= i < |forks| ==> |forks[i].extents| == NumberOfExtents
    requires k < |forks|
    ensures EncodeForks(forks)[ForkDescriptorSize * k .. ForkDescriptorSize * (k + 1)] == EncodeFork(forks[k])
  {
    var head, rest := EncodeFork(forks[0]), EncodeForks(forks[1..]);
    assert EncodeForks(forks) == head + rest;
    if k == 0 {
      SliceBefore(head, rest, 0, ForkDescriptorSize);
    } else {
      EncodeForksField(forks[1..], k - 1);
      SliceAfter(head, rest, ForkDescriptorSize * (k - 1), ForkDescriptorSize * k);
    }
  }

  /** The first 1024 bytes of a volume with header `vh`; fields the library does not read are
      zero. */
  function EncodeVolumeHeader(vh: VolumeHeader): (header: seq<byte>)
    requires WellFormedVolumeHeader(vh)
    ensures |header| == VolumeHeaderReadSize
  {
    VolumeHeaderPrefix(vh) + EncodeForks(vh.forks)
      + Zeros(VolumeHeaderReadSize - ForkFieldsOffset - NumberOfSpecialForks * ForkDescriptorSize)
  }

  /** The signature and the block size, up to the first fork field. */
  function VolumeHeaderPrefix(vh: VolumeHeader): (prefix: seq<byte>)
    ensures |prefix| == ForkFieldsOffset
  {
    SignatureOf(vh.fileSystemType) + Zeros(BlockSizeOffset - 2) + Encode32(vh.blockSize)
      + Zeros(ForkFieldsOffset - BlockSizeOffset - 4)
  }

  function SignatureOf(t: FileSystemType): seq<byte> {
    if t == HfsPlusFileSystem then HfsPlusSignature else HfsxSignature
  }

  lemma EncodedSignature(vh: VolumeHeader)
    requires WellFormedVolumeHeader(vh)
    ensures EncodeVolumeHeader(vh)[..2] == SignatureOf(vh.fileSystemType)
  {
    var prefix, forks := VolumeHeaderPrefix(vh), EncodeForks(vh.forks);
    var zeros := Zeros(VolumeHeaderReadSize - ForkFieldsOffset - NumberOfSpecialForks * ForkDescriptorSize);
    var signature := SignatureOf(vh.fileSystemType);
    var rest := Zeros(BlockSizeOffset - 2) + Encode32(vh.blockSize) + Zeros(ForkFieldsOffset - BlockSizeOffset - 4);
    assert prefix == signature + rest;
    SliceBefore(prefix + forks, zeros, 0, 2);
    SliceBefore(prefix, forks, 0, 2);
    SliceBefore(signature, rest, 0, 2);
  }

  lemma EncodedBlockSize(vh: VolumeHeader)
    requires WellFormedVolumeHeader(vh)
    ensures BE32(EncodeVolumeHeader(vh), BlockSizeOffset) == vh.blockSize
  {
    var header := EncodeVolumeHeader(vh);
    var prefix, forks := VolumeHeaderPrefix(vh), EncodeForks(vh.forks);
    var zeros := Zeros(VolumeHeaderReadSize - ForkFieldsOffset - NumberOfSpecialForks * ForkDescriptorSize);
    var front := SignatureOf(vh.fileSystemType) + Zeros(BlockSizeOffset - 2);
    var gap := Zeros(ForkFieldsOffset - BlockSizeOffset - 4);
    assert prefix == front + Encode32(vh.blockSize) + gap;
    SliceBefore(prefix + forks, zeros, BlockSizeOffset, BlockSizeOffset + 4);
    SliceBefore(prefix, forks, BlockSizeOffset, BlockSizeOffset + 4);
    SliceBefore(front + Encode32(vh.blockSize), gap, BlockSizeOffset, BlockSizeOffset + 4);
    SliceAfter(front, Encode32(vh.blockSize), 0, 4);
    assert header[BlockSizeOffset .. BlockSizeOffset + 4] == Encode32(vh.blockSize);
    BE32Slice(header, BlockSizeOffset);
    Decode32Encode32(vh.blockSize);
  }

  lemma EncodedForkField(vh: VolumeHeader, k: nat)
    requires WellFormedVolumeHeader(vh) && k < NumberOfSpecialForks
    ensures ForkField(EncodeVolumeHeader(vh), k) == EncodeFork(vh.forks[k])
  {
    var prefix, forks := VolumeHeaderPrefix(vh), EncodeForks(vh.forks);
    var zeros := Zeros(VolumeHeaderReadSize - ForkFieldsOffset - NumberOfSpecialForks * ForkDescriptorSize);
    var lo, hi := ForkDescriptorSize * k, ForkDescriptorSize * (k + 1);
    SliceBefore(prefix + forks, zeros, ForkFieldsOffset + lo, ForkFieldsOffset + hi);
    SliceAfter(prefix, forks, lo, hi);
    EncodeForksField(vh.forks, k);
  }

  /** Decoding an encoded volume header gives back its type, block size and five forks. */
  lemma DecodeEncodeVolumeHeader(vh: VolumeHeader)
    requires WellFormedVolumeHeader(vh)
    ensures DecodeVolumeHeader(EncodeVolumeHeader(vh)) == Success(vh)
  {
    var header := EncodeVolumeHeader(vh);
    EncodedSignature(vh);
    EncodedBlockSize(vh);
    forall k | 0 <= k < NumberOfSpecialForks
      ensures DecodeFork(ForkField(header, k)) == vh.forks[k]
    {
      EncodedForkField(vh, k);
      DecodeEncodeFork(vh.forks[k]);
    }
    assert SignatureType(header) == Some(vh.fileSystemType);
    var decoded := DecodeVolumeHeader(header);
    assert decoded.value.forks == vh.forks;
  }

  /** The five fork descriptors in the order they are read. */
  function SpecialForks(allocation: ForkDescriptor?, extents: ForkDescriptor?, catalog: ForkDescriptor?,
                        attributes: ForkDescriptor?, startup: ForkDescriptor?): (forks: seq<ForkDescriptor?>)
    ensures |forks| == NumberOfSpecialForks
  {
    [allocation, extents, catalog, attributes, startup]
  }

  /** The index of the first missing descriptor, or 5 when all are present. */
  function FirstMissing(forks: seq<ForkDescriptor?>, from: nat): (k: nat)
    requires from <= |forks|
    ensures from <= k <= |forks|
    ensures forall i :: from <= i < k ==> forks[i] != null
    ensures k < |forks| ==> forks[k] == null
    decreases |forks| - from
  {
    if from == |forks| || forks[from] == null then from else FirstMissing(forks, from + 1)
  }

  function ForkObjects(fd: ForkDescriptor?): set<object> {
    if fd == null then {} else {fd, fd.extents}
  }

  /** What the reads may change: the present descriptors and their extents. */
  function ForkFootprint(forks: seq<ForkDescriptor?>): set<object>
  {
    (set k | 0 <= k < |forks| && forks[k] != null :: forks[k] as object)
      + (set k | 0 <= k < |forks| && forks[k] != null :: forks[k].extents as object)
  }

  /** The descriptors are separate structures. */
  ghost predicate SeparateForks(forks: seq<ForkDescriptor?>) {
    (forall k :: 0 <= k < |forks| && forks[k] != null ==> forks[k].extents.Length == NumberOfExtents)
    && (forall i, j :: 0 <= i < j < |forks| && forks[i] != null && forks[j] != null
          ==> forks[i] != forks[j] && forks[i].extents != forks[j].extents)
  }

  /** libfshfs_io_handle_t. */
  class IoHandle {
    var fileSystemType: FileSystemType
    var allocationBlockSize: uint32
    var abort: int32

    /** The zero-filled handle libfshfs_io_handle_initialize allocates. */
    constructor ()
      ensures fileSystemType == NoFileSystemType && allocationBlockSize == 0 && abort == 0
    {
      fileSystemType := NoFileSystemType;
      allocationBlockSize := 0;
      abort := 0;
    }

    /** libfshfs_io_handle_clear. */
    method Clear() returns (r: Status)
      modifies this
      ensures r == Ok
      ensures fileSystemType == NoFileSystemType && allocationBlockSize == 0 && abort == 0
    {
      fileSystemType := NoFileSystemType;
      allocationBlockSize := 0;
      abort := 0;
      r := Ok;
    }

    /** libfshfs_io_handle_read_volume_header. A missing file IO handle makes the seek fail. */
    method ReadVolumeHeader(fileIo: FileIoHandle?, fileOffset: int,
                            allocation: ForkDescriptor?, extents: ForkDescriptor?, catalog: ForkDescriptor?,
                            attributes: ForkDescriptor?, startup: ForkDescriptor?) returns (r: Status)
      requires fileIo != null ==> fileIo.Valid()
      requires SeparateForks(SpecialForks(allocation, extents, catalog, attributes, startup))
      modifies this, if fileIo == null then {} else {fileIo}
      modifies ForkFootprint(SpecialForks(allocation, extents, catalog, attributes, startup))
      ensures fileIo != null ==> fileIo.Valid()
      ensures fileIo != null && fileOffset >= 0 ==>
        fileIo.offset == fileOffset + |Available(fileIo.image, fileOffset, VolumeHeaderReadSize)|
      ensures HeaderOf(fileIo, fileOffset).Failure? ==>
        r == Fail(HeaderOf(fileIo, fileOffset).error) && unchanged(this)
        && unchanged(ForkFootprint(SpecialForks(allocation, extents, catalog, attributes, startup)))
      ensures HeaderOf(fileIo, fileOffset).Success? && DecodeVolumeHeader(HeaderOf(fileIo, fileOffset).value).Failure? ==>
        r == Fail(Unsupported) && unchanged(this)
        && unchanged(ForkFootprint(SpecialForks(allocation, extents, catalog, attributes, startup)))
      ensures HeaderOf(fileIo, fileOffset).Success? && DecodeVolumeHeader(HeaderOf(fileIo, fileOffset).value).Success? ==>
        abort == old(abort)
        && HeaderStored(this, HeaderOf(fileIo, fileOffset).value, SpecialForks(allocation, extents, catalog, attributes, startup), r,
                        old(ForkValues(SpecialForks(allocation, extents, catalog, attributes, startup))))
    {
      var forks := SpecialForks(allocation, extents, catalog, attributes, startup);
      if fileIo == null {
        return Fail(SeekFailed);
      }
      ghost var before := ForkValues(forks);
      assert fileIo !in ForkFootprint(forks) && this !in ForkFootprint(forks);
      var header := SeekAndRead(fileIo, fileOffset, VolumeHeaderReadSize);
      assert ForkValues(forks) == before;
      if header.Failure? {
        return Fail(header.error);
      }
      r := StoreVolumeHeader(header.value, forks);
    }

    /** The part of read_volume_header after the read: the signature check, the block size and
        the five descriptors. */
    method StoreVolumeHeader(header: seq<byte>, forks: seq<ForkDescriptor?>) returns (r: Status)
      requires |header| == VolumeHeaderReadSize && |forks| == NumberOfSpecialForks
      requires SeparateForks(forks)
      modifies this, ForkFootprint(forks)
      ensures DecodeVolumeHeader(header).Failure? ==>
        r == Fail(Unsupported) && unchanged(this) && unchanged(ForkFootprint(forks))
      ensures DecodeVolumeHeader(header).Success? ==>
        abort == old(abort) && HeaderStored(this, header, forks, r, old(ForkValues(forks)))
    {
      var signature := SignatureType(header);
      if signature.None? {
        return Fail(Unsupported);
      }
      ghost var before := ForkValues(forks);
      assert this !in ForkFootprint(forks);
      fileSystemType := signature.value;
      allocationBlockSize := BE32(header, BlockSizeOffset);
      assert ForkValues(forks) == before;
      r := ReadSpecialForks(forks, header);
    }
  }

  /** The header bytes a read through `fileIo` obtains; without a handle the seek fails. */
  function HeaderOf(fileIo: FileIoHandle?, fileOffset: int): (r: Result<seq<byte>>)
    ensures r.Success? ==> |r.value| == VolumeHeaderReadSize
  {
    if fileIo == null then Failure(SeekFailed) else ExactRead(fileIo.image, fileOffset, VolumeHeaderReadSize)
  }

  /** The value of a descriptor, when there is one. */
  function ValueOf(fd: ForkDescriptor?): Option<Fork>
    reads ForkObjects(fd)
  {
    if fd == null then None else Some(fd.Value())
  }

  function ForkValues(forks: seq<ForkDescriptor?>): (values: seq<Option<Fork>>)
    requires |forks| == NumberOfSpecialForks
    reads ForkFootprint(forks)
    ensures |values| == NumberOfSpecialForks
  {
    [ValueOf(forks[0]), ValueOf(forks[1]), ValueOf(forks[2]), ValueOf(forks[3]), ValueOf(forks[4])]
  }

  /** What read_volume_header leaves after reading a header with a known signature, given the
      descriptor values `before` it: the file system type and the block size are stored, the
      descriptors are read up to the first missing one, and the read succeeds when none is
      missing. */
  predicate HeaderStored(io: IoHandle, header: seq<byte>, forks: seq<ForkDescriptor?>, r: Status, before: seq<Option<Fork>>)
    requires |header| == VolumeHeaderReadSize && |forks| == NumberOfSpecialForks && |before| == NumberOfSpecialForks
    requires DecodeVolumeHeader(header).Success?
    reads io, ForkFootprint(forks)
  {
    io.fileSystemType == DecodeVolumeHeader(header).value.fileSystemType
    && io.allocationBlockSize == DecodeVolumeHeader(header).value.blockSize
    && (r.Ok? <==> FirstMissing(forks, 0) == NumberOfSpecialForks)
    && (r.Fail? ==> r.error == ReadFailed)
    && ForksReadUpTo(forks, header, before, FirstMissing(forks, 0))
  }

  /** The first `n` descriptors are present and hold the fork fields of `header`; the others
      still have the values `before`. */
  predicate ForksReadUpTo(forks: seq<ForkDescriptor?>, header: seq<byte>, before: seq<Option<Fork>>, n: nat)
    requires |forks| == NumberOfSpecialForks && |header| == VolumeHeaderReadSize && |before| == NumberOfSpecialForks
    reads ForkFootprint(forks)
  {
    (forall k :: 0 <= k < n && k < NumberOfSpecialForks ==> forks[k] != null && forks[k].Value() == DecodeFork(ForkField(header, k)))
    && (forall k :: n <= k < NumberOfSpecialForks && forks[k] != null ==> before[k] == Some(forks[k].Value()))
  }


  /** The five libfshfs_fork_descriptor_read calls of read_volume_header: the descriptors are
      decoded in order and the first missing one ends the reads, so the ones before it hold
      their fields and the ones after it are left alone. */
  method ReadSpecialForks(forks: seq<ForkDescriptor?>, header: seq<byte>) returns (r: Status)
    requires |forks| == NumberOfSpecialForks && |header| == VolumeHeaderReadSize
    requires SeparateForks(forks)
    modifies ForkFootprint(forks)
    ensures r.Ok? <==> FirstMissing(forks, 0) == NumberOfSpecialForks
    ensures r.Fail? ==> r.error == ReadFailed
    ensures ForksReadUpTo(forks, header, old(ForkValues(forks)), FirstMissing(forks, 0))
  {
    ghost var before := ForkValues(forks);
    var status := ReadSpecialFork(forks, 0, header, before);
    if status.Fail? {
      return Fail(ReadFailed);
    }
    assert FirstMissing(forks, 0) == FirstMissing(forks, 1);
    status := ReadSpecialFork(forks, 1, header, before);
    if status.Fail? {
      return Fail(ReadFailed);
    }
    assert FirstMissing(forks, 1) == FirstMissing(forks, 2);
    status := ReadSpecialFork(forks, 2, header, before);
    if status.Fail? {
      return Fail(ReadFailed);
    }
    assert FirstMissing(forks, 2) == FirstMissing(forks, 3);
    status := ReadSpecialFork(forks, 3, header, before);
    if status.Fail? {
      return Fail(ReadFailed);
    }
    assert FirstMissing(forks, 3) == FirstMissing(forks, 4);
    status := ReadSpecialFork(forks, 4, header, before);
    if status.Fail? {
      return Fail(ReadFailed);
    }
    assert FirstMissing(forks, 4) == FirstMissing(forks, 5);
    r := Ok;
  }

  /** One of the five libfshfs_fork_descriptor_read calls of read_volume_header: a present
      descriptor k is read and the others keep their values; a missing one changes nothing. */
  method ReadSpecialFork(forks: seq<ForkDescriptor?>, k: nat, header: seq<byte>, ghost before: seq<Option<Fork>>) returns (r: Status)
    requires |forks| == NumberOfSpecialForks && k < NumberOfSpecialForks && |header| == VolumeHeaderReadSize
    requires |before| == NumberOfSpecialForks
    requires SeparateForks(forks)
    requires ForksReadUpTo(forks, header, before, k)
    modifies ForkObjects(forks[k])
    ensures r.Ok? <==> forks[k] != null
    ensures r.Ok? ==> ForksReadUpTo(forks, header, before, k + 1)
    ensures r.Fail? ==> ForksReadUpTo(forks, header, before, k)
  {
    r := Read(forks[k], ForkField(header, k));
  }

  /** libfshfs_io_handle_initialize: refuses a target that is already set. */
  method Initialize(target: IoHandle?) returns (r: Status, handle: IoHandle?)
    ensures r.Ok? <==> target == null
    ensures r.Ok? ==> handle != null && fresh(handle) && handle.fileSystemType == NoFileSystemType
                      && handle.allocationBlockSize == 0 && handle.abort == 0
    ensures r.Fail? ==> r.error == ValueAlreadySet && handle == target
  {
    if target != null {
      return Fail(ValueAlreadySet), target;
    }
    handle := new IoHandle();
    r := Ok;
  }

  /** libfshfs_io_handle_free: releases the handle when there is one. */
  method Free(target: IoHandle?) returns (r: Status, released: set<object>, handle: IoHandle?)
    ensures r == Ok && handle == null
    ensures released == if target == null then {} else {target}
  {
    released := if target == null then {} else {target};
    handle := null;
    r := Ok;
  }
}
