/** Catalog file records (HFSPlusCatalogFile and the HFS file record): the file's identifier
    and its data and resource fork descriptors. */
module FileRecords {
  import opened Common
  import opened Bytes
  import opened CatalogRecordTypes
  import ForkDescriptors

  /** The checks libfshfs_file_record_read_data makes before it touches the record, and the
      identifier it then stores, taken from the layout the record type selects. */
  function FileRecordIdentifier(data: seq<byte>): (r: Result<uint32>)
    ensures !(2 <= |data| <= SsizeMax) ==> r == Failure(OutOfBounds)
  {
    if |data| < 2 || |data| > SsizeMax then Failure(OutOfBounds)
    else
      var recordType := BE16(data, 0);
      if recordType != 0x0002 && recordType != 0x0200 then Failure(Unsupported)
      else
        var format := if recordType == 0x0002 then HfsPlus else Hfs;
        if |data| < RecordSize(File, format) then Failure(OutOfBounds)
        else if format == HfsPlus then Success(BE32(data, HfsPlusFileIdentifierOffset))
        else Success(BE32(data, HfsFileIdentifierOffset))
  }

  /** The fork descriptors are always taken from their places in the HFS Plus layout. */
  function DataForkField(data: seq<byte>): (field: seq<byte>)
    requires |data| >= RecordSize(File, HfsPlus)
    ensures |field| == ForkDescriptors.ForkDescriptorSize
  {
    data[HfsPlusDataForkOffset .. HfsPlusDataForkOffset + ForkDescriptors.ForkDescriptorSize]
  }

  function ResourceForkField(data: seq<byte>): (field: seq<byte>)
    requires |data| >= RecordSize(File, HfsPlus)
    ensures |field| == ForkDescriptors.ForkDescriptorSize
  {
    data[HfsPlusResourceForkOffset .. HfsPlusResourceForkOffset + ForkDescriptors.ForkDescriptorSize]
  }

  lemma FileRecordIdentifierAccepts(data: seq<byte>)
    ensures FileRecordIdentifier(data).Success? <==> HoldsRecordOf(data, File)
  {
  }

  /** As written: the end of the bytes the two fork reads use. It is the end of the HFS Plus
      record whatever the record type, while an HFS record is only checked to hold 102 bytes. */
  function ForkFieldsEndAsWritten(recordType: uint16): (end: nat)
    ensures end == RecordSize(File, HfsPlus) > RecordSize(File, Hfs)
  {
    HfsPlusResourceForkOffset + ForkDescriptors.ForkDescriptorSize
  }

  /** A 102-byte HFS file record passes every check before the fork reads, which then read up
      to byte 248. */
  lemma HfsForkReadsOverrunRecord(data: seq<byte>)
    requires |data| == RecordSize(File, Hfs) && RecordType(data) == TypeValue(File, Hfs)
    ensures FileRecordIdentifier(data).Success?
    ensures ForkFieldsEndAsWritten(RecordType(data)) > |data|
  {
  }

  /** libfshfs_file_record_t. */
  class FileRecord {
    var identifier: uint32
    var dataForkDescriptor: ForkDescriptors.ForkDescriptor?
    var resourceForkDescriptor: ForkDescriptors.ForkDescriptor?

    /** The zero-filled record libfshfs_file_record_initialize allocates. */
    constructor ()
      ensures identifier == 0 && dataForkDescriptor == null && resourceForkDescriptor == null
    {
      identifier := 0;
      dataForkDescriptor := null;
      resourceForkDescriptor := null;
    }

    /** libfshfs_file_record_read_data. Before the forks are read the record must also hold the
        fork fields (a check the library lacks, see ForkFieldsEndAsWritten), so an HFS record
        too short for them fails. The identifier is stored before the forks are created, and a
        failure does not release a fork that was already created. */
    method ReadData(data: seq<byte>) returns (r: Status)
      modifies this
      ensures FileRecordIdentifier(data).Failure? ==> r == Fail(FileRecordIdentifier(data).error) && unchanged(this)
      ensures FileRecordIdentifier(data).Success? ==> identifier == FileRecordIdentifier(data).value
      ensures FileRecordIdentifier(data).Success? && |data| < RecordSize(File, HfsPlus)
              ==> r == Fail(OutOfBounds) && dataForkDescriptor == old(dataForkDescriptor)
                  && resourceForkDescriptor == old(resourceForkDescriptor)
      ensures FileRecordIdentifier(data).Success? && |data| >= RecordSize(File, HfsPlus)
              && old(dataForkDescriptor) != null
              ==> r == Fail(InitializeFailed) && dataForkDescriptor == old(dataForkDescriptor)
                  && resourceForkDescriptor == old(resourceForkDescriptor)
      ensures FileRecordIdentifier(data).Success? && |data| >= RecordSize(File, HfsPlus)
              && old(dataForkDescriptor) == null
              ==> dataForkDescriptor != null && fresh(dataForkDescriptor) && fresh(dataForkDescriptor.extents)
                  && dataForkDescriptor.Valid()
                  && dataForkDescriptor.Value() == ForkDescriptors.DecodeFork(DataForkField(data))
      ensures FileRecordIdentifier(data).Success? && |data| >= RecordSize(File, HfsPlus)
              && old(dataForkDescriptor) == null && old(resourceForkDescriptor) != null
              ==> r == Fail(InitializeFailed) && resourceForkDescriptor == old(resourceForkDescriptor)
      ensures FileRecordIdentifier(data).Success? && |data| >= RecordSize(File, HfsPlus)
              && old(dataForkDescriptor) == null && old(resourceForkDescriptor) == null
              ==> r == Ok && resourceForkDescriptor != null && fresh(resourceForkDescriptor)
                  && fresh(resourceForkDescriptor.extents) && resourceForkDescriptor.Valid()
                  && resourceForkDescriptor.Value() == ForkDescriptors.DecodeFork(ResourceForkField(data))
                  && resourceForkDescriptor != dataForkDescriptor
    {
      var check := FileRecordIdentifier(data);
      if check.Failure? {
        return Fail(check.error);
      }
      identifier := check.value;
      if |data| < RecordSize(File, HfsPlus) {
        return Fail(OutOfBounds);
      }
      var status, created := ForkDescriptors.Initialize(dataForkDescriptor);
      if status.Fail? {
        return Fail(InitializeFailed);
      }
      dataForkDescriptor := created;
      status := ForkDescriptors.Read(dataForkDescriptor, DataForkField(data));
      assert status.Ok?;
      status, created := ForkDescriptors.Initialize(resourceForkDescriptor);
      if status.Fail? {
        return Fail(InitializeFailed);
      }
      resourceForkDescriptor := created;
      status := ForkDescriptors.Read(resourceForkDescriptor, ResourceForkField(data));
      assert status.Ok?;
      r := Ok;
    }
  }

  /** The bytes of an HFS Plus file record with the given identifier and forks; the other
      fields are zero. */
  function EncodeFileRecord(identifier: uint32, dataFork: ForkDescriptors.Fork, resourceFork: ForkDescriptors.Fork): (data: seq<byte>)
    requires |dataFork.extents| == ForkDescriptors.NumberOfExtents
    requires |resourceFork.extents| == ForkDescriptors.NumberOfExtents
    ensures |data| == RecordSize(File, HfsPlus)
  {
    FileRecordHead(identifier) + ForkDescriptors.EncodeFork(dataFork) + ForkDescriptors.EncodeFork(resourceFork)
  }

  /** The record type and the identifier, up to the data fork field. */
  function FileRecordHead(identifier: uint32): (head: seq<byte>)
    ensures |head| == HfsPlusDataForkOffset
  {
    Encode16(TypeValue(File, HfsPlus)) + Zeros(HfsPlusFileIdentifierOffset - 2) + Encode32(identifier)
      + Zeros(HfsPlusDataForkOffset - HfsPlusFileIdentifierOffset - 4)
  }

  lemma FileRecordHeadFields(identifier: uint32)
    ensures BE16(FileRecordHead(identifier), 0) == TypeValue(File, HfsPlus)
    ensures BE32(FileRecordHead(identifier), HfsPlusFileIdentifierOffset) == identifier
  {
    var typeBytes, idBytes := Encode16(TypeValue(File, HfsPlus)), Encode32(identifier);
    var front := typeBytes + Zeros(HfsPlusFileIdentifierOffset - 2);
    var gap := Zeros(HfsPlusDataForkOffset - HfsPlusFileIdentifierOffset - 4);
    var head := FileRecordHead(identifier);
    assert head == front + idBytes + gap;
    SliceBefore(front + idBytes, gap, 0, 2);
    SliceBefore(front, idBytes, 0, 2);
    SliceBefore(typeBytes, Zeros(HfsPlusFileIdentifierOffset - 2), 0, 2);
    SliceBefore(front + idBytes, gap, HfsPlusFileIdentifierOffset, HfsPlusFileIdentifierOffset + 4);
    SliceAfter(front, idBytes, 0, 4);
    BE16Slice(head, 0);
    BE32Slice(head, HfsPlusFileIdentifierOffset);
    Decode16Encode16(TypeValue(File, HfsPlus));
    Decode32Encode32(identifier);
  }

  /** Reading an encoded file record gives back its identifier and both forks. */
  lemma ReadEncodedFileRecord(identifier: uint32, dataFork: ForkDescriptors.Fork, resourceFork: ForkDescriptors.Fork)
    requires |dataFork.extents| == ForkDescriptors.NumberOfExtents
    requires |resourceFork.extents| == ForkDescriptors.NumberOfExtents
    ensures var data := EncodeFileRecord(identifier, dataFork, resourceFork);
      FileRecordIdentifier(data) == Success(identifier)
      && ForkDescriptors.DecodeFork(DataForkField(data)) == dataFork
      && ForkDescriptors.DecodeFork(ResourceForkField(data)) == resourceFork
  {
    var head := FileRecordHead(identifier);
    var dataBytes, resourceBytes := ForkDescriptors.EncodeFork(dataFork), ForkDescriptors.EncodeFork(resourceFork);
    var data := EncodeFileRecord(identifier, dataFork, resourceFork);
    FileRecordHeadFields(identifier);
    SliceBefore(head + dataBytes, resourceBytes, 0, 2);
    SliceBefore(head, dataBytes, 0, 2);
    BE16Slice(data, 0);
    BE16Slice(head, 0);
    SliceBefore(head + dataBytes, resourceBytes, HfsPlusFileIdentifierOffset, HfsPlusFileIdentifierOffset + 4);
    SliceBefore(head, dataBytes, HfsPlusFileIdentifierOffset, HfsPlusFileIdentifierOffset + 4);
    BE32Slice(data, HfsPlusFileIdentifierOffset);
    BE32Slice(head, HfsPlusFileIdentifierOffset);
    SliceBefore(head + dataBytes, resourceBytes, HfsPlusDataForkOffset, HfsPlusResourceForkOffset);
    SliceAfter(head, dataBytes, 0, ForkDescriptors.ForkDescriptorSize);
    SliceAfter(head + dataBytes, resourceBytes, 0, ForkDescriptors.ForkDescriptorSize);
    assert data == head + dataBytes + resourceBytes;
    assert BE16(data, 0) == TypeValue(File, HfsPlus);
    assert BE32(data, HfsPlusFileIdentifierOffset) == identifier;
    assert DataForkField(data) == dataBytes;
    assert ResourceForkField(data) == resourceBytes;
    ForkDescriptors.DecodeEncodeFork(dataFork);
    ForkDescriptors.DecodeEncodeFork(resourceFork);
  }

  /** libfshfs_file_record_initialize: refuses a target that is already set. */
  method Initialize(target: FileRecord?) returns (r: Status, record: FileRecord?)
    ensures r.Ok? <==> target == null
    ensures r.Ok? ==> record != null && fresh(record) && record.identifier == 0
                      && record.dataForkDescriptor == null && record.resourceForkDescriptor == null
    ensures r.Fail? ==> r.error == ValueAlreadySet && record == target
  {
    if target != null {
      return Fail(ValueAlreadySet), target;
    }
    record := new FileRecord();
    r := Ok;
  }

  /** libfshfs_file_record_free: releases the data fork, the resource fork and the record.
      Releasing a fork cannot fail, so the result is always 1. */
  method Free(target: FileRecord?) returns (r: Status, released: set<object>, record: FileRecord?)
    ensures r == Ok && record == null
    ensures target == null ==> released == {}
    ensures target != null ==>
      released == {target}
        + (if target.dataForkDescriptor != null then {target.dataForkDescriptor} else {})
        + (if target.resourceForkDescriptor != null then {target.resourceForkDescriptor} else {})
  {
    released := {};
    r := Ok;
    if target != null {
      if target.dataForkDescriptor != null {
        var status, gone, cleared := ForkDescriptors.Free(target.dataForkDescriptor);
        released := released + gone;
      }
      if target.resourceForkDescriptor != null {
        var status, gone, cleared := ForkDescriptors.Free(target.resourceForkDescriptor);
        released := released + gone;
      }
      released := released + {target};
    }
    record := null;
  }
}
