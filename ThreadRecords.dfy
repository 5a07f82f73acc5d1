/** Catalog thread records, which link a folder or file identifier to its parent and name. */
module ThreadRecords {
  import opened Common
  import opened Bytes
  import opened CatalogRecordTypes

  /** Where libfshfs_thread_record_read finds the name: its size in bytes and, when that size
      is not zero, the offset of its first byte. */
  datatype ThreadName = ThreadName(nameSize: uint16, nameOffset: Option<nat>)

  /** libfshfs_thread_record_read: validates the record type and size and locates the name.
      The name length is only read for HFS Plus records (HFS names are not supported and count
      as empty); the number of code units is doubled in 16-bit arithmetic. The name is not
      compared with the size of the data, and nothing is stored in the thread record. */
  function ReadThreadRecord(data: seq<byte>): (r: Result<ThreadName>)
    ensures !(2 <= |data| <= SsizeMax) ==> r == Failure(OutOfBounds)
  {
    if |data| < 2 || |data| > SsizeMax then Failure(OutOfBounds)
    else
      var recordType := BE16(data, 0);
      var hfsPlus := recordType == 0x0003 || recordType == 0x0004;
      var recordSize :=
        if hfsPlus then Some(RecordSize(FolderThread, HfsPlus))
        else if recordType == 0x0300 || recordType == 0x0400 then Some(RecordSize(FolderThread, Hfs))
        else None;
      if recordSize.None? then Failure(Unsupported)
      else if |data| < recordSize.value then Failure(OutOfBounds)
      else
        var nameCount: uint16 := if hfsPlus then BE16(data, HfsPlusThreadNameSizeOffset) else 0;
        var nameSize := DoubleU16(nameCount);
        Success(ThreadName(nameSize, if nameSize > 0 then Some(RecordSize(FolderThread, HfsPlus)) else None))
  }

  predicate IsThreadKind(kind: RecordKind) {
    kind == FolderThread || kind == FileThread
  }

  /** The read succeeds exactly on folder and file thread records of either format that are at
      least as long as their fixed part. */
  lemma ReadThreadRecordAccepts(data: seq<byte>)
    ensures ReadThreadRecord(data).Success?
        <==> HoldsRecordOf(data, FolderThread) || HoldsRecordOf(data, FileThread)
  {
  }

  /** An HFS thread record never has a name. */
  lemma HfsThreadHasNoName(data: seq<byte>)
    requires ReadThreadRecord(data).Success?
    requires RecordType(data) == TypeValue(FolderThread, Hfs) || RecordType(data) == TypeValue(FileThread, Hfs)
    ensures ReadThreadRecord(data).value == ThreadName(0, None)
  {
  }

  /** An HFS Plus thread record: type, reserved, parent identifier (parentID), and the name as
      a count of UTF-16 code units followed by the units. */
  function EncodeThreadRecord(kind: RecordKind, parent: uint32, name: seq<byte>): (data: seq<byte>)
    requires IsThreadKind(kind)
    requires |name| % 2 == 0 && |name| <= 2 * 255
    ensures |data| == RecordSize(kind, HfsPlus) + |name|
  {
    Encode16(TypeValue(kind, HfsPlus)) + [0, 0] + Encode32(parent) + Encode16(|name| / 2) + name
  }

  /** The name found in an encoded thread record is the name that was encoded. */
  lemma ReadEncodedThreadRecord(kind: RecordKind, parent: uint32, name: seq<byte>)
    requires IsThreadKind(kind)
    requires |name| % 2 == 0 && |name| <= 2 * 255
    ensures var data := EncodeThreadRecord(kind, parent, name);
      var r := ReadThreadRecord(data);
      r.Success? && r.value.nameSize == |name|
      && (name == [] ==> r.value.nameOffset == None)
      && (name != [] ==> r.value.nameOffset == Some(10) && data[10 .. 10 + |name|] == name)
  {
    var data := EncodeThreadRecord(kind, parent, name);
    assert data[0 .. 2] == Encode16(TypeValue(kind, HfsPlus));
    assert data[8 .. 10] == Encode16(|name| / 2);
    assert data[10 .. 10 + |name|] == name;
    BE16Slice(data, 0);
    BE16Slice(data, 8);
    Decode16Encode16(TypeValue(kind, HfsPlus));
    Decode16Encode16(|name| / 2);
  }

  /** Ten bytes of an HFS Plus folder thread record declaring a one-unit name are accepted,
      although the name would lie at data[10 .. 12], past the end of the data. */
  lemma ThreadNameNotBoundsChecked()
    ensures var data: seq<byte> := [0, 3, 0, 0, 0, 0, 0, 2, 0, 1];
      ReadThreadRecord(data) == Success(ThreadName(2, Some(10))) && 10 + 2 > |data|
  {
  }

  /** libfshfs_thread_record_t: the reader stores nothing in it, so the model gives it no
      fields. */
  class ThreadRecord {
    constructor () {
    }
  }

  /** libfshfs_thread_record_initialize: refuses a target that is already set. */
  method Initialize(target: ThreadRecord?) returns (r: Status, record: ThreadRecord?)
    ensures r.Ok? <==> target == null
    ensures r.Ok? ==> record != null && fresh(record)
    ensures r.Fail? ==> r.error == ValueAlreadySet && record == target
  {
    if target != null {
      return Fail(ValueAlreadySet), target;
    }
    record := new ThreadRecord();
    r := Ok;
  }

  /** libfshfs_thread_record_free: releases the record if there is one; it always succeeds. */
  method Free(target: ThreadRecord?) returns (r: Status, released: set<object>, record: ThreadRecord?)
    ensures r == Ok && record == null
    ensures released == if target == null then {} else {target}
  {
    released := if target == null then {} else {target};
    record := null;
    r := Ok;
  }
}
