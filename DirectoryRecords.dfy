/** Catalog folder records (HFSPlusCatalogFolder and the HFS folder record). */
module DirectoryRecords {
  import opened Common
  import opened Bytes
  import opened CatalogRecordTypes

  /** libfshfs_directory_record_t. */
  class DirectoryRecord {
    var identifier: uint32

    /** The zero-filled record libfshfs_directory_record_initialize allocates. */
    constructor ()
      ensures identifier == 0
    {
      identifier := 0;
    }
  }

  /** libfshfs_directory_record_read: validates the record type and size. Outside debug output
      it stores nothing in the record, whose identifier therefore keeps the zero it was
      initialised with. */
  function ReadDirectoryRecord(data: seq<byte>): (r: Status)
    ensures !(2 <= |data| <= SsizeMax) ==> r == Fail(OutOfBounds)
  {
    if |data| < 2 || |data| > SsizeMax then Fail(OutOfBounds)
    else
      var recordType := BE16(data, 0);
      var recordSize :=
        if recordType == 0x0001 then Some(RecordSize(Folder, HfsPlus))
        else if recordType == 0x0100 then Some(RecordSize(Folder, Hfs))
        else None;
      if recordSize.None? then Fail(Unsupported)
      else if |data| < recordSize.value then Fail(OutOfBounds)
      else Ok
  }

  /** The read succeeds exactly on folder records that are long enough; of the other records
      it refuses the types as unsupported and the short folder records as out of bounds. */
  lemma ReadDirectoryRecordAccepts(data: seq<byte>)
    ensures ReadDirectoryRecord(data).Ok? <==> HoldsRecordOf(data, Folder)
    ensures 2 <= |data| <= SsizeMax && RecordType(data) != TypeValue(Folder, HfsPlus)
            && RecordType(data) != TypeValue(Folder, Hfs)
            ==> ReadDirectoryRecord(data) == Fail(Unsupported)
  {
  }

  /** libfshfs_directory_record_initialize: refuses a target that is already set. */
  method Initialize(target: DirectoryRecord?) returns (r: Status, record: DirectoryRecord?)
    ensures r.Ok? <==> target == null
    ensures r.Ok? ==> record != null && fresh(record) && record.identifier == 0
    ensures r.Fail? ==> r.error == ValueAlreadySet && record == target
  {
    if target != null {
      return Fail(ValueAlreadySet), target;
    }
    record := new DirectoryRecord();
    r := Ok;
  }

  /** libfshfs_directory_record_free: releases the record if there is one; it always succeeds. */
  method Free(target: DirectoryRecord?) returns (r: Status, released: set<object>, record: DirectoryRecord?)
    ensures r == Ok && record == null
    ensures released == if target == null then {} else {target}
  {
    released := if target == null then {} else {target};
    record := null;
    r := Ok;
  }
}
