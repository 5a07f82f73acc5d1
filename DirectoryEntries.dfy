/** Directory entries: a catalog record together with the record type, name and parent
    identifier of the key it was found under. */
module DirectoryEntries {
  import opened Common
  import opened CatalogRecordTypes
  import DirectoryRecords
  import FileRecords
  import ThreadRecords

  /** The untyped catalog record reference of an entry: no record, a folder record or a file
      record. Both record structures start with the 32-bit identifier. */
  datatype CatalogRecord =
    | NoRecord
    | DirectoryRecordRef(directory: DirectoryRecords.DirectoryRecord)
    | FileRecordRef(file: FileRecords.FileRecord)

  function RecordObjects(c: CatalogRecord): set<object> {
    match c
    case NoRecord => {}
    case DirectoryRecordRef(d) => {d}
    case FileRecordRef(f) => {f}
  }

  /** The identifier stored at the start of the record. */
  function StoredIdentifier(c: CatalogRecord): uint32
    requires !c.NoRecord?
    reads RecordObjects(c)
  {
    match c
    case DirectoryRecordRef(d) => d.identifier
    case FileRecordRef(f) => f.identifier
  }

  predicate IsDirectoryRecordType(t: uint16) {
    t == 0x0001 || t == 0x0100
  }

  predicate IsFileRecordType(t: uint16) {
    t == 0x0002 || t == 0x0200
  }

  /** libfshfs_directory_entry_t. */
  class DirectoryEntry {
    var recordType: uint16
    var nameSize: uint16
    var name: Option<seq<byte>>
    var parentIdentifier: uint32
    var catalogRecord: CatalogRecord

    /** The record type tells which structure the catalog record points to. */
    ghost predicate Valid()
      reads this
    {
      (IsDirectoryRecordType(recordType) ==> !catalogRecord.FileRecordRef?)
      && (IsFileRecordType(recordType) ==> !catalogRecord.DirectoryRecordRef?)
    }

    /** The zero-filled entry libfshfs_directory_entry_initialize allocates. */
    constructor ()
      ensures Valid()
      ensures recordType == 0 && nameSize == 0 && name == None && parentIdentifier == 0
      ensures catalogRecord == NoRecord
    {
      recordType := 0;
      nameSize := 0;
      name := None;
      parentIdentifier := 0;
      catalogRecord := NoRecord;
    }
  }

  /** libfshfs_directory_entry_get_identifier; `previous` is the value the caller's identifier
      variable holds before the call. */
  method GetIdentifier(entry: DirectoryEntry?, previous: uint32) returns (r: Status, identifier: uint32)
    ensures entry == null ==> r == Fail(InvalidArgument) && identifier == previous
    ensures entry != null && entry.catalogRecord.NoRecord? ==> r == Fail(ValueMissing) && identifier == previous
    ensures entry != null && !entry.catalogRecord.NoRecord? ==> r == Ok
    ensures r.Ok? && (IsDirectoryRecordType(entry.recordType) || IsFileRecordType(entry.recordType))
            ==> identifier == StoredIdentifier(entry.catalogRecord)
    ensures r.Ok? && !IsDirectoryRecordType(entry.recordType) && !IsFileRecordType(entry.recordType)
            ==> identifier == previous
  {
    identifier := previous;
    if entry == null {
      return Fail(InvalidArgument), identifier;
    }
    if entry.catalogRecord.NoRecord? {
      return Fail(ValueMissing), identifier;
    }
    if entry.recordType == 0x0001 || entry.recordType == 0x0100 {
      identifier := StoredIdentifier(entry.catalogRecord);
    } else if entry.recordType == 0x0002 || entry.recordType == 0x0200 {
      identifier := StoredIdentifier(entry.catalogRecord);
    }
    r := Ok;
  }

  /** What releasing the entry's catalog record frees: a folder record, or a file record with
      its forks; records of other types are not released. */
  function ReleasedRecord(recordType: uint16, c: CatalogRecord): set<object>
    reads if c.FileRecordRef? then {c.file} else {}
  {
    match c
    case NoRecord => {}
    case DirectoryRecordRef(d) => if IsDirectoryRecordType(recordType) then {d} else {}
    case FileRecordRef(f) =>
      if !IsFileRecordType(recordType) then {}
      else
        {f} + (if f.dataForkDescriptor != null then {f.dataForkDescriptor} else {})
            + (if f.resourceForkDescriptor != null then {f.resourceForkDescriptor} else {})
  }

  /** libfshfs_directory_entry_free: releases the name, the catalog record with the destructor
      its record type selects, and the entry. */
  method Free(target: DirectoryEntry?) returns (r: Status, released: set<object>, nameReleased: bool, entry: DirectoryEntry?)
    requires target != null ==> target.Valid()
    ensures r == Ok && entry == null
    ensures target == null ==> released == {} && !nameReleased
    ensures target != null ==> nameReleased == target.name.Some?
    ensures target != null ==> released == {target} + ReleasedRecord(target.recordType, target.catalogRecord)
  {
    r := Ok;
    released := {};
    nameReleased := false;
    entry := null;
    if target == null {
      return;
    }
    nameReleased := target.name.Some?;
    if !target.catalogRecord.NoRecord? {
      if target.recordType == 0x0001 || target.recordType == 0x0100 {
        var status, gone, cleared := DirectoryRecords.Free(target.catalogRecord.directory);
        released := released + gone;
      } else if target.recordType == 0x0002 || target.recordType == 0x0200 {
        var status, gone, cleared := FileRecords.Free(target.catalogRecord.file);
        released := released + gone;
      }
    }
    released := released + {target};
  }

  /** libfshfs_directory_entry_initialize: refuses a target that is already set. */
  method Initialize(target: DirectoryEntry?) returns (r: Status, entry: DirectoryEntry?)
    ensures r.Ok? <==> target == null
    ensures r.Ok? ==>
      entry != null && fresh(entry) && entry.Valid() && entry.catalogRecord == NoRecord
      && entry.recordType == 0 && entry.nameSize == 0 && entry.name == None && entry.parentIdentifier == 0
    ensures r.Fail? ==> r.error == ValueAlreadySet && entry == target
  {
    if target != null {
      return Fail(ValueAlreadySet), target;
    }
    entry := new DirectoryEntry();
    r := Ok;
  }

  /** The record types get_identifier and free treat as folder and file records are the ones
      the folder and file record readers accept; a leaf record is accepted by at most one of
      the folder, file and thread record readers. */
  lemma CatalogRecordReadersAgree(data: seq<byte>)
    requires 2 <= |data|
    ensures DirectoryRecords.ReadDirectoryRecord(data).Ok? ==> IsDirectoryRecordType(RecordType(data))
    ensures FileRecords.FileRecordIdentifier(data).Success? ==> IsFileRecordType(RecordType(data))
    ensures !(DirectoryRecords.ReadDirectoryRecord(data).Ok? && FileRecords.FileRecordIdentifier(data).Success?)
    ensures !(DirectoryRecords.ReadDirectoryRecord(data).Ok? && ThreadRecords.ReadThreadRecord(data).Success?)
    ensures !(FileRecords.FileRecordIdentifier(data).Success? && ThreadRecords.ReadThreadRecord(data).Success?)
  {
    DirectoryRecords.ReadDirectoryRecordAccepts(data);
    FileRecords.FileRecordIdentifierAccepts(data);
    ThreadRecords.ReadThreadRecordAccepts(data);
  }
}
