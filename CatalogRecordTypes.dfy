/** The record types of catalog leaf records and the sizes of their fixed parts, as defined
    by the HFS and HFS Plus catalog file formats (Apple Technical Note TN1150, "Catalog File").
    An HFS type is a single byte followed by a reserved zero byte, so read as a big-endian 16-bit
    value it is the HFS Plus type shifted left by eight bits. */
module CatalogRecordTypes {
  import opened Common
  import opened Bytes

  datatype RecordKind = Folder | File | FolderThread | FileThread
  datatype Format = HfsPlus | Hfs

  /** kHFSPlusFolderRecord .. kHFSPlusFileThreadRecord are 1 .. 4. */
  function KindCode(kind: RecordKind): (code: nat)
    ensures 1 <= code <= 4
  {
    match kind
    case Folder => 1
    case File => 2
    case FolderThread => 3
    case FileThread => 4
  }

  /** The record type field of a record of `kind` in `format`. */
  function TypeValue(kind: RecordKind, format: Format): uint16 {
    if format == HfsPlus then KindCode(kind) else KindCode(kind) * 0x100
  }

  /** Sizes of the fixed parts of the catalog records: HFSPlusCatalogFolder (88),
      HFSPlusCatalogFile (248), the HFS Plus thread record up to its name length field (10),
      and the HFS CatalogDataRec variants (70, 102, 46). */
  function RecordSize(kind: RecordKind, format: Format): nat {
    match (kind, format)
    case (Folder, HfsPlus) => 88
    case (Folder, Hfs) => 70
    case (File, HfsPlus) => 248
    case (File, Hfs) => 102
    case (_, HfsPlus) => 10
    case (_, Hfs) => 46
  }

  /** The big-endian record type at the start of a record. */
  function RecordType(data: seq<byte>): uint16
    requires |data| >= 2
  {
    BE16(data, 0)
  }

  /** `data` holds a record of `kind`, in either format, that is at least as long as that
      format's fixed part. */
  predicate HoldsRecordOf(data: seq<byte>, kind: RecordKind) {
    2 <= |data| <= SsizeMax
    && ((RecordType(data) == TypeValue(kind, HfsPlus) && |data| >= RecordSize(kind, HfsPlus))
        || (RecordType(data) == TypeValue(kind, Hfs) && |data| >= RecordSize(kind, Hfs)))
  }

  /** Distinct kinds and formats have distinct type values. */
  lemma TypeValueInjective(k1: RecordKind, f1: Format, k2: RecordKind, f2: Format)
    requires TypeValue(k1, f1) == TypeValue(k2, f2)
    ensures k1 == k2 && f1 == f2
  {
  }

  /** The HFS Plus file record: identifier (fileID) and the two fork data fields. */
  const HfsPlusFileIdentifierOffset: nat := 8
  const HfsPlusDataForkOffset: nat := 88
  const HfsPlusResourceForkOffset: nat := 168
  /** The HFS file record: identifier (filFlNum). */
  const HfsFileIdentifierOffset: nat := 20
  /** The HFS Plus thread record: the name length field (nodeName.length). */
  const HfsPlusThreadNameSizeOffset: nat := 8
}
