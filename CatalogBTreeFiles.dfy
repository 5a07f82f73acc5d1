/** The scan of the catalog B-tree root node: every record of the root node is fetched in
    index order and split into its key and its value at the key data size plus 2. */
module CatalogBTreeFiles {
  import opened Common
  import opened Bytes
  import opened BTreeNodes
  import opened BTreeFiles
  import opened CatalogBTreeKeys

  /** What libfshfs_btree_node_get_record_data_by_index yields for one record index. */
  datatype RecordFetch = FetchFailed | NoRecordData | RecordData(data: seq<byte>)

  /** The local values the scan computes for one record: the key data size, the name size in
      bytes and the offset at which the record value starts. */
  datatype RecordSplit = RecordSplit(keyDataSize: uint16, keyNameSize: uint16, valueOffset: uint16)

  /** The outcome of a scan: its return value and the splits of the records it got through. */
  datatype Scan = Scan(status: Status, splits: seq<RecordSplit>)

  /** As written: the end of the key bytes the scan reads from a record, given the key data
      size its first two bytes hold. The record data size is not consulted. */
  function KeyFieldsEndAsWritten(keyDataSize: uint16): (end: nat)
    ensures end == 2 || end == KeyHeaderSize
  {
    if keyDataSize >= 6 then KeyHeaderSize else 2
  }

  /** A two-byte record declaring a six-byte key, and an empty record, both have key fields
      read past their end. */
  lemma ScanReadsPastRecord()
    ensures var record: seq<byte> := [0, 6];
      KeyFieldsEndAsWritten(KeyDataSize(record)) == 8 > |record|
    ensures var empty: seq<byte> := [];
      forall keyDataSize: uint16 :: KeyFieldsEndAsWritten(keyDataSize) > |empty|
  {
  }

  /** Corrected: the record holds its key length field and the whole key it declares. */
  /** A record accepted by this check has every key field the scan reads inside it. */
  predicate KeyFitsRecord(record: seq<byte>): (fits: bool)
    ensures fits ==> |record| >= 2 && KeyFieldsEndAsWritten(KeyDataSize(record)) <= |record|
  {
    |record| >= 2 && KeyDataSize(record) + 2 <= |record|
  }

  /** The split of one record. `previousNameSize` is the name size the scan holds from the
      records before: a key shorter than 6 bytes leaves it as it is. */
  function SplitRecord(record: seq<byte>, previousNameSize: uint16): (s: RecordSplit)
    requires KeyFitsRecord(record)
    ensures s.keyDataSize == KeyDataSize(record)
    ensures s.valueOffset == KeyDataSize(record) + 2 || s.valueOffset == KeyDataSize(record) + 2 - 0x1_0000
    ensures KeyDataSize(record) < 6 ==> s.keyNameSize == previousNameSize
    ensures KeyDataSize(record) >= 6 ==> s.keyNameSize == NameByteSize(record) && s.keyNameSize % 2 == 0
  {
    var keyDataSize := KeyDataSize(record);
    RecordSplit(keyDataSize,
                if keyDataSize >= 6 then DoubleU16(BE16(record, 6)) else previousNameSize,
                AddU16(keyDataSize, 2))
  }

  function Prepend(split: RecordSplit, s: Scan): Scan {
    Scan(s.status, [split] + s.splits)
  }

  /** The scan of records `index` up to `count` of `node`, holding name size `nameSize`. */
  function ScanFrom(getRecord: (BTreeNode, nat) -> RecordFetch, node: BTreeNode, index: nat, count: nat,
                    nameSize: uint16): (s: Scan)
    ensures s.status.Fail? ==> s.status.error in {GetFailed, ValueMissing, OutOfBounds}
    ensures index <= count ==> |s.splits| <= count - index
    decreases count - index
  {
    if index >= count then Scan(Ok, [])
    else
      match getRecord(node, index)
      case FetchFailed => Scan(Fail(GetFailed), [])
      case NoRecordData => Scan(Fail(ValueMissing), [])
      case RecordData(data) =>
        if !KeyFitsRecord(data) then Scan(Fail(OutOfBounds), [])
        else
          var split := SplitRecord(data, nameSize);
          Prepend(split, ScanFrom(getRecord, node, index + 1, count, split.keyNameSize))
  }

  /** The record at `index` was fetched and its key fits in it. */
  predicate RecordUsable(getRecord: (BTreeNode, nat) -> RecordFetch, node: BTreeNode, index: nat) {
    getRecord(node, index).RecordData? && KeyFitsRecord(getRecord(node, index).data)
  }

  /** The scan succeeds exactly when every record it visits is usable; then it has one split per
      record, in index order, each with the key data size the record declares and the value
      starting 2 bytes after it (in 16-bit arithmetic). A failing scan stops before the end. */
  lemma {:induction false} ScanVisitsAll(getRecord: (BTreeNode, nat) -> RecordFetch, node: BTreeNode,
                                         index: nat, count: nat, nameSize: uint16)
    requires index <= count
    ensures var s := ScanFrom(getRecord, node, index, count, nameSize);
      (s.status.Ok? <==> forall j :: index <= j < count ==> RecordUsable(getRecord, node, j))
      && (s.status.Ok? ==> |s.splits| == count - index)
      && (s.status.Fail? ==> |s.splits| < count - index)
      && (forall j :: index <= j < index + |s.splits| ==>
            RecordUsable(getRecord, node, j)
            && s.splits[j - index].keyDataSize == KeyDataSize(getRecord(node, j).data)
            && s.splits[j - index].valueOffset == AddU16(KeyDataSize(getRecord(node, j).data), 2))
    decreases count - index
  {
    if index < count && RecordUsable(getRecord, node, index) {
      var data := getRecord(node, index).data;
      ScanVisitsAll(getRecord, node, index + 1, count, SplitRecord(data, nameSize).keyNameSize);
    }
  }

  /** The corrected check and the catalog key decoder agree: the key decoder accepts a record
      exactly when the key fits in it and its name fits in the key, and the value then starts
      where the decoded key ends (in 16-bit arithmetic), after a name of the decoded size. */
  lemma SplitAgreesWithKey(k: KeyValue, record: seq<byte>, previousNameSize: uint16)
    requires |record| <= SsizeMax
    ensures ReadKeyData(k, record).status.Ok?
        <==> KeyFitsRecord(record)
             && (KeyDataSize(record) < 6 || BE16(record, 6) == 0 || 6 + NameByteSize(record) <= KeyDataSize(record))
    ensures ReadKeyData(k, record).status.Ok? ==>
      SplitRecord(record, previousNameSize).valueOffset == ReadKeyData(k, record).key.dataSize % 0x1_0000
      && (KeyDataSize(record) >= 6 ==>
            SplitRecord(record, previousNameSize).keyNameSize == ReadKeyData(k, record).key.nameSize)
  {
  }

  /** Splitting a record made of an encoded key followed by a value finds that value, and the
      name size of the key. */
  lemma SplitEncodedRecord(parent: uint32, name: seq<byte>, value: seq<byte>, previousNameSize: uint16)
    requires |name| % 2 == 0 && |name| <= 2 * MaximumNameUnits
    ensures var record := EncodeKey(parent, name) + value;
      KeyFitsRecord(record)
      && SplitRecord(record, previousNameSize).keyNameSize == |name|
      && SplitRecord(record, previousNameSize).valueOffset == KeyHeaderSize + |name|
      && record[SplitRecord(record, previousNameSize).valueOffset..] == value
  {
    var record := EncodeKey(parent, name) + value;
    assert record[0 .. 2] == Encode16(6 + |name|);
    assert record[6 .. 8] == Encode16(|name| / 2);
    BE16Slice(record, 0);
    BE16Slice(record, 6);
    Decode16Encode16(6 + |name|);
    Decode16Encode16(|name| / 2);
    assert record[KeyHeaderSize + |name|..] == value;
  }

  /** libfshfs_catalog_btree_file_test with the corrected bounds check. `fetch` stands for the
      node vector lookup and `getRecord` for libfshfs_btree_node_get_record_data_by_index. */
  method Test(file: BTreeFile, fetch: (NodesVector, int) -> Option<BTreeNode?>,
              getRecord: (BTreeNode, nat) -> RecordFetch) returns (r: Status, splits: seq<RecordSplit>)
    ensures var found := Lookup(file.nodesVector, file.nodesCache, fetch, ToInt32(file.header.rootNodeNumber));
      (found.Failure? ==> r == Fail(GetFailed) && splits == [])
      && (found.Success? && found.value == null ==> r == Fail(ValueMissing) && splits == [])
      && (found.Success? && found.value != null ==>
            Scan(r, splits) == ScanFrom(getRecord, found.value, 0, found.value.numberOfRecords, 0))
  {
    var status, rootNode := GetRootNode(file, fetch);
    if status.Fail? {
      return Fail(GetFailed), [];
    }
    if rootNode == null {
      return Fail(ValueMissing), [];
    }
    var count := rootNode.numberOfRecords;
    var keyNameSize: uint16 := 0;
    splits := [];
    for recordIndex := 0 to count
      invariant ScanFrom(getRecord, rootNode, 0, count, 0)
             == Scan(ScanFrom(getRecord, rootNode, recordIndex, count, keyNameSize).status,
                     splits + ScanFrom(getRecord, rootNode, recordIndex, count, keyNameSize).splits)
    {
      var fetched := getRecord(rootNode, recordIndex);
      if fetched.FetchFailed? {
        return Fail(GetFailed), splits;
      }
      if fetched.NoRecordData? {
        return Fail(ValueMissing), splits;
      }
      var recordData := fetched.data;
      if |recordData| < 2 {
        return Fail(OutOfBounds), splits;
      }
      var keyDataSize := BE16(recordData, 0);
      if keyDataSize + 2 > |recordData| {
        return Fail(OutOfBounds), splits;
      }
      ghost var previousNameSize := keyNameSize;
      if keyDataSize >= 6 {
        keyNameSize := BE16(recordData, 6);
        keyNameSize := DoubleU16(keyNameSize);
      }
      var valueOffset := AddU16(keyDataSize, 2);
      var split := RecordSplit(keyDataSize, keyNameSize, valueOffset);
      assert split == SplitRecord(recordData, previousNameSize) by {
        assert keyDataSize == KeyDataSize(recordData);
      }
      assert splits + [split] + ScanFrom(getRecord, rootNode, recordIndex + 1, count, keyNameSize).splits
          == splits + ([split] + ScanFrom(getRecord, rootNode, recordIndex + 1, count, keyNameSize).splits);
      splits := splits + [split];
    }
    r := Ok;
  }
}
