/** Catalog B-tree keys of HFS+ (fshfs_catalog_file_index_key_hfsplus_t): a 16-bit key
    length, the parent directory identifier (CNID) and the node name as a count of UTF-16
    code units followed by those units. */
module CatalogBTreeKeys {
  import opened Common
  import opened Bytes

  /** Size of the fixed part of the key: key length, parent CNID and name length. */
  const KeyHeaderSize: nat := 8
  /** An HFSUniStr255 holds at most 255 UTF-16 code units. */
  const MaximumNameUnits: nat := 255

  /** The fields of libfshfs_catalog_btree_key_t. */
  datatype KeyValue = KeyValue(dataSize: nat, parentIdentifier: uint32, nameSize: uint16, name: Option<seq<byte>>)

  /** How a read ends: its return value and the fields it leaves. */
  datatype KeyRead = KeyRead(status: Status, key: KeyValue)

  const EmptyKey: KeyValue := KeyValue(0, 0, 0, None)

  /** The number of bytes the key declares after its length field. */
  function KeyDataSize(data: seq<byte>): (size: uint16)
    requires |data| >= 2
    ensures Encode16(size) == data[..2]
  {
    BE16Slice(data, 0);
    Encode16Decode16(data[..2]);
    BE16(data, 0)
  }

  /** The name size in bytes: the stored number of code units doubled in 16-bit arithmetic. */
  function NameByteSize(data: seq<byte>): uint16
    requires |data| >= KeyHeaderSize
  {
    DoubleU16(BE16(data, 6))
  }

  /** libfshfs_catalog_btree_key_read_data applied to a key holding `k`.
      A length field that runs past `data` fails after the name is released; so does a name that
      runs past the key (the key length rule of TN1150, a check the library lacks: see
      NameCopyOverrunsData and NamePastKeyRefused). Fields the key is too short to hold keep
      their previous values; a zero-length name leaves the old name in place. */
  function ReadKeyData(k: KeyValue, data: seq<byte>): (r: KeyRead)
    ensures r.status.Fail? ==> r.status.error == OutOfBounds && r.key.dataSize == k.dataSize
    ensures r.status.Ok? ==> 2 <= |data| <= SsizeMax && r.key.dataSize == KeyDataSize(data) + 2 <= |data|
    ensures r.status.Ok? && r.key.name != k.name ==>
      KeyHeaderSize + r.key.nameSize <= r.key.dataSize <= |data|
      && r.key.name == Some(data[KeyHeaderSize .. KeyHeaderSize + r.key.nameSize])
  {
    if |data| < 2 || |data| > SsizeMax then KeyRead(Fail(OutOfBounds), k)
    else if KeyDataSize(data) > |data| - 2 then KeyRead(Fail(OutOfBounds), k.(name := None))
    else
      var kds := KeyDataSize(data);
      var withParent := if kds >= 4 then k.(parentIdentifier := BE32(data, 2)) else k;
      if kds < 6 then KeyRead(Ok, withParent.(dataSize := kds + 2))
      else if BE16(data, 6) == 0 then KeyRead(Ok, withParent.(nameSize := 0, dataSize := kds + 2))
      else
        var size := NameByteSize(data);
        if 6 + size > kds then KeyRead(Fail(OutOfBounds), withParent.(nameSize := size, name := None))
        else KeyRead(Ok, withParent.(nameSize := size, name := Some(data[KeyHeaderSize .. KeyHeaderSize + size]),
                                     dataSize := kds + 2))
  }

  /** The bytes of a key for `name` (UTF-16 big-endian code units) under directory `parent`. */
  function EncodeKey(parent: uint32, name: seq<byte>): (data: seq<byte>)
    requires |name| % 2 == 0 && |name| <= 2 * MaximumNameUnits
    ensures |data| == KeyHeaderSize + |name|
  {
    Encode16(6 + |name|) + Encode32(parent) + Encode16(|name| / 2) + name
  }

  /** Reading an encoded key, whatever follows it in the record, gives back its parent and
      name, and the key size covers exactly the length field, parent, count and name. */
  lemma ReadEncodedKey(k: KeyValue, parent: uint32, name: seq<byte>, rest: seq<byte>)
    requires |name| % 2 == 0 && |name| <= 2 * MaximumNameUnits
    requires KeyHeaderSize + |name| + |rest| <= SsizeMax
    ensures ReadKeyData(k, EncodeKey(parent, name) + rest)
         == KeyRead(Ok, KeyValue(KeyHeaderSize + |name|, parent, |name|, if name == [] then k.name else Some(name)))
  {
    var data := EncodeKey(parent, name) + rest;
    assert data[0 .. 2] == Encode16(6 + |name|);
    assert data[2 .. 6] == Encode32(parent);
    assert data[6 .. 8] == Encode16(|name| / 2);
    assert data[KeyHeaderSize .. KeyHeaderSize + |name|] == name;
    BE16Slice(data, 0);
    BE32Slice(data, 2);
    BE16Slice(data, 6);
    Decode16Encode16(6 + |name|);
    Decode32Encode32(parent);
    Decode16Encode16(|name| / 2);
  }

  /** After a successful read the name lies inside the key: its bytes are the ones that follow
      the fixed part, and they end where the declared key ends. */
  lemma ReadKeyNameInsideKey(k: KeyValue, data: seq<byte>)
    requires ReadKeyData(k, data).status.Ok?
    requires |data| >= KeyHeaderSize && KeyDataSize(data) >= 6 && BE16(data, 6) > 0
    ensures var key := ReadKeyData(k, data).key;
      key.name == Some(data[KeyHeaderSize .. KeyHeaderSize + key.nameSize])
      && KeyHeaderSize + key.nameSize <= key.dataSize <= |data|
  {
  }

  /** A read that fails after the length check leaves no name behind; a read refused by the
      length check changes nothing. */
  lemma ReadKeyFailureReleasesName(k: KeyValue, data: seq<byte>)
    requires ReadKeyData(k, data).status.Fail?
    ensures 2 <= |data| <= SsizeMax ==> ReadKeyData(k, data).key.name == None
    ensures !(2 <= |data| <= SsizeMax) ==> ReadKeyData(k, data).key == k
    ensures ReadKeyData(k, data).key.dataSize == k.dataSize
  {
  }

  /** As written: the end of the byte range the name is copied from. Nothing compares it with
      the size of the key or of the data. */
  function NameEndAsWritten(data: seq<byte>): (end: nat)
    requires |data| >= KeyHeaderSize
    ensures end % 2 == 0 && KeyHeaderSize <= end < KeyHeaderSize + 0x1_0000
    ensures BE16(data, 6) < 0x8000 ==> end == KeyHeaderSize + 2 * BE16(data, 6)
  {
    KeyHeaderSize + NameByteSize(data)
  }

  /** Eight bytes declaring a six-byte key with a one-unit name pass the library's checks, yet
      the copy reads data[8 .. 10], past the end of the data. */
  lemma NameCopyOverrunsData()
    ensures var data: seq<byte> := [0, 6, 0, 0, 0, 1, 0, 1];
      KeyDataSize(data) <= |data| - 2 && KeyDataSize(data) >= 6 && BE16(data, 6) > 0
      && NameEndAsWritten(data) > |data|
      && ReadKeyData(EmptyKey, data).status == Fail(OutOfBounds)
  {
  }

  /** Ten bytes declaring a six-byte key with a one-unit name: the library copies data[8 .. 10],
      which lies inside the data but past the declared key. The corrected read applies the key
      length rule of TN1150 and refuses it, which is stricter than the memory bound. */
  lemma NamePastKeyRefused()
    ensures var data: seq<byte> := [0, 6, 0, 0, 0, 1, 0, 1, 0, 0x41];
      KeyDataSize(data) <= |data| - 2 && KeyDataSize(data) >= 6 && BE16(data, 6) > 0
      && KeyDataSize(data) + 2 < NameEndAsWritten(data) <= |data|
      && ReadKeyData(EmptyKey, data).status == Fail(OutOfBounds)
  {
  }

  /** libfshfs_catalog_btree_key_t. */
  class CatalogBTreeKey {
    var dataSize: nat
    var parentIdentifier: uint32
    var nameSize: uint16
    var name: Option<seq<byte>>

    function Value(): KeyValue
      reads this
    {
      KeyValue(dataSize, parentIdentifier, nameSize, name)
    }

    /** The zero-filled key libfshfs_catalog_btree_key_initialize allocates. */
    constructor ()
      ensures Value() == EmptyKey
    {
      dataSize := 0;
      parentIdentifier := 0;
      nameSize := 0;
      name := None;
    }

    /** libfshfs_catalog_btree_key_read_data. */
    method ReadData(data: seq<byte>) returns (r: Status)
      modifies this
      ensures ReadKeyData(old(Value()), data) == KeyRead(r, Value())
    {
      if |data| < 2 || |data| > SsizeMax {
        return Fail(OutOfBounds);
      }
      var keyDataSize := BE16(data, 0);
      if keyDataSize > |data| - 2 {
        name := None;
        return Fail(OutOfBounds);
      }
      if keyDataSize >= 4 {
        parentIdentifier := BE32(data, 2);
      }
      if keyDataSize >= 6 {
        nameSize := BE16(data, 6);
        if nameSize > 0 {
          nameSize := DoubleU16(nameSize);
          if 6 + nameSize > keyDataSize {
            name := None;
            return Fail(OutOfBounds);
          }
          name := Some(data[KeyHeaderSize .. KeyHeaderSize + nameSize]);
        }
      }
      dataSize := keyDataSize + 2;
      r := Ok;
    }
  }

  /** libfshfs_catalog_btree_key_initialize: refuses a target that is already set. */
  method Initialize(target: CatalogBTreeKey?) returns (r: Status, key: CatalogBTreeKey?)
    ensures r.Ok? <==> target == null
    ensures r.Ok? ==> key != null && fresh(key) && key.Value() == EmptyKey
    ensures r.Fail? ==> r.error == ValueAlreadySet && key == target
  {
    if target != null {
      return Fail(ValueAlreadySet), target;
    }
    key := new CatalogBTreeKey();
    r := Ok;
  }

  /** libfshfs_catalog_btree_key_free: releases the key and, when it has one, its name. */
  method Free(target: CatalogBTreeKey?) returns (r: Status, released: set<object>, nameReleased: bool, key: CatalogBTreeKey?)
    ensures r == Ok && key == null
    ensures released == if target == null then {} else {target}
    ensures nameReleased <==> target != null && target.name.Some?
  {
    released := if target == null then {} else {target};
    nameReleased := target != null && target.name.Some?;
    key := null;
    r := Ok;
  }
}
