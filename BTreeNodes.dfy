/** B-tree nodes and the 14-byte node descriptor that starts each node
    (fshfs_btree_node_descriptor_t). */
module BTreeNodes {
  import opened Common
  import opened Bytes

  const NodeDescriptorSize: nat := 14

  /** Node kinds (kBTLeafNode = -1, kBTIndexNode = 0, kBTHeaderNode = 1, kBTMapNode = 2). */
  const IndexNode: byte := 0x00
  const HeaderNode: byte := 0x01
  const MapNode: byte := 0x02
  const LeafNode: byte := 0xFF

  /** The on-disk descriptor fields. */
  datatype NodeDescriptor = NodeDescriptor(
    nextNodeNumber: uint32,
    previousNodeNumber: uint32,
    nodeType: byte,
    nodeLevel: byte,
    numberOfRecords: uint16)

  /** The descriptor as stored in the first 14 bytes of `data`; the two bytes after the
      record count are reserved. */
  function DescriptorOf(data: seq<byte>): (d: NodeDescriptor)
    requires |data| >= NodeDescriptorSize
    ensures EncodeDescriptor(d)[..12] == data[..12]
  {
    BE32Slice(data, 0);
    BE32Slice(data, 4);
    BE16Slice(data, 10);
    Encode32Decode32(data[0 .. 4]);
    Encode32Decode32(data[4 .. 8]);
    Encode16Decode16(data[10 .. 12]);
    assert data[..12] == data[0 .. 4] + data[4 .. 8] + data[8 .. 10] + data[10 .. 12];
    NodeDescriptor(BE32(data, 0), BE32(data, 4), data[8], data[9], BE16(data, 10))
  }

  function EncodeDescriptor(d: NodeDescriptor): (data: seq<byte>)
    ensures |data| == NodeDescriptorSize
  {
    Encode32(d.nextNodeNumber) + Encode32(d.previousNodeNumber)
      + [d.nodeType, d.nodeLevel] + Encode16(d.numberOfRecords) + [0, 0]
  }

  lemma DescriptorOfEncode(d: NodeDescriptor)
    ensures DescriptorOf(EncodeDescriptor(d)) == d
  {
    var data := EncodeDescriptor(d);
    assert data[0 .. 4] == Encode32(d.nextNodeNumber);
    assert data[4 .. 8] == Encode32(d.previousNodeNumber);
    assert data[10 .. 12] == Encode16(d.numberOfRecords);
    BE32Slice(data, 0);
    BE32Slice(data, 4);
    BE16Slice(data, 10);
    Decode32Encode32(d.nextNodeNumber);
    Decode32Encode32(d.previousNodeNumber);
    Decode16Encode16(d.numberOfRecords);
  }

  /** One entry of the node's records array. */
  datatype NodeRecord = NodeRecord(offset: uint16, size: uint16)

  /** libfshfs_btree_node_t. */
  class BTreeNode {
    var nodeType: byte
    var level: byte
    var data: seq<byte>
    var dataSize: nat
    var numberOfRecords: uint16
    var nextNodeNumber: uint32
    var previousNodeNumber: uint32
    var recordsArray: seq<NodeRecord>

    /** The descriptor values the node holds. */
    function Descriptor(): NodeDescriptor
      reads this
    {
      NodeDescriptor(nextNodeNumber, previousNodeNumber, nodeType, level, numberOfRecords)
    }

    /** The zero-filled node libfshfs_btree_node_initialize allocates. */
    constructor ()
      ensures Descriptor() == NodeDescriptor(0, 0, 0, 0, 0)
      ensures data == [] && dataSize == 0 && recordsArray == []
    {
      nodeType := 0;
      level := 0;
      data := [];
      dataSize := 0;
      numberOfRecords := 0;
      nextNodeNumber := 0;
      previousNodeNumber := 0;
      recordsArray := [];
    }

    /** libfshfs_btree_node_read_descriptor. The node level is copied from the node type
        byte, not from the level byte that follows it. */
    method ReadDescriptor(bytes: seq<byte>) returns (r: Status)
      modifies this
      ensures r.Ok? <==> NodeDescriptorSize <= |bytes| <= SsizeMax
      ensures r.Fail? ==> r.error == OutOfBounds && unchanged(this)
      ensures r.Ok? ==> Descriptor() == DescriptorOf(bytes).(nodeLevel := bytes[8])
      ensures r.Ok? ==> data == old(data) && dataSize == old(dataSize) && recordsArray == old(recordsArray)
    {
      if |bytes| < NodeDescriptorSize || |bytes| > SsizeMax {
        return Fail(OutOfBounds);
      }
      nextNodeNumber := BE32(bytes, 0);
      previousNodeNumber := BE32(bytes, 4);
      nodeType := bytes[8];
      level := bytes[8];
      numberOfRecords := BE16(bytes, 10);
      r := Ok;
    }
  }

  /** libfshfs_btree_node_initialize: refuses a target that is already set. */
  method Initialize(target: BTreeNode?) returns (r: Status, node: BTreeNode?)
    ensures r.Ok? <==> target == null
    ensures r.Ok? ==>
      node != null && fresh(node) && node.Descriptor() == NodeDescriptor(0, 0, 0, 0, 0)
      && node.data == [] && node.dataSize == 0 && node.recordsArray == []
    ensures r.Fail? ==> r.error == ValueAlreadySet && node == target
  {
    if target != null {
      return Fail(ValueAlreadySet), target;
    }
    node := new BTreeNode();
    r := Ok;
  }

  /** libfshfs_btree_node_free: releases the node if there is one; it always succeeds. */
  method Free(target: BTreeNode?) returns (r: Status, released: set<object>, node: BTreeNode?)
    ensures r == Ok && node == null
    ensures released == if target == null then {} else {target}
  {
    released := if target == null then {} else {target};
    node := null;
    r := Ok;
  }

  /** The descriptor of a node that starts with an encoded descriptor is that descriptor,
      whatever the node's records are. */
  lemma DescriptorOfEncodedNode(d: NodeDescriptor, rest: seq<byte>)
    ensures DescriptorOf(EncodeDescriptor(d) + rest) == d
  {
    var data := EncodeDescriptor(d) + rest;
    assert data[..NodeDescriptorSize] == EncodeDescriptor(d);
    DescriptorOfPrefix(data);
    DescriptorOfEncode(d);
  }

  /** Only the first 14 bytes of a node determine its descriptor. */
  lemma DescriptorOfPrefix(data: seq<byte>)
    requires |data| >= NodeDescriptorSize
    ensures DescriptorOf(data) == DescriptorOf(data[..NodeDescriptorSize])
  {
    var p := data[..NodeDescriptorSize];
    BE32Slice(data, 0);
    BE32Slice(p, 0);
    BE32Slice(data, 4);
    BE32Slice(p, 4);
    BE16Slice(data, 10);
    BE16Slice(p, 10);
    assert data[0 .. 4] == p[0 .. 4] && data[4 .. 8] == p[4 .. 8] && data[10 .. 12] == p[10 .. 12];
  }
}
