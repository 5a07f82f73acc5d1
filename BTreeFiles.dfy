/** A B-tree file (the extents overflow, catalog or attributes file): its header record and,
    once it has been read, the vector and cache through which its nodes are fetched. A file is
    Unread (neither vector nor cache) or Ready (both). */
module BTreeFiles {
  import opened Common
  import opened FileIo
  import opened ForkDescriptors
  import opened BTreeNodes
  import IoHandles

  /** The header node is read with a fixed size before the node size is known. */
  const HeaderNodeReadSize: nat := 512

  /** The fields of the B-tree header record the file uses. */
  datatype BTreeHeader = BTreeHeader(rootNodeNumber: uint32, nodeSize: uint16)

  /** The B-tree node vector: the node size and the fork the nodes are read from, measured with
      the volume's allocation block size. */
  datatype NodesVector = NodesVector(nodeSize: uint16, allocationBlockSize: uint32, extents: seq<Extent>)

  /** The cache of B-tree nodes. */
  datatype NodesCache = NodesCache

  /** The byte offset of the header node: the fork's first block in 32-bit arithmetic. */
  function HeaderNodeOffset(allocationBlockSize: uint32, fork: Fork): (offset: uint32)
    requires |fork.extents| > 0
    ensures (fork.extents[0].startBlock * allocationBlockSize - offset) % 0x1_0000_0000 == 0
    ensures fork.extents[0].startBlock * allocationBlockSize < 0x1_0000_0000 ==>
      offset == fork.extents[0].startBlock * allocationBlockSize
  {
    MulU32(fork.extents[0].startBlock, allocationBlockSize)
  }

  /** The header record follows the node descriptor in the header node. */
  function HeaderRecordData(node: seq<byte>): (record: seq<byte>)
    requires |node| == HeaderNodeReadSize
    ensures |record| == HeaderNodeReadSize - NodeDescriptorSize
  {
    node[NodeDescriptorSize..]
  }

  /** libfshfs_btree_file_t. */
  class BTreeFile {
    var header: BTreeHeader
    var nodesVector: Option<NodesVector>
    var nodesCache: Option<NodesCache>

    /** Unread or Ready: the vector and the cache are created and released together. */
    ghost predicate Valid()
      reads this
    {
      nodesVector.Some? <==> nodesCache.Some?
    }

    predicate Ready()
      reads this
    {
      nodesVector.Some? && nodesCache.Some?
    }

    /** libfshfs_btree_file_initialize: an empty header and no vector or cache. */
    constructor ()
      ensures Valid() && !Ready()
      ensures header == BTreeHeader(0, 0) && nodesVector == None && nodesCache == None
    {
      header := BTreeHeader(0, 0);
      nodesVector := None;
      nodesCache := None;
    }

    /** libfshfs_btree_file_read. `parseHeader` stands for libfshfs_btree_header_read_data and
        `buildVector` for libfshfs_btree_node_vector_initialize. A read of a file that is
        already Ready is refused; any later failure leaves the file without vector and cache. */
    method Read(ioHandle: IoHandles.IoHandle, fileIo: FileIoHandle?, fork: ForkDescriptor?,
                parseHeader: seq<byte> -> Option<BTreeHeader>,
                buildVector: (uint16, uint32, seq<Extent>) -> Option<NodesVector>) returns (r: Status)
      requires fileIo != null ==> fileIo.Valid()
      requires fork != null ==> fork.Valid()
      modifies this, if fileIo == null then {} else {fileIo}
      ensures fileIo != null ==> fileIo.Valid()
      ensures old(nodesVector).Some? || old(nodesCache).Some? ==>
        r == Fail(ValueAlreadySet) && unchanged(this) && (fileIo != null ==> unchanged(fileIo))
      ensures old(nodesVector).None? && old(nodesCache).None? && fork == null ==>
        r == Fail(InvalidArgument) && unchanged(this)
      ensures old(nodesVector).None? && old(nodesCache).None? && fork != null ==>
        var offset := HeaderNodeOffset(ioHandle.allocationBlockSize, fork.Value());
        var node := if fileIo == null then Failure(SeekFailed) else ExactRead(fileIo.image, offset, HeaderNodeReadSize);
        (node.Failure? ==> r == Fail(node.error) && unchanged(this))
        && (node.Success? && DescriptorOf(node.value).nodeType != HeaderNode ==>
              r == Fail(Unsupported) && unchanged(this))
        && (node.Success? && DescriptorOf(node.value).nodeType == HeaderNode ==>
              var parsed := parseHeader(HeaderRecordData(node.value));
              (parsed.None? ==> r == Fail(ReadFailed) && unchanged(this))
              && (parsed.Some? ==>
                    header == parsed.value
                    && (var vector := buildVector(parsed.value.nodeSize, ioHandle.allocationBlockSize, fork.Value().extents);
                        (vector.None? ==> r == Fail(InitializeFailed) && nodesVector.None? && nodesCache.None?)
                        && (vector.Some? ==> r == Ok && nodesVector == vector && nodesCache == Some(NodesCache)))))
      ensures old(Valid()) ==> Valid()
      ensures r.Ok? ==> Ready()
      ensures r.Fail? && old(nodesVector).None? && old(nodesCache).None? ==> nodesVector.None? && nodesCache.None?
    {
      if nodesVector.Some? || nodesCache.Some? {
        return Fail(ValueAlreadySet);
      }
      if fork == null {
        return Fail(InvalidArgument);
      }
      var offset := MulU32(fork.extents[0].startBlock, ioHandle.allocationBlockSize);
      assert fork.extents[0] == fork.Value().extents[0];
      if fileIo == null {
        return Fail(SeekFailed);
      }
      var node := SeekAndRead(fileIo, offset, HeaderNodeReadSize);
      if node.Failure? {
        return Fail(node.error);
      }
      var descriptor := DescriptorOf(node.value);
      if descriptor.nodeType != HeaderNode {
        return Fail(Unsupported);
      }
      var parsed := parseHeader(HeaderRecordData(node.value));
      if parsed.None? {
        return Fail(ReadFailed);
      }
      header := parsed.value;
      var extents := fork.extents[..];
      nodesVector := buildVector(header.nodeSize, ioHandle.allocationBlockSize, extents);
      if nodesVector.None? {
        return Fail(InitializeFailed);
      }
      nodesCache := Some(NodesCache);
      r := Ok;
    }
  }

  /** What fetching node `nodeNumber` yields: the vector and the cache must both be set, and
      `fetch` stands for libfdata_vector_get_element_value_by_index. */
  function Lookup(vector: Option<NodesVector>, cache: Option<NodesCache>,
                  fetch: (NodesVector, int) -> Option<BTreeNode?>, nodeNumber: int): (r: Result<BTreeNode?>)
    ensures r.Success? <==> vector.Some? && cache.Some? && fetch(vector.value, nodeNumber).Some?
    ensures r.Success? ==> r.value == fetch(vector.value, nodeNumber).value
    ensures vector.None? || cache.None? ==> r == Failure(ValueMissing)
  {
    if vector.None? || cache.None? then Failure(ValueMissing)
    else
      match fetch(vector.value, nodeNumber)
      case None => Failure(GetFailed)
      case Some(node) => Success(node)
  }

  /** libfshfs_btree_file_get_node_by_number. */
  method GetNodeByNumber(file: BTreeFile, fetch: (NodesVector, int) -> Option<BTreeNode?>, nodeNumber: int32)
    returns (r: Status, node: BTreeNode?)
    ensures var found := Lookup(file.nodesVector, file.nodesCache, fetch, nodeNumber);
      (found.Success? ==> r == Ok && node == found.value)
      && (found.Failure? ==> r == Fail(found.error) && node == null)
  {
    if file.nodesVector.None? || file.nodesCache.None? {
      return Fail(ValueMissing), null;
    }
    var fetched := fetch(file.nodesVector.value, nodeNumber);
    if fetched.None? {
      return Fail(GetFailed), null;
    }
    r, node := Ok, fetched.value;
  }

  /** libfshfs_btree_file_get_root_node: the node whose number is the header's root node
      number converted to a C `int`. */
  method GetRootNode(file: BTreeFile, fetch: (NodesVector, int) -> Option<BTreeNode?>)
    returns (r: Status, node: BTreeNode?)
    ensures var found := Lookup(file.nodesVector, file.nodesCache, fetch, ToInt32(file.header.rootNodeNumber));
      (found.Success? ==> r == Ok && node == found.value)
      && (found.Failure? ==> r == Fail(found.error) && node == null)
  {
    if file.nodesVector.None? || file.nodesCache.None? {
      return Fail(ValueMissing), null;
    }
    var fetched := fetch(file.nodesVector.value, ToInt32(file.header.rootNodeNumber));
    if fetched.None? {
      return Fail(GetFailed), null;
    }
    r, node := Ok, fetched.value;
  }

  /** A root node number of 2^31 or more becomes a negative node index. */
  lemma RootNumberAsInt(root: uint32)
    ensures root < 0x8000_0000 ==> ToInt32(root) == root
    ensures root >= 0x8000_0000 ==> ToInt32(root) < 0
  {
  }

  /** libfshfs_btree_file_initialize: refuses a target that is already set. */
  method Initialize(target: BTreeFile?) returns (r: Status, file: BTreeFile?)
    ensures r.Ok? <==> target == null
    ensures r.Ok? ==> file != null && fresh(file) && file.Valid() && !file.Ready() && file.header == BTreeHeader(0, 0)
    ensures r.Fail? ==> r.error == ValueAlreadySet && file == target
  {
    if target != null {
      return Fail(ValueAlreadySet), target;
    }
    file := new BTreeFile();
    r := Ok;
  }

  /** libfshfs_btree_file_free: the file is released, and the header, the vector and the cache
      are values released with it. A failing sub-free, which makes the C return -1, is not
      modelled. */
  method Free(target: BTreeFile?) returns (r: Status, released: set<object>, file: BTreeFile?)
    ensures r == Ok && file == null
    ensures released == if target == null then {} else {target}
  {
    released := if target == null then {} else {target};
    file := null;
    r := Ok;
  }
}
