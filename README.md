# libfshfs: the HFS Plus decoding layer and its small state machines

libfshfs is a read-only reader for HFS and HFS Plus volumes. This project models its byte-level
decoders and the objects that hold their results:

- the 80-byte fork descriptor;
- the 14-byte B-tree node descriptor;
- the catalog B-tree key;
- the catalog folder, file and thread records;
- the directory entry;
- the volume header reader of the IO handle;
- the allocation block vector built from a fork's extents;
- the B-tree file and its Unread/Ready life cycle;
- the data handle behind an allocation block stream;
- the scan that splits the catalog root node's records into key and value.

The layouts are the ones that Apple Technical Note TN1150 ("HFS Plus Volume Format") gives in
its sections "Volume Header", "Fork Data Structure", "B-Trees" and "Catalog File". Every
multi-byte field is big-endian.

There is one Dafny module per C file, plus four helper modules:

- `Common` holds the fixed-width integer types, the 1/-1 return convention as `Status`, and
  the explicit 16- and 32-bit wrap-around helpers.
- `Bytes` holds big-endian decoding and encoding, and the lemmas that make them inverses.
- `FileIo` is the libbfio handle, reduced to an image of bytes and a seek offset.
- `CatalogRecordTypes` holds the catalog record type values and the sizes of the fixed record
  parts.

Where the C code writes the fields of a structure, the model is a class whose methods modify
those fields. Each such method is specified by a pure function: for example `DecodeFork`,
`ReadKeyData`, `ReadSegment` or `ScanFrom`. The round trips, bounds and error cases are proved
about those functions.

## Model

| member | source | states |
|---|---|---|
| Common.MulU32 | libfshfs/libfshfs_allocation_block_vector.c:108-109 | the `uint32_t` product agrees with the true product modulo 2^32, and equals it when it fits in 32 bits |
| Common.AddU16 | libfshfs/libfshfs_catalog_btree_file.c:267 | the `uint16_t` sum is the true sum, or the true sum less 2^16 when it wraps |
| Common.DoubleU16 | libfshfs/libfshfs_catalog_btree_key.c:259 | the doubled `uint16_t` is even; it is twice the value below 0x8000 and twice the value less 2^16 from 0x8000 on |
| Common.ToInt32 | libfshfs/libfshfs_btree_file.c:317 | the `(int)` cast agrees with its argument modulo 2^32, and is negative exactly from 2^31 on |
| ForkDescriptors.ForkDescriptor.constructor | libfshfs/libfshfs_fork_descriptor.c:65-82 | a new descriptor holds size 0, clump size 0, no blocks and eight zero extents |
| ForkDescriptors.Initialize | libfshfs/libfshfs_fork_descriptor.c:37-104 | refuses a target that is already set (ValueAlreadySet); otherwise returns a fresh all-zero descriptor |
| ForkDescriptors.ExtentAt | libfshfs/libfshfs_fork_descriptor.c:237-268 | extent i is the one whose 8-byte encoding is bytes 16+8i .. 24+8i of the descriptor |
| ForkDescriptors.DecodeExtents | libfshfs/libfshfs_fork_descriptor.c:237-268 | a run of bytes decodes to one extent per full 8 bytes (the extent values are stated by DecodeExtentsAt) |
| ForkDescriptors.DecodeFork | libfshfs/libfshfs_fork_descriptor.c:206-268 | an 80-byte descriptor decodes to a fork with eight extents (its field values are stated by ForkExtentLayout and the two round-trip lemmas) |
| ForkDescriptors.Free | libfshfs/libfshfs_fork_descriptor.c:109-134 | always succeeds, releases the descriptor if there is one, and clears the reference |
| ForkDescriptors.Read | libfshfs/libfshfs_fork_descriptor.c:139-277 | succeeds exactly on a descriptor and exactly 80 bytes; the fields then hold DecodeFork of the bytes; a failure changes nothing; the extent loop writes extent i from bytes 16+8i and 20+8i |
| ForkDescriptors.DecodeExtentsAt | libfshfs/libfshfs_fork_descriptor.c:237-268 | extent i of a decoded run is the pair of big-endian words at 8i and 8i+4 |
| ForkDescriptors.ForkExtentLayout | libfshfs/libfshfs_fork_descriptor.c:206-268 | a decoded fork has eight extents, and extent i comes from bytes 16+8i .. 24+8i |
| ForkDescriptors.DecodeEncodeExtents | libfshfs/libfshfs_fork_descriptor.c:237-268 | decoding encoded extents gives back the extents |
| ForkDescriptors.EncodeDecodeExtents | libfshfs/libfshfs_fork_descriptor.c:237-268 | encoding decoded extents gives back the bytes |
| ForkDescriptors.DecodeEncodeFork | libfshfs/libfshfs_fork_descriptor.c:206-268 | reading the 80-byte encoding of a fork gives back that fork |
| ForkDescriptors.EncodeDecodeFork | libfshfs/libfshfs_fork_descriptor.c:194-276 | no value is validated: every 80-byte input decodes, and re-encoding it gives back the same bytes |
| BTreeNodes.BTreeNode.constructor | libfshfs/libfshfs_btree_node.c:67-84 | a new node has an all-zero descriptor, no data and no records |
| BTreeNodes.Initialize | libfshfs/libfshfs_btree_node.c:39-106 | refuses a target that is already set; otherwise returns a fresh zeroed node: an all-zero descriptor, no data, data size 0 and no records |
| BTreeNodes.Free | libfshfs/libfshfs_btree_node.c:111-136 | always succeeds and clears the reference |
| BTreeNodes.DescriptorOf | libfshfs/libfshfs_btree_node.c:199-212 | re-encoding the decoded descriptor gives back bytes 0..11 of the node: next and previous node numbers, type, level and record count |
| BTreeNodes.BTreeNode.ReadDescriptor | libfshfs/libfshfs_btree_node.c:141-258 | fails on fewer than 14 bytes without changing the node; otherwise stores next and previous node numbers, type and record count, with the level copied from the type byte; data, data size and records array stay as they were |
| BTreeNodes.DescriptorOfEncode | libfshfs/libfshfs_btree_node.c:199-212 | decoding an encoded descriptor gives back each of its fields |
| BTreeNodes.DescriptorOfEncodedNode | libfshfs/libfshfs_btree_node.c:199-212 | a node that starts with an encoded descriptor has that descriptor, whatever follows |
| BTreeNodes.DescriptorOfPrefix | libfshfs/libfshfs_btree_node.c:199-212 | only bytes 0..13 determine the descriptor |
| CatalogBTreeKeys.CatalogBTreeKey.constructor | libfshfs/libfshfs_catalog_btree_key.c:68-85 | a new key holds no data size, no parent, no name size and no name |
| CatalogBTreeKeys.Initialize | libfshfs/libfshfs_catalog_btree_key.c:40-107 | refuses a target that is already set; otherwise returns a fresh empty key |
| CatalogBTreeKeys.Free | libfshfs/libfshfs_catalog_btree_key.c:112-142 | always succeeds; the name is released exactly when the key has one |
| CatalogBTreeKeys.KeyDataSize | libfshfs/libfshfs_catalog_btree_key.c:190-192 | the key data size is the value whose big-endian encoding is the first two bytes |
| CatalogBTreeKeys.ReadKeyData | libfshfs/libfshfs_catalog_btree_key.c:178-336 | a failure is out of bounds and keeps the data size; a success lies within SSIZE_MAX and sets the data size to the key data size plus 2, inside the data; a name it stores is the bytes after the fixed part and ends inside the key |
| CatalogBTreeKeys.NameEndAsWritten | libfshfs/libfshfs_catalog_btree_key.c:257-291 | as written, the name copy ends at an even offset below 8 + 2^16, at 8 plus twice the stored unit count when that does not wrap |
| CatalogBTreeKeys.CatalogBTreeKey.ReadData | libfshfs/libfshfs_catalog_btree_key.c:147-336 | the key fields after the read are the ones ReadKeyData gives for the old fields and the data, and the status is that of ReadKeyData |
| CatalogBTreeKeys.ReadEncodedKey | libfshfs/libfshfs_catalog_btree_key.c:190-323 | reading an encoded key, whatever follows it, gives back the parent, the name and its size, with a data size of 8 plus the name length |
| CatalogBTreeKeys.ReadKeyNameInsideKey | libfshfs/libfshfs_catalog_btree_key.c:242-323 | after a successful read the name is the bytes after the fixed part, and it ends inside the key, which ends inside the data |
| CatalogBTreeKeys.ReadKeyFailureReleasesName | libfshfs/libfshfs_catalog_btree_key.c:178-204 | a failure after the size check leaves no name; a failure before it changes nothing; the data size is kept either way |
| CatalogBTreeKeys.NameCopyOverrunsData | libfshfs/libfshfs_catalog_btree_key.c:261-291 | as written, an 8-byte key passes every check, yet the name copy ends at byte 10; the corrected read refuses it |
| CatalogBTreeKeys.NamePastKeyRefused | libfshfs/libfshfs_catalog_btree_key.c:257-291 | as written, a 10-byte key of declared size 6 has its name copied from bytes 8..9, inside the data but past the key; the corrected read refuses it |
| CatalogRecordTypes.KindCode | libfshfs/libfshfs_thread_record.c:198-223 | the HFS Plus record kinds are numbered 1 to 4 |
| CatalogRecordTypes.TypeValueInjective | libfshfs/libfshfs_thread_record.c:198-223 | distinct kinds and formats have distinct record type values |
| DirectoryRecords.DirectoryRecord.constructor | libfshfs/libfshfs_directory_record.c:67-84 | a new record has identifier 0 |
| DirectoryRecords.Initialize | libfshfs/libfshfs_directory_record.c:39-106 | refuses a target that is already set; otherwise returns a fresh record with identifier 0 |
| DirectoryRecords.Free | libfshfs/libfshfs_directory_record.c:111-136 | always succeeds and clears the reference |
| DirectoryRecords.ReadDirectoryRecord | libfshfs/libfshfs_directory_record.c:182-193 | data shorter than 2 bytes, or longer than SSIZE_MAX, fails as out of bounds |
| DirectoryRecords.ReadDirectoryRecordAccepts | libfshfs/libfshfs_directory_record.c:141-703 | the read succeeds exactly on a folder record (0x0001 of at least 88 bytes or 0x0100 of at least 70); any other type is unsupported |
| FileRecords.FileRecordIdentifier | libfshfs/libfshfs_file_record.c:214-225 | data shorter than 2 bytes, or longer than SSIZE_MAX, fails as out of bounds |
| FileRecords.FileRecordIdentifierAccepts | libfshfs/libfshfs_file_record.c:226-284 | the checks pass exactly on a file record (0x0002 of at least 248 bytes or 0x0200 of at least 102) |
| FileRecords.DataForkField | libfshfs/libfshfs_file_record.c:609-620 | the data fork field is 80 bytes long |
| FileRecords.ResourceForkField | libfshfs/libfshfs_file_record.c:646-657 | the resource fork field is 80 bytes long |
| FileRecords.ForkFieldsEndAsWritten | libfshfs/libfshfs_file_record.c:595-660 | as written, whatever the record type, the fork reads end at the HFS Plus file record size (248), beyond the HFS size (102) |
| FileRecords.HfsForkReadsOverrunRecord | libfshfs/libfshfs_file_record.c:595-660 | as written, a 102-byte HFS file record passes every check, yet the fork reads go up to byte 248 |
| FileRecords.FileRecord.constructor | libfshfs/libfshfs_file_record.c:69-86 | a new record has identifier 0 and no forks |
| FileRecords.FileRecord.ReadData | libfshfs/libfshfs_file_record.c:176-677 | a failed check changes nothing; the identifier comes from the layout the type selects; a record already holding a fork fails with that fork in place; otherwise fresh, distinct data and resource forks hold DecodeFork of the fields at 88 and 168 |
| FileRecords.FileRecordHeadFields | libfshfs/libfshfs_file_record.c:273-284 | the encoded head holds the HFS Plus file type and the identifier at offset 8 |
| FileRecords.ReadEncodedFileRecord | libfshfs/libfshfs_file_record.c:226-660 | an encoded HFS Plus file record gives back its identifier and both forks |
| FileRecords.Initialize | libfshfs/libfshfs_file_record.c:41-108 | refuses a target that is already set; otherwise returns a fresh record without forks |
| FileRecords.Free | libfshfs/libfshfs_file_record.c:113-171 | always succeeds, and releases the record together with whichever forks it holds |
| ThreadRecords.ReadThreadRecord | libfshfs/libfshfs_thread_record.c:186-197 | data shorter than 2 bytes, or longer than SSIZE_MAX, fails as out of bounds |
| ThreadRecords.ReadThreadRecordAccepts | libfshfs/libfshfs_thread_record.c:198-234 | the read succeeds exactly on folder or file thread records of either format that are at least as long as their fixed part |
| ThreadRecords.HfsThreadHasNoName | libfshfs/libfshfs_thread_record.c:235-246 | an HFS thread record yields name size 0 and no name offset |
| ThreadRecords.EncodeThreadRecord | libfshfs/libfshfs_thread_record.c:235-343 | an encoded HFS Plus thread record is the fixed part plus the name |
| ThreadRecords.ReadEncodedThreadRecord | libfshfs/libfshfs_thread_record.c:235-343 | the name found in an encoded thread record is twice its unit count in bytes long, starts at byte 10 and is the name encoded |
| ThreadRecords.ThreadNameNotBoundsChecked | libfshfs/libfshfs_thread_record.c:339-431 | a 10-byte record declaring a one-unit name succeeds, although the name lies past the data |
| ThreadRecords.Initialize | libfshfs/libfshfs_thread_record.c:42-109 | refuses a target that is already set; otherwise returns a fresh record |
| ThreadRecords.Free | libfshfs/libfshfs_thread_record.c:114-139 | always succeeds and clears the reference |
| DirectoryEntries.DirectoryEntry.constructor | libfshfs/libfshfs_directory_entry.c:64-81 | a new entry has no record type, no name and no catalog record |
| DirectoryEntries.Initialize | libfshfs/libfshfs_directory_entry.c:36-103 | refuses a target that is already set; otherwise returns a fresh empty entry: record type 0, name size 0, no name, parent 0 and no catalog record |
| DirectoryEntries.GetIdentifier | libfshfs/libfshfs_directory_entry.c:181-232 | fails on a missing entry or a missing catalog record; for folder types and file types it yields the stored identifier; for any other type it succeeds and leaves the caller's value unchanged |
| DirectoryEntries.Free | libfshfs/libfshfs_directory_entry.c:108-176 | always succeeds, releases the name when there is one, and releases the catalog record with the destructor its record type selects; records of other types are not released |
| DirectoryEntries.CatalogRecordReadersAgree | libfshfs/libfshfs_directory_entry.c:221-230 | the folder and file record types of the entry are the ones the folder and file readers accept, and no record is accepted by two readers |
| IoHandles.ForkField | libfshfs/libfshfs_io_handle.c:659-765 | the field of special file k is 80 bytes long |
| IoHandles.SignatureType | libfshfs/libfshfs_io_handle.c:280-304 | "H+" is HFS Plus and "HX" is HFSX, each in both directions; no signature gives the no-file-system type |
| IoHandles.DecodeVolumeHeader | libfshfs/libfshfs_io_handle.c:280-765 | a decoded volume header has five forks |
| IoHandles.FirstMissing | libfshfs/libfshfs_io_handle.c:659-777 | the index of the first missing descriptor: all before it are present |
| IoHandles.EncodeForksField | libfshfs/libfshfs_io_handle.c:659-765 | the k-th 80-byte field of the encoded forks is the encoding of fork k |
| IoHandles.EncodedSignature | libfshfs/libfshfs_io_handle.c:280-304 | an encoded volume header starts with the signature of its file system type |
| IoHandles.EncodedBlockSize | libfshfs/libfshfs_io_handle.c:305-307 | an encoded volume header holds its block size at offset 40 |
| IoHandles.EncodedForkField | libfshfs/libfshfs_io_handle.c:659-765 | fork field k of an encoded volume header is the encoding of fork k |
| IoHandles.DecodeEncodeVolumeHeader | libfshfs/libfshfs_io_handle.c:280-765 | decoding an encoded volume header gives back its type, block size and five forks |
| IoHandles.IoHandle.constructor | libfshfs/libfshfs_io_handle.c:74-91 | a new handle has no file system type, block size 0 and abort 0 |
| IoHandles.Initialize | libfshfs/libfshfs_io_handle.c:46-113 | refuses a target that is already set; otherwise returns a fresh zeroed handle |
| IoHandles.Free | libfshfs/libfshfs_io_handle.c:118-144 | always succeeds and clears the reference |
| IoHandles.IoHandle.Clear | libfshfs/libfshfs_io_handle.c:149-181 | succeeds and zeroes every field |
| IoHandles.IoHandle.ReadVolumeHeader | libfshfs/libfshfs_io_handle.c:186-778 | a failed seek or short read of 1024 bytes fails with nothing stored; an unknown signature fails as unsupported with nothing stored; otherwise the type ("H+" or "HX") and the block size are stored, and the five descriptors are read in order up to the first missing one, which fails the read, with the later descriptors untouched |
| IoHandles.IoHandle.StoreVolumeHeader | libfshfs/libfshfs_io_handle.c:280-777 | the signature check, the block size and the five descriptor reads on a header already read |
| IoHandles.ReadSpecialForks | libfshfs/libfshfs_io_handle.c:659-777 | the descriptors are read in order; the read succeeds exactly when none is missing; those before the first missing one hold their fields and the rest keep their values |
| IoHandles.ReadSpecialFork | libfshfs/libfshfs_io_handle.c:659-674 | one descriptor read: a present descriptor is read from its field, and a missing one fails with nothing changed |
| IoHandles.HeaderOf | libfshfs/libfshfs_io_handle.c:233-265 | a header read that succeeds delivers 1024 bytes |
| FileIo.Available | libfshfs/libfshfs_io_handle.c:249-265 | a read delivers at most the requested size, fewer only at the end of the image |
| FileIo.ExactRead | libfshfs/libfshfs_io_handle.c:233-265 | a seek and read of exactly `size` bytes fails with a seek or read error, or delivers `size` bytes |
| FileIo.ExactReadInside | libfshfs/libfshfs_btree_file.c:413-441 | the read succeeds exactly when the range lies inside the image, and it then delivers those bytes |
| FileIo.SeekAndRead | libfshfs/libfshfs_btree_file.c:413-441 | the result is ExactRead of the image, and the handle's offset moves as the seek and the read move it |
| FileIo.FileIoHandle.SeekOffset | libfshfs/libfshfs_io_handle.c:233-248 | a seek to a negative offset fails and keeps the offset; any other seek sets it |
| FileIo.FileIoHandle.ReadBuffer | libfshfs/libfshfs_io_handle.c:249-265 | the available bytes are delivered and the offset moves past them |
| AllocationBlockVectors.DataVector.AppendSegment | libfshfs/libfshfs_allocation_block_vector.c:110-130 | the segment goes at the end and its index is returned |
| AllocationBlockVectors.Initialize | libfshfs/libfshfs_allocation_block_vector.c:38-142 | a missing IO handle or fork fails before anything is created; otherwise the vector has element size `block_size` and exactly the eight segments of the fork's extents, in order, measured with the IO handle's allocation block size |
| AllocationBlockVectors.SegmentsFor | libfshfs/libfshfs_allocation_block_vector.c:104-130 | one segment per extent |
| AllocationBlockVectors.SegmentFor | libfshfs/libfshfs_allocation_block_vector.c:108-109 | a segment lies in file 0 without flags; its offset and size are the extent's start block and block count times the block size, modulo 2^32 |
| AllocationBlockVectors.SegmentsForAt | libfshfs/libfshfs_allocation_block_vector.c:104-130 | segment i is the segment of extent i |
| AllocationBlockVectors.SegmentBytes | libfshfs/libfshfs_allocation_block_vector.c:108-109 | when the products fit in 32 bits, a segment starts at start block times block size and spans block count times block size |
| AllocationBlockVectors.SegmentOffsetWraps | libfshfs/libfshfs_allocation_block_vector.c:108-109 | an extent at block 0x10000 on a volume with 64 KiB blocks gets segment offset 0, because the product wraps in 32 bits |
| AllocationBlockVectors.SegmentsSpanExtents | libfshfs/libfshfs_allocation_block_vector.c:104-130 | without wrap-around the segments together span every block the extents hold |
| BTreeFiles.HeaderRecordData | libfshfs/libfshfs_btree_file.c:494-508 | the header record is the 498 bytes after the node descriptor |
| BTreeFiles.HeaderNodeOffset | libfshfs/libfshfs_btree_file.c:398 | the header node offset is the first extent's start block times the block size modulo 2^32, and exactly that product when it fits |
| BTreeFiles.BTreeFile.constructor | libfshfs/libfshfs_btree_file.c:73-108 | a new file has an empty header and neither vector nor cache (Unread) |
| BTreeFiles.Initialize | libfshfs/libfshfs_btree_file.c:45-130 | refuses a target that is already set; otherwise returns a fresh Unread file with an all-zero header |
| BTreeFiles.Free | libfshfs/libfshfs_btree_file.c:135-200 | releases the file, with the header, vector and cache values it holds, and clears the reference; sub-free failures are not modelled |
| BTreeFiles.BTreeFile.Read | libfshfs/libfshfs_btree_file.c:338-563 | refuses a file that already has a vector or a cache, and a missing fork; reads 512 bytes at start block times allocation block size in 32 bits; refuses a node that is not a header node; decodes the header from bytes 14..511; builds the vector and then the cache; every failure leaves the file Unread and success leaves it Ready |
| BTreeFiles.Lookup | libfshfs/libfshfs_btree_file.c:225-246 | a node is found exactly when both vector and cache are set and the vector yields it; without them the lookup fails with a missing value |
| BTreeFiles.GetNodeByNumber | libfshfs/libfshfs_btree_file.c:205-267 | the result is that of Lookup for the given number |
| BTreeFiles.GetRootNode | libfshfs/libfshfs_btree_file.c:272-333 | the result is that of Lookup for the header's root node number converted to a C int |
| BTreeFiles.RootNumberAsInt | libfshfs/libfshfs_btree_file.c:291-331 | root node numbers of 2^31 and above become negative indices |
| AllocationBlockStreams.ReadSegment | libfshfs/libfshfs_allocation_block_stream.c:260-361 | a failure returns -1, delivers nothing and keeps the offset; otherwise the count is the number of bytes delivered and the offset advances by it |
| AllocationBlockStreams.SeekSegment | libfshfs/libfshfs_allocation_block_stream.c:367-406 | the result is -1 exactly when the offset sought is negative, and the current offset is then kept; otherwise the offset sought is both returned and stored |
| AllocationBlockStreams.DataHandle.constructor | libfshfs/libfshfs_allocation_block_stream.c:84-118 | a new handle stores the IO handle and the data size, at segment offset 0 |
| AllocationBlockStreams.DataHandle.ReadSegmentData | libfshfs/libfshfs_allocation_block_stream.c:260-361 | count, data and new offset are those of ReadSegment for the old offset |
| AllocationBlockStreams.DataHandle.SeekSegmentOffset | libfshfs/libfshfs_allocation_block_stream.c:367-406 | a negative offset returns -1 and keeps the offset; any other offset is stored and returned |
| AllocationBlockStreams.ReadSegmentDelivers | libfshfs/libfshfs_allocation_block_stream.c:325-360 | with data, a read succeeds exactly when the range lies inside the image, and then delivers those bytes and advances by the size |
| AllocationBlockStreams.ReadSegmentInside | libfshfs/libfshfs_allocation_block_stream.c:325-360 | with data, a read inside the image returns the size, delivers the image's bytes at the offset and advances by the size |
| AllocationBlockStreams.ReadSegmentsContiguous | libfshfs/libfshfs_allocation_block_stream.c:341-360 | two successive reads inside the image deliver what one read of both sizes delivers, and end at the same offset |
| AllocationBlockStreams.SeekThenRead | libfshfs/libfshfs_allocation_block_stream.c:392-405 | after a successful seek the next read starts at the offset sought |
| AllocationBlockStreams.EmptyHandleReadsNothing | libfshfs/libfshfs_allocation_block_stream.c:321-324 | a handle with data size 0 returns 0, delivers nothing and stays where it is |
| AllocationBlockStreams.Initialize | libfshfs/libfshfs_allocation_block_stream.c:43-131 | refuses a target that is already set and a missing IO handle; otherwise returns a fresh handle with the IO handle, the data size and offset 0 |
| AllocationBlockStreams.Free | libfshfs/libfshfs_allocation_block_stream.c:136-163 | always succeeds and releases the handle, not its IO handle |
| AllocationBlockStreams.Clone | libfshfs/libfshfs_allocation_block_stream.c:168-254 | refuses a destination that is already set; a missing source clones to a missing destination; otherwise a fresh, distinct handle shares the IO handle and the data size and starts at offset 0 |
| AllocationBlockStreams.StreamInitialize | libfshfs/libfshfs_allocation_block_stream.c:412-514 | a missing fork fails as an invalid argument, a failed data handle creation as an initialisation failure; otherwise the handle has data size 0 |
| CatalogBTreeFiles.KeyFieldsEndAsWritten | libfshfs/libfshfs_catalog_btree_file.c:116-175 | as written, the key bytes read end at byte 2 or byte 8 |
| CatalogBTreeFiles.ScanReadsPastRecord | libfshfs/libfshfs_catalog_btree_file.c:116-175 | as written, a two-byte record declaring a six-byte key, and an empty record, have key fields read past their end |
| CatalogBTreeFiles.KeyFitsRecord | libfshfs/libfshfs_catalog_btree_file.c:116-175 | with the corrected check every key field the scan reads lies inside the record |
| CatalogBTreeFiles.SplitRecord | libfshfs/libfshfs_catalog_btree_file.c:116-267 | the split keeps the key data size; the value offset is that size plus 2, less 2^16 when it wraps; a key under 6 bytes keeps the previous name size, a longer one gives the even name size of the key decoder |
| CatalogBTreeFiles.ScanFrom | libfshfs/libfshfs_catalog_btree_file.c:82-283 | a failing scan fails as GetFailed, ValueMissing or OutOfBounds, and no scan has more splits than records left |
| CatalogBTreeFiles.ScanVisitsAll | libfshfs/libfshfs_catalog_btree_file.c:82-283 | the scan succeeds exactly when every record is fetched and holds its key; it then has one split per record in index order, each with the record's key data size and the value offset 2 bytes after it; a failing scan stops early |
| CatalogBTreeFiles.SplitAgreesWithKey | libfshfs/libfshfs_catalog_btree_file.c:116-267 | the key decoder accepts a record exactly when the key fits in the record and the name fits in the key; the value offset is then the decoded key size modulo 2^16, and the name size agrees |
| CatalogBTreeFiles.SplitEncodedRecord | libfshfs/libfshfs_catalog_btree_file.c:116-267 | splitting an encoded key followed by a value finds the name size and exactly that value |
| CatalogBTreeFiles.Test | libfshfs/libfshfs_catalog_btree_file.c:35-294 | a root node that cannot be fetched fails with a get error and a missing root node fails as a missing value; otherwise status and splits are those of ScanFrom over the root node's records 0 .. number_of_records - 1 |

## Left out

- Debug output: every `HAVE_DEBUG_OUTPUT` block, with its date and name conversions and the type-name tables, is not part of this model.
- The UTF-8 and UTF-16 name getters of the directory entry are thin wrappers over libuna, and are not part of this model.
- libfdata and libfcache internals are not modelled. The B-tree header parser, the node vector builder, the node vector lookup and `libfshfs_btree_node_get_record_data_by_index` are not among the files modelled; they appear as function parameters. The nodes cache is an opaque value.
- libfshfs_volume_header.c is a stub that decodes nothing, and is not part of this model.
- Allocation failures (`memory_allocate`, `memory_set`) are treated as never happening. So are failures of `libfdata_vector_append_segment` and `libfdata_stream_initialize`, and the rollbacks that follow them.
- NULL object arguments are modelled where the C code tests them with its own error code: the descriptor of `ForkDescriptors.Read`, the entry of `DirectoryEntries.GetIdentifier`, the IO handle and fork of `AllocationBlockVectors.Initialize`, `AllocationBlockStreams.Initialize` and `AllocationBlockStreams.StreamInitialize`, the file IO handle of `AllocationBlockStreams.DataHandle.ReadSegmentData` and the fork descriptors of the volume header reader. Other NULL `this`-style arguments and NULL out-parameter arguments are not represented: those methods are called on objects and return their results.
- A NULL input buffer cannot be expressed, because every byte input is a `seq<byte>`. The readers therefore do not model the error they return for it: ValueMissing in `ForkDescriptors.Read` and `BTreeNodes.BTreeNode.ReadDescriptor`, and InvalidArgument in `CatalogBTreeKeys.CatalogBTreeKey.ReadData`, `DirectoryRecords.ReadDirectoryRecord`, `FileRecords.FileRecord.ReadData`, `ThreadRecords.ReadThreadRecord` and `AllocationBlockStreams.DataHandle.ReadSegmentData`.
- CatalogBTreeKeys.CatalogBTreeKey.ReadData: a name that lies inside the data but past the declared key is refused, where the C code copies it (see NamePastKeyRefused). The corrected check is the key length rule of TN1150, which is stricter than the memory bound.
- IoHandles.IoHandle.ReadVolumeHeader: the five descriptors must be separate objects, so aliasing between them is not modelled.
- IoHandles.FileSystemType: the numeric values of the file system type constants are not among the files modelled. Only the three states are kept: none, HFS Plus and HFSX.
- AllocationBlockStreams.DataHandle: the cache field is never set within the core, so the cache clone in `clone` is not modelled.
- AllocationBlockStreams.StreamInitialize: the libfdata stream object and its callbacks are not modelled. The operation returns the data handle the stream would own.
- BTreeFiles.BTreeFile.Read: a header decode failure is modelled as leaving the previous header fields in place.
- BTreeFiles.GetNodeByNumber: a failed fetch returns null, while the C code leaves the caller's node variable unchanged.
- ThreadRecords.ThreadRecord: the structure's fields are not among the files modelled, and the reader stores nothing in them.
- DirectoryRecords.ReadDirectoryRecord: the folder record's fields are read only in debug output, so the record is not an argument.
- CatalogBTreeFiles.Test: the source leaves the key/value split in locals; the model returns those locals so that they can be specified.

## Findings

| source | as written | input that shows it | evidently intended | confidence | as-written member | corrected member |
|---|---|---|---|---|---|---|
| libfshfs/libfshfs_catalog_btree_key.c:257-291 | the doubled name size is copied from data[8 ..] without comparing it with the key or data size | 8 bytes `00 06 00 00 00 01 00 01`: key size 6 passes, a 2-byte name is copied from bytes 8..9 | the name must end inside the key; the corrected check is the key length rule of TN1150, which is stricter than the memory bound, so a name inside the data but past the key is refused too (CatalogBTreeKeys.NamePastKeyRefused) | not executed | CatalogBTreeKeys.NameCopyOverrunsData | CatalogBTreeKeys.CatalogBTreeKey.ReadData |
| libfshfs/libfshfs_file_record.c:595-660 | an HFS (0x0200) record is checked to hold 102 bytes, but both forks are read at the HFS Plus offsets 88..248 | a 102-byte record of type 0x0200 | the fork reads must stay inside the checked record | not executed | FileRecords.HfsForkReadsOverrunRecord | FileRecords.FileRecord.ReadData |
| libfshfs/libfshfs_catalog_btree_file.c:116-175 | the key data size and the name size are read from a record without comparing with its size (the code carries a TODO for this check) | a 2-byte record `00 06`, whose bytes 6..7 are then read | the record must hold the key it declares | not executed | CatalogBTreeFiles.ScanReadsPastRecord | CatalogBTreeFiles.Test |
