/** The libbfio file IO handle the library reads through, reduced to what the core relies on:
    an image of bytes and a current offset. Reads return the bytes that are available, which
    may be fewer than requested at the end of the image. */
module FileIo {
  import opened Common

  /** The bytes a read of `size` bytes at `offset` delivers from `image`. */
  function Available(image: seq<byte>, offset: nat, size: nat): (s: seq<byte>)
    ensures |s| <= size
    ensures offset + size <= |image| ==> s == image[offset .. offset + size]
    ensures size > 0 ==> (|s| < size <==> offset + size > |image|)
  {
    if offset >= |image| then []
    else if offset + size <= |image| then image[offset .. offset + size]
    else image[offset..]
  }

  /** A seek to `offset` followed by a read that must deliver exactly `size` bytes, as the
      library's callers perform it: a negative offset fails the seek, a short read fails. */
  function ExactRead(image: seq<byte>, offset: int, size: nat): (r: Result<seq<byte>>)
    ensures r.Success? ==> |r.value| == size
    ensures r.Failure? ==> r.error in {SeekFailed, ReadFailed}
  {
    if offset < 0 then Failure(SeekFailed)
    else
      var bytes := Available(image, offset, size);
      if |bytes| != size then Failure(ReadFailed) else Success(bytes)
  }

  /** A read past the end of the image fails; one inside it yields the image's bytes. */
  lemma ExactReadInside(image: seq<byte>, offset: int, size: nat)
    requires size > 0
    ensures ExactRead(image, offset, size).Success? <==> 0 <= offset && offset + size <= |image|
    ensures ExactRead(image, offset, size).Success? ==> ExactRead(image, offset, size).value == image[offset .. offset + size]
  {
  }

  /** The libbfio_handle_seek_offset and libbfio_handle_read_buffer pair of a caller that
      needs exactly `size` bytes; the handle's offset moves as those two calls move it. */
  method SeekAndRead(fileIo: FileIoHandle, offset: int, size: nat) returns (r: Result<seq<byte>>)
    requires fileIo.Valid()
    modifies fileIo
    ensures fileIo.Valid()
    ensures r == ExactRead(fileIo.image, offset, size)
    ensures offset < 0 ==> fileIo.offset == old(fileIo.offset)
    ensures offset >= 0 ==> fileIo.offset == offset + |Available(fileIo.image, offset, size)|
  {
    var status := fileIo.SeekOffset(offset);
    if status.Fail? {
      return Failure(SeekFailed);
    }
    var bytes := fileIo.ReadBuffer(size);
    if |bytes| != size {
      return Failure(ReadFailed);
    }
    r := Success(bytes);
  }

  class FileIoHandle {
    const image: seq<byte>
    var offset: int

    ghost predicate Valid()
      reads this
    {
      0 <= offset
    }

    constructor (image: seq<byte>)
      ensures this.image == image && offset == 0 && Valid()
    {
      this.image := image;
      offset := 0;
    }

    /** libbfio_handle_seek_offset with SEEK_SET: negative offsets are refused. */
    method SeekOffset(newOffset: int) returns (r: Status)
      requires Valid()
      modifies this
      ensures Valid()
      ensures r.Ok? <==> newOffset >= 0
      ensures r.Ok? ==> offset == newOffset
      ensures r.Fail? ==> r.error == SeekFailed && offset == old(offset)
    {
      if newOffset < 0 {
        return Fail(SeekFailed);
      }
      offset := newOffset;
      r := Ok;
    }

    /** libbfio_handle_read_buffer: the bytes read, which the caller compares with `size`. */
    method ReadBuffer(size: nat) returns (bytes: seq<byte>)
      requires Valid()
      modifies this
      ensures Valid()
      ensures bytes == Available(image, old(offset), size)
      ensures offset == old(offset) + |bytes|
    {
      bytes := Available(image, offset, size);
      offset := offset + |bytes|;
    }
  }
}
