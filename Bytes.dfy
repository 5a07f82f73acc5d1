/** Big-endian integer fields of on-disk structures (the byte_stream_copy_to_uintN_big_endian
    macros) and their encodings, with the lemmas that make them inverse. */
module Bytes {
  import opened Common

  /** Big-endian 16-bit value stored at data[at], data[at + 1]. */
  function BE16(data: seq<byte>, at: nat): uint16
    requires at + 2 <= |data|
  {
    (data[at] as int) * 0x100 + data[at + 1]
  }

  /** Big-endian 32-bit value stored at data[at .. at + 4]. */
  function BE32(data: seq<byte>, at: nat): uint32
    requires at + 4 <= |data|
  {
    (BE16(data, at) as int) * 0x1_0000 + BE16(data, at + 2)
  }

  /** Big-endian 64-bit value stored at data[at .. at + 8]. */
  function BE64(data: seq<byte>, at: nat): uint64
    requires at + 8 <= |data|
  {
    (BE32(data, at) as int) * 0x1_0000_0000 + BE32(data, at + 4)
  }

  function Encode16(v: uint16): (s: seq<byte>)
    ensures |s| == 2
  {
    [v / 0x100, v % 0x100]
  }

  function Encode32(v: uint32): (s: seq<byte>)
    ensures |s| == 4
  {
    Encode16(v / 0x1_0000) + Encode16(v % 0x1_0000)
  }

  function Encode64(v: uint64): (s: seq<byte>)
    ensures |s| == 8
  {
    Encode32(v / 0x1_0000_0000) + Encode32(v % 0x1_0000_0000)
  }

  /** A field's value depends only on the bytes it occupies. */
  lemma BE16Slice(data: seq<byte>, at: nat)
    requires at + 2 <= |data|
    ensures BE16(data, at) == BE16(data[at .. at + 2], 0)
  {
  }

  lemma BE32Slice(data: seq<byte>, at: nat)
    requires at + 4 <= |data|
    ensures BE32(data, at) == BE32(data[at .. at + 4], 0)
  {
  }

  /** Dropping a prefix moves a field's offset. */
  lemma BE32Drop(data: seq<byte>, k: nat, at: nat)
    requires k + at + 4 <= |data|
    ensures BE32(data[k..], at) == BE32(data, k + at)
  {
    var tail := data[k..];
    assert tail[at] == data[k + at] && tail[at + 1] == data[k + at + 1];
    assert tail[at + 2] == data[k + at + 2] && tail[at + 3] == data[k + at + 3];
    assert BE16(tail, at) == BE16(data, k + at);
    assert BE16(tail, at + 2) == BE16(data, k + at + 2);
  }

  lemma BE64Slice(data: seq<byte>, at: nat)
    requires at + 8 <= |data|
    ensures BE64(data, at) == BE64(data[at .. at + 8], 0)
  {
  }

  lemma Decode16Encode16(v: uint16)
    ensures BE16(Encode16(v), 0) == v
  {
  }

  lemma Decode32Encode32(v: uint32)
    ensures BE32(Encode32(v), 0) == v
  {
    var s := Encode32(v);
    Decode16Encode16(v / 0x1_0000);
    Decode16Encode16(v % 0x1_0000);
    assert BE16(s, 0) == BE16(s[0 .. 2], 0) == v / 0x1_0000;
    assert BE16(s, 2) == BE16(s[2 .. 4], 0) == v % 0x1_0000;
  }

  lemma Decode64Encode64(v: uint64)
    ensures BE64(Encode64(v), 0) == v
  {
    var s := Encode64(v);
    Decode32Encode32(v / 0x1_0000_0000);
    Decode32Encode32(v % 0x1_0000_0000);
    BE32Slice(s, 0);
    BE32Slice(s, 4);
    assert s[0 .. 4] == Encode32(v / 0x1_0000_0000);
    assert s[4 .. 8] == Encode32(v % 0x1_0000_0000);
  }

  lemma Encode16Decode16(data: seq<byte>)
    requires |data| == 2
    ensures Encode16(BE16(data, 0)) == data
  {
    var v := BE16(data, 0);
    assert v / 0x100 == data[0];
    assert v % 0x100 == data[1];
  }

  lemma Encode32Decode32(data: seq<byte>)
    requires |data| == 4
    ensures Encode32(BE32(data, 0)) == data
  {
    var hi, lo := BE16(data, 0), BE16(data, 2);
    var v := BE32(data, 0);
    assert v / 0x1_0000 == hi;
    assert v % 0x1_0000 == lo;
    BE16Slice(data, 2);
    Encode16Decode16(data[0 .. 2]);
    Encode16Decode16(data[2 .. 4]);
    assert data == data[0 .. 2] + data[2 .. 4];
  }

  lemma Encode64Decode64(data: seq<byte>)
    requires |data| == 8
    ensures Encode64(BE64(data, 0)) == data
  {
    var hi, lo := BE32(data, 0), BE32(data, 4);
    var v := BE64(data, 0);
    assert v / 0x1_0000_0000 == hi;
    assert v % 0x1_0000_0000 == lo;
    BE32Slice(data, 0);
    BE32Slice(data, 4);
    Encode32Decode32(data[0 .. 4]);
    Encode32Decode32(data[4 .. 8]);
    assert data == data[0 .. 4] + data[4 .. 8];
  }

  /** A slice inside the first part of a concatenation. */
  lemma SliceBefore(x: seq<byte>, y: seq<byte>, i: nat, j: nat)
    requires i <= j <= |x|
    ensures (x + y)[i .. j] == x[i .. j]
  {
  }

  /** A slice inside the second part of a concatenation. */
  lemma SliceAfter(x: seq<byte>, y: seq<byte>, i: nat, j: nat)
    requires i <= j <= |y|
    ensures (x + y)[|x| + i .. |x| + j] == y[i .. j]
  {
  }

  function Zeros(n: nat): (s: seq<byte>)
    ensures |s| == n && forall k :: 0 <= k < n ==> s[k] == 0
  {
    seq(n, _ => 0)
  }
}
