/**
 * Conversion between arrays of signed 32-bit integers and byte arrays in a
 * requested byte order. The platform's own byte order (`BitConverter.IsLittleEndian`)
 * is the parameter `systemLittleEndian`; the native layout of an int in memory,
 * which `Buffer.BlockCopy` and `BitConverter.GetBytes` expose, is its
 * encoding in that order.
 */
module Util {

  type byte = x: int | 0 <= x < 256
  type int32 = x: int | -0x8000_0000 <= x < 0x8000_0000

  /** The two's-complement bit pattern of `x`, read as an unsigned number. */
  function Unsigned(x: int32): (u: int)
    ensures 0 <= u < 0x1_0000_0000
  {
    if x < 0 then x + 0x1_0000_0000 else x
  }

  /** The four bytes of `x`, least significant first. */
  function LittleEndianBytes(x: int32): (b: seq<byte>)
    ensures |b| == 4
  {
    var u := Unsigned(x);
    var q1 := u / 256;
    var q2 := q1 / 256;
    [u % 256, q1 % 256, q2 % 256, q2 / 256]
  }

  /** The int32 whose least significant byte comes first in `b`. */
  function FromLittleEndian(b: seq<byte>): int32
    requires |b| == 4
  {
    var u := b[0] as int + 256 * (b[1] as int + 256 * (b[2] as int + 256 * b[3] as int));
    if u < 0x8000_0000 then u else u - 0x1_0000_0000
  }

  function Reverse4(b: seq<byte>): (r: seq<byte>)
    requires |b| == 4
    ensures |r| == 4
    ensures forall k :: 0 <= k < 4 ==> r[k] == b[3 - k]
  {
    [b[3], b[2], b[1], b[0]]
  }

  /** The four bytes of `x` in the requested order. */
  function BytesOf(x: int32, littleEndian: bool): (b: seq<byte>)
    ensures |b| == 4
  {
    if littleEndian then LittleEndianBytes(x) else Reverse4(LittleEndianBytes(x))
  }

  /** The int32 stored in the four bytes `b` in the given order. */
  function FromBytes(b: seq<byte>, littleEndian: bool): int32
    requires |b| == 4
  {
    if littleEndian then FromLittleEndian(b) else FromLittleEndian(Reverse4(b))
  }

  lemma DivMod256(r: int, q: int)
    requires 0 <= r < 256
    ensures (r + 256 * q) % 256 == r && (r + 256 * q) / 256 == q
  {
  }

  lemma LittleEndianRoundTrip(x: int32)
    ensures FromLittleEndian(LittleEndianBytes(x)) == x
  {
    var u := Unsigned(x);
    var q1 := u / 256;
    var q2 := q1 / 256;
    assert u == u % 256 + 256 * q1;
    assert q1 == q1 % 256 + 256 * q2;
    assert q2 == q2 % 256 + 256 * (q2 / 256);
  }

  lemma LittleEndianBytesRoundTrip(b: seq<byte>)
    requires |b| == 4
    ensures LittleEndianBytes(FromLittleEndian(b)) == b
  {
    var q2 := b[2] as int + 256 * b[3] as int;
    var q1 := b[1] as int + 256 * q2;
    var u := b[0] as int + 256 * q1;
    DivMod256(b[0], q1);
    DivMod256(b[1], q2);
    DivMod256(b[2], b[3]);
    assert Unsigned(FromLittleEndian(b)) == u;
  }

  /** Decoding four bytes in the order they were encoded gives the int back,
      and the other way round. */
  lemma BytesRoundTrip(x: int32, b: seq<byte>, littleEndian: bool)
    requires |b| == 4
    ensures FromBytes(BytesOf(x, littleEndian), littleEndian) == x
    ensures BytesOf(FromBytes(b, littleEndian), littleEndian) == b
  {
    LittleEndianRoundTrip(x);
    if littleEndian {
      LittleEndianBytesRoundTrip(b);
    } else {
      assert Reverse4(Reverse4(LittleEndianBytes(x))) == LittleEndianBytes(x);
      LittleEndianBytesRoundTrip(Reverse4(b));
      assert Reverse4(Reverse4(b)) == b;
    }
  }

  /** Reversing the native bytes of an int on a platform of the other byte
      order gives its bytes in the requested order; and the same for reading. */
  lemma ReversedNativeOrder(x: int32, b: seq<byte>, littleEndian: bool)
    requires |b| == 4
    ensures Reverse4(BytesOf(x, !littleEndian)) == BytesOf(x, littleEndian)
    ensures FromBytes(Reverse4(b), !littleEndian) == FromBytes(b, littleEndian)
  {
    assert Reverse4(Reverse4(LittleEndianBytes(x))) == LittleEndianBytes(x);
    assert Reverse4(Reverse4(b)) == b;
  }

  /** The byte encoding of a sequence of ints, four bytes per int. */
  function Int32sToBytes(xs: seq<int32>, littleEndian: bool): seq<byte>
  {
    if xs == [] then [] else BytesOf(xs[0], littleEndian) + Int32sToBytes(xs[1..], littleEndian)
  }

  /** The ints stored in a byte sequence whose length is a multiple of four. */
  function BytesToInt32s(bs: seq<byte>, littleEndian: bool): seq<int32>
    requires |bs| % 4 == 0
  {
    if bs == [] then [] else [FromBytes(bs[..4], littleEndian)] + BytesToInt32s(bs[4..], littleEndian)
  }

  /** Byte `4*i + j` of the encoding is byte `j` of the encoding of int `i`. */
  lemma {:induction false} Int32sToBytesAt(xs: seq<int32>, littleEndian: bool, i: int, j: int)
    requires 0 <= i < |xs| && 0 <= j < 4
    ensures |Int32sToBytes(xs, littleEndian)| == 4 * |xs|
    ensures Int32sToBytes(xs, littleEndian)[4 * i + j] == BytesOf(xs[i], littleEndian)[j]
  {
    Int32sToBytesLength(xs, littleEndian);
    if i > 0 {
      Int32sToBytesAt(xs[1..], littleEndian, i - 1, j);
    }
  }

  lemma {:induction false} Int32sToBytesLength(xs: seq<int32>, littleEndian: bool)
    ensures |Int32sToBytes(xs, littleEndian)| == 4 * |xs|
  {
    if xs != [] {
      Int32sToBytesLength(xs[1..], littleEndian);
    }
  }

  /** Int `i` of the decoding is read from bytes `4*i .. 4*i+3`. */
  lemma {:induction false} BytesToInt32sAt(bs: seq<byte>, littleEndian: bool, i: int)
    requires |bs| % 4 == 0 && 0 <= i < |bs| / 4
    ensures |BytesToInt32s(bs, littleEndian)| == |bs| / 4
    ensures BytesToInt32s(bs, littleEndian)[i] == FromBytes(bs[4 * i..4 * i + 4], littleEndian)
  {
    BytesToInt32sLength(bs, littleEndian);
    if i > 0 {
      BytesToInt32sAt(bs[4..], littleEndian, i - 1);
      assert bs[4..][4 * (i - 1)..4 * (i - 1) + 4] == bs[4 * i..4 * i + 4];
    }
  }

  lemma {:induction false} BytesToInt32sLength(bs: seq<byte>, littleEndian: bool)
    requires |bs| % 4 == 0
    ensures |BytesToInt32s(bs, littleEndian)| == |bs| / 4
  {
    if bs != [] {
      BytesToInt32sLength(bs[4..], littleEndian);
    }
  }

  /** Decoding the encoding with the same byte order gives the ints back. */
  lemma {:induction false} DecodeEncode(xs: seq<int32>, littleEndian: bool)
    ensures |Int32sToBytes(xs, littleEndian)| % 4 == 0
    ensures BytesToInt32s(Int32sToBytes(xs, littleEndian), littleEndian) == xs
  {
    Int32sToBytesLength(xs, littleEndian);
    if xs != [] {
      var bs := Int32sToBytes(xs, littleEndian);
      assert bs[..4] == BytesOf(xs[0], littleEndian);
      assert bs[4..] == Int32sToBytes(xs[1..], littleEndian);
      BytesRoundTrip(xs[0], bs[..4], littleEndian);
      DecodeEncode(xs[1..], littleEndian);
    }
  }

  /** Encoding the decoding of well-sized bytes gives the bytes back. */
  lemma {:induction false} EncodeDecode(bs: seq<byte>, littleEndian: bool)
    requires |bs| % 4 == 0
    ensures Int32sToBytes(BytesToInt32s(bs, littleEndian), littleEndian) == bs
  {
    if bs != [] {
      BytesRoundTrip(0, bs[..4], littleEndian);
      EncodeDecode(bs[4..], littleEndian);
      assert bs == bs[..4] + bs[4..];
    }
  }

  /** `Int32ArrayToByteArray`: the bytes of every int, in the requested order. */
  method Int32ArrayToByteArray(intArray: array<int32>, littleEndian: bool, systemLittleEndian: bool)
    returns (buffer: array<byte>)
    ensures fresh(buffer)
    ensures buffer.Length == 4 * intArray.Length
    ensures buffer[..] == Int32sToBytes(intArray[..], littleEndian)
  {
    ghost var xs := intArray[..];
    ghost var target := Int32sToBytes(xs, littleEndian);
    Int32sToBytesLength(xs, littleEndian);
    buffer := new byte[4 * intArray.Length];
    if systemLittleEndian == littleEndian {
      // Buffer.BlockCopy: the native layout is already the requested one.
      forall k | 0 <= k < buffer.Length {
        buffer[k] := BytesOf(intArray[k / 4], systemLittleEndian)[k % 4];
      }
      forall k | 0 <= k < buffer.Length
        ensures buffer[k] == target[k]
      {
        var i, j := k / 4, k % 4;
        assert 4 * i + j == k && 0 <= i < intArray.Length && 0 <= j < 4;
        assert intArray[..] == xs;
        assert buffer[k] == BytesOf(xs[i], littleEndian)[j];
        Int32sToBytesAt(xs, littleEndian, i, j);
      }
    } else {
      // Reverse the native bytes of each int.
      for i := 0 to intArray.Length
        invariant forall k :: 0 <= k < 4 * i ==> buffer[k] == target[k]
      {
        var bint := Reverse4(BytesOf(intArray[i], systemLittleEndian));
        ReversedNativeOrder(intArray[i], bint, littleEndian);
        for j := 0 to 4
          invariant forall k :: 0 <= k < 4 * i + j ==> buffer[k] == target[k]
        {
          Int32sToBytesAt(xs, littleEndian, i, j);
          buffer[4 * i + j] := bint[j];
        }
      }
    }
    assert buffer[..] == target;
    assert intArray[..] == xs;
  }

  /** Every 4-byte group of `bs` reversed in place. */
  function ReverseGroups(bs: seq<byte>): (r: seq<byte>)
    requires |bs| % 4 == 0
    ensures |r| == |bs|
  {
    if bs == [] then [] else Reverse4(bs[..4]) + ReverseGroups(bs[4..])
  }

  /** Group `i` of the result is group `i` of `bs` reversed. */
  lemma {:induction false} ReverseGroupsAt(bs: seq<byte>, i: int)
    requires |bs| % 4 == 0 && 0 <= i && 4 * i + 4 <= |bs|
    ensures ReverseGroups(bs)[4 * i] == bs[4 * i + 3]
    ensures ReverseGroups(bs)[4 * i + 1] == bs[4 * i + 2]
    ensures ReverseGroups(bs)[4 * i + 2] == bs[4 * i + 1]
    ensures ReverseGroups(bs)[4 * i + 3] == bs[4 * i]
  {
    var r := ReverseGroups(bs);
    assert r == Reverse4(bs[..4]) + ReverseGroups(bs[4..]);
    if i > 0 {
      var k := 4 * (i - 1);
      assert k + 4 == 4 * i;
      ReverseGroupsAt(bs[4..], i - 1);
    }
  }

  /** Reading the group-reversed bytes in one order is reading the original
      bytes in the other. */
  lemma {:induction false} ReverseGroupsDecode(bs: seq<byte>, littleEndian: bool)
    requires |bs| % 4 == 0
    ensures BytesToInt32s(ReverseGroups(bs), !littleEndian) == BytesToInt32s(bs, littleEndian)
  {
    if bs != [] {
      var r := ReverseGroups(bs);
      assert r[..4] == Reverse4(bs[..4]) && r[4..] == ReverseGroups(bs[4..]);
      ReversedNativeOrder(0, bs[..4], littleEndian);
      ReverseGroupsDecode(bs[4..], littleEndian);
    }
  }

  /** The number of bytes decoded: a count of 0 means the whole array. */
  function EffectiveCount(length: nat, byteCount: nat): nat {
    if byteCount == 0 then length else byteCount
  }

  /** What the decoder needs of its count (checks the source leaves to its callers). */
  predicate ValidByteCount(length: nat, byteCount: nat) {
    EffectiveCount(length, byteCount) % 4 == 0 && EffectiveCount(length, byteCount) <= length
  }

  /** `Buffer.BlockCopy` from bytes into ints: each int is read from its
      4-byte group in the platform's layout. */
  method CopyToInts(src: array<byte>, ints: array<int32>, systemLittleEndian: bool)
    requires ints.Length * 4 <= src.Length
    modifies ints
    ensures ints[..] == BytesToInt32s(src[..ints.Length * 4], systemLittleEndian)
  {
    forall i | 0 <= i < ints.Length {
      ints[i] := FromBytes(src[4 * i..4 * i + 4], systemLittleEndian);
    }
    ghost var bs := src[..ints.Length * 4];
    BytesToInt32sLength(bs, systemLittleEndian);
    forall i | 0 <= i < ints.Length
      ensures ints[i] == BytesToInt32s(bs, systemLittleEndian)[i]
    {
      BytesToInt32sAt(bs, systemLittleEndian, i);
      assert bs[4 * i..4 * i + 4] == src[4 * i..4 * i + 4];
    }
  }

  /** `ByteArrayToInt32Array`: the ints stored in the first `byteCount` bytes
      (all of them when `byteCount` is 0), read in the given order. The input
      array is not modified: the method has no `modifies` clause. */
  method ByteArrayToInt32Array(bytes: array<byte>, byteCount: nat, bytesAreLittleEndian: bool, systemLittleEndian: bool)
    returns (ints: array<int32>)
    requires ValidByteCount(bytes.Length, byteCount)
    ensures fresh(ints)
    ensures ints.Length == EffectiveCount(bytes.Length, byteCount) / 4
    ensures ints[..] == BytesToInt32s(bytes[..EffectiveCount(bytes.Length, byteCount)], bytesAreLittleEndian)
  {
    var count := EffectiveCount(bytes.Length, byteCount);
    ghost var bs := bytes[..count];
    ints := new int32[count / 4];
    if systemLittleEndian == bytesAreLittleEndian {
      CopyToInts(bytes, ints, systemLittleEndian);
      assert bytes[..ints.Length * 4] == bs;
    } else {
      // Reverse each group into a fresh clone, so that `bytes` is left as it is.
      ghost var reversed := ReverseGroups(bs);
      var clone := new byte[ints.Length * 4];
      for i := 0 to ints.Length
        invariant forall k :: 0 <= k < 4 * i ==> clone[k] == reversed[k]
      {
        var first, second := bytes[4 * i], bytes[4 * i + 1];
        ReverseGroupsAt(bs, i);
        clone[4 * i] := bytes[4 * i + 3];
        clone[4 * i + 1] := bytes[4 * i + 2];
        clone[4 * i + 2] := second;
        clone[4 * i + 3] := first;
      }
      assert clone[..] == reversed;
      CopyToInts(clone, ints, systemLittleEndian);
      assert clone[..ints.Length * 4] == reversed;
      ReverseGroupsDecode(bs, bytesAreLittleEndian);
    }
    assert bytes[..count] == bs;
  }
}
