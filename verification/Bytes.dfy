/** Bytes, little-endian integers and the read cursor of an open binary file. */
module Bytes {

  type byte = x: int | 0 <= x < 256

  /** `int.from_bytes(bs, "little")`, defined for any number of bytes, including none. */
  function LittleEndian(bs: seq<byte>): nat {
    if bs == [] then 0 else bs[0] + 256 * LittleEndian(bs[1..])
  }

  /** The first byte is the least significant. */
  lemma LittleEndianDigits(bs: seq<byte>)
    ensures bs == [] ==> LittleEndian(bs) == 0
    ensures bs != [] ==> LittleEndian(bs) % 256 == bs[0] && LittleEndian(bs) / 256 == LittleEndian(bs[1..])
  {
  }

  /** The number with these four bytes, least significant first. */
  function OfFour(a: int, b: int, c: int, d: int): int {
    a + 256 * b + 65536 * c + 16777216 * d
  }

  /** A field of four bytes, written out. */
  lemma LittleEndianOfFour(bs: seq<byte>)
    requires |bs| == 4
    ensures LittleEndian(bs) == OfFour(bs[0], bs[1], bs[2], bs[3])
  {
    var one, two, three := bs[3..], bs[2..], bs[1..];
    assert one[1..] == [] && two[1..] == one && three[1..] == two;
    assert LittleEndian(one) == bs[3];
    assert LittleEndian(two) == bs[2] + 256 * LittleEndian(one);
    assert LittleEndian(three) == bs[1] + 256 * LittleEndian(two);
  }

  /** A field of at most four bytes is an unsigned 32-bit number. */
  lemma {:induction false} LittleEndianBound(bs: seq<byte>)
    requires |bs| <= 4
    ensures LittleEndian(bs) < 0x1_0000_0000
    ensures |bs| <= 3 ==> LittleEndian(bs) < 0x100_0000
    ensures |bs| <= 2 ==> LittleEndian(bs) < 0x1_0000
    ensures |bs| <= 1 ==> LittleEndian(bs) < 0x100
    ensures |bs| <= 0 ==> LittleEndian(bs) < 1
  {
    if bs != [] {
      LittleEndianBound(bs[1..]);
    }
  }

  /** At most `n` bytes of `data` from `pos`; empty at or after the end. */
  function Slice(data: seq<byte>, pos: nat, n: nat): seq<byte> {
    if pos >= |data| then []
    else if pos + n <= |data| then data[pos..pos + n]
    else data[pos..]
  }

  /** What is left to read at `pos`. */
  function Remaining(data: seq<byte>, pos: nat): seq<byte> {
    if pos >= |data| then [] else data[pos..]
  }

  /** What a read returns: as many of the bytes asked for as there are, in order. */
  lemma SliceIs(data: seq<byte>, pos: nat, n: nat)
    ensures |Slice(data, pos, n)| == if pos >= |data| then 0 else if n <= |data| - pos then n else |data| - pos
    ensures forall i :: 0 <= i < |Slice(data, pos, n)| ==> Slice(data, pos, n)[i] == data[pos + i]
    ensures |Remaining(data, pos)| == if pos >= |data| then 0 else |data| - pos
    ensures forall i :: 0 <= i < |Remaining(data, pos)| ==> Remaining(data, pos)[i] == data[pos + i]
  {
  }

  /** A file opened for reading: `read(n)` moves the position, `seek` may pass the end. */
  class BinaryFile {
    const data: seq<byte>
    var pos: nat

    constructor (data: seq<byte>)
      ensures this.data == data && pos == 0
    {
      this.data := data;
      pos := 0;
    }

    method Read(n: nat) returns (chunk: seq<byte>)
      modifies this`pos
      ensures chunk == Slice(data, old(pos), n)
      ensures pos == old(pos) + |chunk|
      ensures Remaining(data, old(pos)) == chunk + Remaining(data, pos)
    {
      chunk := Slice(data, pos, n);
      pos := pos + |chunk|;
    }

    method Seek(p: nat)
      modifies this`pos
      ensures pos == p
    {
      pos := p;
    }
  }
}
