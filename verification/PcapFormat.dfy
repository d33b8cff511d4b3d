/** The libpcap capture file: a 24-byte file header and then packet records, each a
    16-byte header followed by `caplen` payload bytes (draft-ietf-opsawg-pcap, sections 4 and 5). */
module PcapFormat {
  import opened Bytes

  const FILE_HEADER_SIZE := 24
  const PACKET_HEADER_SIZE := 16

  datatype PacketHeader = PacketHeader(captime: nat, caputime: nat, caplen: nat, packlen: nat)

  /** One packet as the splitter holds it: the decoded header, its bytes, the payload. */
  datatype Record = Record(header: PacketHeader, headerBytes: seq<byte>, payload: seq<byte>)

  function Decode(bs: seq<byte>): PacketHeader
    requires |bs| == PACKET_HEADER_SIZE
  {
    PacketHeader(LittleEndian(bs[0..4]), LittleEndian(bs[4..8]), LittleEndian(bs[8..12]), LittleEndian(bs[12..16]))
  }

  predicate WellFormed(r: Record) {
    && |r.headerBytes| == PACKET_HEADER_SIZE
    && r.header == Decode(r.headerBytes)
    && |r.payload| == r.header.caplen
  }

  predicate AllWellFormed(rs: seq<Record>) {
    forall i :: 0 <= i < |rs| ==> WellFormed(rs[i])
  }

  /** The capture second: whole seconds of `captime + caputime / 10^6`. */
  function SecondOf(r: Record): nat {
    r.header.captime + r.header.caputime / 1_000_000
  }

  lemma SecondBound(r: Record)
    requires WellFormed(r)
    ensures r.header.captime < 0x1_0000_0000 && r.header.caputime < 0x1_0000_0000
    ensures SecondOf(r) < 0x2_0000_0000
  {
    LittleEndianBound(r.headerBytes[0..4]);
    LittleEndianBound(r.headerBytes[4..8]);
  }

  // ---------- reading ----------

  /** The whole records at the front of `bs`; a truncated header or payload ends the list. */
  function ParseRecords(bs: seq<byte>): seq<Record>
    decreases |bs|
  {
    if |bs| < PACKET_HEADER_SIZE then []
    else
      var h := Decode(bs[..PACKET_HEADER_SIZE]);
      var end := PACKET_HEADER_SIZE + h.caplen;
      if |bs| < end then []
      else [Record(h, bs[..PACKET_HEADER_SIZE], bs[PACKET_HEADER_SIZE..end])] + ParseRecords(bs[end..])
  }

  function FileHeaderOf(file: seq<byte>): seq<byte> {
    if |file| < FILE_HEADER_SIZE then file else file[..FILE_HEADER_SIZE]
  }

  function BodyOf(file: seq<byte>): seq<byte> {
    if |file| < FILE_HEADER_SIZE then [] else file[FILE_HEADER_SIZE..]
  }

  function RecordsOf(file: seq<byte>): seq<Record> {
    ParseRecords(BodyOf(file))
  }

  // ---------- the layout, written out ----------

  /** The unsigned 32-bit number at four bytes, least significant first. */
  function U32(bs: seq<byte>, i: nat): int
    requires i + 4 <= |bs|
  {
    OfFour(bs[i], bs[i + 1], bs[i + 2], bs[i + 3])
  }

  /** Seconds, microseconds, captured length and original length, in this order. */
  predicate FieldsAreBytes(h: PacketHeader, bs: seq<byte>) {
    |bs| == 16 && h.captime == U32(bs, 0) && h.caputime == U32(bs, 4) && h.caplen == U32(bs, 8) && h.packlen == U32(bs, 12)
  }

  lemma DecodeIs(bs: seq<byte>)
    requires |bs| == 16
    ensures FieldsAreBytes(Decode(bs), bs)
  {
    LittleEndianOfFour(bs[0..4]);
    LittleEndianOfFour(bs[4..8]);
    LittleEndianOfFour(bs[8..12]);
    LittleEndianOfFour(bs[12..16]);
  }

  /** A file header of 24 bytes and then the records. */
  lemma FileIs(file: seq<byte>)
    ensures |file| >= 24 ==> FileHeaderOf(file) == file[..24] && BodyOf(file) == file[24..]
    ensures |file| < 24 ==> FileHeaderOf(file) == file && BodyOf(file) == []
  {
  }

  /** A record is there exactly if its 16 header bytes and as many bytes as these say are; it is followed by
      the records behind them. */
  lemma RecordIs(bs: seq<byte>)
    ensures |bs| < 16 ==> ParseRecords(bs) == []
    ensures |bs| >= 16 ==> RecordLaid(bs)
  {
    if |bs| >= 16 {
      CaplenIs(bs);
      DecodeIs(bs[..16]);
    }
  }

  predicate RecordLaid(bs: seq<byte>)
    requires |bs| >= 16
  {
    var header, n := Decode(bs[..16]), U32(bs, 8);
    && FieldsAreBytes(header, bs[..16]) && n >= 0
    && if |bs| < 16 + n then ParseRecords(bs) == []
       else ParseRecords(bs) == [Record(header, bs[..16], bs[16..16 + n])] + ParseRecords(bs[16 + n..])
  }

  lemma CaplenIs(bs: seq<byte>)
    requires |bs| >= 16
    ensures Decode(bs[..16]).caplen == U32(bs, 8)
  {
    DecodeIs(bs[..16]);
    assert U32(bs[..16], 8) == U32(bs, 8);
  }

  predicate AllFieldsAreBytes(rs: seq<Record>) {
    forall i :: 0 <= i < |rs| ==> FieldsAreBytes(rs[i].header, rs[i].headerBytes)
  }

  /** The fields of every record read from a file are the numbers in its header bytes. */
  lemma RecordFields(file: seq<byte>)
    ensures AllFieldsAreBytes(RecordsOf(file))
  {
    var rs := RecordsOf(file);
    ParsedAreWellFormed(BodyOf(file));
    forall i | 0 <= i < |rs| ensures FieldsAreBytes(rs[i].header, rs[i].headerBytes) {
      DecodeIs(rs[i].headerBytes);
    }
  }

  // ---------- writing ----------

  function RecordBytes(r: Record): seq<byte> {
    r.headerBytes + r.payload
  }

  function WriteRecords(rs: seq<Record>): seq<byte> {
    if rs == [] then [] else RecordBytes(rs[0]) + WriteRecords(rs[1..])
  }

  lemma Associative(x: seq<byte>, y: seq<byte>, z: seq<byte>)
    ensures (x + y) + z == x + (y + z)
  {
  }

  lemma {:induction false} WriteAppend(a: seq<Record>, b: seq<Record>)
    ensures WriteRecords(a + b) == WriteRecords(a) + WriteRecords(b)
  {
    if a == [] {
      assert a + b == b;
    } else {
      WriteAppend(a[1..], b);
      assert (a + b)[0] == a[0] && (a + b)[1..] == a[1..] + b;
      Associative(RecordBytes(a[0]), WriteRecords(a[1..]), WriteRecords(b));
    }
  }

  // ---------- round trips ----------

  lemma {:induction false} ParsedAreWellFormed(bs: seq<byte>)
    ensures AllWellFormed(ParseRecords(bs))
    decreases |bs|
  {
    if |bs| >= PACKET_HEADER_SIZE {
      var end := PACKET_HEADER_SIZE + Decode(bs[..PACKET_HEADER_SIZE]).caplen;
      if |bs| >= end {
        ParsedAreWellFormed(bs[end..]);
      }
    }
  }

  lemma ParseOneRecord(r: Record, rest: seq<byte>)
    requires WellFormed(r)
    ensures ParseRecords(RecordBytes(r) + rest) == [r] + ParseRecords(rest)
  {
    var bs := RecordBytes(r) + rest;
    var end := PACKET_HEADER_SIZE + r.header.caplen;
    assert bs[..PACKET_HEADER_SIZE] == r.headerBytes;
    assert bs[PACKET_HEADER_SIZE..end] == r.payload;
    assert bs[end..] == rest;
  }

  /** Reading back written records returns them, whatever follows. */
  lemma {:induction false} ParseAfterWrite(rs: seq<Record>, tail: seq<byte>)
    requires AllWellFormed(rs)
    ensures ParseRecords(WriteRecords(rs) + tail) == rs + ParseRecords(tail)
  {
    if rs == [] {
      assert WriteRecords(rs) + tail == tail;
      assert rs + ParseRecords(tail) == ParseRecords(tail);
    } else {
      var rest := WriteRecords(rs[1..]) + tail;
      calc {
        ParseRecords(WriteRecords(rs) + tail);
        { Associative(RecordBytes(rs[0]), WriteRecords(rs[1..]), tail); }
        ParseRecords(RecordBytes(rs[0]) + rest);
        { ParseOneRecord(rs[0], rest); }
        [rs[0]] + ParseRecords(rest);
        { ParseAfterWrite(rs[1..], tail); }
        [rs[0]] + (rs[1..] + ParseRecords(tail));
        { assert rs == [rs[0]] + rs[1..]; }
        rs + ParseRecords(tail);
      }
    }
  }

  /** The first whole record and the bytes behind it. */
  lemma FirstRecord(bs: seq<byte>) returns (r: Record, rest: seq<byte>)
    requires ParseRecords(bs) != []
    ensures WellFormed(r) && bs == RecordBytes(r) + rest && |rest| < |bs|
    ensures ParseRecords(bs) == [r] + ParseRecords(rest)
  {
    r := ParseRecords(bs)[0];
    rest := bs[PACKET_HEADER_SIZE + r.header.caplen..];
  }

  lemma WriteOneMoreRecord(r: Record, rs: seq<Record>, rest: seq<byte>)
    requires WriteRecords(rs) <= rest
    ensures WriteRecords([r] + rs) <= RecordBytes(r) + rest
    ensures (RecordBytes(r) + rest)[|WriteRecords([r] + rs)|..] == rest[|WriteRecords(rs)|..]
  {
    assert ([r] + rs)[1..] == rs;
    var front, w := RecordBytes(r), WriteRecords(rs);
    assert WriteRecords([r] + rs) == front + w;
    assert (front + rest)[..|front + w|] == front + rest[..|w|];
  }

  /** Writing what was read yields a prefix of the input, and nothing whole is left behind it. */
  lemma {:induction false} WriteAfterParse(bs: seq<byte>)
    ensures WriteRecords(ParseRecords(bs)) <= bs
    ensures ParseRecords(bs[|WriteRecords(ParseRecords(bs))|..]) == []
    decreases |bs|
  {
    if ParseRecords(bs) == [] {
      assert bs[0..] == bs;
    } else {
      var r, rest := FirstRecord(bs);
      WriteAfterParse(rest);
      WriteOneMoreRecord(r, ParseRecords(rest), rest);
    }
  }

  /** It is the longest such prefix: any whole records that start the input are among those read. */
  lemma ParseIsMaximal(bs: seq<byte>, ws: seq<Record>)
    requires AllWellFormed(ws) && WriteRecords(ws) <= bs
    ensures ws <= ParseRecords(bs)
    ensures WriteRecords(ws) <= WriteRecords(ParseRecords(bs))
  {
    var tail := bs[|WriteRecords(ws)|..];
    assert bs == WriteRecords(ws) + tail;
    ParseAfterWrite(ws, tail);
    WriteAppend(ws, ParseRecords(tail));
  }

  /** A written file reads back as the header and the records it was written from. */
  lemma WrittenFileReadsBack(header: seq<byte>, rs: seq<Record>)
    requires |header| == FILE_HEADER_SIZE && AllWellFormed(rs)
    ensures FileHeaderOf(header + WriteRecords(rs)) == header
    ensures RecordsOf(header + WriteRecords(rs)) == rs
  {
    var file := header + WriteRecords(rs);
    assert file[..FILE_HEADER_SIZE] == header;
    assert file[FILE_HEADER_SIZE..] == WriteRecords(rs) + [];
    ParseAfterWrite(rs, []);
  }

  /** Rewriting what was read from any file keeps its longest prefix of whole records. */
  lemma RewrittenFileIsWholeRecordPrefix(file: seq<byte>)
    ensures FileHeaderOf(file) + WriteRecords(RecordsOf(file)) <= file
    ensures |file| >= FILE_HEADER_SIZE ==>
              forall ws :: AllWellFormed(ws) && FileHeaderOf(file) + WriteRecords(ws) <= file
                           ==> WriteRecords(ws) <= WriteRecords(RecordsOf(file))
  {
    WriteAfterParse(BodyOf(file));
    if |file| >= FILE_HEADER_SIZE {
      assert file == FileHeaderOf(file) + BodyOf(file);
      forall ws | AllWellFormed(ws) && FileHeaderOf(file) + WriteRecords(ws) <= file
        ensures WriteRecords(ws) <= WriteRecords(RecordsOf(file))
      {
        assert (FileHeaderOf(file) + WriteRecords(ws))[FILE_HEADER_SIZE..] == WriteRecords(ws);
        assert WriteRecords(ws) <= BodyOf(file);
        ParseIsMaximal(BodyOf(file), ws);
      }
    } else {
      assert FileHeaderOf(file) + [] == file;
    }
  }
}
