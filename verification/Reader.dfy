/** PcapReader and MultiPcapReader: the second reader of the capture format, its numbering and its
    timeline.  Times are whole microseconds, exact. */
module Reader {
  import opened Wrappers
  import opened Bytes
  import opened PcapFormat

  const ETHERNET := 1
  const LINUX_SLL := 113
  const LINUX_SLL_V2 := 276
  const UDP := 17

  // ---------- headers and bodies ----------

  /** `PacketHeader.from_file`: None at the end of the file; fields cut off by it are read short. */
  function HeaderAt(rest: seq<byte>): Option<PacketHeader> {
    if rest == [] then None
    else Some(PacketHeader(LittleEndian(Slice(rest, 0, 4)), LittleEndian(Slice(rest, 4, 4)),
                           LittleEndian(Slice(rest, 8, 4)), LittleEndian(Slice(rest, 12, 4))))
  }

  /** The link type field of the file header, read short like the others. */
  function LinkType(file: seq<byte>): nat {
    LittleEndian(Slice(file, 20, 4))
  }

  predicate KnownLink(link: nat) {
    link == ETHERNET || link == LINUX_SLL || link == LINUX_SLL_V2
  }

  function ProtocolOffset(link: nat): nat {
    if link == ETHERNET then 23 else if link == LINUX_SLL then 25 else 29
  }

  /** The bytes consumed for a packet and the body class chosen for them. */
  datatype Body = Body(udp: bool, data: seq<byte>)

  function BodyFrom(link: nat, data: seq<byte>): Body {
    Body(LittleEndian(Slice(data, ProtocolOffset(link), 1)) == UDP, data)
  }

  datatype Raw = Raw(header: PacketHeader, body: Body)

  /** None: the reader stops; a known link type always finds a body class. */
  function RawAt(link: nat, rest: seq<byte>): Option<Raw> {
    match HeaderAt(rest)
    case None => None
    case Some(h) =>
      var data := Slice(rest, PACKET_HEADER_SIZE, h.packlen);
      if h.packlen == 0 || data == [] then None else Some(Raw(h, BodyFrom(link, data)))
  }

  function AfterRaw(rest: seq<byte>, raw: Raw): seq<byte> {
    Remaining(rest, PACKET_HEADER_SIZE + |raw.body.data|)
  }

  /** The packets of a file body for a known link type. */
  function RawPackets(link: nat, rest: seq<byte>): seq<Raw>
    decreases |rest|
  {
    match RawAt(link, rest)
    case None => []
    case Some(raw) => [raw] + RawPackets(link, AfterRaw(rest, raw))
  }

  /** An unknown link type raises at the first body that would be parsed, so nothing is read. */
  predicate Raises(file: seq<byte>) {
    !KnownLink(LinkType(file)) && RawAt(LinkType(file), BodyOf(file)).Some?
  }

  function Pending(link: nat, rest: seq<byte>): seq<Raw> {
    if KnownLink(link) then RawPackets(link, rest) else []
  }

  function PacketsOf(file: seq<byte>): seq<Raw> {
    Pending(LinkType(file), BodyOf(file))
  }

  // ---------- time ----------

  datatype TimeInfo = TimeInfo(stamp: int, offset: int, accumulated: int, world: int)

  /** Capture time in microseconds. */
  function StampOf(h: PacketHeader): int {
    h.captime * 1_000_000 + h.caputime
  }

  /** TimeCalculator.calculate */
  function Calculate(stamp: int, previous: Option<int>, first: Option<int>, world: Option<int>): TimeInfo {
    var offset := if previous.None? then 0 else stamp - previous.value;
    var accumulated := if first.None? then 0 else stamp - first.value;
    TimeInfo(stamp, offset, accumulated, if world.None? then accumulated else stamp - world.value)
  }

  // ---------- the read loop ----------

  datatype Packet = Packet(no: nat, header: PacketHeader, body: Body, time: TimeInfo)

  type Filter = (PacketHeader, Body) -> bool

  predicate Dropped(filter: Option<Filter>, raw: Raw) {
    filter.Some? && filter.value(raw.header, raw.body)
  }

  /** The packets a loop in this state still appends. */
  function Loop(raws: seq<Raw>, filter: Option<Filter>, no: nat, previous: Option<int>, first: Option<int>,
                world: Option<int>): seq<Packet>
  {
    if raws == [] then []
    else
      var raw := raws[0];
      var stamp := StampOf(raw.header);
      var first' := if first.None? then Some(stamp) else first;
      if Dropped(filter, raw) then Loop(raws[1..], filter, no, Some(stamp), first', world)
      else [Packet(no, raw.header, raw.body, Calculate(stamp, previous, first, world))]
           + Loop(raws[1..], filter, no + 1, Some(stamp), first', world)
  }

  function ReadAll(file: seq<byte>, filter: Option<Filter>, world: Option<int>): seq<Packet> {
    Loop(PacketsOf(file), filter, 1, None, None, world)
  }

  class PcapReader {
    const filter: Option<Filter>
    var pool: seq<Packet>

    constructor (filter: Option<Filter>)
      ensures this.filter == filter && pool == []
    {
      this.filter := filter;
      pool := [];
    }

    method Read(file: seq<byte>, world: Option<int>) returns (raised: bool)
      modifies this`pool
      ensures raised <==> Raises(file)
      ensures pool == old(pool) + ReadAll(file, filter, world)
    {
      var f := new BinaryFile(file);
      var fileHeader := f.Read(FILE_HEADER_SIZE);
      var link := LittleEndian(Slice(fileHeader, 20, 4));
      LinkInHeader(file);
      var no := 1;
      var first: Option<int>, previous: Option<int> := None, None;
      ghost var result := pool + ReadAll(file, filter, world);
      while true
        invariant f.data == file && link == LinkType(file)
        invariant !KnownLink(link) ==> Remaining(file, f.pos) == BodyOf(file)
        invariant pool + Loop(Pending(link, Remaining(file, f.pos)), filter, no, previous, first, world) == result
        decreases |Remaining(file, f.pos)|
      {
        ghost var rest := Remaining(file, f.pos);
        var raw, raises := NextPacket(f, link);
        if raises {
          assert pool + [] == pool;
          return true;
        }
        if raw.None? {
          assert pool + [] == pool;
          return false;
        }
        var stamp := StampOf(raw.value.header);
        var time := Calculate(stamp, previous, first, world);
        StepPending(link, rest, filter, no, previous, first, world);
        ghost var before := pool;
        ghost var more := Pending(link, AfterRaw(rest, raw.value));
        if !Dropped(filter, raw.value) {
          var packet := Packet(no, raw.value.header, raw.value.body, time);
          pool := pool + [packet];
          no := no + 1;
          ghost var first' := if first.None? then Some(stamp) else first;
          AppendOne(before, packet, Loop(more, filter, no, Some(stamp), first', world));
        }
        previous := Some(stamp);
        if first.None? {
          first := Some(stamp);
        }
      }
    }

    /** One header and one body; `raises` is the lookup error of an unknown link type. */
    method NextPacket(f: BinaryFile, link: nat) returns (raw: Option<Raw>, raises: bool)
      modifies f`pos
      ensures raises <==> !KnownLink(link) && RawAt(link, Remaining(f.data, old(f.pos))).Some?
      ensures !raises ==> raw == RawAt(link, Remaining(f.data, old(f.pos)))
      ensures raw.Some? ==> Remaining(f.data, f.pos) == AfterRaw(Remaining(f.data, old(f.pos)), raw.value)
      ensures raw.Some? ==> |Remaining(f.data, f.pos)| < |Remaining(f.data, old(f.pos))|
    {
      ghost var start := f.pos;
      var header := ReadHeader(f);
      if header.None? || header.value.packlen == 0 {
        return None, false;
      }
      DataOf(f.data, start, f.pos, header.value.packlen);
      var data := f.Read(header.value.packlen);
      if data == [] {
        return None, false;
      }
      if !KnownLink(link) {
        return None, true;
      }
      return Some(Raw(header.value, BodyFrom(link, data))), false;
    }

    method ReadHeader(f: BinaryFile) returns (header: Option<PacketHeader>)
      modifies f`pos
      ensures header == HeaderAt(Remaining(f.data, old(f.pos)))
      ensures f.pos == old(f.pos) + HeaderBytes(Remaining(f.data, old(f.pos)))
    {
      ghost var p0 := f.pos;
      var a := f.Read(4);
      ghost var p1 := f.pos;
      if a == [] {
        return None;
      }
      var b := f.Read(4);
      ghost var p2 := f.pos;
      var c := f.Read(4);
      ghost var p3 := f.pos;
      var d := f.Read(4);
      FieldsOf(f.data, p0, p1, p2, p3, f.pos);
      header := Some(PacketHeader(LittleEndian(a), LittleEndian(b), LittleEndian(c), LittleEndian(d)));
    }
  }

  /** How many bytes a header read takes. */
  function HeaderBytes(rest: seq<byte>): nat {
    if |rest| < PACKET_HEADER_SIZE then |rest| else PACKET_HEADER_SIZE
  }

  lemma AppendOne(ps: seq<Packet>, p: Packet, more: seq<Packet>)
    ensures (ps + [p]) + more == ps + ([p] + more)
  {
  }

  /** One turn of the read loop, on what the loop still has to append. */
  lemma StepPending(link: nat, rest: seq<byte>, filter: Option<Filter>, no: nat, previous: Option<int>,
                    first: Option<int>, world: Option<int>)
    requires KnownLink(link) && RawAt(link, rest).Some?
    ensures var raw := RawAt(link, rest).value;
            var stamp := StampOf(raw.header);
            var first' := if first.None? then Some(stamp) else first;
            var more := Pending(link, AfterRaw(rest, raw));
            Loop(Pending(link, rest), filter, no, previous, first, world)
            == if Dropped(filter, raw) then Loop(more, filter, no, Some(stamp), first', world)
               else [Packet(no, raw.header, raw.body, Calculate(stamp, previous, first, world))]
                    + Loop(more, filter, no + 1, Some(stamp), first', world)
  {
    var raw := RawAt(link, rest).value;
    StepLoop(raw, RawPackets(link, AfterRaw(rest, raw)), filter, no, previous, first, world);
  }

  lemma LinkInHeader(file: seq<byte>)
    ensures LittleEndian(Slice(Slice(file, 0, FILE_HEADER_SIZE), 20, 4)) == LinkType(file)
    ensures Remaining(file, |Slice(file, 0, FILE_HEADER_SIZE)|) == BodyOf(file)
  {
    var header := Slice(file, 0, FILE_HEADER_SIZE);
    assert Slice(header, 20, 4) == Slice(file, 20, 4);
  }

  /** Where the four header reads end up and what they return. */
  lemma FieldsOf(data: seq<byte>, p0: nat, p1: nat, p2: nat, p3: nat, end: nat)
    requires p1 == p0 + |Slice(data, p0, 4)| && p2 == p1 + |Slice(data, p1, 4)|
    requires p3 == p2 + |Slice(data, p2, 4)| && end == p3 + |Slice(data, p3, 4)|
    ensures end == p0 + HeaderBytes(Remaining(data, p0))
    ensures Slice(data, p0, 4) == Slice(Remaining(data, p0), 0, 4)
    ensures Slice(data, p1, 4) == Slice(Remaining(data, p0), 4, 4)
    ensures Slice(data, p2, 4) == Slice(Remaining(data, p0), 8, 4)
    ensures Slice(data, p3, 4) == Slice(Remaining(data, p0), 12, 4)
  {
  }

  /** Reading `d` bytes behind `start` is reading at `d` in what is left there. */
  lemma SliceShift(data: seq<byte>, start: nat, d: nat, n: nat)
    requires start + d <= |data|
    ensures Slice(data, start + d, n) == Slice(Remaining(data, start), d, n)
    ensures Remaining(data, start + d) == Remaining(Remaining(data, start), d)
  {
  }

  lemma DataOf(data: seq<byte>, start: nat, mid: nat, n: nat)
    requires mid == start + HeaderBytes(Remaining(data, start))
    ensures var rest := Remaining(data, start);
            && Slice(data, mid, n) == Slice(rest, PACKET_HEADER_SIZE, n)
            && (Slice(data, mid, n) != [] ==>
                  Remaining(data, mid + |Slice(data, mid, n)|) == Remaining(rest, PACKET_HEADER_SIZE + |Slice(data, mid, n)|))
  {
    if |Remaining(data, start)| >= PACKET_HEADER_SIZE {
      SliceShift(data, start, PACKET_HEADER_SIZE, n);
      SliceShift(data, start, PACKET_HEADER_SIZE + |Slice(data, mid, n)|, n);
    }
  }

  lemma StepLoop(raw: Raw, raws: seq<Raw>, filter: Option<Filter>, no: nat, previous: Option<int>, first: Option<int>,
                 world: Option<int>)
    ensures var stamp := StampOf(raw.header);
            var first' := if first.None? then Some(stamp) else first;
            Loop([raw] + raws, filter, no, previous, first, world)
            == if Dropped(filter, raw) then Loop(raws, filter, no, Some(stamp), first', world)
               else [Packet(no, raw.header, raw.body, Calculate(stamp, previous, first, world))]
                    + Loop(raws, filter, no + 1, Some(stamp), first', world)
  {
    assert ([raw] + raws)[1..] == raws;
  }

  // ---------- filtering, numbering, telescoping ----------

  /** The packets for which the filter, if there is one, is false. */
  function KeepOnly(ps: seq<Packet>, filter: Option<Filter>): seq<Packet> {
    if ps == [] then []
    else (if filter.Some? && filter.value(ps[0].header, ps[0].body) then [] else [ps[0]]) + KeepOnly(ps[1..], filter)
  }

  function Renumber(ps: seq<Packet>, no: nat): seq<Packet> {
    if ps == [] then [] else [ps[0].(no := no)] + Renumber(ps[1..], no + 1)
  }

  lemma {:induction false} LoopFilter(raws: seq<Raw>, filter: Option<Filter>, no: nat, no': nat,
                                      previous: Option<int>, first: Option<int>, world: Option<int>)
    ensures Loop(raws, filter, no, previous, first, world)
            == Renumber(KeepOnly(Loop(raws, None, no', previous, first, world), filter), no)
  {
    if raws != [] {
      var stamp := StampOf(raws[0].header);
      var first' := if first.None? then Some(stamp) else first;
      var all := Loop(raws, None, no', previous, first, world);
      assert all[1..] == Loop(raws[1..], None, no' + 1, Some(stamp), first', world);
      if Dropped(filter, raws[0]) {
        LoopFilter(raws[1..], filter, no, no' + 1, Some(stamp), first', world);
        assert KeepOnly(all, filter) == KeepOnly(all[1..], filter);
      } else {
        LoopFilter(raws[1..], filter, no + 1, no' + 1, Some(stamp), first', world);
        var kept := KeepOnly(all, filter);
        assert kept[1..] == KeepOnly(all[1..], filter);
      }
    }
  }

  /** A filtered read is the unfiltered read less the packets for which the filter is true and numbered 1..n: dropped packets
      still move the clock. */
  lemma FilterCommutes(file: seq<byte>, filter: Option<Filter>, world: Option<int>)
    ensures ReadAll(file, filter, world) == Renumber(KeepOnly(ReadAll(file, None, world), filter), 1)
  {
    LoopFilter(PacketsOf(file), filter, 1, 1, None, None, world);
  }

  /** The packets read for which the filter is false. */
  function Unfiltered(raws: seq<Raw>, f: Filter): seq<Raw> {
    if raws == [] then []
    else (if f(raws[0].header, raws[0].body) then [] else [raws[0]]) + Unfiltered(raws[1..], f)
  }

  function RawsOf(ps: seq<Packet>): seq<Raw> {
    seq(|ps|, i requires 0 <= i < |ps| => Raw(ps[i].header, ps[i].body))
  }

  lemma {:induction false} LoopRaws(raws: seq<Raw>, filter: Option<Filter>, no: nat, previous: Option<int>,
                                    first: Option<int>, world: Option<int>)
    ensures RawsOf(Loop(raws, filter, no, previous, first, world))
            == if filter.None? then raws else Unfiltered(raws, filter.value)
  {
    if raws != [] {
      var stamp := StampOf(raws[0].header);
      var first' := if first.None? then Some(stamp) else first;
      LoopRaws(raws[1..], filter, no, Some(stamp), first', world);
      LoopRaws(raws[1..], filter, no + 1, Some(stamp), first', world);
      RawsFront(Packet(no, raws[0].header, raws[0].body, Calculate(stamp, previous, first, world)),
                Loop(raws[1..], filter, no + 1, Some(stamp), first', world));
      assert raws == [raws[0]] + raws[1..];
    }
  }

  lemma RawsFront(p: Packet, ps: seq<Packet>)
    ensures RawsOf([p] + ps) == [Raw(p.header, p.body)] + RawsOf(ps)
  {
  }

  lemma {:induction false} UnfilteredAreFalse(raws: seq<Raw>, f: Filter)
    ensures forall i :: 0 <= i < |Unfiltered(raws, f)| ==> !f(Unfiltered(raws, f)[i].header, Unfiltered(raws, f)[i].body)
  {
    if raws != [] {
      UnfilteredAreFalse(raws[1..], f);
    }
  }

  /** A filter says which packets to drop: a read keeps, in order, exactly the packets for which it is false. */
  lemma FilterDrops(file: seq<byte>, f: Filter, world: Option<int>)
    ensures RawsOf(ReadAll(file, Some(f), world)) == Unfiltered(PacketsOf(file), f)
    ensures forall i :: 0 <= i < |ReadAll(file, Some(f), world)| ==>
              var p := ReadAll(file, Some(f), world)[i]; !f(p.header, p.body)
    ensures RawsOf(ReadAll(file, None, world)) == PacketsOf(file)
  {
    LoopRaws(PacketsOf(file), Some(f), 1, None, None, world);
    LoopRaws(PacketsOf(file), None, 1, None, None, world);
    UnfilteredAreFalse(PacketsOf(file), f);
    var ps := ReadAll(file, Some(f), world);
    forall i | 0 <= i < |ps| ensures !f(ps[i].header, ps[i].body) {
      assert RawsOf(ps)[i] == Raw(ps[i].header, ps[i].body);
    }
  }

  // ---------- formats, written out ----------

  /** The link type is the last field of the 24-byte file header, and three of its values are known. */
  lemma LinkTypeIs(file: seq<byte>)
    requires |file| >= 24
    ensures LinkType(file) == U32(file, 20)
    ensures KnownLink(LinkType(file)) <==> U32(file, 20) in {1, 113, 276}
  {
    var field := Slice(file, 20, 4);
    LittleEndianOfFour(field);
  }

  /** The protocol byte of each link type decides: 17 is UDP, everything else, also a byte that is not there,
      is treated as TCP. */
  lemma BodyIs(link: nat, data: seq<byte>)
    requires link in {1, 113, 276}
    ensures var at := if link == 1 then 23 else if link == 113 then 25 else 29;
            BodyFrom(link, data).udp <==> at < |data| && data[at] == 17
    ensures BodyFrom(link, data).data == data
  {
    var at := ProtocolOffset(link);
    var field := Slice(data, at, 1);
    LittleEndianDigits(field);
    if at < |data| {
      assert field == [data[at]] && field[1..] == [];
      LittleEndianDigits([]);
    }
  }

  /** A whole packet header is followed by as many body bytes as its last field says, or as are left; a field
      of zero, or nothing left, stops the reader. The captured length plays no part. */
  lemma RawIs(link: nat, rest: seq<byte>)
    requires |rest| >= 16
    ensures RawAt(link, rest).None? <==> U32(rest, 12) == 0 || |rest| == 16
    ensures RawAt(link, rest).Some? ==>
              var raw, n := RawAt(link, rest).value, U32(rest, 12);
              && FieldsAreBytes(raw.header, rest[..16])
              && raw.body.data == (if 16 + n <= |rest| then rest[16..16 + n] else rest[16..])
              && AfterRaw(rest, raw) == (if 16 + n <= |rest| then rest[16 + n..] else [])
  {
    FullHeader(rest);
    DecodeIs(rest[..16]);
    assert U32(rest[..16], 12) == U32(rest, 12);
  }

  lemma {:induction false} LoopPackets(raws: seq<Raw>, no: nat, previous: Option<int>, first: Option<int>,
                                       world: Option<int>, k: nat)
    requires k < |raws|
    ensures |Loop(raws, None, no, previous, first, world)| == |raws|
    ensures var p := Loop(raws, None, no, previous, first, world)[k];
            var before := if k == 0 then previous else Some(StampOf(raws[k - 1].header));
            var origin := if first.Some? then first else if k == 0 then None else Some(StampOf(raws[0].header));
            && p.no == no + k && p.header == raws[k].header && p.body == raws[k].body
            && p.time == Calculate(StampOf(raws[k].header), before, origin, world)
  {
    var stamp := StampOf(raws[0].header);
    var first' := if first.None? then Some(stamp) else first;
    if k > 0 {
      LoopPackets(raws[1..], no + 1, Some(stamp), first', world, k - 1);
    } else if |raws| > 1 {
      LoopPackets(raws[1..], no + 1, Some(stamp), first', world, 0);
    }
  }

  function OffsetSum(ps: seq<Packet>): int {
    if ps == [] then 0 else OffsetSum(ps[..|ps| - 1]) + ps[|ps| - 1].time.offset
  }

  /** The offsets up to a packet add up to its accumulated offset, its time since the file's first. */
  lemma {:induction false} OffsetsTelescope(file: seq<byte>, world: Option<int>, k: nat)
    requires k < |ReadAll(file, None, world)|
    ensures |ReadAll(file, None, world)| == |PacketsOf(file)|
    ensures var ps := ReadAll(file, None, world);
            && OffsetSum(ps[..k + 1]) == ps[k].time.accumulated == ps[k].time.stamp - ps[0].time.stamp
            && ps[k].no == k + 1
  {
    var raws, ps := PacketsOf(file), ReadAll(file, None, world);
    assert raws != [];
    LoopPackets(raws, 1, None, None, world, 0);
    LoopPackets(raws, 1, None, None, world, k);
    assert ps[..k + 1][..k] == ps[..k];
    if k > 0 {
      OffsetsTelescope(file, world, k - 1);
      LoopPackets(raws, 1, None, None, world, k - 1);
    }
  }

  // ---------- the two parsers ----------

  /** Every complete packet header met has equal, nonzero captured and original lengths. */
  predicate LengthsAgree(bs: seq<byte>)
    decreases |bs|
  {
    |bs| < PACKET_HEADER_SIZE ||
    var h := Decode(bs[..PACKET_HEADER_SIZE]);
    h.caplen == h.packlen > 0 && (|bs| < PACKET_HEADER_SIZE + h.caplen || LengthsAgree(bs[PACKET_HEADER_SIZE + h.caplen..]))
  }

  function AsRaw(link: nat, r: Record): Raw {
    Raw(r.header, BodyFrom(link, r.payload))
  }

  function AsRaws(link: nat, rs: seq<Record>): seq<Raw> {
    if rs == [] then [] else [AsRaw(link, rs[0])] + AsRaws(link, rs[1..])
  }

  /** What follows the last whole record. */
  function TailOf(bs: seq<byte>): seq<byte> {
    if |WriteRecords(ParseRecords(bs))| <= |bs| then bs[|WriteRecords(ParseRecords(bs))|..] else []
  }

  /** The packet made of a cut-off payload; a cut-off header makes none. */
  function ShortPacket(link: nat, tail: seq<byte>): seq<Raw> {
    if |tail| <= PACKET_HEADER_SIZE then []
    else [Raw(Decode(tail[..PACKET_HEADER_SIZE]), BodyFrom(link, tail[PACKET_HEADER_SIZE..]))]
  }

  lemma FullHeader(bs: seq<byte>)
    requires |bs| >= PACKET_HEADER_SIZE
    ensures HeaderAt(bs) == Some(Decode(bs[..PACKET_HEADER_SIZE]))
  {
    var hb := bs[..PACKET_HEADER_SIZE];
    assert Slice(bs, 0, 4) == hb[0..4] && Slice(bs, 4, 4) == hb[4..8] && Slice(bs, 8, 4) == hb[8..12] && Slice(bs, 12, 4) == hb[12..16];
  }

  lemma CutOffTail(link: nat, bs: seq<byte>)
    requires LengthsAgree(bs) && ParseRecords(bs) == []
    ensures RawPackets(link, bs) == ShortPacket(link, bs)
  {
    if |bs| >= PACKET_HEADER_SIZE {
      FullHeader(bs);
      var h := Decode(bs[..PACKET_HEADER_SIZE]);
      if |bs| > PACKET_HEADER_SIZE {
        var data := Slice(bs, PACKET_HEADER_SIZE, h.packlen);
        assert data == bs[PACKET_HEADER_SIZE..];
        var raw := Raw(h, BodyFrom(link, data));
        assert AfterRaw(bs, raw) == [];
        assert RawPackets(link, []) == [];
      }
    }
  }

  /** Both parsers take the same first record when it is whole. */
  lemma AgreeOnFirst(link: nat, bs: seq<byte>, r: Record, rest: seq<byte>)
    requires WellFormed(r) && bs == RecordBytes(r) + rest
    requires r.header.caplen == r.header.packlen > 0
    ensures RawAt(link, bs) == Some(AsRaw(link, r))
    ensures AfterRaw(bs, AsRaw(link, r)) == rest
  {
    FullHeader(bs);
    assert bs[..PACKET_HEADER_SIZE] == r.headerBytes;
    assert Slice(bs, PACKET_HEADER_SIZE, r.header.packlen) == r.payload;
    assert Remaining(bs, PACKET_HEADER_SIZE + |r.payload|) == rest;
  }

  /** The first whole record and the bytes after it. */
  lemma FirstWhole(bs: seq<byte>) returns (r: Record, rest: seq<byte>)
    requires LengthsAgree(bs) && ParseRecords(bs) != []
    ensures WellFormed(r) && bs == RecordBytes(r) + rest && r.header.caplen == r.header.packlen > 0
    ensures ParseRecords(bs) == [r] + ParseRecords(rest) && LengthsAgree(rest) && |rest| < |bs|
  {
    r, rest := FirstRecord(bs);
    assert bs[..PACKET_HEADER_SIZE] == r.headerBytes && rest == bs[PACKET_HEADER_SIZE + r.header.caplen..];
  }

  lemma {:induction false} ParsersAgreeOnBody(link: nat, bs: seq<byte>)
    requires LengthsAgree(bs)
    ensures RawPackets(link, bs) == AsRaws(link, ParseRecords(bs)) + ShortPacket(link, TailOf(bs))
    decreases |bs|
  {
    if ParseRecords(bs) == [] {
      CutOffTail(link, bs);
      assert TailOf(bs) == bs;
    } else {
      var r, rest := FirstWhole(bs);
      AgreeOnFirst(link, bs, r, rest);
      ParsersAgreeOnBody(link, rest);
      WriteAfterParse(rest);
      TailOfRest(bs, r, rest);
      PrependRaw(link, r, ParseRecords(rest), ShortPacket(link, TailOf(rest)));
    }
  }

  lemma PrependRaw(link: nat, r: Record, rs: seq<Record>, short: seq<Raw>)
    ensures AsRaws(link, [r] + rs) + short == [AsRaw(link, r)] + (AsRaws(link, rs) + short)
  {
    assert ([r] + rs)[1..] == rs;
  }

  lemma TailOfRest(bs: seq<byte>, r: Record, rest: seq<byte>)
    requires ParseRecords(bs) == [r] + ParseRecords(rest) && WellFormed(r)
    requires bs == RecordBytes(r) + rest && WriteRecords(ParseRecords(rest)) <= rest
    ensures TailOf(bs) == TailOf(rest)
  {
    assert ([r] + ParseRecords(rest))[1..] == ParseRecords(rest);
    var w := WriteRecords(ParseRecords(rest));
    assert WriteRecords(ParseRecords(bs)) == RecordBytes(r) + w;
    assert bs[|RecordBytes(r) + w|..] == rest[|w|..];
  }

  /** On files whose lengths agree and whose link type is known, the reader yields exactly the splitter's
      records in order, and one short packet more exactly when the last payload is cut off but not empty. */
  lemma ParsersAgree(file: seq<byte>)
    requires KnownLink(LinkType(file)) && LengthsAgree(BodyOf(file))
    ensures !Raises(file)
    ensures PacketsOf(file) == AsRaws(LinkType(file), RecordsOf(file)) + ShortPacket(LinkType(file), TailOf(BodyOf(file)))
    ensures PacketsOf(file) == AsRaws(LinkType(file), RecordsOf(file)) <==> |TailOf(BodyOf(file))| <= PACKET_HEADER_SIZE
  {
    ParsersAgreeOnBody(LinkType(file), BodyOf(file));
  }

  // ---------- several files ----------

  datatype Input = Input(file: seq<byte>, filter: Option<Filter>)

  /** The packets of each read, and the time origin after all of them. */
  function MultiRead(inputs: seq<Input>, world: Option<int>): (seq<seq<Packet>>, Option<int>) {
    if inputs == [] then ([], world)
    else
      var ps := ReadAll(inputs[0].file, inputs[0].filter, world);
      var (rest, last) := MultiRead(inputs[1..], NextWorld(world, ps));
      ([ps] + rest, last)
  }

  function NextWorld(world: Option<int>, ps: seq<Packet>): Option<int> {
    if world.None? && ps != [] then Some(ps[0].time.stamp) else world
  }

  class MultiPcapReader {
    var worldFirstTime: Option<int>

    constructor ()
      ensures worldFirstTime == None
    {
      worldFirstTime := None;
    }

    method Reset()
      modifies this
      ensures worldFirstTime == None
    {
      worldFirstTime := None;
    }

    method Read(input: Input) returns (reader: PcapReader, raised: bool)
      modifies this
      ensures raised <==> Raises(input.file)
      ensures fresh(reader) && reader.pool == ReadAll(input.file, input.filter, old(worldFirstTime))
      ensures worldFirstTime == NextWorld(old(worldFirstTime), reader.pool)
    {
      reader := new PcapReader(input.filter);
      raised := reader.Read(input.file, worldFirstTime);
      assert [] + ReadAll(input.file, input.filter, worldFirstTime) == ReadAll(input.file, input.filter, worldFirstTime);
      if raised {
        assert reader.pool == [];
        return;
      }
      if worldFirstTime.None? && reader.pool != [] {
        worldFirstTime := Some(reader.pool[0].time.stamp);
      }
    }
  }

  lemma {:induction false} LoopWorld(raws: seq<Raw>, filter: Option<Filter>, no: nat, previous: Option<int>,
                                     first: Option<int>, world: Option<int>)
    ensures forall k :: 0 <= k < |Loop(raws, filter, no, previous, first, world)| ==>
              var t := Loop(raws, filter, no, previous, first, world)[k].time;
              t.world == t.stamp - (if world.Some? then world.value
                                    else if first.Some? then first.value else StampOf(raws[0].header))
  {
    if raws != [] {
      var stamp := StampOf(raws[0].header);
      var first' := if first.None? then Some(stamp) else first;
      LoopWorld(raws[1..], filter, no, Some(stamp), first', world);
      LoopWorld(raws[1..], filter, no + 1, Some(stamp), first', world);
    }
  }

  /** Every packet's world offset counts from `origin`. */
  ghost predicate CountsFrom(ps: seq<Packet>, origin: int) {
    forall k :: 0 <= k < |ps| ==> ps[k].time.world == ps[k].time.stamp - origin
  }

  ghost predicate AllCountFrom(perFile: seq<seq<Packet>>, origin: int) {
    forall i :: 0 <= i < |perFile| ==> CountsFrom(perFile[i], origin)
  }

  lemma {:induction false} OriginIsKept(inputs: seq<Input>, origin: int)
    ensures MultiRead(inputs, Some(origin)).1 == Some(origin)
    ensures AllCountFrom(MultiRead(inputs, Some(origin)).0, origin)
  {
    if inputs != [] {
      LoopWorld(PacketsOf(inputs[0].file), inputs[0].filter, 1, None, None, Some(origin));
      OriginIsKept(inputs[1..], origin);
      var ps := ReadAll(inputs[0].file, inputs[0].filter, Some(origin));
      assert CountsFrom(ps, origin);
      var perFile := MultiRead(inputs, Some(origin)).0;
      assert perFile == [ps] + MultiRead(inputs[1..], Some(origin)).0;
    }
  }

  /** In the first file that yields a packet, the packet kept first was captured when the packet read
      first was. */
  ghost predicate OriginShared(inputs: seq<Input>) {
    inputs != [] ==>
      var ps := ReadAll(inputs[0].file, inputs[0].filter, None);
      if ps == [] then OriginShared(inputs[1..])
      else ps[0].time.stamp == StampOf(PacketsOf(inputs[0].file)[0].header)
  }

  /** Over any sequence of files the world offsets all count from the shared origin exactly when the
      first yielding file's filter dropped no earlier-captured packet before the first it kept. */
  lemma {:induction false} WorldOffsetsIffOriginShared(inputs: seq<Input>)
    requires MultiRead(inputs, None).1.Some?
    ensures AllCountFrom(MultiRead(inputs, None).0, MultiRead(inputs, None).1.value) <==> OriginShared(inputs)
  {
    var file, filter := inputs[0].file, inputs[0].filter;
    var ps := ReadAll(file, filter, None);
    var (perFile, last) := MultiRead(inputs, None);
    if ps == [] {
      WorldOffsetsIffOriginShared(inputs[1..]);
      var rest := MultiRead(inputs[1..], None).0;
      assert perFile == [ps] + rest && last == MultiRead(inputs[1..], None).1;
      PrependRead(ps, rest, last.value);
    } else {
      var origin := ps[0].time.stamp;
      OriginIsKept(inputs[1..], origin);
      assert perFile == [ps] + MultiRead(inputs[1..], Some(origin)).0 && last == Some(origin);
      PrependRead(ps, MultiRead(inputs[1..], Some(origin)).0, origin);
      LoopWorld(PacketsOf(file), filter, 1, None, None, None);
      var first := StampOf(PacketsOf(file)[0].header);
      assert ps[0].time.world == origin - first;
    }
  }

  lemma PrependRead(ps: seq<Packet>, rest: seq<seq<Packet>>, origin: int)
    ensures AllCountFrom([ps] + rest, origin) <==> CountsFrom(ps, origin) && AllCountFrom(rest, origin)
  {
    if AllCountFrom([ps] + rest, origin) {
      assert ([ps] + rest)[0] == ps;
      forall i | 0 <= i < |rest| ensures CountsFrom(rest[i], origin) {
        assert ([ps] + rest)[i + 1] == rest[i];
      }
    }
  }

  /** When the first packet of all the files was captured. */
  function FirstCapture(inputs: seq<Input>): Option<int> {
    if inputs == [] then None
    else if PacketsOf(inputs[0].file) != [] then Some(StampOf(PacketsOf(inputs[0].file)[0].header))
    else FirstCapture(inputs[1..])
  }

  /** Without filters every packet's world offset is its time since the first packet ever read. */
  lemma {:induction false} UnfilteredOriginShared(inputs: seq<Input>)
    requires forall i :: 0 <= i < |inputs| ==> inputs[i].filter.None?
    ensures OriginShared(inputs)
    ensures MultiRead(inputs, None).1 == FirstCapture(inputs)
    ensures FirstCapture(inputs).Some? ==> AllCountFrom(MultiRead(inputs, None).0, FirstCapture(inputs).value)
  {
    if inputs != [] {
      UnfilteredOriginShared(inputs[1..]);
      if PacketsOf(inputs[0].file) != [] {
        LoopPackets(PacketsOf(inputs[0].file), 1, None, None, None, 0);
        OriginIsKept(inputs[1..], StampOf(PacketsOf(inputs[0].file)[0].header));
      }
      if MultiRead(inputs, None).1.Some? {
        WorldOffsetsIffOriginShared(inputs);
      }
    }
  }
}
