/** The reader's timeline in doubles, as the source computes it, against the exact microseconds of the
    reader's model. */
module FloatTimeline {
  import opened Wrappers
  import opened Bytes
  import opened PcapFormat
  import opened FloatSecond
  import opened TimeStamps
  import opened Reader

  lemma PowerOf22()
    ensures Pow2(22) == 0x40_0000
  {
    Powers();
    PowAdd(20, 2);
    assert Pow2(2) == 4;
  }

  /** Below 2^31 - 1 in size a rounded value is within 2^-23. */
  lemma RoundingErrorMedium(x: real, r: real)
    requires -2147483647.0 < x < 2147483647.0 && RoundsTo(x, r)
    ensures Abs(x - r) <= 1.0 / 8388608.0
  {
    Powers();
    PowerOf22();
    var k := (x * 4194304.0 + 0.5).Floor;
    var d := k as real / 4194304.0;
    assert d == Scaled(k, -22);
    assert IsDouble(d);
    assert Abs(x - d) <= 1.0 / 8388608.0;
  }

  // ---------- stamps ----------

  predicate Is32Bit(h: PacketHeader) {
    h.captime < 0x1_0000_0000 && h.caputime < 0x1_0000_0000
  }

  /** Captured before 2038-01-19 03:14:05 UTC. */
  predicate Before2038(h: PacketHeader) {
    StampOf(h) < 2_147_483_645_000_000
  }

  function Exact(h: PacketHeader): real {
    h.captime as real + h.caputime as real / 1000000.0
  }

  lemma ExactIsStamp(h: PacketHeader)
    ensures Exact(h) * 1000000.0 == StampOf(h) as real
  {
  }

  lemma StampIsClose(h: PacketHeader, t: real)
    requires Is32Bit(h) && StampDouble(h, t)
    ensures Abs(t - Exact(h)) <= 1.0 / 2097152.0 + 1.0 / 2199023255552.0
    ensures Before2038(h) ==> Abs(t - Exact(h)) <= 1.0 / 8388608.0 + 1.0 / 2199023255552.0
  {
    var q :| StampThrough(h, q, t);
    QuotientIsClose(h, q);
    SumIsClose(h, h.captime as real + q, t);
  }

  lemma QuotientIsClose(h: PacketHeader, q: real)
    requires Is32Bit(h) && RoundsTo(h.caputime as real / 1000000.0, q)
    ensures Abs(h.captime as real + q - Exact(h)) <= 1.0 / 2199023255552.0
  {
    RoundingErrorSmall(h.caputime as real / 1000000.0, q);
  }

  lemma SumIsClose(h: PacketHeader, sum: real, t: real)
    requires Is32Bit(h) && Abs(sum - Exact(h)) <= 1.0 / 2199023255552.0 && RoundsTo(sum, t)
    ensures Abs(t - sum) <= 1.0 / 2097152.0
    ensures Before2038(h) ==> Abs(t - sum) <= 1.0 / 8388608.0
  {
    ExactIsStamp(h);
    RoundingErrorLarge(sum, t);
    if Before2038(h) { RoundingErrorMedium(sum, t); }
  }

  // ---------- differences ----------

  /** Within one and a half microseconds. */
  predicate Close(d: real, micros: int) {
    Abs(d * 1000000.0 - micros as real) < 1.5
  }

  /** The nearest whole microsecond. */
  function Nearest(d: real): int {
    (d * 1000000.0 + 0.5).Floor
  }

  /** Within 1.5 microseconds of the exact value and, if `early`, equal to it in whole microseconds. */
  predicate FieldClose(d: real, micros: int, early: bool) {
    Close(d, micros) && (early ==> Nearest(d) == micros)
  }

  lemma RoundedDifference(t: real, t0: real, d: real, early: bool)
    requires -4.0 < t < 4294971594.0 && -4.0 < t0 < 4294971594.0 && RoundsTo(t - t0, d)
    requires early ==> -1.0 < t < 2147483646.0 && -1.0 < t0 < 2147483646.0
    ensures Abs(d - (t - t0)) <= 1.0 / 2097152.0
    ensures early ==> Abs(d - (t - t0)) <= 1.0 / 8388608.0
  {
    RoundingErrorLarge(t - t0, d);
    if early { RoundingErrorMedium(t - t0, d); }
  }

  /** A rounded difference of two rounded stamps is close to the exact difference. */
  lemma DifferenceIsClose(h: PacketHeader, t: real, h0: PacketHeader, t0: real, d: real)
    requires Is32Bit(h) && StampDouble(h, t) && Is32Bit(h0) && StampDouble(h0, t0) && RoundsTo(t - t0, d)
    ensures FieldClose(d, StampOf(h) - StampOf(h0), Before2038(h) && Before2038(h0))
  {
    StampIsClose(h, t);
    StampIsClose(h0, t0);
    ErrorsAddUp(h, t, h0, t0, d);
  }

  lemma ErrorsAddUp(h: PacketHeader, t: real, h0: PacketHeader, t0: real, d: real)
    requires Is32Bit(h) && Is32Bit(h0) && RoundsTo(t - t0, d)
    requires Abs(t - Exact(h)) <= 1.0 / 2097152.0 + 1.0 / 2199023255552.0
    requires Abs(t0 - Exact(h0)) <= 1.0 / 2097152.0 + 1.0 / 2199023255552.0
    requires Before2038(h) ==> Abs(t - Exact(h)) <= 1.0 / 8388608.0 + 1.0 / 2199023255552.0
    requires Before2038(h0) ==> Abs(t0 - Exact(h0)) <= 1.0 / 8388608.0 + 1.0 / 2199023255552.0
    ensures FieldClose(d, StampOf(h) - StampOf(h0), Before2038(h) && Before2038(h0))
  {
    ExactIsStamp(h);
    ExactIsStamp(h0);
    RoundedDifference(t, t0, d, Before2038(h) && Before2038(h0));
  }

  // ---------- TimeInfo ----------

  datatype DoubleTime = DoubleTime(stamp: real, offset: real, accumulated: real, world: real)

  /** `time_stamp - reference`, or 0.0 without a reference. */
  ghost predicate Minus(stamp: real, reference: Option<real>, d: real) {
    match reference
    case None => d == 0.0
    case Some(r) => RoundsTo(stamp - r, d)
  }

  /** TimeCalculator.calculate in doubles. */
  ghost predicate Calculates(stamp: real, previous: Option<real>, first: Option<real>, world: Option<real>, t: DoubleTime) {
    && t.stamp == stamp && Minus(stamp, previous, t.offset) && Minus(stamp, first, t.accumulated)
    && (if world.None? then t.world == t.accumulated else Minus(stamp, world, t.world))
  }

  /** The double of the header a reference was taken from. */
  ghost predicate ReferenceDouble(h: Option<PacketHeader>, t: Option<real>) {
    match h
    case None => t.None?
    case Some(h) => Is32Bit(h) && t.Some? && StampDouble(h, t.value)
  }

  function StampOption(h: Option<PacketHeader>): Option<int> {
    match h
    case None => None
    case Some(h) => Some(StampOf(h))
  }

  predicate Early(h: Option<PacketHeader>) {
    h.Some? ==> Before2038(h.value)
  }

  function Since(h: PacketHeader, h0: Option<PacketHeader>): int {
    if h0.None? then 0 else StampOf(h) - StampOf(h0.value)
  }

  lemma MinusIsClose(h: PacketHeader, t: real, h0: Option<PacketHeader>, t0: Option<real>, d: real)
    requires Is32Bit(h) && StampDouble(h, t) && ReferenceDouble(h0, t0) && Minus(t, t0, d)
    ensures FieldClose(d, Since(h, h0), Before2038(h) && Early(h0))
  {
    if h0.Some? { DifferenceIsClose(h, t, h0.value, t0.value, d); }
  }

  lemma WorldIsClose(h: PacketHeader, stamp: real, first: Option<PacketHeader>, f: Option<real>,
                     world: Option<PacketHeader>, w: Option<real>, accumulated: real, d: real)
    requires Is32Bit(h) && StampDouble(h, stamp) && ReferenceDouble(first, f) && ReferenceDouble(world, w)
    requires Minus(stamp, f, accumulated) && (if w.None? then d == accumulated else Minus(stamp, w, d))
    ensures FieldClose(d, if world.None? then Since(h, first) else Since(h, world),
                       Before2038(h) && Early(first) && Early(world))
  {
    if world.Some? {
      MinusIsClose(h, stamp, world, w, d);
    } else {
      MinusIsClose(h, stamp, first, f, d);
    }
  }

  ghost predicate TimeClose(t: DoubleTime, exact: TimeInfo, early: bool) {
    FieldClose(t.offset, exact.offset, early) && FieldClose(t.accumulated, exact.accumulated, early)
    && FieldClose(t.world, exact.world, early)
  }

  /** Every field that the source computes in doubles is within 1.5 microseconds of the model's exact field,
      and equal to it in whole microseconds when all packets involved were captured before 2038. */
  lemma TimeInfoIsClose(h: PacketHeader, previous: Option<PacketHeader>, first: Option<PacketHeader>, world: Option<PacketHeader>,
                        stamp: real, p: Option<real>, f: Option<real>, w: Option<real>, t: DoubleTime)
    requires Is32Bit(h) && StampDouble(h, stamp) && Calculates(stamp, p, f, w, t)
    requires ReferenceDouble(previous, p) && ReferenceDouble(first, f) && ReferenceDouble(world, w)
    ensures TimeClose(t, Calculate(StampOf(h), StampOption(previous), StampOption(first), StampOption(world)),
                      Before2038(h) && Early(previous) && Early(first) && Early(world))
  {
    var early := Before2038(h) && Early(previous) && Early(first) && Early(world);
    MinusIsClose(h, stamp, previous, p, t.offset);
    Weaken(t.offset, Since(h, previous), Before2038(h) && Early(previous), early);
    MinusIsClose(h, stamp, first, f, t.accumulated);
    Weaken(t.accumulated, Since(h, first), Before2038(h) && Early(first), early);
    WorldIsClose(h, stamp, first, f, world, w, t.accumulated, t.world);
    ExactFields(h, previous, first, world);
  }

  lemma Weaken(d: real, micros: int, early: bool, earlier: bool)
    requires FieldClose(d, micros, early) && (earlier ==> early)
    ensures FieldClose(d, micros, earlier)
  {
  }

  lemma ExactFields(h: PacketHeader, previous: Option<PacketHeader>, first: Option<PacketHeader>, world: Option<PacketHeader>)
    ensures Calculate(StampOf(h), StampOption(previous), StampOption(first), StampOption(world))
            == TimeInfo(StampOf(h), Since(h, previous), Since(h, first),
                        if world.None? then Since(h, first) else Since(h, world))
  {
  }

  // ---------- whole reads ----------

  lemma {:induction false} RawsAre32Bit(link: nat, rest: seq<byte>)
    ensures forall i :: 0 <= i < |RawPackets(link, rest)| ==> Is32Bit(RawPackets(link, rest)[i].header)
    decreases |rest|
  {
    var raw := RawAt(link, rest);
    if raw.Some? {
      LittleEndianBound(Slice(rest, 0, 4));
      LittleEndianBound(Slice(rest, 4, 4));
      RawsAre32Bit(link, AfterRaw(rest, raw.value));
    }
  }

  /** What the loop has kept of the packets before the `k`-th: the last one's header and the first one's. */
  function PreviousHeader(raws: seq<Raw>, k: nat): Option<PacketHeader>
    requires k < |raws|
  {
    if k == 0 then None else Some(raws[k - 1].header)
  }

  function FirstHeader(raws: seq<Raw>, k: nat): Option<PacketHeader>
    requires k < |raws|
  {
    if k == 0 then None else Some(raws[0].header)
  }

  /** The time that is computed in doubles for the `k`-th packet read, from the references kept so far. */
  ghost predicate DoubleTimeAt(raws: seq<Raw>, k: nat, world: Option<PacketHeader>, stamp: real,
                               p: Option<real>, f: Option<real>, w: Option<real>, t: DoubleTime)
    requires k < |raws|
  {
    && ReferenceDouble(world, w) && StampDouble(raws[k].header, stamp) && Calculates(stamp, p, f, w, t)
    && (PreviousHeader(raws, k).Some? <==> p.Some?) && (p.Some? ==> StampDouble(PreviousHeader(raws, k).value, p.value))
    && (FirstHeader(raws, k).Some? <==> f.Some?) && (f.Some? ==> StampDouble(FirstHeader(raws, k).value, f.value))
  }

  /** All packets that the time of the `k`-th depends on were captured before 2038. */
  predicate EarlyAt(raws: seq<Raw>, k: nat, world: Option<PacketHeader>)
    requires k < |raws|
  {
    Before2038(raws[k].header) && Early(PreviousHeader(raws, k)) && Early(FirstHeader(raws, k)) && Early(world)
  }

  lemma UnfilteredIsClose(file: seq<byte>, world: Option<PacketHeader>, k: nat,
                          stamp: real, p: Option<real>, f: Option<real>, w: Option<real>, t: DoubleTime)
    requires k < |PacketsOf(file)| && DoubleTimeAt(PacketsOf(file), k, world, stamp, p, f, w, t)
    ensures |ReadAll(file, None, StampOption(world))| == |PacketsOf(file)|
    ensures TimeClose(t, ReadAll(file, None, StampOption(world))[k].time, EarlyAt(PacketsOf(file), k, world))
  {
    var raws := PacketsOf(file);
    RawsAre32Bit(LinkType(file), BodyOf(file));
    LoopPackets(raws, 1, None, None, StampOption(world), k);
    TimeInfoIsClose(raws[k].header, PreviousHeader(raws, k), FirstHeader(raws, k), world, stamp, p, f, w, t);
  }

  /** Which of the packets read is the `n`-th one kept. */
  lemma {:induction false} KeptAt(ps: seq<Packet>, filter: Option<Filter>, no: nat, n: nat) returns (k: nat)
    requires n < |Renumber(KeepOnly(ps, filter), no)|
    ensures k < |ps| && Renumber(KeepOnly(ps, filter), no)[n].time == ps[k].time
    ensures Renumber(KeepOnly(ps, filter), no)[n].header == ps[k].header
  {
    if filter.Some? && filter.value(ps[0].header, ps[0].body) {
      assert KeepOnly(ps, filter) == KeepOnly(ps[1..], filter);
      var m := KeptAt(ps[1..], filter, no, n);
      k := m + 1;
    } else if n == 0 {
      k := 0;
    } else {
      assert KeepOnly(ps, filter)[1..] == KeepOnly(ps[1..], filter);
      var m := KeptAt(ps[1..], filter, no + 1, n - 1);
      k := m + 1;
    }
  }

  /** The times a read with any filter computes in doubles are, packet by packet, close to those of the model;
      `k` is the packet's place among all packets read, dropped ones included. */
  lemma ReadIsClose(file: seq<byte>, filter: Option<Filter>, world: Option<PacketHeader>, n: nat) returns (k: nat)
    requires n < |ReadAll(file, filter, StampOption(world))|
    ensures k < |PacketsOf(file)| && ReadAll(file, filter, StampOption(world))[n].header == PacketsOf(file)[k].header
    ensures forall stamp, p, f, w, t :: DoubleTimeAt(PacketsOf(file), k, world, stamp, p, f, w, t) ==>
              TimeClose(t, ReadAll(file, filter, StampOption(world))[n].time, EarlyAt(PacketsOf(file), k, world))
  {
    var all := ReadAll(file, None, StampOption(world));
    FilterCommutes(file, filter, StampOption(world));
    k := KeptAt(all, filter, 1, n);
    AllPackets(file, StampOption(world), k);
    forall stamp, p, f, w, t | DoubleTimeAt(PacketsOf(file), k, world, stamp, p, f, w, t)
      ensures TimeClose(t, ReadAll(file, filter, StampOption(world))[n].time, EarlyAt(PacketsOf(file), k, world))
    {
      UnfilteredIsClose(file, world, k, stamp, p, f, w, t);
    }
  }

  lemma AllPackets(file: seq<byte>, world: Option<int>, k: nat)
    requires k < |ReadAll(file, None, world)|
    ensures k < |PacketsOf(file)| && ReadAll(file, None, world)[k].header == PacketsOf(file)[k].header
  {
    assert PacketsOf(file) != [];
    LoopPackets(PacketsOf(file), 1, None, None, world, 0);
    LoopPackets(PacketsOf(file), 1, None, None, world, k);
  }
}
