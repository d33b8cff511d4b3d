/** Concrete raw files whose records the cycle does not keep together: a second that three files share, and
    a second that two files of one minute share. */
module LostGroups {
  import opened Bytes
  import opened PcapFormat
  import opened Partition
  import opened Text
  import opened Names
  import opened Protocol
  import opened CycleOutcome
  import opened Pipeline
  import opened EndToEnd
  import opened Collision

  // ---------- captures of one packet ----------

  /** 2026-05-13 11:53:30 UTC, little-endian. */
  const CAPTIME: seq<byte> := [58, 102, 4, 106]

  const SECOND := LittleEndian(CAPTIME)

  /** Header and payload of a packet of one byte, `u` microseconds into the second. */
  function PacketBytes(u: byte): seq<byte> {
    CAPTIME + [u, 0, 0, 0] + [1, 0, 0, 0] + [1, 0, 0, 0] + [u]
  }

  function Capture(u: byte): seq<byte> {
    seq(FILE_HEADER_SIZE, _ => 0) + PacketBytes(u)
  }

  function OnlyRecord(u: byte): Record {
    Record(Decode(PacketBytes(u)[..16]), PacketBytes(u)[..16], [u])
  }

  lemma SmallNumber(u: byte)
    ensures LittleEndian([u, 0, 0, 0]) == u
  {
    assert LittleEndian([0]) == 0 by { assert [0][1..] == []; }
    assert LittleEndian([0, 0]) == 0 by { assert [0, 0][1..] == [0]; }
    assert LittleEndian([0, 0, 0]) == 0 by { assert [0, 0, 0][1..] == [0, 0]; }
    assert [u, 0, 0, 0][1..] == [0, 0, 0];
  }

  lemma OnlyRecordShape(u: byte)
    ensures WellFormed(OnlyRecord(u)) && RecordBytes(OnlyRecord(u)) == PacketBytes(u)
    ensures SecondOf(OnlyRecord(u)) == SECOND
  {
    var h := PacketBytes(u)[..16];
    SmallNumber(u);
    SmallNumber(1);
    assert h[0..4] == CAPTIME && h[4..8] == [u, 0, 0, 0] && h[8..12] == [1, 0, 0, 0];
  }

  lemma CaptureRecords(u: byte)
    ensures RecordsOf(Capture(u)) == [OnlyRecord(u)]
    ensures Seconds(RecordsOf(Capture(u))) == {SECOND}
  {
    OnlyRecordShape(u);
    assert BodyOf(Capture(u)) == RecordBytes(OnlyRecord(u)) + [];
    ParseOneRecord(OnlyRecord(u), []);
    var rs := [OnlyRecord(u)];
    assert SecondOf(rs[0]) in Seconds(rs);
  }

  lemma SecondIsSmall()
    ensures SECOND < 0x1_0000_0000
  {
    LittleEndianBound(CAPTIME);
  }

  // ---------- their names ----------

  const CFG := Config("/cache", "/unpaired_merge", "/split", map["GNSS" := "GNSS"], 0)

  const DATE := "20260513"

  lemma ConfigIsValid()
    ensures ValidConfig(CFG) && Upper("GNSS") == "GNSS"
  {
    assert "/cache/"[1] != "/unpaired_merge/"[1];
    assert "/cache" + "/" == "/cache/" && "/unpaired_merge" + "/" == "/unpaired_merge/";
    assert Upper("S") == "S" && "SS"[1..] == "S" && "NSS"[1..] == "SS" && "GNSS"[1..] == "NSS";
  }

  /** A file of one packet with this time of day in its name. */
  function FileAt(time: string, u: byte): RawFile {
    RawFile("VEHICLE-001", "GNSS" + "_" + DATE + time + ".pcap", Capture(u))
  }

  lemma NameParses(time: string, u: byte)
    requires |time| == 6 && AllDigits(time)
    ensures Ready(CFG, FileAt(time, u)) && PartsOf(FileAt(time, u)) == Parts("GNSS", DATE, time[..2], time[2..4], time[4..])
    ensures Free(FileAt(time, u).name, '/') && Free(FileAt(time, u).vehicle, '/')
  {
    ConfigIsValid();
    NameRoundTrip("GNSS", DATE, time);
  }

  /** The one packet of the file lies in the second, hence at its edge. */
  lemma FileContributes(files: seq<RawFile>, i: nat, time: string, u: byte)
    requires i < |files| && files[i] == FileAt(time, u) && |time| == 6 && AllDigits(time)
    ensures Contributes(CFG, files, i, "VEHICLE-001", "GNSS", SECOND)
    ensures KeysOf(files[i]) == [SECOND] && AtEdge(files[i], SECOND)
  {
    NameParses(time, u);
    CaptureRecords(u);
    var ks := KeysOf(files[i]);
    assert |ks| == 1 && ks[0] in ks;
  }

  // ---------- one second in three files ----------

  function FilesAt(a: string, b: string, c: string): seq<RawFile> {
    [FileAt(a, 0), FileAt(b, 1), FileAt(c, 2)]
  }

  /** Names of 11:52, 11:53 and 11:54. */
  function ThreeFiles(): seq<RawFile> {
    FilesAt("115200", "115300", "115400")
  }

  /** Times of three different minutes of one ten minutes. */
  predicate InThreeMinutes(a: string, b: string, c: string) {
    && |a| == |b| == |c| == 6 && AllDigits(a) && AllDigits(b) && AllDigits(c)
    && a[3] != b[3] && b[3] != c[3] && a[3] != c[3]
  }

  lemma ThreeTimes()
    ensures InThreeMinutes("115200", "115300", "115400")
  {
  }

  predicate Placed(cfg: Config, f: RawFile) {
    Ready(cfg, f) && Free(f.vehicle, '/') && Free(f.name, '/')
  }

  predicate MinutesDiffer(f: RawFile, g: RawFile) {
    Parse(f.name).Some? && Parse(g.name).Some? && !SameMinute(f, g)
  }

  lemma DifferentMinutes(t: string, u: byte, t': string, u': byte)
    requires |t| == 6 && AllDigits(t) && |t'| == 6 && AllDigits(t') && t[3] != t'[3]
    ensures Placed(CFG, FileAt(t, u)) && MinutesDiffer(FileAt(t, u), FileAt(t', u'))
  {
    NameParses(t, u);
    NameParses(t', u');
    assert t[2..4][1] == t[3] && t'[2..4][1] == t'[3];
  }

  /** Files of different minutes are valid inputs, and no second of theirs is mixed. */
  lemma DifferentMinutesAreValid(cfg: Config, files: seq<RawFile>, v: string, m: string, second: nat)
    requires ValidConfig(cfg) && forall i :: 0 <= i < |files| ==> Placed(cfg, files[i])
    requires forall i, j :: 0 <= i < j < |files| ==> MinutesDiffer(files[i], files[j])
    ensures ValidInputs(cfg, files) && Unmixed(cfg, files, v, m, second)
  {
    forall i, j | 0 <= i < j < |files| ensures files[i].vehicle != files[j].vehicle || files[i].name != files[j].name {
      assert MinutesDiffer(files[i], files[j]);
    }
    forall i, j | 0 <= i < |files| && 0 <= j < |files| && i != j ensures MinutesDiffer(files[i], files[j]) {
      if i < j {
        assert MinutesDiffer(files[i], files[j]);
      } else {
        assert MinutesDiffer(files[j], files[i]);
      }
    }
  }

  lemma ThreeAreValid(cfg: Config, f: RawFile, g: RawFile, h: RawFile, v: string, m: string, second: nat)
    requires ValidConfig(cfg) && Placed(cfg, f) && Placed(cfg, g) && Placed(cfg, h)
    requires MinutesDiffer(f, g) && MinutesDiffer(g, h) && MinutesDiffer(f, h)
    ensures ValidInputs(cfg, [f, g, h]) && Unmixed(cfg, [f, g, h], v, m, second)
    ensures forall i :: 0 <= i < 3 ==> Ready(cfg, [f, g, h][i])
  {
    DifferentMinutesAreValid(cfg, [f, g, h], v, m, second);
  }

  lemma FilesAtAreValid(a: string, b: string, c: string)
    requires InThreeMinutes(a, b, c)
    ensures ValidInputs(CFG, FilesAt(a, b, c)) && Unmixed(CFG, FilesAt(a, b, c), "VEHICLE-001", "GNSS", SECOND)
    ensures forall i :: 0 <= i < 3 ==> Ready(CFG, FilesAt(a, b, c)[i])
  {
    ConfigIsValid();
    DifferentMinutes(a, 0, b, 1);
    DifferentMinutes(b, 1, c, 2);
    DifferentMinutes(a, 0, c, 2);
    DifferentMinutes(c, 2, a, 0);
    ThreeAreValid(CFG, FileAt(a, 0), FileAt(b, 1), FileAt(c, 2), "VEHICLE-001", "GNSS", SECOND);
  }

  lemma FilesAtShare(a: string, b: string, c: string)
    requires InThreeMinutes(a, b, c)
    ensures !ExclusiveSecond(CFG, FilesAt(a, b, c), "VEHICLE-001", "GNSS", SECOND)
  {
    FileContributes(FilesAt(a, b, c), 0, a, 0);
    FileContributes(FilesAt(a, b, c), 1, b, 1);
    FileContributes(FilesAt(a, b, c), 2, c, 2);
    ThreeAreNotExclusive(CFG, FilesAt(a, b, c), "VEHICLE-001", "GNSS", SECOND, 0, 1, 2);
  }

  /** A second in three files is not exclusive. */
  lemma ThreeAreNotExclusive(cfg: Config, files: seq<RawFile>, v: string, m: string, second: nat, i: int, j: int, k: int)
    requires Contributes(cfg, files, i, v, m, second) && Contributes(cfg, files, j, v, m, second)
    requires Contributes(cfg, files, k, v, m, second) && i != j && j != k && i != k
    ensures !ExclusiveSecond(cfg, files, v, m, second)
  {
  }

  /** Two of the three pieces are merged, and the third is swept alone to the same object name: whatever the
      interleaving, no object holds the three records. */
  lemma ThirdPieceIsLost(run: seq<State>, steps: seq<Step>)
    requires IsCycle(PlanFor(CFG, ThreeFiles()), run, steps)
    requires run[|steps|].manager.Ended? && run[|steps|].progress.failure == 0
    ensures !Grouped(CFG, ThreeFiles(), run[|steps|].store, "VEHICLE-001", "GNSS", SECOND)
  {
    ThreeTimes();
    FilesAtAreValid("115200", "115300", "115400");
    FilesAtShare("115200", "115300", "115400");
    SecondIsSmall();
    NoFailureMeansAllReady(CFG, ThreeFiles(), run, steps);
    SecondGroupedIffExclusive(CFG, ThreeFiles(), run, steps, "VEHICLE-001", "GNSS", SECOND);
  }

  /** And there is such a run. */
  lemma ThirdPieceCanBeLost() returns (run: seq<State>, steps: seq<Step>)
    ensures IsCycle(PlanFor(CFG, ThreeFiles()), run, steps)
    ensures run[|steps|].manager.Ended? && run[|steps|].progress.failure == 0
    ensures !Grouped(CFG, ThreeFiles(), run[|steps|].store, "VEHICLE-001", "GNSS", SECOND)
  {
    ThreeTimes();
    FilesAtAreValid("115200", "115300", "115400");
    run, steps := SuccessIsPossible(CFG, ThreeFiles(), 1, map[], map[]);
    ThirdPieceIsLost(run, steps);
  }

  // ---------- one second in two files of one minute ----------

  function TwoFiles(): seq<RawFile> {
    [FileAt("115300", 0), FileAt("115330", 1)]
  }

  /** The first file ends and the second begins in the same second.  That second is exclusive, yet a run in
      which both jobs succeed loses the first file's record: both pieces have one local path. */
  lemma SharedPathCanLose() returns (run: seq<State>, steps: seq<Step>)
    ensures ValidInputs(CFG, TwoFiles()) && IsCycle(PlanFor(CFG, TwoFiles()), run, steps)
    ensures run[|steps|].manager.Ended? && run[|steps|].progress.failure == 0
    ensures ExclusiveSecond(CFG, TwoFiles(), "VEHICLE-001", "GNSS", SECOND)
    ensures !Grouped(CFG, TwoFiles(), run[|steps|].store, "VEHICLE-001", "GNSS", SECOND)
  {
    TwoFilesAreTwins();
    ListedTwoAreValid();
    SecondIsSmall();
    run, steps := TwinsRun(CFG, FileAt("115300", 0), FileAt("115330", 1), SECOND);
    DifferentRecords(FileAt("115300", 0), 0, FileAt("115330", 1), 1);
  }

  lemma TwoFilesAreTwins()
    ensures TwinFiles(CFG, FileAt("115300", 0), FileAt("115330", 1), SECOND)
    ensures PartsOf(FileAt("115300", 0)).moduleName == "GNSS"
  {
    ConfigIsValid();
    SecondIsSmall();
    NameParses("115300", 0);
    NameParses("115330", 1);
    SameFront();
    FileContributes([FileAt("115300", 0)], 0, "115300", 0);
    FileContributes([FileAt("115330", 1)], 0, "115330", 1);
  }

  /** And so does every run in which both jobs succeed, whatever the interleaving. */
  lemma SharedPathLoses(run: seq<State>, steps: seq<Step>)
    requires IsCycle(PlanFor(CFG, TwoFiles()), run, steps)
    requires run[|steps|].manager.Ended? && run[|steps|].progress.failure == 0
    ensures !Grouped(CFG, TwoFiles(), run[|steps|].store, "VEHICLE-001", "GNSS", SECOND)
  {
    var f, g := FileAt("115300", 0), FileAt("115330", 1);
    TwoFilesAreTwins();
    ListedTwoAreValid();
    SecondIsSmall();
    NoFailureMeansAllReady(CFG, TwoFiles(), run, steps);
    TwinsAgreeIff(CFG, f, g, SECOND, run, steps);
    DifferentRecords(f, 0, g, 1);
  }

  lemma ListedTwoAreValid()
    ensures ValidInputs(CFG, TwoFiles())
  {
    TwoTimes();
    TwoFilesAreValid("115300", "115330");
  }

  lemma TwoTimes()
    ensures AllDigits("115300") && AllDigits("115330") && "115300"[4] != "115330"[4]
  {
  }

  lemma TwoFilesAreValid(a: string, b: string)
    requires |a| == 6 && AllDigits(a) && |b| == 6 && AllDigits(b) && a[4] != b[4]
    ensures ValidInputs(CFG, [FileAt(a, 0), FileAt(b, 1)])
  {
    ConfigIsValid();
    NameParses(a, 0);
    NameParses(b, 1);
    assert FileAt(a, 0).name[17] == a[4] && FileAt(b, 1).name[17] == b[4];
  }

  lemma SameFront()
    ensures "115300"[..2] == "115330"[..2] && "115300"[2..4] == "115330"[2..4]
  {
  }

  lemma DifferentRecords(f: RawFile, u: byte, g: RawFile, u': byte)
    requires f.bytes == Capture(u) && g.bytes == Capture(u') && u != u'
    ensures multiset(RecordsOf(f.bytes)) != multiset(RecordsOf(g.bytes))
  {
    CaptureRecords(u);
    CaptureRecords(u');
    assert OnlyRecord(u).payload[0] != OnlyRecord(u').payload[0];
    assert OnlyRecord(u) in multiset(RecordsOf(f.bytes)) && OnlyRecord(u) !in multiset(RecordsOf(g.bytes));
  }
}
