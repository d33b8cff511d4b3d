/** The jobs a cycle gets from real file names and file contents, and the proof that they meet what the
    protocol asks of its plan. */
module Pipeline {
  import opened Bytes
  import opened PcapFormat
  import opened Partition
  import opened Calendar
  import opened Text
  import opened Names
  import opened SplitSpec
  import opened Protocol
  import opened Refinement
  import opened Renaming

  /** A raw object `{root}/{date}/{vehicle}/{name}` and its content. */
  datatype RawFile = RawFile(vehicle: string, name: string, bytes: seq<byte>)

  // ---------- the job of a raw file ----------

  predicate Ready(cfg: Config, f: RawFile) {
    Parse(f.name).Some? && Registered(cfg, Parse(f.name).value.moduleName)
  }

  function PartsOf(f: RawFile): Parts
    requires Parse(f.name).Some?
  {
    Parse(f.name).value
  }

  /** The capture seconds of a file in increasing order. */
  function KeysOf(f: RawFile): seq<nat> {
    Sorted(Seconds(RecordsOf(f.bytes)))
  }

  function MidKeys(ks: seq<nat>): seq<nat> {
    if |ks| <= 2 then [] else ks[1..|ks| - 1]
  }

  function EndKeys(ks: seq<nat>): seq<nat> {
    if |ks| <= 1 then ks else [ks[0], ks[|ks| - 1]]
  }

  /** The order a worker handles pieces in: MID pieces first, then HEAD and TAIL. */
  function WorkOrder(ks: seq<nat>): seq<nat> {
    MidKeys(ks) + EndKeys(ks)
  }

  function PieceOf(cfg: Config, f: RawFile, second: nat, mid: bool): Piece
    requires Ready(cfg, f)
  {
    var p, s := PartsOf(f), StampOf(cfg.tz, second);
    Piece(SplitPath(cfg, f.vehicle, p, s.Label()), PairKey(f.vehicle, p.moduleName, s),
          OutPath(cfg, f.vehicle, p.moduleName, s),
          if mid then MidObject(cfg, f.vehicle, p.moduleName, s) else EndObject(cfg, f.vehicle, p.moduleName, s),
          PieceBytes(f.bytes, second))
  }

  function PiecesFor(cfg: Config, f: RawFile, ks: seq<nat>): seq<Piece>
    requires Ready(cfg, f)
  {
    var order, mids := WorkOrder(ks), |MidKeys(ks)|;
    seq(|order|, i requires 0 <= i < |order| => PieceOf(cfg, f, order[i], i < mids))
  }

  /** A file whose name cannot be placed is never downloaded; its working path stands for nothing. */
  function JobFor(cfg: Config, f: RawFile): Job {
    if Ready(cfg, f) then
      Job(true, SourcePath(cfg, f.vehicle, f.name, PartsOf(f)), f.bytes, PiecesFor(cfg, f, KeysOf(f)), |MidKeys(KeysOf(f))|)
    else
      Job(false, Under(cfg.cache, [f.vehicle, f.name]), f.bytes, [], 0)
  }

  function PlanFor(cfg: Config, files: seq<RawFile>): Plan {
    seq(|files|, i requires 0 <= i < |files| => JobFor(cfg, files[i]))
  }

  /** Raw files as they are listed: path segments and no path twice. */
  predicate ValidInputs(cfg: Config, files: seq<RawFile>) {
    && ValidConfig(cfg)
    && (forall i :: 0 <= i < |files| ==> Free(files[i].vehicle, '/') && Free(files[i].name, '/'))
    && (forall i, j :: 0 <= i < j < |files| ==> files[i].vehicle != files[j].vehicle || files[i].name != files[j].name)
  }

  predicate SameMinute(f: RawFile, g: RawFile)
    requires Parse(f.name).Some? && Parse(g.name).Some?
  {
    && f.vehicle == g.vehicle && PartsOf(f).moduleName == PartsOf(g).moduleName && PartsOf(f).date == PartsOf(g).date
    && PartsOf(f).hours == PartsOf(g).hours && PartsOf(f).minutes == PartsOf(g).minutes
  }

  /** Files of one vehicle and module with the same minute in their names share a working directory, and with
      a common second both have a piece at the same local path in it. */
  predicate Collide(f: RawFile, g: RawFile)
    requires Parse(f.name).Some? && Parse(g.name).Some?
  {
    SameMinute(f, g) && Seconds(RecordsOf(f.bytes)) * Seconds(RecordsOf(g.bytes)) != {}
  }

  ghost predicate Separate(cfg: Config, files: seq<RawFile>) {
    forall i, j :: 0 <= i < |files| && 0 <= j < |files| && i != j && Ready(cfg, files[i]) && Ready(cfg, files[j]) ==>
      !Collide(files[i], files[j])
  }

  // ---------- the split the worker runs is the job's ----------

  function SplitTemplate(cfg: Config, f: RawFile): Template
    requires Ready(cfg, f)
  {
    var p := PartsOf(f);
    Template(Under(cfg.cache, LocalSegments(cfg, f.vehicle, p, p.moduleName + "_split_")), ".pcap")
  }

  lemma {:induction false} JoinSuffix(segments: seq<string>, last: string, suffix: string)
    requires |segments| >= 1
    ensures Join(segments[|segments| - 1 := last + suffix]) == Join(segments[|segments| - 1 := last]) + suffix
  {
    var n := |segments| - 1;
    if n > 0 {
      JoinSuffix(segments[1..], last, suffix);
      assert segments[n := last + suffix][1..] == segments[1..][n - 1 := last + suffix];
      assert segments[n := last][1..] == segments[1..][n - 1 := last];
    }
  }

  /** The template, filled with a label, is the path the job gives the piece. */
  lemma TemplatePath(cfg: Config, f: RawFile, second: nat)
    requires Ready(cfg, f)
    ensures SavePath(SplitTemplate(cfg, f), cfg.tz, second) == SplitPath(cfg, f.vehicle, PartsOf(f), LabelOf(cfg.tz, second))
  {
    var p, l := PartsOf(f), LabelOf(cfg.tz, second);
    var base := p.moduleName + "_split_";
    var segments := LocalSegments(cfg, f.vehicle, p, base);
    JoinSuffix(segments, base, l + ".pcap");
    assert segments[6 := base] == segments;
    assert segments[6 := base + (l + ".pcap")] == LocalSegments(cfg, f.vehicle, p, SplitName(p.moduleName, l)) by {
      assert base + (l + ".pcap") == SplitName(p.moduleName, l);
    }
  }

  lemma ListedInWorkOrder(t: Template, tz: Offset, moduleName: string, ks: seq<nat>, i: nat) returns (position: Position)
    requires i < |WorkOrder(ks)|
    ensures var out := OutcomeFor(t, tz, moduleName, ks);
            && |out.processed| == |MidKeys(ks)| && |out.processed + out.unprocessed| == |WorkOrder(ks)|
            && (out.processed + out.unprocessed)[i] == PieceFor(t, tz, moduleName, WorkOrder(ks)[i], position)
    ensures position == MID <==> i < |MidKeys(ks)|
  {
    var n, mids := |ks|, |MidKeys(ks)|;
    position := if i < mids then MID else if i == mids then HEAD else TAIL;
    if n == 2 {
      assert ks[1..n - 1] == [];
    }
  }

  /** `split_once` lists its pieces in the worker's order. */
  lemma OutcomeInWorkOrder(t: Template, tz: Offset, moduleName: string, ks: seq<nat>, i: nat)
    requires i < |WorkOrder(ks)|
    ensures var out := OutcomeFor(t, tz, moduleName, ks);
            && |out.processed| == |MidKeys(ks)| && |out.processed + out.unprocessed| == |WorkOrder(ks)|
            && (out.processed + out.unprocessed)[i].savePath == SavePath(t, tz, WorkOrder(ks)[i])
            && (out.processed + out.unprocessed)[i].stamp == StampOf(tz, WorkOrder(ks)[i])
            && (out.processed + out.unprocessed)[i].moduleName == moduleName
            && ((out.processed + out.unprocessed)[i].position == MID <==> i < |MidKeys(ks)|)
  {
    var position := ListedInWorkOrder(t, tz, moduleName, ks, i);
  }

  /** The split step of the cycle writes what `split_once` writes, less the removed source: each piece of
      the job is the specification's piece of its second, and its path the one split_once saves it to. */
  lemma SplitStepPieces(cfg: Config, f: RawFile, i: nat)
    requires Ready(cfg, f) && i < |JobFor(cfg, f).pieces|
    ensures var job, second := JobFor(cfg, f), WorkOrder(KeysOf(f))[i];
            var out := OutcomeFor(SplitTemplate(cfg, f), cfg.tz, PartsOf(f).moduleName, KeysOf(f));
            var piece := (out.processed + out.unprocessed)[i];
            && |job.pieces| == |out.processed + out.unprocessed| && job.mids == |out.processed|
            && job.pieces[i].path == piece.savePath && piece.stamp == StampOf(cfg.tz, second)
            && piece.moduleName == PartsOf(f).moduleName
            && (i < job.mids <==> piece.position == MID)
            && job.pieces[i].bytes == PieceBytes(f.bytes, second)
  {
    TemplatePath(cfg, f, WorkOrder(KeysOf(f))[i]);
    OutcomeInWorkOrder(SplitTemplate(cfg, f), cfg.tz, PartsOf(f).moduleName, KeysOf(f), i);
  }

  // ---------- order of pieces ----------

  lemma OrderMembers(ks: seq<nat>)
    requires Increasing(ks)
    ensures forall k :: k in WorkOrder(ks) <==> k in ks
    ensures forall i, j :: 0 <= i < j < |WorkOrder(ks)| ==> WorkOrder(ks)[i] != WorkOrder(ks)[j]
    ensures forall i :: 0 <= i < |WorkOrder(ks)| ==> (i < |MidKeys(ks)| <==> ks[0] < WorkOrder(ks)[i] < ks[|ks| - 1])
  {
    if |ks| > 2 {
      OrderOfMany(ks);
      RotatedMembers(ks, WorkOrder(ks));
    } else {
      OrderOfFew(ks);
    }
  }

  lemma OrderOfFew(ks: seq<nat>)
    requires |ks| <= 2
    ensures WorkOrder(ks) == ks && MidKeys(ks) == []
  {
  }

  /** The inner elements first, then the outer two: the same members, none twice. */
  lemma RotatedMembers(ks: seq<nat>, order: seq<nat>)
    requires Increasing(ks) && |order| == |ks| > 2
    requires forall i :: 0 <= i < |ks| - 2 ==> order[i] == ks[i + 1]
    requires order[|ks| - 2] == ks[0] && order[|ks| - 1] == ks[|ks| - 1]
    ensures forall k :: k in order <==> k in ks
    ensures forall i, j :: 0 <= i < j < |order| ==> order[i] != order[j]
    ensures forall i :: 0 <= i < |order| ==> (i < |ks| - 2 <==> ks[0] < order[i] < ks[|ks| - 1])
  {
    var n := |ks|;
    forall k | k in ks ensures k in order {
      var a :| 0 <= a < n && ks[a] == k;
      assert k == order[if a == 0 then n - 2 else if a == n - 1 then n - 1 else a - 1];
    }
    forall k | k in order ensures k in ks {
      var a :| 0 <= a < n && order[a] == k;
      assert k == ks[if a == n - 2 then 0 else if a == n - 1 then n - 1 else a + 1];
    }
  }

  lemma OrderOfMany(ks: seq<nat>)
    requires |ks| > 2
    ensures |WorkOrder(ks)| == |ks| && |MidKeys(ks)| == |ks| - 2
    ensures forall i :: 0 <= i < |ks| - 2 ==> WorkOrder(ks)[i] == ks[i + 1]
    ensures WorkOrder(ks)[|ks| - 2] == ks[0] && WorkOrder(ks)[|ks| - 1] == ks[|ks| - 1]
  {
  }

  /** The file and second a piece of the plan is for. */
  lemma PieceInfo(cfg: Config, files: seq<RawFile>, j: int, k: int) returns (second: nat)
    requires IsPiece(PlanFor(cfg, files), j, k)
    ensures 0 <= j < |files| && Ready(cfg, files[j]) && k < |WorkOrder(KeysOf(files[j]))|
    ensures second == WorkOrder(KeysOf(files[j]))[k] && second < 0x2_0000_0000
    ensures second in Seconds(RecordsOf(files[j].bytes))
    ensures PlanFor(cfg, files)[j].pieces[k]
            == PieceOf(cfg, files[j], second, !IsEnd(PlanFor(cfg, files), j, k))
  {
    var f := files[j];
    second := WorkOrder(KeysOf(f))[k];
    OrderMembers(KeysOf(f));
    assert second in WorkOrder(KeysOf(f));
    assert second in KeysOf(f);
    SecondsBound(f.bytes);
  }

  // ---------- paths are private ----------

  lemma ReadySegmentsFree(cfg: Config, f: RawFile, file: string)
    requires ValidConfig(cfg) && Ready(cfg, f) && Free(f.vehicle, '/') && Free(f.name, '/') && Free(file, '/')
    ensures AllFree(LocalSegments(cfg, f.vehicle, PartsOf(f), file), '/')
  {
    LocalSegmentsFree(cfg, f.vehicle, f.name, file);
  }

  lemma SplitNameFree(cfg: Config, f: RawFile, second: nat)
    requires Ready(cfg, f) && Free(f.name, '/')
    ensures Free(SplitName(PartsOf(f).moduleName, LabelOf(cfg.tz, second)), '/')
    ensures Free(PartsOf(f).moduleName, '/')
  {
    ParsedModuleIsFree(f.name);
    var p := PartsOf(f);
    assert [p.moduleName, p.date, p.hours, p.minutes][0] == p.moduleName;
    LabelIsLabel(cfg.tz, second);
  }

  /** Two files with a working path in common share the directory and the file name in it. */
  lemma SharedDirectory(cfg: Config, files: seq<RawFile>, i: int, j: int, a: string, b: string)
    requires ValidInputs(cfg, files) && 0 <= i < |files| && 0 <= j < |files| && Ready(cfg, files[i]) && Ready(cfg, files[j])
    requires Free(a, '/') && Free(b, '/')
    requires Under(cfg.cache, LocalSegments(cfg, files[i].vehicle, PartsOf(files[i]), a))
          == Under(cfg.cache, LocalSegments(cfg, files[j].vehicle, PartsOf(files[j]), b))
    ensures SameMinute(files[i], files[j]) && a == b
  {
    var x, y := LocalSegments(cfg, files[i].vehicle, PartsOf(files[i]), a), LocalSegments(cfg, files[j].vehicle, PartsOf(files[j]), b);
    ReadySegmentsFree(cfg, files[i], a);
    ReadySegmentsFree(cfg, files[j], b);
    UnderInjective(cfg.cache, x, y);
    assert x[0] == y[0] && x[2] == y[2] && x[3] == y[3] && x[4] == y[4] && x[5] == y[5] && x[6] == y[6];
  }

  /** Two files' pieces share a local path exactly when the files have the same minute in their names and
      the pieces are of the same second. */
  lemma PiecePathsCollideIff(cfg: Config, f: RawFile, s: nat, mid: bool, g: RawFile, t: nat, mid': bool)
    requires ValidConfig(cfg) && Ready(cfg, f) && Ready(cfg, g) && s < 0x2_0000_0000 && t < 0x2_0000_0000
    requires Free(f.vehicle, '/') && Free(f.name, '/') && Free(g.vehicle, '/') && Free(g.name, '/')
    ensures PieceOf(cfg, f, s, mid).path == PieceOf(cfg, g, t, mid').path <==> SameMinute(f, g) && s == t
  {
    var p, q := PartsOf(f), PartsOf(g);
    var a, b := SplitName(p.moduleName, LabelOf(cfg.tz, s)), SplitName(q.moduleName, LabelOf(cfg.tz, t));
    SplitNameFree(cfg, f, s);
    SplitNameFree(cfg, g, t);
    ReadySegmentsFree(cfg, f, a);
    ReadySegmentsFree(cfg, g, b);
    var x, y := LocalSegments(cfg, f.vehicle, p, a), LocalSegments(cfg, g.vehicle, q, b);
    if Under(cfg.cache, x) == Under(cfg.cache, y) {
      UnderInjective(cfg.cache, x, y);
      assert x[0] == y[0] && x[2] == y[2] && x[3] == y[3] && x[4] == y[4] && x[5] == y[5] && x[6] == y[6];
      LabelIsLabel(cfg.tz, s);
      LabelIsLabel(cfg.tz, t);
      NamesByLabel(p.moduleName, LabelOf(cfg.tz, s), LabelOf(cfg.tz, t));
      LabelInjective(cfg.tz, s, t);
    }
  }

  lemma SourcesDistinct(cfg: Config, files: seq<RawFile>, i: int, j: int)
    requires ValidInputs(cfg, files) && 0 <= i < |files| && 0 <= j < |files|
    requires JobFor(cfg, files[i]).source == JobFor(cfg, files[j]).source
    ensures i == j
  {
    var f, g := files[i], files[j];
    if Ready(cfg, f) && Ready(cfg, g) {
      SharedDirectory(cfg, files, i, j, f.name, g.name);
    } else {
      var x := if Ready(cfg, f) then LocalSegments(cfg, f.vehicle, PartsOf(f), f.name) else [f.vehicle, f.name];
      var y := if Ready(cfg, g) then LocalSegments(cfg, g.vehicle, PartsOf(g), g.name) else [g.vehicle, g.name];
      if Ready(cfg, f) { ReadySegmentsFree(cfg, f, f.name); }
      if Ready(cfg, g) { ReadySegmentsFree(cfg, g, g.name); }
      UnderInjective(cfg.cache, x, y);
      assert |x| == |y| && x[0] == y[0] && x[1] == y[1];
    }
  }

  lemma SharedSecondIsOneFile(cfg: Config, files: seq<RawFile>, i: int, j: int, s: nat)
    requires Separate(cfg, files) && 0 <= i < |files| && 0 <= j < |files| && Ready(cfg, files[i]) && Ready(cfg, files[j])
    requires SameMinute(files[i], files[j])
    requires s in Seconds(RecordsOf(files[i].bytes)) && s in Seconds(RecordsOf(files[j].bytes))
    ensures i == j
  {
    assert s in Seconds(RecordsOf(files[i].bytes)) * Seconds(RecordsOf(files[j].bytes));
  }

  lemma PiecePathsDistinct(cfg: Config, files: seq<RawFile>, j: int, k: int, j': int, k': int)
    requires ValidInputs(cfg, files) && Separate(cfg, files) && IsPiece(PlanFor(cfg, files), j, k) && IsPiece(PlanFor(cfg, files), j', k')
    requires PlanFor(cfg, files)[j].pieces[k].path == PlanFor(cfg, files)[j'].pieces[k'].path
    ensures j == j' && k == k'
  {
    var s := PieceInfo(cfg, files, j, k);
    var t := PieceInfo(cfg, files, j', k');
    PiecePathsCollideIff(cfg, files[j], s, !IsEnd(PlanFor(cfg, files), j, k), files[j'], t, !IsEnd(PlanFor(cfg, files), j', k'));
    SharedSecondIsOneFile(cfg, files, j, j', s);
    OrderMembers(KeysOf(files[j]));
  }

  lemma PieceIsNotSource(cfg: Config, files: seq<RawFile>, j: int, k: int, i: int)
    requires ValidInputs(cfg, files) && IsPiece(PlanFor(cfg, files), j, k) && 0 <= i < |files|
    ensures PlanFor(cfg, files)[j].pieces[k].path != JobFor(cfg, files[i]).source
  {
    var s := PieceInfo(cfg, files, j, k);
    SplitPathIsNotSource(cfg, files, j, s, i);
  }

  lemma SplitPathIsNotSource(cfg: Config, files: seq<RawFile>, j: int, s: nat, i: int)
    requires ValidInputs(cfg, files) && 0 <= j < |files| && 0 <= i < |files| && Ready(cfg, files[j])
    ensures SplitPath(cfg, files[j].vehicle, PartsOf(files[j]), LabelOf(cfg.tz, s)) != JobFor(cfg, files[i]).source
  {
    var f, g := files[j], files[i];
    var a := SplitName(PartsOf(f).moduleName, LabelOf(cfg.tz, s));
    SplitNameFree(cfg, f, s);
    LabelIsLabel(cfg.tz, s);
    SourceIsNoSplitOutput(f.name, LabelOf(cfg.tz, s));
    if SplitPath(cfg, f.vehicle, PartsOf(f), LabelOf(cfg.tz, s)) == JobFor(cfg, g).source {
      if Ready(cfg, g) {
        SharedDirectory(cfg, files, j, i, a, g.name);
        SourceIsNoSplitOutput(g.name, LabelOf(cfg.tz, s));
      } else {
        ReadySegmentsFree(cfg, f, a);
        SegmentCounts(cfg.cache, LocalSegments(cfg, f.vehicle, PartsOf(f), a), [g.vehicle, g.name]);
      }
    }
  }

  lemma SegmentCounts(base: string, x: seq<string>, y: seq<string>)
    requires |x| >= 1 && |y| >= 1 && AllFree(x, '/') && AllFree(y, '/') && Under(base, x) == Under(base, y)
    ensures |x| == |y|
  {
    UnderInjective(base, x, y);
  }

  lemma OutIsElsewhere(cfg: Config, files: seq<RawFile>, j: int, k: int, i: int, m: int)
    requires ValidInputs(cfg, files) && IsPiece(PlanFor(cfg, files), j, k) && 0 <= i < |files|
    ensures PlanFor(cfg, files)[j].pieces[k].out != JobFor(cfg, files[i]).source
    ensures IsPiece(PlanFor(cfg, files), i, m) ==>
              PlanFor(cfg, files)[j].pieces[k].out != PlanFor(cfg, files)[i].pieces[m].path
  {
    var s := PieceInfo(cfg, files, j, k);
    var f, g := files[j], files[i];
    var p, stamp := PartsOf(f), StampOf(cfg.tz, s);
    var ys := StampSegments(cfg, f.vehicle, p.moduleName, stamp, PlainName(p.moduleName, stamp.Label()));
    if Ready(cfg, g) {
      OutPathIsNotLocal(cfg, f.vehicle, p.moduleName, stamp, g.vehicle, PartsOf(g), g.name);
      if IsPiece(PlanFor(cfg, files), i, m) {
        var t := PieceInfo(cfg, files, i, m);
        OutPathIsNotLocal(cfg, f.vehicle, p.moduleName, stamp, g.vehicle, PartsOf(g),
                          SplitName(PartsOf(g).moduleName, LabelOf(cfg.tz, t)));
      }
    } else if Under(cfg.unpaired, ys) == Under(cfg.cache, [g.vehicle, g.name]) {
      SharedPathNotApart(cfg.cache, [g.vehicle, g.name], cfg.unpaired, ys);
    }
  }

  /** The piece of a file for one of its seconds. */
  lemma PieceOfSecond(cfg: Config, files: seq<RawFile>, j: int, second: nat) returns (k: nat)
    requires 0 <= j < |files| && Ready(cfg, files[j]) && second in Seconds(RecordsOf(files[j].bytes))
    ensures IsPiece(PlanFor(cfg, files), j, k) && k < |WorkOrder(KeysOf(files[j]))| && WorkOrder(KeysOf(files[j]))[k] == second
  {
    var order := WorkOrder(KeysOf(files[j]));
    OrderMembers(KeysOf(files[j]));
    assert second in KeysOf(files[j]) && second in order;
    k :| 0 <= k < |order| && order[k] == second;
  }

  lemma CollidingPieces(cfg: Config, files: seq<RawFile>, i: int, j: int)
    requires ValidInputs(cfg, files) && 0 <= i < |files| && 0 <= j < |files| && i != j
    requires Ready(cfg, files[i]) && Ready(cfg, files[j]) && Collide(files[i], files[j])
    ensures !PathsPrivate(PlanFor(cfg, files))
  {
    var plan := PlanFor(cfg, files);
    var s :| s in Seconds(RecordsOf(files[i].bytes)) * Seconds(RecordsOf(files[j].bytes));
    var k := PieceOfSecond(cfg, files, i, s);
    var m := PieceOfSecond(cfg, files, j, s);
    SecondsBound(files[i].bytes);
    PiecePathsCollideIff(cfg, files[i], s, !IsEnd(plan, i, k), files[j], s, !IsEnd(plan, j, m));
    var s' := PieceInfo(cfg, files, i, k);
    var s'' := PieceInfo(cfg, files, j, m);
    assert plan[i].pieces[k].path == plan[j].pieces[m].path;
  }

  /** No two of all sources, pieces and merge outputs that could meet share a path, exactly if no two files
      of one minute have a second in common. */
  lemma PathsPrivateIffSeparate(cfg: Config, files: seq<RawFile>)
    requires ValidInputs(cfg, files)
    ensures PathsPrivate(PlanFor(cfg, files)) <==> Separate(cfg, files)
  {
    var plan := PlanFor(cfg, files);
    if Separate(cfg, files) {
      PlanOtherPaths(cfg, files);
      forall j, k, j', k' | IsPiece(plan, j, k) && IsPiece(plan, j', k') && plan[j].pieces[k].path == plan[j'].pieces[k'].path
        ensures j == j' && k == k'
      {
        PiecePathsDistinct(cfg, files, j, k, j', k');
      }
    } else {
      var i, j :| 0 <= i < |files| && 0 <= j < |files| && Ready(cfg, files[i]) && Ready(cfg, files[j])
                  && Collide(files[i], files[j]) && i != j;
      CollidingPieces(cfg, files, i, j);
    }
  }

  /** All that holds without that condition. */
  lemma PlanOtherPaths(cfg: Config, files: seq<RawFile>)
    requires ValidInputs(cfg, files)
    ensures var plan := PlanFor(cfg, files);
            && (forall j, j' :: 0 <= j < |plan| && 0 <= j' < |plan| && plan[j].source == plan[j'].source ==> j == j')
            && (forall j, k, j' {:trigger IsPiece(plan, j, k), plan[j']} ::
                  IsPiece(plan, j, k) && 0 <= j' < |plan| ==>
                    plan[j].pieces[k].path != plan[j'].source && plan[j].pieces[k].out != plan[j'].source)
            && (forall j, k, j', k' {:trigger IsPiece(plan, j, k), IsPiece(plan, j', k')} ::
                  IsPiece(plan, j, k) && IsPiece(plan, j', k') ==> plan[j].pieces[k].out != plan[j'].pieces[k'].path)
  {
    var plan := PlanFor(cfg, files);
    forall j, j' | 0 <= j < |plan| && 0 <= j' < |plan| && plan[j].source == plan[j'].source ensures j == j' {
      SourcesDistinct(cfg, files, j, j');
    }
    forall j, k, j' | IsPiece(plan, j, k) && 0 <= j' < |plan|
      ensures plan[j].pieces[k].path != plan[j'].source && plan[j].pieces[k].out != plan[j'].source
    {
      PieceIsNotSource(cfg, files, j, k, j');
      OutIsElsewhere(cfg, files, j, k, j', 0);
    }
    forall j, k, j', k' | IsPiece(plan, j, k) && IsPiece(plan, j', k')
      ensures plan[j].pieces[k].out != plan[j'].pieces[k'].path
    {
      OutIsElsewhere(cfg, files, j, k, j', k');
    }
  }

  // ---------- keys and objects ----------

  lemma ComparePieces(cfg: Config, f: RawFile, s: nat, mid: bool, g: RawFile, t: nat, mid': bool)
    requires ValidConfig(cfg) && Ready(cfg, f) && Ready(cfg, g) && s < 0x2_0000_0000 && t < 0x2_0000_0000
    requires Free(f.vehicle, '/') && Free(f.name, '/') && Free(g.vehicle, '/') && Free(g.name, '/')
    ensures var p, q := PieceOf(cfg, f, s, mid), PieceOf(cfg, g, t, mid');
            && (!mid && !mid' && p.key == q.key ==> p.out == q.out && p.dest == q.dest)
            && (p.dest == q.dest ==> p.key == q.key && mid == mid')
  {
    SplitNameFree(cfg, f, s);
    SplitNameFree(cfg, g, t);
    var m, m' := PartsOf(f).moduleName, PartsOf(g).moduleName;
    assert AllFree([f.vehicle, m, g.vehicle, m'], '/');
    PairKeyInjective(cfg.tz, f.vehicle, m, s, g.vehicle, m', t);
    ObjectsInjective(cfg, f.vehicle, m, s, g.vehicle, m', t);
    ObjectsInjective(cfg, g.vehicle, m', t, f.vehicle, m, s);
  }

  /** Keys and objects of two pieces, compared through vehicle, module and second. */
  lemma PiecesCompared(cfg: Config, files: seq<RawFile>, j: int, k: int, j': int, k': int)
    requires ValidInputs(cfg, files) && IsPiece(PlanFor(cfg, files), j, k) && IsPiece(PlanFor(cfg, files), j', k')
    ensures var plan := PlanFor(cfg, files);
            var p, q := plan[j].pieces[k], plan[j'].pieces[k'];
            && (IsEnd(plan, j, k) && IsEnd(plan, j', k') && p.key == q.key ==> p.out == q.out && p.dest == q.dest)
            && (p.dest == q.dest ==> p.key == q.key && (IsEnd(plan, j, k) <==> IsEnd(plan, j', k')))
  {
    var s := PieceInfo(cfg, files, j, k);
    var t := PieceInfo(cfg, files, j', k');
    ComparePieces(cfg, files[j], s, !IsEnd(PlanFor(cfg, files), j, k), files[j'], t, !IsEnd(PlanFor(cfg, files), j', k'));
  }

  /** The jobs of every list of raw files meet what the protocol asks of a plan, private paths apart. */
  lemma PlanIsLoose(cfg: Config, files: seq<RawFile>)
    requires ValidInputs(cfg, files)
    ensures Loose(PlanFor(cfg, files)) && NoEmptyPieces(PlanFor(cfg, files))
  {
    var plan := PlanFor(cfg, files);
    PlanOtherPaths(cfg, files);
    PlanNamesAgree(cfg, files);
    forall j, k | IsPiece(plan, j, k)
      ensures Whole(plan[j].pieces[k].bytes) && RecordsOf(plan[j].pieces[k].bytes) != []
    {
      PieceContent(cfg, files, j, k);
    }
    forall j | 0 <= j < |plan| ensures GoodJob(plan[j]) {
      forall k | 0 <= k < |plan[j].pieces| ensures Whole(plan[j].pieces[k].bytes) { assert IsPiece(plan, j, k); }
    }
  }

  lemma PlanNamesAgree(cfg: Config, files: seq<RawFile>)
    requires ValidInputs(cfg, files)
    ensures NamesAgree(PlanFor(cfg, files))
  {
    var plan := PlanFor(cfg, files);
    forall j, k, j', k' | IsEnd(plan, j, k) && IsEnd(plan, j', k') && plan[j].pieces[k].key == plan[j'].pieces[k'].key
      ensures plan[j].pieces[k].out == plan[j'].pieces[k'].out && plan[j].pieces[k].dest == plan[j'].pieces[k'].dest
    {
      PiecesCompared(cfg, files, j, k, j', k');
    }
    forall j, k, j', k' | IsPiece(plan, j, k) && IsPiece(plan, j', k') && plan[j].pieces[k].dest == plan[j'].pieces[k'].dest
      ensures plan[j].pieces[k].key == plan[j'].pieces[k'].key && (IsEnd(plan, j, k) <==> IsEnd(plan, j', k'))
    {
      PiecesCompared(cfg, files, j, k, j', k');
    }
  }

  /** Private paths as well, exactly if no two files of one minute have a second in common. */
  lemma PlanIsGoodIff(cfg: Config, files: seq<RawFile>)
    requires ValidInputs(cfg, files)
    ensures GoodPlan(PlanFor(cfg, files)) <==> Separate(cfg, files)
  {
    PlanIsLoose(cfg, files);
    PathsPrivateIffSeparate(cfg, files);
  }

  lemma PieceContent(cfg: Config, files: seq<RawFile>, j: int, k: int)
    requires IsPiece(PlanFor(cfg, files), j, k)
    ensures var piece := PlanFor(cfg, files)[j].pieces[k];
            && Whole(piece.bytes) && RecordsOf(piece.bytes) != []
            && RecordsOf(piece.bytes) == Group(RecordsOf(files[j].bytes), WorkOrder(KeysOf(files[j]))[k])
  {
    var s := PieceInfo(cfg, files, j, k);
    GroupMembers(RecordsOf(files[j].bytes), s);
    PieceReadsBack(files[j].bytes, s);
  }
}
