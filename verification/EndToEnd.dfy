/** The end-to-end statement: raw captures in, one object per (vehicle, module, capture second) out. */
module EndToEnd {
  import opened PcapFormat
  import opened Partition
  import opened Calendar
  import opened Text
  import opened Names
  import opened FileSystem
  import opened SplitSpec
  import opened Protocol
  import CycleCounts
  import opened CycleOutcome
  import opened Refinement
  import opened Renaming
  import opened SharedPaths
  import opened TwinPieces
  import opened Pipeline

  // ---------- the specification: group by second ----------

  predicate OfModule(cfg: Config, f: RawFile, v: string, m: string) {
    Ready(cfg, f) && f.vehicle == v && PartsOf(f).moduleName == m
  }

  /** All records of one second of one module, over all raw files. */
  function GroupRecords(cfg: Config, files: seq<RawFile>, v: string, m: string, second: nat): multiset<Record> {
    if files == [] then multiset{}
    else
      (if OfModule(cfg, files[0], v, m) then multiset(Group(RecordsOf(files[0].bytes), second)) else multiset{})
      + GroupRecords(cfg, files[1..], v, m, second)
  }

  predicate Contributes(cfg: Config, files: seq<RawFile>, i: int, v: string, m: string, second: nat) {
    0 <= i < |files| && OfModule(cfg, files[i], v, m) && second in Seconds(RecordsOf(files[i].bytes))
  }

  /** First or last second of its file: split off as HEAD or TAIL. */
  predicate AtEdge(f: RawFile, second: nat) {
    var ks := KeysOf(f);
    ks != [] && (second == ks[0] || second == ks[|ks| - 1])
  }

  ghost predicate OnlyFile(cfg: Config, files: seq<RawFile>, i: int, v: string, m: string, second: nat) {
    Contributes(cfg, files, i, v, m, second) && forall x :: Contributes(cfg, files, x, v, m, second) ==> x == i
  }

  ghost predicate TwoEdgeFiles(cfg: Config, files: seq<RawFile>, i: int, j: int, v: string, m: string, second: nat) {
    && i != j && Contributes(cfg, files, i, v, m, second) && Contributes(cfg, files, j, v, m, second)
    && AtEdge(files[i], second) && AtEdge(files[j], second)
    && forall x :: Contributes(cfg, files, x, v, m, second) ==> x == i || x == j
  }

  /** The second is recorded in one file only, or in exactly two and at the edge of both. */
  ghost predicate ExclusiveSecond(cfg: Config, files: seq<RawFile>, v: string, m: string, second: nat) {
    || (exists i :: OnlyFile(cfg, files, i, v, m, second))
    || (exists i, j :: TwoEdgeFiles(cfg, files, i, j, v, m, second))
  }

  /** The object a file's piece of this second goes to. */
  function DestFor(cfg: Config, f: RawFile, second: nat): string
    requires Ready(cfg, f)
  {
    PieceOf(cfg, f, second, !AtEdge(f, second)).dest
  }

  ghost predicate ObjectHolds(cfg: Config, files: seq<RawFile>, store: Files, i: int, v: string, m: string, second: nat) {
    && Contributes(cfg, files, i, v, m, second)
    && DestFor(cfg, files[i], second) in store
    && multiset(RecordsOf(store[DestFor(cfg, files[i], second)])) == GroupRecords(cfg, files, v, m, second)
  }

  ghost predicate Grouped(cfg: Config, files: seq<RawFile>, store: Files, v: string, m: string, second: nat) {
    exists i :: ObjectHolds(cfg, files, store, i, v, m, second)
  }

  // ---------- pieces with a key are contributions to a second ----------

  function KeyFor(cfg: Config, v: string, m: string, second: nat): string {
    PairKey(v, m, StampOf(cfg.tz, second))
  }

  lemma KeysMatch(cfg: Config, f: RawFile, s: nat, mid: bool, v: string, m: string, second: nat)
    requires Ready(cfg, f) && Free(f.vehicle, '/') && Free(f.name, '/') && s < 0x2_0000_0000
    requires Free(v, '/') && Free(m, '/') && second < 0x2_0000_0000
    ensures PieceOf(cfg, f, s, mid).key == KeyFor(cfg, v, m, second) <==> OfModule(cfg, f, v, m) && s == second
  {
    SplitNameFree(cfg, f, s);
    var m' := PartsOf(f).moduleName;
    assert AllFree([f.vehicle, m', v, m], '/');
    PairKeyInjective(cfg.tz, f.vehicle, m', s, v, m, second);
  }

  lemma KeyOfPiece(cfg: Config, files: seq<RawFile>, j: int, k: int, v: string, m: string, second: nat)
    requires ValidInputs(cfg, files) && IsPiece(PlanFor(cfg, files), j, k)
    requires Free(v, '/') && Free(m, '/') && second < 0x2_0000_0000
    ensures Ready(cfg, files[j]) && k < |WorkOrder(KeysOf(files[j]))|
    ensures PlanFor(cfg, files)[j].pieces[k].key == KeyFor(cfg, v, m, second)
            <==> Contributes(cfg, files, j, v, m, second) && WorkOrder(KeysOf(files[j]))[k] == second
  {
    var s := PieceInfo(cfg, files, j, k);
    KeysMatch(cfg, files[j], s, !IsEnd(PlanFor(cfg, files), j, k), v, m, second);
  }

  lemma EdgePosition(ks: seq<nat>, k: nat)
    requires Increasing(ks) && k < |WorkOrder(ks)|
    ensures ks != []
    ensures k >= |MidKeys(ks)| <==> WorkOrder(ks)[k] == ks[0] || WorkOrder(ks)[k] == ks[|ks| - 1]
  {
    OrderMembers(ks);
    assert WorkOrder(ks)[k] in WorkOrder(ks);
    var i :| 0 <= i < |ks| && ks[i] == WorkOrder(ks)[k];
  }

  /** A contributing file has exactly one piece for the second, an end piece exactly at an edge. */
  lemma PieceOfContribution(cfg: Config, files: seq<RawFile>, i: int, v: string, m: string, second: nat) returns (k: nat)
    requires ValidInputs(cfg, files) && Contributes(cfg, files, i, v, m, second)
    requires Free(v, '/') && Free(m, '/') && second < 0x2_0000_0000
    ensures HasKey(PlanFor(cfg, files), i, k, KeyFor(cfg, v, m, second))
    ensures forall x :: HasKey(PlanFor(cfg, files), i, x, KeyFor(cfg, v, m, second)) ==> x == k
    ensures IsEnd(PlanFor(cfg, files), i, k) <==> AtEdge(files[i], second)
    ensures PlanFor(cfg, files)[i].pieces[k].dest == DestFor(cfg, files[i], second)
  {
    var ks := KeysOf(files[i]);
    assert second in ks;
    OrderMembers(ks);
    assert second in WorkOrder(ks);
    k :| 0 <= k < |WorkOrder(ks)| && WorkOrder(ks)[k] == second;
    assert IsPiece(PlanFor(cfg, files), i, k);
    KeyOfPiece(cfg, files, i, k, v, m, second);
    EdgePosition(ks, k);
    forall x | HasKey(PlanFor(cfg, files), i, x, KeyFor(cfg, v, m, second)) ensures x == k {
      KeyOfPiece(cfg, files, i, x, v, m, second);
    }
    var s := PieceInfo(cfg, files, i, k);
  }

  lemma ExclusiveMatches(cfg: Config, files: seq<RawFile>, v: string, m: string, second: nat)
    requires ValidInputs(cfg, files) && Free(v, '/') && Free(m, '/') && second < 0x2_0000_0000
    ensures Exclusive(PlanFor(cfg, files), KeyFor(cfg, v, m, second)) <==> ExclusiveSecond(cfg, files, v, m, second)
  {
    var plan, key := PlanFor(cfg, files), KeyFor(cfg, v, m, second);
    if j, k :| SinglePiece(plan, key, j, k) {
      SingleToOnly(cfg, files, v, m, second, j, k);
    }
    if j, k, j', k' :| TwoEnds(plan, key, j, k, j', k') {
      TwoToEdges(cfg, files, v, m, second, j, k, j', k');
    }
    if i :| OnlyFile(cfg, files, i, v, m, second) {
      OnlyToSingle(cfg, files, v, m, second, i);
    }
    if i, j :| TwoEdgeFiles(cfg, files, i, j, v, m, second) {
      var k, k' := EdgesToTwo(cfg, files, v, m, second, i, j);
    }
  }

  lemma SingleToOnly(cfg: Config, files: seq<RawFile>, v: string, m: string, second: nat, j: int, k: int)
    requires ValidInputs(cfg, files) && Free(v, '/') && Free(m, '/') && second < 0x2_0000_0000
    requires SinglePiece(PlanFor(cfg, files), KeyFor(cfg, v, m, second), j, k)
    ensures OnlyFile(cfg, files, j, v, m, second)
  {
    KeyOfPiece(cfg, files, j, k, v, m, second);
    forall x | Contributes(cfg, files, x, v, m, second) ensures x == j {
      var y := PieceOfContribution(cfg, files, x, v, m, second);
    }
  }

  lemma OnlyToSingle(cfg: Config, files: seq<RawFile>, v: string, m: string, second: nat, i: int)
    requires ValidInputs(cfg, files) && Free(v, '/') && Free(m, '/') && second < 0x2_0000_0000
    requires OnlyFile(cfg, files, i, v, m, second)
    ensures exists j, k :: SinglePiece(PlanFor(cfg, files), KeyFor(cfg, v, m, second), j, k)
  {
    var k := PieceOfContribution(cfg, files, i, v, m, second);
    forall x, y | HasKey(PlanFor(cfg, files), x, y, KeyFor(cfg, v, m, second)) ensures x == i && y == k {
      KeyOfPiece(cfg, files, x, y, v, m, second);
    }
    assert SinglePiece(PlanFor(cfg, files), KeyFor(cfg, v, m, second), i, k);
  }

  lemma TwoToEdges(cfg: Config, files: seq<RawFile>, v: string, m: string, second: nat, j: int, k: int, j': int, k': int)
    requires ValidInputs(cfg, files) && Free(v, '/') && Free(m, '/') && second < 0x2_0000_0000
    requires TwoEnds(PlanFor(cfg, files), KeyFor(cfg, v, m, second), j, k, j', k')
    ensures TwoEdgeFiles(cfg, files, j, j', v, m, second)
  {
    KeyOfPiece(cfg, files, j, k, v, m, second);
    KeyOfPiece(cfg, files, j', k', v, m, second);
    var a := PieceOfContribution(cfg, files, j, v, m, second);
    var b := PieceOfContribution(cfg, files, j', v, m, second);
    forall x | Contributes(cfg, files, x, v, m, second) ensures x == j || x == j' {
      var y := PieceOfContribution(cfg, files, x, v, m, second);
    }
  }

  lemma EdgesToTwo(cfg: Config, files: seq<RawFile>, v: string, m: string, second: nat, i: int, j: int)
    returns (k: nat, k': nat)
    requires ValidInputs(cfg, files) && Free(v, '/') && Free(m, '/') && second < 0x2_0000_0000
    requires TwoEdgeFiles(cfg, files, i, j, v, m, second)
    ensures TwoEnds(PlanFor(cfg, files), KeyFor(cfg, v, m, second), i, k, j, k')
  {
    var plan, key := PlanFor(cfg, files), KeyFor(cfg, v, m, second);
    k := PieceOfContribution(cfg, files, i, v, m, second);
    k' := PieceOfContribution(cfg, files, j, v, m, second);
    forall x, y | HasKey(plan, x, y, key) ensures (x == i && y == k) || (x == j && y == k') {
      KeyOfPiece(cfg, files, x, y, v, m, second);
    }
  }

  // ---------- records with a key are the records of the group ----------

  /** One job's records with the key are its file's group. */
  lemma JobGroup(cfg: Config, f: RawFile, v: string, m: string, second: nat)
    requires ValidInputs(cfg, [f]) && Free(v, '/') && Free(m, '/') && second < 0x2_0000_0000
    ensures FlatRecords(JobFor(cfg, f).pieces, KeyFor(cfg, v, m, second))
            == if OfModule(cfg, f, v, m) then multiset(Group(RecordsOf(f.bytes), second)) else multiset{}
  {
    var files, key := [f], KeyFor(cfg, v, m, second);
    var pieces := JobFor(cfg, f).pieces;
    GroupMembers(RecordsOf(f.bytes), second);
    if Contributes(cfg, files, 0, v, m, second) {
      var k := PieceOfContribution(cfg, files, 0, v, m, second);
      forall i | 0 <= i < |pieces| && i != k ensures pieces[i].key != key {
        assert IsPiece(PlanFor(cfg, files), 0, i);
        assert HasKey(PlanFor(cfg, files), 0, i, key) <==> pieces[i].key == key;
      }
      FlatOne(pieces, key, k);
      KeyOfPiece(cfg, files, 0, k, v, m, second);
      PieceContent(cfg, files, 0, k);
    } else {
      forall i | 0 <= i < |pieces| ensures pieces[i].key != key {
        assert IsPiece(PlanFor(cfg, files), 0, i);
        KeyOfPiece(cfg, files, 0, i, v, m, second);
      }
      FlatNone(pieces, key);
    }
  }

  lemma {:induction false} KeyRecordsAreGroup(cfg: Config, files: seq<RawFile>, v: string, m: string, second: nat)
    requires ValidInputs(cfg, files) && Free(v, '/') && Free(m, '/') && second < 0x2_0000_0000
    ensures KeyRecords(PlanFor(cfg, files), KeyFor(cfg, v, m, second)) == GroupRecords(cfg, files, v, m, second)
  {
    if files != [] {
      var key := KeyFor(cfg, v, m, second);
      TailIsValid(cfg, files);
      KeyRecordsAreGroup(cfg, files[1..], v, m, second);
      assert PlanFor(cfg, files)[1..] == PlanFor(cfg, files[1..]);
      FlatAppend(JobFor(cfg, files[0]).pieces, Flat(PlanFor(cfg, files[1..])), key);
      JobGroup(cfg, files[0], v, m, second);
    }
  }

  lemma TailIsValid(cfg: Config, files: seq<RawFile>)
    requires ValidInputs(cfg, files) && files != []
    ensures ValidInputs(cfg, files[1..]) && ValidInputs(cfg, [files[0]])
  {
  }

  // ---------- the theorems ----------

  lemma PreservedMatches(cfg: Config, files: seq<RawFile>, store: Files, v: string, m: string, second: nat)
    requires ValidInputs(cfg, files) && Free(v, '/') && Free(m, '/') && second < 0x2_0000_0000
    ensures Preserved(PlanFor(cfg, files), KeyFor(cfg, v, m, second), store) <==> Grouped(cfg, files, store, v, m, second)
  {
    var plan, key := PlanFor(cfg, files), KeyFor(cfg, v, m, second);
    KeyRecordsAreGroup(cfg, files, v, m, second);
    if j, k :| HoldsGroup(plan, key, store, j, k) {
      KeyOfPiece(cfg, files, j, k, v, m, second);
      var x := PieceOfContribution(cfg, files, j, v, m, second);
      assert ObjectHolds(cfg, files, store, j, v, m, second);
    }
    if i :| ObjectHolds(cfg, files, store, i, v, m, second) {
      var k := PieceOfContribution(cfg, files, i, v, m, second);
      assert HoldsGroup(plan, key, store, i, k);
    }
  }

  /** No file with records of this second failed; others may have. */
  ghost predicate SecondSucceeded(cfg: Config, files: seq<RawFile>, phases: seq<Phase>, v: string, m: string, second: nat) {
    |phases| == |files| && forall i :: Contributes(cfg, files, i, v, m, second) ==> phases[i] == Finished(true)
  }

  lemma SecondSucceededMatches(cfg: Config, files: seq<RawFile>, phases: seq<Phase>, v: string, m: string, second: nat)
    requires ValidInputs(cfg, files) && Free(v, '/') && Free(m, '/') && second < 0x2_0000_0000
    ensures KeySucceeded(PlanFor(cfg, files), phases, KeyFor(cfg, v, m, second))
            <==> SecondSucceeded(cfg, files, phases, v, m, second)
  {
    var plan, key := PlanFor(cfg, files), KeyFor(cfg, v, m, second);
    if KeySucceeded(plan, phases, key) {
      forall i | Contributes(cfg, files, i, v, m, second) ensures phases[i] == Finished(true) {
        var k := PieceOfContribution(cfg, files, i, v, m, second);
      }
    }
    if SecondSucceeded(cfg, files, phases, v, m, second) {
      forall j, k | HasKey(plan, j, k, key) ensures phases[j] == Finished(true) {
        KeyOfPiece(cfg, files, j, k, v, m, second);
      }
    }
  }

  /** No two files with records of this second show the same minute in their names. */
  ghost predicate Unmixed(cfg: Config, files: seq<RawFile>, v: string, m: string, second: nat) {
    forall i, j :: Contributes(cfg, files, i, v, m, second) && Contributes(cfg, files, j, v, m, second) && i != j ==>
      !SameMinute(files[i], files[j])
  }

  /** That is exactly what keeps the second's pieces at paths of their own. */
  lemma KeyUnsharedIffUnmixed(cfg: Config, files: seq<RawFile>, v: string, m: string, second: nat)
    requires ValidInputs(cfg, files) && Free(v, '/') && Free(m, '/') && second < 0x2_0000_0000
    ensures KeyUnshared(PlanFor(cfg, files), KeyFor(cfg, v, m, second)) <==> Unmixed(cfg, files, v, m, second)
  {
    var plan, key := PlanFor(cfg, files), KeyFor(cfg, v, m, second);
    if Unmixed(cfg, files, v, m, second) {
      forall j, k | HasKey(plan, j, k, key) ensures Unshared(plan, j, k) {
        UnmixedIsUnshared(cfg, files, v, m, second, j, k);
      }
    }
    if KeyUnshared(plan, key) {
      forall i, j | Contributes(cfg, files, i, v, m, second) && Contributes(cfg, files, j, v, m, second) && i != j
        ensures !SameMinute(files[i], files[j])
      {
        UnsharedIsUnmixed(cfg, files, v, m, second, i, j);
      }
    }
  }

  lemma PathsOfSeconds(cfg: Config, files: seq<RawFile>, j: int, k: int, a: int, b: int) returns (s: nat, t: nat)
    requires ValidInputs(cfg, files) && IsPiece(PlanFor(cfg, files), j, k) && IsPiece(PlanFor(cfg, files), a, b)
    ensures 0 <= j < |files| && 0 <= a < |files| && Ready(cfg, files[j]) && Ready(cfg, files[a])
    ensures k < |WorkOrder(KeysOf(files[j]))| && b < |WorkOrder(KeysOf(files[a]))|
    ensures s == WorkOrder(KeysOf(files[j]))[k] && t == WorkOrder(KeysOf(files[a]))[b]
    ensures t in Seconds(RecordsOf(files[a].bytes))
    ensures PlanFor(cfg, files)[j].pieces[k].path == PlanFor(cfg, files)[a].pieces[b].path
            <==> SameMinute(files[j], files[a]) && s == t
  {
    var plan := PlanFor(cfg, files);
    s := PieceInfo(cfg, files, j, k);
    t := PieceInfo(cfg, files, a, b);
    PiecePathsCollideIff(cfg, files[j], s, !IsEnd(plan, j, k), files[a], t, !IsEnd(plan, a, b));
  }

  lemma UnmixedIsUnshared(cfg: Config, files: seq<RawFile>, v: string, m: string, second: nat, j: int, k: int)
    requires ValidInputs(cfg, files) && Free(v, '/') && Free(m, '/') && second < 0x2_0000_0000
    requires Unmixed(cfg, files, v, m, second) && HasKey(PlanFor(cfg, files), j, k, KeyFor(cfg, v, m, second))
    ensures Unshared(PlanFor(cfg, files), j, k)
  {
    var plan := PlanFor(cfg, files);
    KeyOfPiece(cfg, files, j, k, v, m, second);
    forall a, b | IsPiece(plan, a, b) && plan[a].pieces[b].path == plan[j].pieces[k].path ensures a == j && b == k {
      var s, t := PathsOfSeconds(cfg, files, j, k, a, b);
      assert Contributes(cfg, files, a, v, m, second);
      OrderMembers(KeysOf(files[j]));
    }
  }

  lemma UnsharedIsUnmixed(cfg: Config, files: seq<RawFile>, v: string, m: string, second: nat, i: int, j: int)
    requires ValidInputs(cfg, files) && Free(v, '/') && Free(m, '/') && second < 0x2_0000_0000
    requires KeyUnshared(PlanFor(cfg, files), KeyFor(cfg, v, m, second)) && i != j
    requires Contributes(cfg, files, i, v, m, second) && Contributes(cfg, files, j, v, m, second)
    ensures !SameMinute(files[i], files[j])
  {
    var k := PieceOfContribution(cfg, files, i, v, m, second);
    var l := PieceOfContribution(cfg, files, j, v, m, second);
    KeyOfPiece(cfg, files, i, k, v, m, second);
    KeyOfPiece(cfg, files, j, l, v, m, second);
    var s, t := PathsOfSeconds(cfg, files, i, k, j, l);
    assert Unshared(PlanFor(cfg, files), i, k);
  }

  /** For every list of raw files, every interleaving that ends the cycle, and every second of every module
      none of whose files failed and no two of whose files show one minute:
      its records, from all raw files, are together in one object if and only if the second lies in one
      file, or in exactly two and at the edge of both. */
  lemma SecondGroupedIffExclusive(cfg: Config, files: seq<RawFile>, run: seq<State>, steps: seq<Step>,
                                  v: string, m: string, second: nat)
    requires ValidInputs(cfg, files) && IsCycle(PlanFor(cfg, files), run, steps)
    requires run[|steps|].manager.Ended? && SecondSucceeded(cfg, files, run[|steps|].phases, v, m, second)
    requires Free(v, '/') && Free(m, '/') && second < 0x2_0000_0000 && Unmixed(cfg, files, v, m, second)
    ensures Grouped(cfg, files, run[|steps|].store, v, m, second) <==> ExclusiveSecond(cfg, files, v, m, second)
  {
    PlanIsLoose(cfg, files);
    SecondSucceededMatches(cfg, files, run[|steps|].phases, v, m, second);
    KeyUnsharedIffUnmixed(cfg, files, v, m, second);
    UnsharedPreservedIffExclusive(PlanFor(cfg, files), run, steps, KeyFor(cfg, v, m, second));
    ExclusiveMatches(cfg, files, v, m, second);
    PreservedMatches(cfg, files, run[|steps|].store, v, m, second);
  }

  /** A cycle that counts no failure has finished every file's job successfully, hence placed it: its name
      parsed and its module was registered. */
  lemma NoFailureMeansAllReady(cfg: Config, files: seq<RawFile>, run: seq<State>, steps: seq<Step>)
    requires IsCycle(PlanFor(cfg, files), run, steps)
    requires run[|steps|].manager.Ended? && run[|steps|].progress.failure == 0
    ensures |run[|steps|].phases| == |files|
    ensures forall i :: 0 <= i < |files| ==> Ready(cfg, files[i]) && run[|steps|].phases[i] == Finished(true)
  {
    CycleCounts.JobsInvAtStart(PlanFor(cfg, files), run[0]);
    CycleCounts.JobsInvAlong(PlanFor(cfg, files), run, steps, |steps|);
    CycleCounts.NotifiedOutcomeIsRight(PlanFor(cfg, files), run[|steps|]);
    forall i | 0 <= i < |files| ensures Ready(cfg, files[i]) {
      assert PlanFor(cfg, files)[i].ready;
    }
  }

  lemma SecondsAreBounded(cfg: Config, files: seq<RawFile>, i: int, v: string, m: string, second: nat)
    requires ValidInputs(cfg, files) && Contributes(cfg, files, i, v, m, second)
    ensures second < 0x2_0000_0000 && Free(v, '/') && Free(m, '/')
  {
    SecondsBound(files[i].bytes);
    SplitNameFree(cfg, files[i], second);
  }

  // ---------- exclusive seconds of one minute ----------

  /** Files of one minute that record this second record it alike, each record equally often. */
  ghost predicate MinutesAgree(cfg: Config, files: seq<RawFile>, v: string, m: string, second: nat) {
    forall i, j :: Contributes(cfg, files, i, v, m, second) && Contributes(cfg, files, j, v, m, second) ==>
      SameMinute(files[i], files[j]) ==>
        multiset(Group(RecordsOf(files[i].bytes), second)) == multiset(Group(RecordsOf(files[j].bytes), second))
  }

  /** The pieces of two files of one minute with a common edge second share their path, with no other piece. */
  lemma SharedEndsOf(cfg: Config, files: seq<RawFile>, v: string, m: string, second: nat, i: int, j: int)
    returns (k: nat, l: nat)
    requires ValidInputs(cfg, files) && Free(v, '/') && Free(m, '/') && second < 0x2_0000_0000
    requires TwoEdgeFiles(cfg, files, i, j, v, m, second) && SameMinute(files[i], files[j])
    ensures SharedEnds(PlanFor(cfg, files), KeyFor(cfg, v, m, second), i, k, j, l)
    ensures RecordsOf(PlanFor(cfg, files)[i].pieces[k].bytes) == Group(RecordsOf(files[i].bytes), second)
    ensures RecordsOf(PlanFor(cfg, files)[j].pieces[l].bytes) == Group(RecordsOf(files[j].bytes), second)
  {
    k, l := EdgesToTwo(cfg, files, v, m, second, i, j);
    KeyOfPiece(cfg, files, i, k, v, m, second);
    KeyOfPiece(cfg, files, j, l, v, m, second);
    PieceContent(cfg, files, i, k);
    PieceContent(cfg, files, j, l);
    var s, t := PathsOfSeconds(cfg, files, i, k, j, l);
    OnlyTwoAtPath(cfg, files, v, m, second, i, k, j, l);
  }

  lemma OnlyTwoAtPath(cfg: Config, files: seq<RawFile>, v: string, m: string, second: nat, i: int, k: int, j: int, l: int)
    requires ValidInputs(cfg, files) && Free(v, '/') && Free(m, '/') && second < 0x2_0000_0000
    requires TwoEnds(PlanFor(cfg, files), KeyFor(cfg, v, m, second), i, k, j, l)
    ensures var plan := PlanFor(cfg, files);
            forall a, b :: IsPiece(plan, a, b) && plan[a].pieces[b].path == plan[i].pieces[k].path ==>
              (a == i && b == k) || (a == j && b == l)
  {
    var plan, key := PlanFor(cfg, files), KeyFor(cfg, v, m, second);
    KeyOfPiece(cfg, files, i, k, v, m, second);
    forall a, b | IsPiece(plan, a, b) && plan[a].pieces[b].path == plan[i].pieces[k].path
      ensures (a == i && b == k) || (a == j && b == l)
    {
      var s, t := PathsOfSeconds(cfg, files, i, k, a, b);
      assert Contributes(cfg, files, a, v, m, second);
      KeyOfPiece(cfg, files, a, b, v, m, second);
      assert HasKey(plan, a, b, key);
    }
  }

  /** For every interleaving in which both jobs succeed: a second at the edges of exactly two files of one
      minute is kept together if and only if both have the same records of it, each equally often. */
  lemma SharedSecondGroupedIff(cfg: Config, files: seq<RawFile>, run: seq<State>, steps: seq<Step>,
                               v: string, m: string, second: nat, i: int, j: int)
    requires ValidInputs(cfg, files) && IsCycle(PlanFor(cfg, files), run, steps)
    requires run[|steps|].manager.Ended? && SecondSucceeded(cfg, files, run[|steps|].phases, v, m, second)
    requires Free(v, '/') && Free(m, '/') && second < 0x2_0000_0000
    requires TwoEdgeFiles(cfg, files, i, j, v, m, second) && SameMinute(files[i], files[j])
    ensures Grouped(cfg, files, run[|steps|].store, v, m, second)
            <==> multiset(Group(RecordsOf(files[i].bytes), second)) == multiset(Group(RecordsOf(files[j].bytes), second))
    ensures Grouped(cfg, files, run[|steps|].store, v, m, second) ==>
              ObjectHolds(cfg, files, run[|steps|].store, i, v, m, second)
              && ObjectHolds(cfg, files, run[|steps|].store, j, v, m, second)
  {
    var plan, key := PlanFor(cfg, files), KeyFor(cfg, v, m, second);
    PlanIsLoose(cfg, files);
    SecondSucceededMatches(cfg, files, run[|steps|].phases, v, m, second);
    var k, l := SharedEndsOf(cfg, files, v, m, second, i, j);
    SharedEndsPreservedIff(plan, run, steps, key, i, k, j, l);
    PreservedMatches(cfg, files, run[|steps|].store, v, m, second);
    if Preserved(plan, key, run[|steps|].store) {
      HoldsMatches(cfg, files, run[|steps|].store, v, m, second, i, k);
      HoldsMatches(cfg, files, run[|steps|].store, v, m, second, j, l);
    }
  }

  lemma HoldsMatches(cfg: Config, files: seq<RawFile>, store: Files, v: string, m: string, second: nat, i: int, k: int)
    requires ValidInputs(cfg, files) && Free(v, '/') && Free(m, '/') && second < 0x2_0000_0000
    requires HoldsGroup(PlanFor(cfg, files), KeyFor(cfg, v, m, second), store, i, k)
    ensures ObjectHolds(cfg, files, store, i, v, m, second)
  {
    KeyOfPiece(cfg, files, i, k, v, m, second);
    KeyRecordsAreGroup(cfg, files, v, m, second);
    var x := PieceOfContribution(cfg, files, i, v, m, second);
  }

  lemma UnmixedAgrees(cfg: Config, files: seq<RawFile>, v: string, m: string, second: nat)
    requires Unmixed(cfg, files, v, m, second)
    ensures MinutesAgree(cfg, files, v, m, second)
  {
  }

  /** An exclusive second is unmixed, or at the edges of two files of one minute. */
  lemma ExclusiveCases(cfg: Config, files: seq<RawFile>, v: string, m: string, second: nat) returns (i: int, j: int)
    requires ExclusiveSecond(cfg, files, v, m, second)
    ensures Unmixed(cfg, files, v, m, second)
            || (TwoEdgeFiles(cfg, files, i, j, v, m, second) && SameMinute(files[i], files[j]))
  {
    i, j := 0, 0;
    if !Unmixed(cfg, files, v, m, second) {
      if a, b :| TwoEdgeFiles(cfg, files, a, b, v, m, second) {
        i, j := a, b;
      }
    }
  }

  lemma TwoAgree(cfg: Config, files: seq<RawFile>, v: string, m: string, second: nat, i: int, j: int)
    requires TwoEdgeFiles(cfg, files, i, j, v, m, second) && SameMinute(files[i], files[j])
    ensures MinutesAgree(cfg, files, v, m, second)
            <==> multiset(Group(RecordsOf(files[i].bytes), second)) == multiset(Group(RecordsOf(files[j].bytes), second))
  {
  }

  /** The main theorem.  For every list of raw files, every interleaving of the workers and the manager that
      ends the cycle, and every second of every module none of whose files failed, unless it is both shared by
      files of one minute and not exclusive: its records, from all raw files, are together in one object if
      and only if the second is exclusive and files of one minute that record it record it alike. */
  lemma SecondGroupedIff(cfg: Config, files: seq<RawFile>, run: seq<State>, steps: seq<Step>,
                         v: string, m: string, second: nat)
    requires ValidInputs(cfg, files) && IsCycle(PlanFor(cfg, files), run, steps)
    requires run[|steps|].manager.Ended? && SecondSucceeded(cfg, files, run[|steps|].phases, v, m, second)
    requires Free(v, '/') && Free(m, '/') && second < 0x2_0000_0000
    requires Unmixed(cfg, files, v, m, second) || ExclusiveSecond(cfg, files, v, m, second)
    ensures Grouped(cfg, files, run[|steps|].store, v, m, second)
            <==> ExclusiveSecond(cfg, files, v, m, second) && MinutesAgree(cfg, files, v, m, second)
  {
    if Unmixed(cfg, files, v, m, second) {
      UnmixedAgrees(cfg, files, v, m, second);
      SecondGroupedIffExclusive(cfg, files, run, steps, v, m, second);
    } else {
      var i, j := ExclusiveCases(cfg, files, v, m, second);
      SharedSecondGroupedIff(cfg, files, run, steps, v, m, second, i, j);
      TwoAgree(cfg, files, v, m, second, i, j);
    }
  }

  /** The cycle is the grouping of all records by second: the group of every exclusive second none of whose
      files failed, and that files of one minute record alike, is exactly the content of its object, and every
      object that no recorded second is named for is as before the cycle. */
  lemma PipelineGroupsBySecond(cfg: Config, files: seq<RawFile>, run: seq<State>, steps: seq<Step>)
    requires ValidInputs(cfg, files) && IsCycle(PlanFor(cfg, files), run, steps)
    requires run[|steps|].manager.Ended?
    ensures forall i, v, m, s :: Contributes(cfg, files, i, v, m, s) && ExclusiveSecond(cfg, files, v, m, s)
                                 && MinutesAgree(cfg, files, v, m, s)
                                 && SecondSucceeded(cfg, files, run[|steps|].phases, v, m, s) ==>
              ObjectHolds(cfg, files, run[|steps|].store, i, v, m, s)
    ensures forall o :: (forall i, v, m, s :: Contributes(cfg, files, i, v, m, s) ==> DestFor(cfg, files[i], s) != o) ==>
              (o in run[|steps|].store <==> o in run[0].store)
              && (o in run[0].store ==> run[|steps|].store[o] == run[0].store[o])
  {
    var plan := PlanFor(cfg, files);
    PlanIsLoose(cfg, files);
    forall i, v, m, s | Contributes(cfg, files, i, v, m, s) && ExclusiveSecond(cfg, files, v, m, s)
                        && MinutesAgree(cfg, files, v, m, s) && SecondSucceeded(cfg, files, run[|steps|].phases, v, m, s)
      ensures ObjectHolds(cfg, files, run[|steps|].store, i, v, m, s)
    {
      SecondIsGrouped(cfg, files, run, steps, i, v, m, s);
    }
    forall o | forall i, v, m, s :: Contributes(cfg, files, i, v, m, s) ==> DestFor(cfg, files[i], s) != o
      ensures (o in run[|steps|].store <==> o in run[0].store)
              && (o in run[0].store ==> run[|steps|].store[o] == run[0].store[o])
    {
      forall j, k | IsPiece(plan, j, k) ensures plan[j].pieces[k].dest != o {
        var v, m, s := PieceDest(cfg, files, j, k);
      }
      UnnamedObjectKept(plan, run, steps, o);
    }
  }

  lemma SecondIsGrouped(cfg: Config, files: seq<RawFile>, run: seq<State>, steps: seq<Step>,
                        i: int, v: string, m: string, s: nat)
    requires ValidInputs(cfg, files) && IsCycle(PlanFor(cfg, files), run, steps) && run[|steps|].manager.Ended?
    requires Contributes(cfg, files, i, v, m, s) && ExclusiveSecond(cfg, files, v, m, s) && MinutesAgree(cfg, files, v, m, s)
    requires SecondSucceeded(cfg, files, run[|steps|].phases, v, m, s)
    ensures ObjectHolds(cfg, files, run[|steps|].store, i, v, m, s)
  {
    SecondsAreBounded(cfg, files, i, v, m, s);
    var a, b := ExclusiveCases(cfg, files, v, m, s);
    if Unmixed(cfg, files, v, m, s) {
      UnmixedIsGrouped(cfg, files, run, steps, i, v, m, s);
    } else {
      SharedSecondGroupedIff(cfg, files, run, steps, v, m, s, a, b);
      TwoAgree(cfg, files, v, m, s, a, b);
    }
  }

  lemma UnmixedIsGrouped(cfg: Config, files: seq<RawFile>, run: seq<State>, steps: seq<Step>,
                         i: int, v: string, m: string, s: nat)
    requires ValidInputs(cfg, files) && IsCycle(PlanFor(cfg, files), run, steps) && run[|steps|].manager.Ended?
    requires Contributes(cfg, files, i, v, m, s) && ExclusiveSecond(cfg, files, v, m, s) && Unmixed(cfg, files, v, m, s)
    requires SecondSucceeded(cfg, files, run[|steps|].phases, v, m, s)
    ensures ObjectHolds(cfg, files, run[|steps|].store, i, v, m, s)
  {
    var plan := PlanFor(cfg, files);
    PlanIsLoose(cfg, files);
    SecondsAreBounded(cfg, files, i, v, m, s);
    ExclusiveMatches(cfg, files, v, m, s);
    SecondSucceededMatches(cfg, files, run[|steps|].phases, v, m, s);
    KeyUnsharedIffUnmixed(cfg, files, v, m, s);
    var k := PieceOfContribution(cfg, files, i, v, m, s);
    KeyRecordsAreGroup(cfg, files, v, m, s);
    assert IsPiece(plan, i, k);
    UnsharedHoldsGroup(plan, run, steps, i, k);
  }

  lemma PieceDest(cfg: Config, files: seq<RawFile>, j: int, k: int) returns (v: string, m: string, s: nat)
    requires ValidInputs(cfg, files) && IsPiece(PlanFor(cfg, files), j, k)
    ensures Contributes(cfg, files, j, v, m, s) && s < 0x2_0000_0000
    ensures PlanFor(cfg, files)[j].pieces[k].dest == DestFor(cfg, files[j], s)
    ensures PlanFor(cfg, files)[j].pieces[k].key == KeyFor(cfg, v, m, s)
  {
    s := PieceInfo(cfg, files, j, k);
    v, m := files[j].vehicle, PartsOf(files[j]).moduleName;
    PieceAtEdge(cfg, files, j, k);
    assert PlanFor(cfg, files)[j].pieces[k] == PieceOf(cfg, files[j], s, !AtEdge(files[j], s));
  }

  lemma PieceAtEdge(cfg: Config, files: seq<RawFile>, j: int, k: int)
    requires IsPiece(PlanFor(cfg, files), j, k)
    ensures 0 <= j < |files| && 0 <= k < |WorkOrder(KeysOf(files[j]))|
    ensures IsEnd(PlanFor(cfg, files), j, k) <==> AtEdge(files[j], WorkOrder(KeysOf(files[j]))[k])
  {
    EndIsLate(cfg, files, j, k);
    LateIsEdge(files[j], k);
  }

  lemma LateIsEdge(f: RawFile, k: nat)
    requires k < |WorkOrder(KeysOf(f))|
    ensures AtEdge(f, WorkOrder(KeysOf(f))[k]) <==> k >= |MidKeys(KeysOf(f))|
  {
    EdgePosition(KeysOf(f), k);
  }

  lemma EndIsLate(cfg: Config, files: seq<RawFile>, j: int, k: int)
    requires IsPiece(PlanFor(cfg, files), j, k)
    ensures 0 <= j < |files| && 0 <= k < |WorkOrder(KeysOf(files[j]))|
    ensures IsEnd(PlanFor(cfg, files), j, k) <==> k >= |MidKeys(KeysOf(files[j]))|
  {
    assert PlanFor(cfg, files)[j] == JobFor(cfg, files[j]);
  }

  /** Such cycles exist: with at least one worker, files that can all be placed and nothing left over, the
      cycle has a run that ends without a failed job. */
  lemma SuccessIsPossible(cfg: Config, files: seq<RawFile>, workers: nat, local: Files, store: Files)
    returns (run: seq<State>, steps: seq<Step>)
    requires workers >= 1 && forall i :: 0 <= i < |files| ==> Ready(cfg, files[i])
    ensures IsCycle(PlanFor(cfg, files), run, steps)
    ensures run[0] == Start(PlanFor(cfg, files), workers, local, store)
    ensures run[|steps|].manager.Ended? && run[|steps|].progress.failure == 0
  {
    var plan := PlanFor(cfg, files);
    var s := Start(plan, workers, local, store);
    CycleCounts.JobsInvAtStart(plan, s);
    run, steps := CycleCounts.CanSucceed(plan, s);
  }
}
