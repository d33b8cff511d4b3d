/** Two files of one minute with a common second: their pieces have one local path, so the one that is split
    later replaces the other before both are merged. */
module Collision {
  import opened Wrappers
  import opened Bytes
  import opened PcapFormat
  import opened Partition
  import opened Calendar
  import opened Text
  import opened Names
  import opened FileSystem
  import opened SplitSpec
  import opened Protocol
  import opened CycleOutcome
  import opened Refinement
  import opened Pipeline
  import opened EndToEnd
  import opened Worker

  // ---------- two jobs with one piece path ----------

  function TwinOf(p: Piece, bytes: seq<byte>): Piece {
    p.(bytes := bytes)
  }

  /** Each job has one HEAD and no other piece; the two pieces differ in content only. */
  predicate Twins(plan: Plan, p: Piece, x: seq<byte>, y: seq<byte>) {
    && |plan| == 2 && plan[0].ready && plan[1].ready && plan[0].mids == 0 && plan[1].mids == 0
    && plan[0].pieces == [TwinOf(p, x)] && plan[1].pieces == [TwinOf(p, y)]
    && plan[0].source != p.path && plan[1].source != p.path
  }

  lemma QueueBoth(plan: Plan, s: State) returns (t: State)
    requires |plan| == 2 && s == Start(plan, 1, s.local, s.store)
    ensures Leads(plan, s, t)
    ensures t == s.(phases := [Queued, Queued], queue := [0, 1], manager := Draining)
  {
    assert IsRun(plan, [s], []) && [s][0] == s;
    assert Leads(plan, s, s);
    var first := Apply(plan, s, Push);
    LeadsOneMore(plan, s, s, Push);
    t := Apply(plan, first, Push);
    LeadsOneMore(plan, s, first, Push);
    assert t.phases == [Queued, Queued] && t.queue == [0, 1];
  }

  lemma PopNext(plan: Plan, s: State, u: State, j: nat) returns (t: State)
    requires Leads(plan, s, u) && j < |u.phases| && u.queue != [] && u.queue[0] == j && u.holds == [None]
    ensures Leads(plan, s, t)
    ensures t == u.(phases := u.phases[j := Fetching], queue := u.queue[1..], holds := [Some(j)])
  {
    t := Apply(plan, u, Pop(0));
    LeadsOneMore(plan, s, u, Pop(0));
  }

  lemma FetchNext(plan: Plan, s: State, u: State, j: nat) returns (t: State)
    requires Leads(plan, s, u) && j < |plan| && j < |u.phases| && u.holds == [Some(j)] && |u.outboxes| == 1
    requires u.phases[j] == Fetching && plan[j].ready
    ensures Leads(plan, s, t)
    ensures t == u.(phases := u.phases[j := Splitting], local := u.local[plan[j].source := plan[j].raw])
  {
    t := Apply(plan, u, Fetch(0));
    LeadsOneMore(plan, s, u, Fetch(0));
  }

  lemma SplitNext(plan: Plan, s: State, u: State, j: nat, piece: Piece) returns (t: State)
    requires Leads(plan, s, u) && j < |plan| && j < |u.phases| && u.holds == [Some(j)] && |u.outboxes| == 1
    requires u.phases[j] == Splitting && plan[j].pieces == [piece]
    ensures Leads(plan, s, t)
    ensures t == u.(phases := u.phases[j := Working(0)], local := u.local[piece.path := piece.bytes] - {plan[j].source})
  {
    t := Apply(plan, u, Split(0));
    LeadsOneMore(plan, s, u, Split(0));
    assert WriteAll(u.local, [piece][..0]) == u.local;
  }

  lemma PostNext(plan: Plan, s: State, u: State, j: nat, piece: Piece) returns (t: State)
    requires Leads(plan, s, u) && j < |plan| && j < |u.phases| && u.holds == [Some(j)] && |u.outboxes| == 1
    requires u.phases[j] == Working(0) && plan[j].pieces == [piece] && plan[j].mids == 0
    ensures Leads(plan, s, t)
    ensures t == u.(phases := u.phases[j := Working(1)], outboxes := [u.outboxes[0] + [PairPut(piece.key, ItemOf(piece))]])
  {
    t := Apply(plan, u, Post(0));
    LeadsOneMore(plan, s, u, Post(0));
  }

  lemma ReportNext(plan: Plan, s: State, u: State, j: nat) returns (t: State)
    requires Leads(plan, s, u) && j < |plan| && j < |u.phases| && u.holds == [Some(j)] && |u.outboxes| == 1
    requires u.phases[j] == Working(|plan[j].pieces|)
    ensures Leads(plan, s, t)
    ensures t == u.(phases := u.phases[j := Finished(true)], holds := [None], outboxes := [u.outboxes[0] + [JobDone(true)]])
  {
    t := Apply(plan, u, Report(0));
    LeadsOneMore(plan, s, u, Report(0));
  }

  lemma Overwrite<T>(xs: seq<T>, j: nat, a: T, b: T)
    requires j < |xs|
    ensures xs[j := a][j := b] == xs[j := b]
  {
  }

  /** The only worker takes the next job and writes its one piece. */
  lemma TakeAndSplit(plan: Plan, s: State, u: State, j: nat, piece: Piece) returns (t: State)
    requires Leads(plan, s, u) && j < |plan| && j < |u.phases| && u.queue != [] && u.queue[0] == j
    requires u.holds == [None] && |u.outboxes| == 1
    requires plan[j].ready && plan[j].pieces == [piece] && piece.path != plan[j].source
    ensures Leads(plan, s, t)
    ensures t == u.(phases := u.phases[j := Working(0)], queue := u.queue[1..], holds := [Some(j)], local := t.local)
    ensures piece.path in t.local && t.local[piece.path] == piece.bytes
  {
    var popped := PopNext(plan, s, u, j);
    var fetched := FetchNext(plan, s, popped, j);
    t := SplitNext(plan, s, fetched, j, piece);
    Overwrite(u.phases, j, Fetching, Splitting);
    Overwrite(u.phases, j, Splitting, Working(0));
  }

  /** It posts the piece, a HEAD, and its JobDone. */
  lemma PostAndReport(plan: Plan, s: State, u: State, j: nat, piece: Piece) returns (t: State)
    requires Leads(plan, s, u) && j < |plan| && j < |u.phases| && u.holds == [Some(j)] && |u.outboxes| == 1
    requires u.phases[j] == Working(0) && plan[j].pieces == [piece] && plan[j].mids == 0
    ensures Leads(plan, s, t)
    ensures t == u.(phases := u.phases[j := Finished(true)], holds := [None],
                    outboxes := [u.outboxes[0] + [PairPut(piece.key, ItemOf(piece)), JobDone(true)]])
  {
    var posted := PostNext(plan, s, u, j, piece);
    t := ReportNext(plan, s, posted, j);
    Overwrite(u.phases, j, Working(1), Finished(true));
    assert u.outboxes[0] + [PairPut(piece.key, ItemOf(piece))] + [JobDone(true)]
        == u.outboxes[0] + [PairPut(piece.key, ItemOf(piece)), JobDone(true)];
  }

  lemma WorkHead(plan: Plan, s: State, u: State, j: nat, piece: Piece) returns (t: State)
    requires Leads(plan, s, u) && j < |plan| && j < |u.phases| && u.queue != [] && u.queue[0] == j
    requires u.holds == [None] && |u.outboxes| == 1
    requires plan[j].ready && plan[j].mids == 0 && plan[j].pieces == [piece] && piece.path != plan[j].source
    ensures Leads(plan, s, t)
    ensures t == u.(phases := u.phases[j := Finished(true)], queue := u.queue[1..], local := t.local,
                    outboxes := [u.outboxes[0] + [PairPut(piece.key, ItemOf(piece)), JobDone(true)]])
    ensures piece.path in t.local && t.local[piece.path] == piece.bytes
  {
    var split := TakeAndSplit(plan, s, u, j, piece);
    t := PostAndReport(plan, s, split, j, piece);
    Overwrite(u.phases, j, Working(0), Finished(true));
  }

  lemma DeliverDone(plan: Plan, s: State, u: State, rest: seq<Msg>) returns (t: State)
    requires Leads(plan, s, u) && u.manager == Draining && u.progress.remaining > 0
    requires u.outboxes == [[JobDone(true)] + rest]
    ensures Leads(plan, s, t)
    ensures t == u.(progress := MarkOneDone(u.progress, true), outboxes := [rest])
  {
    t := Apply(plan, u, Deliver(0));
    LeadsOneMore(plan, s, u, Deliver(0));
    assert ([JobDone(true)] + rest)[1..] == rest;
  }

  /** The first item of a key goes to its bucket. */
  lemma DeliverFirst(plan: Plan, s: State, u: State, key: string, item: Item, rest: seq<Msg>) returns (t: State)
    requires Leads(plan, s, u) && u.manager == Draining && u.progress.remaining > 0 && u.buckets == map[]
    requires u.outboxes == [[PairPut(key, item)] + rest]
    ensures Leads(plan, s, t)
    ensures t == u.(buckets := map[key := [item]], outboxes := [rest])
  {
    t := Apply(plan, u, Deliver(0));
    LeadsOneMore(plan, s, u, Deliver(0));
    assert ([PairPut(key, item)] + rest)[1..] == rest && [] + [item] == [item];
  }

  /** The second is paired with its equal. */
  lemma DeliverTwin(plan: Plan, s: State, u: State, key: string, item: Item, rest: seq<Msg>) returns (t: State)
    requires Leads(plan, s, u) && u.manager == Draining && u.progress.remaining > 0 && u.buckets == map[key := [item]]
    requires u.outboxes == [[PairPut(key, item)] + rest]
    ensures Leads(plan, s, t)
    ensures t == u.(buckets := map[], manager := Merging([item, item]), outboxes := [rest])
  {
    t := Apply(plan, u, Deliver(0));
    LeadsOneMore(plan, s, u, Deliver(0));
    assert ([PairPut(key, item)] + rest)[1..] == rest && [item] + [item] == [item, item];
    assert map[key := [item]] - {key} == map[];
  }

  /** The merge reads one path twice. */
  lemma MergeTwin(plan: Plan, s: State, u: State, item: Item) returns (t: State)
    requires Leads(plan, s, u) && u.manager == Merging([item, item]) && item.src in u.local
    ensures Leads(plan, s, t)
    ensures t == u.(manager := Draining, store := t.store, local := t.local, log := t.log)
    ensures t.store == u.store[item.prefix := Merged([u.local[item.src], u.local[item.src]])]
  {
    var merged := Apply(plan, u, Merge);
    LeadsOneMore(plan, s, u, Merge);
    assert ReadAll(u.local, [item, item]) == [u.local[item.src], u.local[item.src]];
    var shipped := Apply(plan, merged, Ship);
    LeadsOneMore(plan, s, merged, Ship);
    t := Apply(plan, shipped, Clean);
    LeadsOneMore(plan, s, shipped, Clean);
  }

  /** With the counter at zero and nothing to sweep the cycle ends. */
  lemma EndCycle(plan: Plan, s: State, u: State) returns (t: State)
    requires Leads(plan, s, u) && u.manager == Draining && u.progress.remaining == 0 && u.buckets == map[]
    ensures Leads(plan, s, t)
    ensures t == u.(manager := Ended)
  {
    var order: seq<string> := [];
    var closed := Apply(plan, u, Close(order));
    LeadsOneMore(plan, s, u, Close(order));
    assert closed.manager == Sweeping([]);
    t := Apply(plan, closed, Finish);
    LeadsOneMore(plan, s, closed, Finish);
  }

  /** One worker takes both jobs; the later split has written the shared path. */
  lemma WorkBoth(plan: Plan, p: Piece, x: seq<byte>, y: seq<byte>, s: State) returns (t: State)
    requires Twins(plan, p, x, y) && s == Start(plan, 1, s.local, s.store)
    ensures Leads(plan, s, t) && p.path in t.local && t.local[p.path] == y && t.store == s.store
    ensures t.manager == Draining && t.progress == Progress(2, 0, 0) && t.buckets == map[]
    ensures t.queue == [] && t.holds == [None]
    ensures var put, done := PairPut(p.key, ItemOf(p)), JobDone(true);
            t.outboxes == [[put] + ([done] + ([put] + ([done] + [])))]
  {
    StartShape(plan, s);
    var queued := QueueBoth(plan, s);
    var first := WorkHead(plan, s, queued, 0, TwinOf(p, x));
    t := WorkHead(plan, s, first, 1, TwinOf(p, y));
    var put, done := PairPut(p.key, ItemOf(p)), JobDone(true);
    assert [] + [put, done] + [put, done] == [put] + ([done] + ([put] + ([done] + [])));
  }

  lemma StartShape(plan: Plan, s: State)
    requires s == Start(plan, 1, s.local, s.store)
    ensures s.holds == [None] && s.outboxes == [[]]
  {
  }

  /** Then the manager reads its mail: both jobs succeed, and the object holds the later content twice. */
  lemma TwinsLose(plan: Plan, p: Piece, x: seq<byte>, y: seq<byte>, local: Files, store: Files) returns (t: State)
    requires Twins(plan, p, x, y)
    ensures Leads(plan, Start(plan, 1, local, store), t) && t.manager.Ended? && t.progress.failure == 0
    ensures t.store == store[p.dest := Merged([y, y])]
  {
    var s := Start(plan, 1, local, store);
    var worked := WorkBoth(plan, p, x, y, s);
    var item := ItemOf(p);
    var put, done := PairPut(p.key, item), JobDone(true);
    var a := DeliverFirst(plan, s, worked, p.key, item, [done] + ([put] + ([done] + [])));
    var b := DeliverDone(plan, s, a, [put] + ([done] + []));
    var c := DeliverTwin(plan, s, b, p.key, item, [done] + []);
    var d := MergeTwin(plan, s, c, item);
    var e := DeliverDone(plan, s, d, []);
    t := EndCycle(plan, s, e);
  }

  // ---------- two raw files of one minute ----------

  /** Ready files of one minute, each with all its packets in second `s`. */
  predicate TwinFiles(cfg: Config, f: RawFile, g: RawFile, s: nat) {
    && ValidConfig(cfg) && Ready(cfg, f) && Ready(cfg, g) && SameMinute(f, g)
    && Free(f.vehicle, '/') && Free(f.name, '/') && Free(g.name, '/')
    && KeysOf(f) == [s] && KeysOf(g) == [s] && s < 0x1_0000_0000
  }

  lemma SplitIsNotOwnSource(cfg: Config, f: RawFile, g: RawFile, s: nat)
    requires TwinFiles(cfg, f, g, s)
    ensures PieceOf(cfg, f, s, false).path != SourcePath(cfg, g.vehicle, g.name, PartsOf(g))
  {
    var a := SplitName(PartsOf(f).moduleName, LabelOf(cfg.tz, s));
    SplitNameFree(cfg, f, s);
    LabelIsLabel(cfg.tz, s);
    SourceIsNoSplitOutput(g.name, LabelOf(cfg.tz, s));
    ReadySegmentsFree(cfg, f, a);
    ReadySegmentsFree(cfg, g, g.name);
    if PieceOf(cfg, f, s, false).path == SourcePath(cfg, g.vehicle, g.name, PartsOf(g)) {
      var x, y := LocalSegments(cfg, f.vehicle, PartsOf(f), a), LocalSegments(cfg, g.vehicle, PartsOf(g), g.name);
      UnderInjective(cfg.cache, x, y);
    }
  }

  lemma TwinPlan(cfg: Config, f: RawFile, g: RawFile, s: nat)
    requires TwinFiles(cfg, f, g, s)
    ensures Twins(PlanFor(cfg, [f, g]), PieceOf(cfg, f, s, false), PieceBytes(f.bytes, s), PieceBytes(g.bytes, s))
  {
    SplitIsNotOwnSource(cfg, f, f, s);
    SplitIsNotOwnSource(cfg, f, g, s);
    assert WorkOrder([s]) == [s] && MidKeys([s]) == [];
    assert JobFor(cfg, f).pieces == [PieceOf(cfg, f, s, false)];
    assert JobFor(cfg, g).pieces == [PieceOf(cfg, g, s, false)];
  }

  lemma TwinContributes(cfg: Config, files: seq<RawFile>, i: nat, f: RawFile, s: nat)
    requires i < |files| && files[i] == f && Ready(cfg, f) && KeysOf(f) == [s]
    ensures Contributes(cfg, files, i, f.vehicle, PartsOf(f).moduleName, s) && AtEdge(f, s)
  {
    assert [s][0] == s && s in KeysOf(f);
  }

  lemma TwinDest(cfg: Config, f: RawFile, g: RawFile, s: nat)
    requires TwinFiles(cfg, f, g, s)
    ensures DestFor(cfg, f, s) == PieceOf(cfg, f, s, false).dest == DestFor(cfg, g, s)
  {
    TwinContributes(cfg, [f], 0, f, s);
    TwinContributes(cfg, [g], 0, g, s);
  }

  lemma TwinsShareEdge(cfg: Config, f: RawFile, g: RawFile, s: nat)
    requires TwinFiles(cfg, f, g, s)
    ensures ExclusiveSecond(cfg, [f, g], f.vehicle, PartsOf(f).moduleName, s)
    ensures Contributes(cfg, [f, g], 0, f.vehicle, PartsOf(f).moduleName, s)
  {
    TwinContributes(cfg, [f, g], 0, f, s);
    TwinContributes(cfg, [f, g], 1, g, s);
    assert TwoEdgeFiles(cfg, [f, g], 0, 1, f.vehicle, PartsOf(f).moduleName, s);
  }

  lemma TwinRecords(cfg: Config, f: RawFile, g: RawFile, s: nat)
    requires TwinFiles(cfg, f, g, s)
    ensures RecordsOf(PieceBytes(f.bytes, s)) == RecordsOf(f.bytes) && Whole(PieceBytes(f.bytes, s))
    ensures GroupRecords(cfg, [f, g], f.vehicle, PartsOf(f).moduleName, s)
            == multiset(RecordsOf(f.bytes)) + multiset(RecordsOf(g.bytes))
  {
    OneSecondOnly(f, s);
    OneSecondOnly(g, s);
    PieceReadsBack(f.bytes, s);
    GroupOfTwo(cfg, f, g, f.vehicle, PartsOf(f).moduleName, s);
  }

  lemma GroupOfTwo(cfg: Config, f: RawFile, g: RawFile, v: string, m: string, s: nat)
    requires OfModule(cfg, f, v, m) && OfModule(cfg, g, v, m)
    ensures GroupRecords(cfg, [f, g], v, m, s)
            == multiset(Group(RecordsOf(f.bytes), s)) + multiset(Group(RecordsOf(g.bytes), s))
  {
    assert [f, g][1..] == [g] && [g][1..] == [];
    assert GroupRecords(cfg, [g], v, m, s) == multiset(Group(RecordsOf(g.bytes), s)) + GroupRecords(cfg, [], v, m, s);
  }

  lemma OneSecondOnly(f: RawFile, s: nat)
    requires KeysOf(f) == [s]
    ensures Group(RecordsOf(f.bytes), s) == RecordsOf(f.bytes) && RecordsOf(f.bytes) != []
  {
    var rs := RecordsOf(f.bytes);
    assert s in KeysOf(f);
    forall i | 0 <= i < |rs| ensures SecondOf(rs[i]) == s {
      assert SecondOf(rs[i]) in Seconds(rs);
      assert SecondOf(rs[i]) in KeysOf(f);
    }
    GroupOfAll(rs, s);
    GroupMembers(rs, s);
  }

  lemma {:induction false} GroupOfAll(rs: seq<Record>, s: nat)
    requires forall i :: 0 <= i < |rs| ==> SecondOf(rs[i]) == s
    ensures Group(rs, s) == rs
  {
    if rs != [] {
      GroupOfAll(rs[1..], s);
    }
  }

  /** For any two files of one minute whose packets all lie in one second there is a run in which both jobs
      succeed; although the second is exclusive, its records are kept together only if the files have the
      same records, each as often in the one as in the other. */
  lemma TwinsRun(cfg: Config, f: RawFile, g: RawFile, s: nat) returns (run: seq<State>, steps: seq<Step>)
    requires TwinFiles(cfg, f, g, s)
    ensures IsCycle(PlanFor(cfg, [f, g]), run, steps)
    ensures run[|steps|].manager.Ended? && run[|steps|].progress.failure == 0
    ensures ExclusiveSecond(cfg, [f, g], f.vehicle, PartsOf(f).moduleName, s)
    ensures Grouped(cfg, [f, g], run[|steps|].store, f.vehicle, PartsOf(f).moduleName, s)
            <==> multiset(RecordsOf(f.bytes)) == multiset(RecordsOf(g.bytes))
  {
    var plan, p := PlanFor(cfg, [f, g]), PieceOf(cfg, f, s, false);
    TwinPlan(cfg, f, g, s);
    var t := TwinsLose(plan, p, PieceBytes(f.bytes, s), PieceBytes(g.bytes, s), map[], map[]);
    run, steps :| IsRun(plan, run, steps) && run[0] == Start(plan, 1, map[], map[]) && run[|steps|] == t;
    TwinsShareEdge(cfg, f, g, s);
    TwinsGrouped(cfg, f, g, s, t.store);
  }

  lemma TwinsGrouped(cfg: Config, f: RawFile, g: RawFile, s: nat, store: Files)
    requires TwinFiles(cfg, f, g, s)
    requires store == map[PieceOf(cfg, f, s, false).dest := Merged([PieceBytes(g.bytes, s), PieceBytes(g.bytes, s)])]
    ensures Grouped(cfg, [f, g], store, f.vehicle, PartsOf(f).moduleName, s)
            <==> multiset(RecordsOf(f.bytes)) == multiset(RecordsOf(g.bytes))
  {
    var files, o, v, m := [f, g], PieceOf(cfg, f, s, false).dest, f.vehicle, PartsOf(f).moduleName;
    var a, b := multiset(RecordsOf(f.bytes)), multiset(RecordsOf(g.bytes));
    assert GroupRecords(cfg, files, v, m, s) == a + b by { TwinRecords(cfg, f, g, s); }
    assert multiset(RecordsOf(store[o])) == b + b by { TwinMerged(cfg, f, g, s); }
    assert Contributes(cfg, files, 0, v, m, s) by { TwinsShareEdge(cfg, f, g, s); }
    assert DestFor(cfg, f, s) == o && DestFor(cfg, g, s) == o by { TwinDest(cfg, f, g, s); }
    BothGoTo(cfg, files, s, o);
    HolderIsOne(cfg, files, s, store, o, v, m, a, b);
  }

  lemma TwinMerged(cfg: Config, f: RawFile, g: RawFile, s: nat)
    requires TwinFiles(cfg, f, g, s)
    ensures multiset(RecordsOf(Merged([PieceBytes(g.bytes, s), PieceBytes(g.bytes, s)])))
            == multiset(RecordsOf(g.bytes)) + multiset(RecordsOf(g.bytes))
  {
    OneSecondOnly(g, s);
    PieceReadsBack(g.bytes, s);
    MergedTwo(PieceBytes(g.bytes, s), PieceBytes(g.bytes, s));
  }

  lemma BothGoTo(cfg: Config, files: seq<RawFile>, s: nat, o: string)
    requires |files| == 2 && Ready(cfg, files[0]) && Ready(cfg, files[1])
    requires DestFor(cfg, files[0], s) == o && DestFor(cfg, files[1], s) == o
    ensures forall k :: 0 <= k < |files| && Ready(cfg, files[k]) ==> DestFor(cfg, files[k], s) == o
  {
    forall k | 0 <= k < |files| ensures Ready(cfg, files[k]) && DestFor(cfg, files[k], s) == o {
      if k == 1 {
      } else {
        assert k == 0;
      }
    }
  }

  /** All pieces of the second go to one object, so it alone decides. */
  lemma HolderIsOne(cfg: Config, files: seq<RawFile>, s: nat, store: Files, o: string, v: string, m: string,
                    a: multiset<Record>, b: multiset<Record>)
    requires o in store && Contributes(cfg, files, 0, v, m, s)
    requires GroupRecords(cfg, files, v, m, s) == a + b && multiset(RecordsOf(store[o])) == b + b
    requires forall k :: 0 <= k < |files| && Ready(cfg, files[k]) ==> DestFor(cfg, files[k], s) == o
    ensures Grouped(cfg, files, store, v, m, s) <==> a == b
  {
    EqualSums(a, b);
    if a == b {
      assert ObjectHolds(cfg, files, store, 0, v, m, s);
    }
  }

  lemma EqualSums(a: multiset<Record>, b: multiset<Record>)
    ensures b + b == a + b <==> a == b
  {
    if b + b == a + b {
      forall r ensures a[r] == b[r] {
        assert (b + b)[r] == (a + b)[r];
      }
    }
  }

  /** In every run in which both jobs succeed. */
  lemma TwinsAgreeIff(cfg: Config, f: RawFile, g: RawFile, s: nat, run: seq<State>, steps: seq<Step>)
    requires TwinFiles(cfg, f, g, s) && ValidInputs(cfg, [f, g]) && IsCycle(PlanFor(cfg, [f, g]), run, steps)
    requires run[|steps|].manager.Ended? && run[|steps|].progress.failure == 0
    ensures Grouped(cfg, [f, g], run[|steps|].store, f.vehicle, PartsOf(f).moduleName, s)
            <==> multiset(RecordsOf(f.bytes)) == multiset(RecordsOf(g.bytes))
  {
    NoFailureMeansAllReady(cfg, [f, g], run, steps);
    OneSecondOnly(f, s);
    OneSecondOnly(g, s);
    SplitNameFree(cfg, f, s);
    TwinContributes(cfg, [f, g], 0, f, s);
    TwinContributes(cfg, [f, g], 1, g, s);
    SharedSecondGroupedIff(cfg, [f, g], run, steps, f.vehicle, PartsOf(f).moduleName, s, 0, 1);
  }
}
