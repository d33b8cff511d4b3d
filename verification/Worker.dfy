/** NormalizerModule: one job from download to JobDone as a worker runs it, and the proof that this is
    the worker's steps of the protocol when nothing fails. */
module Worker {
  import opened Wrappers
  import opened Calendar
  import opened Text
  import opened Names
  import opened FileSystem
  import opened SplitSpec
  import opened Splitter
  import opened Protocol
  import opened CycleContents
  import opened Manager
  import opened Pipeline

  // ---------- effects as functions ----------

  datatype Shelf = Shelf(local: Files, store: Files)

  /** Upload a piece under its object name and remove it. */
  function UploadOne(v: Shelf, piece: Piece): Shelf {
    Shelf(v.local - {piece.path}, v.store[piece.dest := Read(v.local, piece.path)])
  }

  function UploadAll(v: Shelf, pieces: seq<Piece>): Shelf {
    if pieces == [] then v else UploadOne(UploadAll(v, pieces[..|pieces| - 1]), pieces[|pieces| - 1])
  }

  function PostFor(piece: Piece): Msg {
    PairPut(piece.key, ItemOf(piece))
  }

  function PostsFor(pieces: seq<Piece>): seq<Msg> {
    seq(|pieces|, i requires 0 <= i < |pieces| => PostFor(pieces[i]))
  }

  /** The disk after download and split. */
  function AfterSplit(local: Files, job: Job): Files {
    WriteAll(local[job.source := job.raw], job.pieces) - {job.source}
  }

  function MidsOf(job: Job): seq<Piece>
    requires job.mids <= |job.pieces|
  {
    job.pieces[..job.mids]
  }

  function EndsOf(job: Job): seq<Piece>
    requires job.mids <= |job.pieces|
  {
    job.pieces[job.mids..]
  }

  /** A job as it should be: its MID pieces uploaded, the others on disk, its raw file gone. */
  predicate Completed(job: Job, before: Shelf, after: Shelf) {
    job.mids <= |job.pieces| && after == UploadAll(Shelf(AfterSplit(before.local, job), before.store), MidsOf(job))
  }

  /** A job that failed: it touched only its own paths and uploaded only the MID pieces up to some point. */
  ghost predicate Failed(job: Job, before: Shelf, after: Shelf) {
    && SameElsewhere(job, before.local, after.local)
    && exists k :: UploadedBefore(job, before.local, before.store, after.store, k)
  }

  /** A job that stopped after uploading `k` of its MID pieces, 0 if it never came that far. */
  predicate UploadedBefore(job: Job, local: Files, before: Files, after: Files, k: nat) {
    && k <= job.mids <= |job.pieces| && (job.ready || k == 0)
    && after == UploadAll(Shelf(AfterSplit(local, job), before), MidsOf(job)[..k]).store
  }

  // ---------- split_once writes the job's pieces ----------

  lemma BaseNameOfPath(base: string, segments: seq<string>)
    requires |segments| >= 1 && AllFree(segments, '/')
    ensures BaseName(Under(base, segments)) == segments[|segments| - 1]
  {
    SplitJoin(segments);
    assert Under(base, segments) == base + ['/'] + Join(segments);
    SplitAppend(base, Join(segments), '/');
  }

  lemma JobPiecePath(cfg: Config, f: RawFile, i: nat)
    requires Ready(cfg, f) && i < |JobFor(cfg, f).pieces|
    ensures i < |WorkOrder(KeysOf(f))|
    ensures var piece, second := JobFor(cfg, f).pieces[i], WorkOrder(KeysOf(f))[i];
            piece.path == SavePath(SplitTemplate(cfg, f), cfg.tz, second) && piece.bytes == PieceBytes(f.bytes, second)
  {
    TemplatePath(cfg, f, WorkOrder(KeysOf(f))[i]);
  }

  lemma JobPathsDistinct(cfg: Config, f: RawFile, a: nat, b: nat)
    requires Ready(cfg, f) && a < b < |JobFor(cfg, f).pieces|
    ensures JobFor(cfg, f).pieces[a].path != JobFor(cfg, f).pieces[b].path
  {
    var order := WorkOrder(KeysOf(f));
    JobPiecePath(cfg, f, a);
    JobPiecePath(cfg, f, b);
    OrderMembers(KeysOf(f));
    OrderBound(f, a);
    OrderBound(f, b);
    if JobFor(cfg, f).pieces[a].path == JobFor(cfg, f).pieces[b].path {
      SavePathInjective(SplitTemplate(cfg, f), cfg.tz, order[a], order[b]);
    }
  }

  lemma OrderBound(f: RawFile, i: nat)
    requires i < |WorkOrder(KeysOf(f))|
    ensures WorkOrder(KeysOf(f))[i] in KeysOf(f) && WorkOrder(KeysOf(f))[i] < 0x2_0000_0000
  {
    OrderMembers(KeysOf(f));
    assert WorkOrder(KeysOf(f))[i] in WorkOrder(KeysOf(f));
    SecondsBound(f.bytes);
  }

  lemma KeysBound(f: RawFile)
    ensures forall i :: 0 <= i < |KeysOf(f)| ==> KeysOf(f)[i] < 0x2_0000_0000
  {
    SecondsBound(f.bytes);
    forall i | 0 <= i < |KeysOf(f)| ensures KeysOf(f)[i] < 0x2_0000_0000 {
      assert KeysOf(f)[i] in KeysOf(f);
    }
  }

  /** Writing second by second, as split_once does, and writing in the worker's order leave the same disk. */
  lemma SplitOnceWritesPieces(cfg: Config, f: RawFile, local: Files)
    requires Ready(cfg, f)
    ensures WithPieces(local, SplitTemplate(cfg, f), cfg.tz, f.bytes, KeysOf(f)) == WriteAll(local, JobFor(cfg, f).pieces)
  {
    forall p { SamePathContent(cfg, f, local, p); }
    SameMaps(WithPieces(local, SplitTemplate(cfg, f), cfg.tz, f.bytes, KeysOf(f)), WriteAll(local, JobFor(cfg, f).pieces));
  }

  lemma SameMaps(a: Files, b: Files)
    requires forall p :: (p in a <==> p in b) && (p in a ==> a[p] == b[p])
    ensures a == b
  {
  }

  lemma SamePathContent(cfg: Config, f: RawFile, local: Files, p: string)
    requires Ready(cfg, f)
    ensures var a := WithPieces(local, SplitTemplate(cfg, f), cfg.tz, f.bytes, KeysOf(f));
            var b := WriteAll(local, JobFor(cfg, f).pieces);
            (p in a <==> p in b) && (p in a ==> a[p] == b[p])
  {
    var ks, t, pieces := KeysOf(f), SplitTemplate(cfg, f), JobFor(cfg, f).pieces;
    KeysBound(f);
    OrderMembers(ks);
    if i :| 0 <= i < |ks| && p == SavePath(t, cfg.tz, ks[i]) {
      PieceOnDisk(local, t, cfg.tz, f.bytes, ks, i);
      assert ks[i] in WorkOrder(ks);
      var k :| 0 <= k < |WorkOrder(ks)| && WorkOrder(ks)[k] == ks[i];
      JobPiecePath(cfg, f, k);
      forall a, b | 0 <= a < b < |pieces| ensures pieces[a].path != pieces[b].path { JobPathsDistinct(cfg, f, a, b); }
      WrittenPiece(local, pieces, k);
    } else {
      OtherPathKept(local, t, cfg.tz, f.bytes, ks, p);
      forall k | 0 <= k < |pieces| ensures pieces[k].path != p { PathIsOfKey(cfg, f, k, p); }
      NotWritten(local, pieces, p);
    }
  }

  lemma PathIsOfKey(cfg: Config, f: RawFile, k: nat, p: string)
    requires Ready(cfg, f) && k < |JobFor(cfg, f).pieces|
    requires forall i :: 0 <= i < |KeysOf(f)| ==> p != SavePath(SplitTemplate(cfg, f), cfg.tz, KeysOf(f)[i])
    ensures JobFor(cfg, f).pieces[k].path != p
  {
    JobPiecePath(cfg, f, k);
    OrderBound(f, k);
    var i :| 0 <= i < |KeysOf(f)| && KeysOf(f)[i] == WorkOrder(KeysOf(f))[k];
  }

  // ---------- what is uploaded and posted, from the split's outcome ----------

  function UploadDir(cfg: Config, vehicle: string, piece: SplitPiece): string
    requires Registered(cfg, piece.moduleName)
  {
    Under(cfg.storage, [vehicle, TypeDir(cfg, piece.moduleName), piece.moduleName,
                        piece.stamp.date, piece.stamp.hours, piece.stamp.minutes])
  }

  function MidDest(cfg: Config, vehicle: string, piece: SplitPiece): string
    requires Registered(cfg, piece.moduleName)
  {
    UploadDir(cfg, vehicle, piece) + "/" + BaseName(piece.savePath)
  }

  function PostOf(cfg: Config, vehicle: string, piece: SplitPiece): Msg
    requires Registered(cfg, piece.moduleName)
  {
    var out := OutPath(cfg, vehicle, piece.moduleName, piece.stamp);
    PairPut(PairKey(vehicle, piece.moduleName, piece.stamp),
            Item(piece.savePath, out, UploadDir(cfg, vehicle, piece) + "/" + BaseName(out)))
  }

  predicate AllRegistered(cfg: Config, pieces: seq<SplitPiece>) {
    forall i :: 0 <= i < |pieces| ==> Registered(cfg, pieces[i].moduleName)
  }

  /** Pieces that are not MID are passed over. */
  function ShipMids(cfg: Config, vehicle: string, v: Shelf, pieces: seq<SplitPiece>): Shelf
    requires AllRegistered(cfg, pieces)
  {
    if pieces == [] then v
    else
      var n := |pieces| - 1;
      var before, piece := ShipMids(cfg, vehicle, v, pieces[..n]), pieces[n];
      if piece.position != MID then before
      else Shelf(before.local - {piece.savePath},
                 before.store[MidDest(cfg, vehicle, piece) := Read(before.local, piece.savePath)])
  }

  /** MID pieces are passed over. */
  function PostsOf(cfg: Config, vehicle: string, pieces: seq<SplitPiece>): seq<Msg>
    requires AllRegistered(cfg, pieces)
  {
    if pieces == [] then []
    else
      var n := |pieces| - 1;
      PostsOf(cfg, vehicle, pieces[..n])
      + (if pieces[n].position == MID then [] else [PostOf(cfg, vehicle, pieces[n])])
  }

  predicate UploadedAs(cfg: Config, vehicle: string, sp: SplitPiece, piece: Piece) {
    && Registered(cfg, sp.moduleName) && sp.position == MID
    && sp.savePath == piece.path && MidDest(cfg, vehicle, sp) == piece.dest
  }

  predicate PostedAs(cfg: Config, vehicle: string, sp: SplitPiece, piece: Piece) {
    Registered(cfg, sp.moduleName) && sp.position != MID && PostOf(cfg, vehicle, sp) == PostFor(piece)
  }

  /** The outcome of a split names exactly the job's pieces. */
  predicate OutcomeIs(cfg: Config, vehicle: string, outcome: SplitOutcome, job: Job) {
    && |outcome.processed| == job.mids && job.mids + |outcome.unprocessed| == |job.pieces|
    && (forall i :: 0 <= i < job.mids ==> UploadedAs(cfg, vehicle, outcome.processed[i], job.pieces[i]))
    && (forall i :: 0 <= i < |outcome.unprocessed| ==>
          PostedAs(cfg, vehicle, outcome.unprocessed[i], job.pieces[job.mids + i]))
  }

  lemma {:induction false} JoinLast(dirs: seq<string>, file: string)
    requires |dirs| >= 1
    ensures Join(dirs + [file]) == Join(dirs) + "/" + file
  {
    if |dirs| > 1 {
      JoinLast(dirs[1..], file);
      assert (dirs + [file])[1..] == dirs[1..] + [file];
    } else {
      assert (dirs + [file])[1..] == [file];
    }
  }

  /** A directory followed by a file name is the path of all segments. */
  lemma DirAndFile(base: string, dirs: seq<string>, file: string)
    requires |dirs| >= 1
    ensures Under(base, dirs) + "/" + file == Under(base, dirs + [file])
  {
    JoinLast(dirs, file);
  }

  lemma UploadDirIs(cfg: Config, vehicle: string, sp: SplitPiece, file: string)
    requires Registered(cfg, sp.moduleName)
    ensures UploadDir(cfg, vehicle, sp) + "/" + file
            == Under(cfg.storage, StampSegments(cfg, vehicle, sp.moduleName, sp.stamp, file))
  {
    var dirs := [vehicle, TypeDir(cfg, sp.moduleName), sp.moduleName, sp.stamp.date, sp.stamp.hours, sp.stamp.minutes];
    DirAndFile(cfg.storage, dirs, file);
    assert dirs + [file] == StampSegments(cfg, vehicle, sp.moduleName, sp.stamp, file);
  }

  lemma MidIsUploadedAs(cfg: Config, f: RawFile, sp: SplitPiece, second: nat)
    requires Ready(cfg, f) && ValidInputs(cfg, [f]) && sp.moduleName == PartsOf(f).moduleName && sp.stamp == StampOf(cfg.tz, second)
    requires sp.position == MID && sp.savePath == PieceOf(cfg, f, second, true).path
    ensures UploadedAs(cfg, f.vehicle, sp, PieceOf(cfg, f, second, true))
  {
    var p, name := PartsOf(f), SplitName(PartsOf(f).moduleName, sp.stamp.Label());
    assert f == [f][0];
    SplitNameFree(cfg, f, second);
    ReadySegmentsFree(cfg, f, name);
    BaseNameOfPath(cfg.cache, LocalSegments(cfg, f.vehicle, p, name));
    UploadDirIs(cfg, f.vehicle, sp, name);
  }

  lemma EndIsPostedAs(cfg: Config, f: RawFile, sp: SplitPiece, second: nat)
    requires Ready(cfg, f) && ValidInputs(cfg, [f]) && sp.moduleName == PartsOf(f).moduleName && sp.stamp == StampOf(cfg.tz, second)
    requires sp.position != MID && sp.savePath == PieceOf(cfg, f, second, false).path
    ensures PostedAs(cfg, f.vehicle, sp, PieceOf(cfg, f, second, false))
  {
    var m, name := PartsOf(f).moduleName, PlainName(PartsOf(f).moduleName, sp.stamp.Label());
    assert f == [f][0];
    SplitNameFree(cfg, f, second);
    StampSegmentsFree(cfg, f.vehicle, m, second);
    BaseNameOfPath(cfg.unpaired, StampSegments(cfg, f.vehicle, m, sp.stamp, name));
    UploadDirIs(cfg, f.vehicle, sp, name);
  }

  /** The `i`-th piece of the split is uploaded or posted as the `i`-th piece of the job. */
  predicate SplitAs(cfg: Config, vehicle: string, out: SplitOutcome, job: Job, i: nat) {
    && i < |out.processed + out.unprocessed| && i < |job.pieces|
    && if i < job.mids then UploadedAs(cfg, vehicle, (out.processed + out.unprocessed)[i], job.pieces[i])
       else PostedAs(cfg, vehicle, (out.processed + out.unprocessed)[i], job.pieces[i])
  }

  lemma OutcomeFromPieces(cfg: Config, vehicle: string, out: SplitOutcome, job: Job)
    requires |out.processed| == job.mids && job.mids + |out.unprocessed| == |job.pieces|
    requires forall i :: 0 <= i < |job.pieces| ==> SplitAs(cfg, vehicle, out, job, i)
    ensures OutcomeIs(cfg, vehicle, out, job)
  {
    forall i | 0 <= i < job.mids ensures UploadedAs(cfg, vehicle, out.processed[i], job.pieces[i]) {
      assert SplitAs(cfg, vehicle, out, job, i);
    }
    forall i | 0 <= i < |out.unprocessed| ensures PostedAs(cfg, vehicle, out.unprocessed[i], job.pieces[job.mids + i]) {
      assert SplitAs(cfg, vehicle, out, job, job.mids + i);
    }
  }

  lemma JobPieceSplitAs(cfg: Config, f: RawFile, i: nat)
    requires Ready(cfg, f) && ValidInputs(cfg, [f]) && i < |JobFor(cfg, f).pieces|
    ensures SplitAs(cfg, f.vehicle, OutcomeFor(SplitTemplate(cfg, f), cfg.tz, PartsOf(f).moduleName, KeysOf(f)), JobFor(cfg, f), i)
  {
    var out := OutcomeFor(SplitTemplate(cfg, f), cfg.tz, PartsOf(f).moduleName, KeysOf(f));
    SplitStepPieces(cfg, f, i);
    if i < JobFor(cfg, f).mids {
      MidIsUploadedAs(cfg, f, (out.processed + out.unprocessed)[i], WorkOrder(KeysOf(f))[i]);
    } else {
      EndIsPostedAs(cfg, f, (out.processed + out.unprocessed)[i], WorkOrder(KeysOf(f))[i]);
    }
  }

  lemma OutcomeIsJob(cfg: Config, f: RawFile)
    requires Ready(cfg, f) && ValidInputs(cfg, [f])
    ensures OutcomeIs(cfg, f.vehicle, OutcomeFor(SplitTemplate(cfg, f), cfg.tz, PartsOf(f).moduleName, KeysOf(f)), JobFor(cfg, f))
  {
    var out, job := OutcomeFor(SplitTemplate(cfg, f), cfg.tz, PartsOf(f).moduleName, KeysOf(f)), JobFor(cfg, f);
    OutcomeSizes(SplitTemplate(cfg, f), cfg.tz, PartsOf(f).moduleName, KeysOf(f));
    forall i | 0 <= i < |job.pieces| ensures SplitAs(cfg, f.vehicle, out, job, i) {
      JobPieceSplitAs(cfg, f, i);
    }
    OutcomeFromPieces(cfg, f.vehicle, out, job);
  }

  lemma OutcomeSizes(t: Template, tz: Offset, moduleName: string, ks: seq<nat>)
    ensures var out := OutcomeFor(t, tz, moduleName, ks);
            |out.processed| == |MidKeys(ks)| && |out.processed| + |out.unprocessed| == |WorkOrder(ks)|
  {
  }

  lemma {:induction false} ShippedMids(cfg: Config, vehicle: string, outcome: SplitOutcome, job: Job, v: Shelf, k: nat)
    requires OutcomeIs(cfg, vehicle, outcome, job) && k <= job.mids && AllRegistered(cfg, outcome.processed[..k])
    ensures ShipMids(cfg, vehicle, v, outcome.processed[..k]) == UploadAll(v, MidsOf(job)[..k])
  {
    if k > 0 {
      assert outcome.processed[..k][..k - 1] == outcome.processed[..k - 1];
      assert MidsOf(job)[..k][..k - 1] == MidsOf(job)[..k - 1];
      ShippedMids(cfg, vehicle, outcome, job, v, k - 1);
      assert UploadedAs(cfg, vehicle, outcome.processed[k - 1], job.pieces[k - 1]);
    }
  }

  lemma {:induction false} PostedEnds(cfg: Config, vehicle: string, outcome: SplitOutcome, job: Job, k: nat)
    requires OutcomeIs(cfg, vehicle, outcome, job) && k <= |outcome.unprocessed| && AllRegistered(cfg, outcome.unprocessed[..k])
    ensures PostsOf(cfg, vehicle, outcome.unprocessed[..k]) == PostsFor(EndsOf(job)[..k])
  {
    if k > 0 {
      assert outcome.unprocessed[..k][..k - 1] == outcome.unprocessed[..k - 1];
      PostedEnds(cfg, vehicle, outcome, job, k - 1);
      assert PostedAs(cfg, vehicle, outcome.unprocessed[k - 1], job.pieces[job.mids + k - 1]);
      assert PostsFor(EndsOf(job)[..k]) == PostsFor(EndsOf(job)[..k - 1]) + [PostFor(EndsOf(job)[k - 1])];
    }
  }

  lemma SourceBaseName(cfg: Config, f: RawFile)
    requires Ready(cfg, f) && ValidInputs(cfg, [f])
    ensures BaseName(JobFor(cfg, f).source) == f.name
  {
    assert f == [f][0];
    ReadySegmentsFree(cfg, f, f.name);
    BaseNameOfPath(cfg.cache, LocalSegments(cfg, f.vehicle, PartsOf(f), f.name));
  }

  function OwnPaths(job: Job): set<string> {
    {job.source} + set k | 0 <= k < |job.pieces| :: job.pieces[k].path
  }

  lemma OwnPathsOnly(job: Job, a: Files, b: Files)
    requires a - OwnPaths(job) == b - OwnPaths(job)
    ensures SameElsewhere(job, a, b)
  {
    forall p | p in a.Keys + b.Keys && !OwnPath(job, p) ensures p in a && p in b && a[p] == b[p] {
      assert p !in OwnPaths(job);
      assert p in (a - OwnPaths(job)).Keys + (b - OwnPaths(job)).Keys;
      assert (a - OwnPaths(job))[p] == (b - OwnPaths(job))[p];
    }
  }

  // ---------- the worker ----------

  class NormalizerModule {
    const cfg: Config
    const disk: Disk
    const store: ObjectStore
    const splitter: LocalPcapSplitter
    var outbox: seq<Msg>

    predicate Wired() {
      splitter.disk == disk && splitter.tz == cfg.tz
    }

    constructor (cfg: Config, disk: Disk, store: ObjectStore, splitter: LocalPcapSplitter)
      requires splitter.disk == disk && splitter.tz == cfg.tz
      ensures this.cfg == cfg && this.disk == disk && this.store == store && Wired() && outbox == []
    {
      this.cfg := cfg;
      this.disk := disk;
      this.store := store;
      this.splitter := splitter;
      outbox := [];
    }

    function Now(): Shelf
      reads disk, store
    {
      Shelf(disk.files, store.objects)
    }

    /** A download that fails may leave anything at its destination. */
    method Download(f: RawFile, path: string) returns (ok: bool)
      modifies disk
      ensures ok ==> disk.files == old(disk.files)[path := f.bytes]
      ensures !ok ==> disk.files - {path} == old(disk.files) - {path}
    {
      ok := *;
      if ok {
        disk.Create(path);
        disk.Append(path, f.bytes);
        assert [] + f.bytes == f.bytes;
      } else {
        disk.LeaveAnything({path});
      }
    }

    /** An exception inside split_once, or at the removal, may leave anything at the job's own paths. */
    method SplitPcap(f: RawFile) returns (outcome: SplitOutcome, ok: bool)
      requires Wired() && Ready(cfg, f) && ValidInputs(cfg, [f])
      requires JobFor(cfg, f).source in disk.files && disk.files[JobFor(cfg, f).source] == f.bytes
      modifies disk
      ensures ok ==> disk.files == WriteAll(old(disk.files), JobFor(cfg, f).pieces) - {JobFor(cfg, f).source}
      ensures ok ==> outcome == OutcomeFor(SplitTemplate(cfg, f), cfg.tz, PartsOf(f).moduleName, KeysOf(f))
      ensures !ok ==> SameElsewhere(JobFor(cfg, f), old(disk.files), disk.files)
    {
      ok := *;
      if ok {
        outcome := SplitAndRemove(f, SourcePath(cfg, f.vehicle, f.name, PartsOf(f)), SplitTemplate(cfg, f));
      } else {
        outcome := SplitOutcome([], []);
        disk.LeaveAnything(OwnPaths(JobFor(cfg, f)));
        OwnPathsOnly(JobFor(cfg, f), old(disk.files), disk.files);
      }
    }

    method SplitAndRemove(f: RawFile, source: string, template: Template) returns (outcome: SplitOutcome)
      requires Wired() && Ready(cfg, f) && ValidInputs(cfg, [f])
      requires source == JobFor(cfg, f).source && template == SplitTemplate(cfg, f)
      requires source in disk.files && disk.files[source] == f.bytes
      modifies disk
      ensures disk.files == WriteAll(old(disk.files), JobFor(cfg, f).pieces) - {source}
      ensures outcome == OutcomeFor(template, cfg.tz, PartsOf(f).moduleName, KeysOf(f))
    {
      SourceBaseName(cfg, f);
      SplitOnceWritesPieces(cfg, f, disk.files);
      var r := splitter.SplitOnce(source, template);
      outcome := r.value;
      disk.RemoveIfPresent(source);
    }

    /** The MID pieces one by one; after a failed upload the pieces before it stay uploaded. */
    method UploadProcessed(vehicle: string, processed: seq<SplitPiece>) returns (done: nat, ok: bool)
      requires AllRegistered(cfg, processed)
      modifies disk, store
      ensures done <= |processed| && (ok ==> done == |processed|)
      ensures Now() == ShipMids(cfg, vehicle, old(Now()), processed[..done])
    {
      done := 0;
      while done < |processed|
        invariant done <= |processed|
        invariant Now() == ShipMids(cfg, vehicle, old(Now()), processed[..done])
      {
        var piece := processed[done];
        assert processed[..done + 1][..done] == processed[..done];
        if piece.position != MID {
          done := done + 1;
          continue;
        }
        ok := store.Upload(disk, piece.savePath, MidDest(cfg, vehicle, piece));
        if !ok {
          return;
        }
        disk.RemoveIfPresent(piece.savePath);
        done := done + 1;
      }
      ok := true;
    }

    method SendUnprocessedToManager(vehicle: string, unprocessed: seq<SplitPiece>)
      requires AllRegistered(cfg, unprocessed)
      modifies this`outbox
      ensures outbox == old(outbox) + PostsOf(cfg, vehicle, unprocessed)
    {
      for i := 0 to |unprocessed|
        invariant outbox == old(outbox) + PostsOf(cfg, vehicle, unprocessed[..i])
      {
        var piece := unprocessed[i];
        assert unprocessed[..i + 1][..i] == unprocessed[..i];
        if piece.position == MID {
          continue;
        }
        outbox := outbox + [PostOf(cfg, vehicle, piece)];
      }
      assert unprocessed[..|unprocessed|] == unprocessed;
    }

    /** One job. A failure posts no piece and touches no path that is not the job's own. */
    method ProcessFile(f: RawFile) returns (ok: bool)
      requires Wired() && ValidInputs(cfg, [f])
      modifies disk, store, this`outbox
      ensures ok ==> Ready(cfg, f)
      ensures ok ==> outbox == old(outbox) + PostsFor(EndsOf(JobFor(cfg, f)))
      ensures ok ==> Completed(JobFor(cfg, f), old(Now()), Now())
      ensures !ok ==> outbox == old(outbox) && Failed(JobFor(cfg, f), old(Now()), Now())
    {
      ghost var begun := Now();
      var parts := Parse(f.name);
      if parts.None? || !Registered(cfg, parts.value.moduleName) {
        FailedEarly(JobFor(cfg, f), begun, Now());
        return false;
      }
      var job := JobFor(cfg, f);
      ok := Download(f, job.source);
      if !ok {
        DownloadTouchesSource(job, begun.local, disk.files);
        FailedEarly(job, begun, Now());
        return;
      }
      ghost var fetched := disk.files;
      var outcome;
      outcome, ok := SplitPcap(f);
      if !ok {
        FetchTouchesSource(job, begun.local);
        TouchTwice(job, begun.local, fetched, disk.files);
        FailedEarly(job, begun, Now());
        return;
      }
      OutcomeIsJob(cfg, f);
      ghost var done;
      done, ok := ShipPieces(f.vehicle, outcome, job);
      if !ok {
        FailedUpload(job, begun, Now(), done);
      }
    }

    /** The MID pieces are uploaded before any HEAD or TAIL piece is posted. */
    method ShipPieces(vehicle: string, outcome: SplitOutcome, ghost job: Job) returns (ghost done: nat, ok: bool)
      requires OutcomeIs(cfg, vehicle, outcome, job)
      modifies disk, store, this`outbox
      ensures done <= job.mids && Now() == UploadAll(old(Now()), MidsOf(job)[..done])
      ensures ok ==> Now() == UploadAll(old(Now()), MidsOf(job)) && outbox == old(outbox) + PostsFor(EndsOf(job))
      ensures !ok ==> outbox == old(outbox)
    {
      OutcomeRegistered(cfg, vehicle, outcome, job);
      var n;
      n, ok := UploadProcessed(vehicle, outcome.processed);
      done := n;
      ShippedMids(cfg, vehicle, outcome, job, old(Now()), done);
      if ok {
        assert MidsOf(job)[..done] == MidsOf(job);
        PostedEnds(cfg, vehicle, outcome, job, |outcome.unprocessed|);
        assert outcome.unprocessed[..|outcome.unprocessed|] == outcome.unprocessed;
        assert EndsOf(job)[..|outcome.unprocessed|] == EndsOf(job);
        SendUnprocessedToManager(vehicle, outcome.unprocessed);
      }
    }

    /** Whatever happens to the job, its JobDone is the last message posted. */
    method Action(f: RawFile) returns (success: bool)
      requires Wired() && ValidInputs(cfg, [f])
      modifies disk, store, this`outbox
      ensures outbox == old(outbox) + (if success then PostsFor(EndsOf(JobFor(cfg, f))) else []) + [JobDone(success)]
      ensures if success then Completed(JobFor(cfg, f), old(Now()), Now()) else Failed(JobFor(cfg, f), old(Now()), Now())
    {
      success := ProcessFile(f);
      outbox := outbox + [JobDone(success)];
    }
  }

  lemma OutcomeRegistered(cfg: Config, vehicle: string, outcome: SplitOutcome, job: Job)
    requires OutcomeIs(cfg, vehicle, outcome, job)
    ensures AllRegistered(cfg, outcome.processed) && AllRegistered(cfg, outcome.unprocessed)
  {
    forall i | 0 <= i < |outcome.processed| ensures Registered(cfg, outcome.processed[i].moduleName) {
      assert UploadedAs(cfg, vehicle, outcome.processed[i], job.pieces[i]);
    }
    forall i | 0 <= i < |outcome.unprocessed| ensures Registered(cfg, outcome.unprocessed[i].moduleName) {
      assert PostedAs(cfg, vehicle, outcome.unprocessed[i], job.pieces[job.mids + i]);
    }
  }

  lemma FailedEarly(job: Job, before: Shelf, after: Shelf)
    requires job.mids <= |job.pieces| && after.store == before.store && SameElsewhere(job, before.local, after.local)
    ensures Failed(job, before, after)
  {
    assert MidsOf(job)[..0] == [];
    assert UploadedBefore(job, before.local, before.store, after.store, 0);
  }

  lemma FetchTouchesSource(job: Job, local: Files)
    ensures SameElsewhere(job, local, local[job.source := job.raw])
  {
  }

  lemma DownloadTouchesSource(job: Job, a: Files, b: Files)
    requires a - {job.source} == b - {job.source}
    ensures SameElsewhere(job, a, b)
  {
    forall p | p in a.Keys + b.Keys && !OwnPath(job, p) ensures p in a && p in b && a[p] == b[p] {
      assert p in (a - {job.source}).Keys + (b - {job.source}).Keys;
      assert (a - {job.source})[p] == (b - {job.source})[p];
    }
  }

  lemma SplitTouchesOwn(job: Job, local: Files)
    ensures SameElsewhere(job, local, AfterSplit(local, job))
  {
    var written := local[job.source := job.raw];
    forall p | p in local.Keys + AfterSplit(local, job).Keys && !OwnPath(job, p)
      ensures p in local && p in AfterSplit(local, job) && AfterSplit(local, job)[p] == local[p]
    {
      NotWritten(written, job.pieces, p);
    }
  }

  lemma {:induction false} UploadTouchesOwn(job: Job, v: Shelf, done: nat)
    requires done <= job.mids <= |job.pieces|
    ensures SameElsewhere(job, v.local, UploadAll(v, MidsOf(job)[..done]).local)
  {
    if done > 0 {
      UploadTouchesOwn(job, v, done - 1);
      assert MidsOf(job)[..done][..done - 1] == MidsOf(job)[..done - 1];
      assert OwnPath(job, job.pieces[done - 1].path);
    }
  }

  lemma FailedUpload(job: Job, before: Shelf, after: Shelf, done: nat)
    requires job.ready && done <= job.mids <= |job.pieces|
    requires after == UploadAll(Shelf(AfterSplit(before.local, job), before.store), MidsOf(job)[..done])
    ensures Failed(job, before, after)
  {
    UploadedTouchesOwn(job, before, done);
    assert UploadedBefore(job, before.local, before.store, after.store, done);
  }

  lemma TouchTwice(job: Job, a: Files, b: Files, c: Files)
    requires SameElsewhere(job, a, b) && SameElsewhere(job, b, c)
    ensures SameElsewhere(job, a, c)
  {
  }

  // ---------- the same job, step by step in the protocol ----------

  function ShelfOf(s: State): Shelf {
    Shelf(s.local, s.store)
  }

  /** From one state a run leads to another. */
  ghost predicate Leads(plan: Plan, s: State, t: State) {
    exists run, steps :: IsRun(plan, run, steps) && run[0] == s && run[|steps|] == t
  }

  lemma LeadsOneMore(plan: Plan, s: State, t: State, step: Step)
    requires Leads(plan, s, t) && Enabled(plan, t, step)
    ensures Leads(plan, s, Apply(plan, t, step))
  {
    var run, steps :| IsRun(plan, run, steps) && run[0] == s && run[|steps|] == t;
    var run', steps' := run + [Apply(plan, t, step)], steps + [step];
    assert IsRun(plan, run', steps') by {
      forall i | 0 <= i < |steps'| ensures Enabled(plan, run'[i], steps'[i]) && run'[i + 1] == Apply(plan, run'[i], steps'[i]) {
        if i < |steps| {
          assert run'[i] == run[i] && run'[i + 1] == run[i + 1];
        }
      }
    }
    assert run'[|steps'|] == Apply(plan, t, step);
  }

  /** A state after the worker has handled its first `k` pieces and nobody else has moved. */
  ghost predicate Alone(s: State, t: State, w: nat, k: nat) {
    Holding(s, w) && Holding(t, w) && t.holds == s.holds && |t.outboxes| == |s.outboxes| && PhaseOf(t, w) == Working(k)
  }

  lemma DownloadAndSplitAlone(plan: Plan, s: State, w: nat) returns (t: State)
    requires HoldsJob(plan, s, w) && PhaseOf(s, w) == Fetching && JobOf(plan, s, w).ready
    ensures Leads(plan, s, t) && Alone(s, t, w, 0) && t.outboxes == s.outboxes
    ensures ShelfOf(t) == Shelf(AfterSplit(s.local, JobOf(plan, s, w)), s.store)
  {
    assert IsRun(plan, [s], []) && [s][0] == s;
    assert Leads(plan, s, s);
    var fetched := Apply(plan, s, Fetch(w));
    LeadsOneMore(plan, s, s, Fetch(w));
    t := Apply(plan, fetched, Split(w));
    LeadsOneMore(plan, s, fetched, Split(w));
  }

  lemma {:induction false} UploadAlone(plan: Plan, s: State, w: nat, k: nat) returns (t: State)
    requires HoldsJob(plan, s, w) && PhaseOf(s, w) == Fetching && JobOf(plan, s, w).ready
    requires k <= JobOf(plan, s, w).mids <= |JobOf(plan, s, w).pieces|
    ensures Leads(plan, s, t) && Alone(s, t, w, k) && t.outboxes == s.outboxes
    ensures ShelfOf(t) == UploadAll(Shelf(AfterSplit(s.local, JobOf(plan, s, w)), s.store), JobOf(plan, s, w).pieces[..k])
  {
    if k == 0 {
      t := DownloadAndSplitAlone(plan, s, w);
      assert JobOf(plan, s, w).pieces[..0] == [];
    } else {
      var before := UploadAlone(plan, s, w, k - 1);
      t := Apply(plan, before, UploadMid(w));
      LeadsOneMore(plan, s, before, UploadMid(w));
      assert JobOf(plan, s, w).pieces[..k][..k - 1] == JobOf(plan, s, w).pieces[..k - 1];
    }
  }

  lemma {:induction false} PostAlone(plan: Plan, s: State, w: nat, k: nat) returns (t: State)
    requires HoldsJob(plan, s, w) && PhaseOf(s, w) == Fetching && JobOf(plan, s, w).ready
    requires JobOf(plan, s, w).mids <= k <= |JobOf(plan, s, w).pieces|
    ensures Leads(plan, s, t) && Alone(s, t, w, k)
    ensures t.outboxes[w] == s.outboxes[w] + PostsFor(JobOf(plan, s, w).pieces[JobOf(plan, s, w).mids..k])
    ensures ShelfOf(t) == UploadAll(Shelf(AfterSplit(s.local, JobOf(plan, s, w)), s.store), MidsOf(JobOf(plan, s, w)))
  {
    var job := JobOf(plan, s, w);
    if k == job.mids {
      t := UploadAlone(plan, s, w, k);
      assert PostsFor(job.pieces[k..k]) == [];
    } else {
      var before := PostAlone(plan, s, w, k - 1);
      t := Apply(plan, before, Post(w));
      LeadsOneMore(plan, s, before, Post(w));
      PostsGrow(job, k);
    }
  }

  lemma PostsGrow(job: Job, k: nat)
    requires job.mids < k <= |job.pieces|
    ensures PostsFor(job.pieces[job.mids..k]) == PostsFor(job.pieces[job.mids..k - 1]) + [PostFor(job.pieces[k - 1])]
  {
  }

  /** Every way in which Action fails is a run of the protocol: an Abort at once, or download, split, some
      uploads and then an Abort. */
  lemma FailureIsSteps(plan: Plan, s: State, w: nat, after: Shelf) returns (t: State)
    requires HoldsJob(plan, s, w) && PhaseOf(s, w) == Fetching
    requires Failed(JobOf(plan, s, w), ShelfOf(s), after)
    ensures Leads(plan, s, t) && w < |t.outboxes| && t.holds == s.holds[w := None]
    ensures t.outboxes[w] == s.outboxes[w] + [JobDone(false)] && ShelfOf(t) == after
  {
    var job := JobOf(plan, s, w);
    var k: nat :| UploadedBefore(job, s.local, s.store, after.store, k);
    if k == 0 {
      assert IsRun(plan, [s], []) && [s][0] == s;
      assert Leads(plan, s, s);
      assert MidsOf(job)[..0] == [];
      t := AbortFrom(plan, s, s, w, after.local);
    } else {
      var last := UploadAlone(plan, s, w, k);
      assert MidsOf(job)[..k] == job.pieces[..k];
      UploadedTouchesOwn(job, ShelfOf(s), k);
      TouchBack(job, s.local, last.local, after.local);
      t := AbortFrom(plan, s, last, w, after.local);
    }
  }

  lemma AbortFrom(plan: Plan, s: State, last: State, w: nat, after: Files) returns (t: State)
    requires Leads(plan, s, last) && HoldsJob(plan, last, w)
    requires PhaseOf(last, w) == Fetching
             || (PhaseOf(last, w).Working? && PhaseOf(last, w).done <= JobOf(plan, last, w).mids)
    requires SameElsewhere(JobOf(plan, last, w), last.local, after)
    ensures Leads(plan, s, t) && w < |t.outboxes| && t.holds == last.holds[w := None]
    ensures t.outboxes[w] == last.outboxes[w] + [JobDone(false)] && ShelfOf(t) == Shelf(after, last.store)
  {
    t := Apply(plan, last, Abort(w, after));
    LeadsOneMore(plan, s, last, Abort(w, after));
  }

  lemma UploadedTouchesOwn(job: Job, before: Shelf, k: nat)
    requires k <= job.mids <= |job.pieces|
    ensures SameElsewhere(job, before.local, UploadAll(Shelf(AfterSplit(before.local, job), before.store), MidsOf(job)[..k]).local)
  {
    var split := AfterSplit(before.local, job);
    SplitTouchesOwn(job, before.local);
    UploadTouchesOwn(job, Shelf(split, before.store), k);
    TouchTwice(job, before.local, split, UploadAll(Shelf(split, before.store), MidsOf(job)[..k]).local);
  }

  lemma TouchBack(job: Job, a: Files, b: Files, c: Files)
    requires SameElsewhere(job, a, b) && SameElsewhere(job, a, c)
    ensures SameElsewhere(job, b, c)
  {
  }

  /** A worker that is left alone takes its job to the end by protocol steps, with the effect that
      Action ensures: the MID pieces uploaded, the others posted, JobDone last. */
  lemma ActionIsSteps(plan: Plan, s: State, w: nat) returns (t: State)
    requires HoldsJob(plan, s, w) && PhaseOf(s, w) == Fetching && JobOf(plan, s, w).ready
    requires JobOf(plan, s, w).mids <= |JobOf(plan, s, w).pieces|
    ensures var job := JobOf(plan, s, w);
            && Leads(plan, s, t) && w < |t.outboxes| && t.holds == s.holds[w := None]
            && t.outboxes[w] == s.outboxes[w] + PostsFor(EndsOf(job)) + [JobDone(true)]
            && Completed(job, ShelfOf(s), ShelfOf(t))
  {
    var job := JobOf(plan, s, w);
    var last := PostAlone(plan, s, w, |job.pieces|);
    assert job.pieces[job.mids..|job.pieces|] == EndsOf(job);
    t := Apply(plan, last, Report(w));
    LeadsOneMore(plan, s, last, Report(w));
  }
}
