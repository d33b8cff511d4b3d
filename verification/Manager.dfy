/** NormalizerManager: dispatching, merging and sweeping as the manager process runs them between two
    reads of its mailbox, and the proof that these are the manager steps of the protocol. */
module Manager {
  import opened FileSystem
  import opened SplitSpec
  import opened Splitter
  import opened Protocol
  import opened ProcessState

  /** The object store; an upload fails when the local file is missing or the network does. */
  class ObjectStore {
    var objects: Files

    constructor ()
      ensures objects == map[]
    {
      objects := map[];
    }

    method Upload(disk: Disk, path: string, dest: string) returns (ok: bool)
      modifies this
      ensures ok ==> path in disk.files && objects == old(objects)[dest := disk.files[path]]
      ensures !ok ==> objects == old(objects)
    {
      ok := *;
      if path !in disk.files { ok := false; }
      if ok { objects := objects[dest := disk.files[path]]; }
    }
  }

  // ---------- effects as functions ----------

  datatype View = View(buckets: map<string, seq<Item>>, progress: Progress, local: Files, store: Files)

  /** Merge, upload under the first piece's names, remove the output and the inputs. */
  function MergeEffect(v: View, pair: seq<Item>): View
    requires pair != []
  {
    var content := Merged(ReadAll(v.local, pair));
    v.(local := v.local[pair[0].out := content] - ({pair[0].out} + Paths(pair)),
       store := v.store[pair[0].prefix := content])
  }

  function DispatchEffect(v: View, msg: Msg): View {
    match msg
    case JobDone(success) => v.(progress := MarkOneDone(v.progress, success))
    case PairPut(key, item) =>
      var after := v.(buckets := PutBuckets(v.buckets, key, item));
      match PutResult(v.buckets, key, item)
      case None => after
      case Some(pair) => MergeEffect(after, pair)
  }

  function DrainEffect(v: View, mail: seq<Msg>): View {
    if mail == [] then v
    else DispatchEffect(DrainEffect(v, mail[..|mail| - 1]), mail[|mail| - 1])
  }

  /** Upload the first piece of a bucket and remove it. */
  function SweepOne(v: View, bucket: seq<Item>): View
    requires bucket != []
  {
    v.(store := v.store[bucket[0].prefix := Read(v.local, bucket[0].src)], local := v.local - {bucket[0].src})
  }

  function SweepEffect(v: View, rest: seq<seq<Item>>): View
    requires forall i :: 0 <= i < |rest| ==> rest[i] != []
  {
    if rest == [] then v else SweepOne(SweepEffect(v, rest[..|rest| - 1]), rest[|rest| - 1])
  }

  /** Merge outputs are not among the inputs: what the naming of the workers guarantees. */
  predicate OutsApart(items: set<Item>) {
    forall a, b :: a in items && b in items ==> a.out != b.src
  }

  /** All pieces posted in `mail`. */
  function MailedItems(mail: seq<Msg>): set<Item> {
    if mail == [] then {}
    else MailedItems(mail[..|mail| - 1]) + (if mail[|mail| - 1].PairPut? then {mail[|mail| - 1].item} else {})
  }

  predicate ItemsFrom(bucket: seq<Item>, items: set<Item>) {
    forall i :: 0 <= i < |bucket| ==> bucket[i] in items
  }

  predicate BucketsFrom(buckets: map<string, seq<Item>>, items: set<Item>) {
    forall k :: k in buckets ==> buckets[k] != [] && ItemsFrom(buckets[k], items)
  }

  function BucketWith(buckets: map<string, seq<Item>>, key: string, item: Item): seq<Item> {
    (if key in buckets then buckets[key] else []) + [item]
  }

  /** No input of the bucket is the output it would be merged into. */
  predicate Mergeable(bucket: seq<Item>) {
    forall i :: 0 <= i < |bucket| ==> bucket[i].src != bucket[0].out
  }

  /** A merge or its upload has raised while this message was dispatched: the pair has left its bucket,
      counters and objects are as before, and of the disk only the merge output may differ. */
  predicate MergeRaised(before: View, msg: Msg, after: View) {
    && msg.PairPut? && after.buckets == PutBuckets(before.buckets, msg.key, msg.item)
    && after.progress == before.progress && after.store == before.store
    && var out := BucketWith(before.buckets, msg.key, msg.item)[0].out;
       after.local - {out} == before.local - {out}
  }

  /** How a cycle ends and after how many messages: with the sweep completed; out of messages; with a merge
      that raised; with an upload of the sweep that raised after some buckets. */
  datatype CycleEnd = SweptAll(taken: nat) | NoMessage | MergeFailed(taken: nat) | UploadFailed(taken: nat, swept: nat)

  /** The state a cycle leaves in each of these cases. */
  ghost predicate CycleEnds(begun: View, mail: seq<Msg>, end: CycleEnd, order: seq<string>, after: View) {
    match end
    case SweptAll(taken) =>
      && Swept(begun, mail, taken, order)
      && var drained := DrainEffect(begun, mail[..taken]);
         after == SweepEffect(drained.(buckets := map[]), Taken(drained.buckets, order))
    case UploadFailed(taken, swept) =>
      && Swept(begun, mail, taken, order) && swept < |order|
      && var drained := DrainEffect(begun, mail[..taken]);
         after == SweepEffect(drained.(buckets := map[]), Taken(drained.buckets, order)[..swept])
    case NoMessage => after == DrainEffect(begun, mail) && after.progress.remaining > 0
    case MergeFailed(taken) =>
      0 < taken <= |mail| && MergeRaised(DrainEffect(begun, mail[..taken - 1]), mail[taken - 1], after)
  }

  /** The counter was above zero before each of the first `n` messages. */
  ghost predicate StillCounting(begun: View, mail: seq<Msg>, n: nat) {
    n <= |mail| && forall i :: 0 <= i < n ==> DrainEffect(begun, mail[..i]).progress.remaining > 0
  }

  /** After `taken` messages, and not before, the counter is at zero, and `order` lists the keys left. */
  ghost predicate Swept(begun: View, mail: seq<Msg>, taken: nat, order: seq<string>) {
    && taken <= |mail| && DrainEffect(begun, mail[..taken]).progress.remaining <= 0
    && StillCounting(begun, mail, taken)
    && Lists(order, DrainEffect(begun, mail[..taken]).buckets.Keys)
    && forall k :: k in DrainEffect(begun, mail[..taken]).buckets ==> DrainEffect(begun, mail[..taken]).buckets[k] != []
  }

  lemma PathsOneMore(items: seq<Item>, item: Item)
    ensures Paths(items + [item]) == Paths(items) + {item.src}
  {
    assert (items + [item])[|items|] == item;
    forall i | 0 <= i < |items| ensures items[i].src in Paths(items + [item]) {
      assert (items + [item])[i] == items[i];
    }
  }

  /** What the manager pushes for a worker to take. */
  datatype StorageFile = StorageFile(path: string, name: string)

  class JobQueue {
    var items: seq<StorageFile>

    constructor ()
      ensures items == []
    {
      items := [];
    }

    method Push(file: StorageFile)
      modifies this
      ensures items == old(items) + [file]
    {
      items := items + [file];
    }
  }

  class NormalizerManager {
    const jobQueue: JobQueue
    const disk: Disk
    const store: ObjectStore
    const splitter: LocalPcapSplitter
    const progress: JobProgressTracker
    var pairBuckets: PairBuckets<Item>

    predicate Wired() {
      splitter.disk == disk
    }

    function Current(): View
      reads this, pairBuckets, progress, disk, store
    {
      View(pairBuckets.buckets, progress.Value(), disk.files, store.objects)
    }

    constructor (jobQueue: JobQueue, disk: Disk, store: ObjectStore, splitter: LocalPcapSplitter)
      requires splitter.disk == disk
      ensures this.jobQueue == jobQueue && this.disk == disk && this.store == store && Wired() && fresh(pairBuckets) && fresh(progress)
      ensures Current() == View(map[], Progress(0, 0, 0), disk.files, store.objects)
    {
      this.jobQueue := jobQueue;
      this.disk := disk;
      this.store := store;
      this.splitter := splitter;
      pairBuckets := new PairBuckets<Item>();
      progress := new JobProgressTracker();
    }

    /** A failed merge or upload raises: nothing is uploaded, and only the output may be left behind. */
    method MergePair(pair: seq<Item>) returns (ok: bool)
      requires Wired() && pair != [] && Mergeable(pair)
      modifies disk, store
      ensures ok ==> Current() == MergeEffect(old(Current()), pair)
      ensures ok ==> forall i :: 0 <= i < |pair| ==> pair[i].src in old(disk.files)
      ensures !ok ==> store.objects == old(store.objects)
      ensures !ok ==> disk.files - {pair[0].out} == old(disk.files) - {pair[0].out}
    {
      var paths := Sources(pair);
      var out := pair[0].out;
      var missing := splitter.MergePcapFiles(paths, out);
      if missing.Some? {
        return false;
      }
      NoneMissing(old(disk.files), paths);
      assert forall i :: 0 <= i < |pair| ==> pair[i].src == paths[i];
      MergeOfPresent(old(disk.files), paths, out);
      assert ReadAll(old(disk.files), pair) == Contents(old(disk.files), paths);
      ok := store.Upload(disk, out, pair[0].prefix);
      if !ok {
        return;
      }
      disk.RemoveIfPresent(out);
      RemoveInputs(pair);
      assert disk.files == old(disk.files)[out := Merged(ReadAll(old(disk.files), pair))] - ({out} + Paths(pair));
    }

    method RemoveInputs(items: seq<Item>)
      modifies disk
      ensures disk.files == old(disk.files) - Paths(items)
    {
      for i := 0 to |items|
        invariant disk.files == old(disk.files) - Paths(items[..i])
      {
        disk.RemoveIfPresent(items[i].src);
        assert items[..i + 1] == items[..i] + [items[i]];
        PathsOneMore(items[..i], items[i]);
      }
      assert items[..|items|] == items;
    }

    method DispatchMessage(msg: Msg) returns (ok: bool)
      requires Wired()
      requires msg.PairPut? ==> Mergeable(BucketWith(pairBuckets.buckets, msg.key, msg.item))
      modifies disk, store, pairBuckets, progress
      ensures ok ==> Current() == DispatchEffect(old(Current()), msg)
      ensures !ok ==> MergeRaised(old(Current()), msg, Current())
    {
      match msg {
        case JobDone(success) =>
          progress.MarkOneDone(success);
          ok := true;
        case PairPut(key, item) =>
          var paired := pairBuckets.Put(key, item);
          if paired.Some? {
            assert paired.value == BucketWith(old(pairBuckets.buckets), key, item);
            ok := MergePair(paired.value);
          } else {
            ok := true;
          }
      }
    }

    /** Messages are dispatched in delivery order until the counter is at zero, and no longer; `mail` is
        what is delivered while the loop runs.  A merge that raises ends the loop at its message. */
    method DrainWorkerMessages(mail: seq<Msg>) returns (taken: nat, ok: bool)
      requires Wired() && OutsApart(MailedItems(mail)) && pairBuckets.buckets == map[]
      modifies disk, store, pairBuckets, progress
      ensures taken <= |mail|
      ensures ok ==> Current() == DrainEffect(old(Current()), mail[..taken])
      ensures ok ==> progress.IsDone() || taken == |mail|
      ensures !ok ==> taken > 0 && MergeRaised(DrainEffect(old(Current()), mail[..taken - 1]), mail[taken - 1], Current())
      ensures StillCounting(old(Current()), mail, taken)
    {
      taken, ok := 0, true;
      ghost var begun := Current();
      while !progress.IsDone() && taken < |mail|
        invariant StillCounting(begun, mail, taken)
        invariant Current() == DrainEffect(begun, mail[..taken])
        invariant BucketsFrom(pairBuckets.buckets, MailedItems(mail[..taken]))
      {
        CountingOn(begun, mail, taken);
        ok := DispatchNext(begun, mail, taken);
        taken := taken + 1;
        if !ok {
          return;
        }
      }
    }

    /** One turn of the drain loop. */
    method DispatchNext(ghost begun: View, mail: seq<Msg>, i: nat) returns (ok: bool)
      requires Wired() && OutsApart(MailedItems(mail)) && i < |mail|
      requires Current() == DrainEffect(begun, mail[..i]) && BucketsFrom(pairBuckets.buckets, MailedItems(mail[..i]))
      modifies disk, store, pairBuckets, progress
      ensures ok ==> Current() == DrainEffect(begun, mail[..i + 1])
      ensures ok ==> BucketsFrom(pairBuckets.buckets, MailedItems(mail[..i + 1]))
      ensures !ok ==> MergeRaised(DrainEffect(begun, mail[..i]), mail[i], Current())
    {
      ghost var seen, msg := mail[..i], mail[i];
      assert mail[..i + 1] == seen + [msg] && (seen + [msg])[..|seen|] == seen;
      MailedPrefix(mail, i + 1);
      DispatchIsApart(pairBuckets.buckets, seen, msg);
      if mail[i].PairPut? {
        ApartIsMergeable(BucketWith(pairBuckets.buckets, msg.key, msg.item), MailedItems(seen + [msg]), MailedItems(mail));
      }
      ok := DispatchMessage(mail[i]);
    }

    /** A failed upload ends the sweep; the buckets before it stay uploaded, the rest stays on disk. */
    method UploadUnpaired(unpaired: seq<seq<Item>>) returns (done: nat, ok: bool)
      requires forall i :: 0 <= i < |unpaired| ==> unpaired[i] != []
      modifies disk, store
      ensures done <= |unpaired| && (ok <==> done == |unpaired|)
      ensures Current() == SweepEffect(old(Current()), unpaired[..done])
    {
      done := 0;
      while done < |unpaired|
        invariant done <= |unpaired|
        invariant Current() == SweepEffect(old(Current()), unpaired[..done])
      {
        var head := unpaired[done][0];
        ok := store.Upload(disk, head.src, head.prefix);
        if !ok {
          return;
        }
        disk.RemoveIfPresent(head.src);
        assert unpaired[..done + 1][..done] == unpaired[..done];
        done := done + 1;
      }
      ok := true;
    }

    /** One cycle of the manager against the messages delivered to it: queue the jobs, drain until the
        counter is at zero, then sweep what is left in the buckets. */
    method RunCycle(jobs: seq<StorageFile>, mail: seq<Msg>) returns (end: CycleEnd, ghost order: seq<string>)
      requires Wired() && OutsApart(MailedItems(mail))
      modifies this, jobQueue, disk, store, progress
      ensures jobQueue.items == old(jobQueue.items) + jobs
      ensures CycleEnds(old(Current()).(buckets := map[], progress := Progress(|jobs|, 0, 0)), mail, end, order, Current())
    {
      pairBuckets := new PairBuckets<Item>();
      progress.BeginCycle(|jobs|);
      PushJobs(jobs);
      end, order := DrainAndSweep(mail);
    }

    method PushJobs(jobs: seq<StorageFile>)
      modifies jobQueue
      ensures jobQueue.items == old(jobQueue.items) + jobs
    {
      for i := 0 to |jobs|
        invariant jobQueue.items == old(jobQueue.items) + jobs[..i]
      {
        jobQueue.Push(jobs[i]);
      }
      assert jobs[..|jobs|] == jobs;
    }

    method DrainAndSweep(mail: seq<Msg>) returns (end: CycleEnd, ghost order: seq<string>)
      requires Wired() && OutsApart(MailedItems(mail)) && pairBuckets.buckets == map[]
      modifies disk, store, pairBuckets, progress
      ensures CycleEnds(old(Current()), mail, end, order, Current())
    {
      ghost var begun := Current();
      order := [];
      var taken, ok := DrainWorkerMessages(mail);
      if !ok {
        return MergeFailed(taken), order;
      }
      if !progress.IsDone() {
        assert mail[..|mail|] == mail;
        return NoMessage, order;
      }
      ghost var drained := Current();
      DrainedBuckets(begun, mail[..taken]);
      var remaining;
      remaining, order := pairBuckets.PopAllRemaining();
      assert remaining == Taken(drained.buckets, order);
      var swept;
      swept, ok := UploadUnpaired(remaining);
      end := if ok then SweptAll(taken) else UploadFailed(taken, swept);
      assert remaining[..|remaining|] == remaining;
    }
  }

  lemma CountingOn(begun: View, mail: seq<Msg>, n: nat)
    requires StillCounting(begun, mail, n) && n < |mail| && DrainEffect(begun, mail[..n]).progress.remaining > 0
    ensures StillCounting(begun, mail, n + 1)
  {
  }

  lemma {:induction false} NoneMissing(files: Files, paths: seq<string>)
    requires FirstMissing(files, paths).None?
    ensures forall i :: 0 <= i < |paths| ==> paths[i] in files
  {
    if paths != [] {
      NoneMissing(files, paths[1..]);
      assert forall i :: 0 < i < |paths| ==> paths[i] == paths[1..][i - 1];
    }
  }

  lemma {:induction false} MailedPrefix(mail: seq<Msg>, n: nat)
    requires n <= |mail|
    ensures MailedItems(mail[..n]) <= MailedItems(mail)
    decreases |mail| - n
  {
    if n < |mail| {
      MailedPrefix(mail, n + 1);
      assert mail[..n + 1][..n] == mail[..n];
    } else {
      assert mail[..n] == mail;
    }
  }

  lemma MoreItems(buckets: map<string, seq<Item>>, items: set<Item>, more: set<Item>)
    requires BucketsFrom(buckets, items) && items <= more
    ensures BucketsFrom(buckets, more)
  {
    forall k | k in buckets ensures ItemsFrom(buckets[k], more) {
      assert ItemsFrom(buckets[k], items);
    }
  }

  /** Dispatching keeps the buckets within what has been mailed. */
  lemma DispatchIsApart(buckets: map<string, seq<Item>>, seen: seq<Msg>, msg: Msg)
    requires BucketsFrom(buckets, MailedItems(seen))
    ensures BucketsFrom(if msg.PairPut? then PutBuckets(buckets, msg.key, msg.item) else buckets, MailedItems(seen + [msg]))
    ensures msg.PairPut? ==> ItemsFrom(BucketWith(buckets, msg.key, msg.item), MailedItems(seen + [msg]))
  {
    assert (seen + [msg])[..|seen|] == seen;
    MoreItems(buckets, MailedItems(seen), MailedItems(seen + [msg]));
  }

  lemma ApartIsMergeable(bucket: seq<Item>, items: set<Item>, all: set<Item>)
    requires ItemsFrom(bucket, items) && items <= all && OutsApart(all)
    ensures Mergeable(bucket)
  {
  }

  lemma {:induction false} DrainedBuckets(v: View, mail: seq<Msg>)
    requires v.buckets == map[]
    ensures BucketsFrom(DrainEffect(v, mail).buckets, MailedItems(mail))
  {
    if mail != [] {
      var n := |mail| - 1;
      DrainedBuckets(v, mail[..n]);
      DispatchIsApart(DrainEffect(v, mail[..n]).buckets, mail[..n], mail[n]);
      assert mail[..n] + [mail[n]] == mail;
    }
  }

  // ---------- the same effects, step by step in the protocol ----------

  function ViewOf(s: State): View {
    View(s.buckets, s.progress, s.local, s.store)
  }

  /** One dispatch of the manager is Deliver, followed by Merge, Ship and Clean when a pair is complete. */
  lemma DispatchIsSteps(plan: Plan, s: State, w: nat)
    requires Enabled(plan, s, Deliver(w))
    ensures var t := Apply(plan, s, Deliver(w));
            && (t.manager.Draining? ==> ViewOf(t) == DispatchEffect(ViewOf(s), s.outboxes[w][0]))
            && (!t.manager.Draining? ==>
                  && Enabled(plan, t, Merge) && Enabled(plan, Apply(plan, t, Merge), Ship)
                  && Enabled(plan, Apply(plan, Apply(plan, t, Merge), Ship), Clean)
                  && var u := Apply(plan, Apply(plan, Apply(plan, t, Merge), Ship), Clean);
                     u.manager == Draining && ViewOf(u) == DispatchEffect(ViewOf(s), s.outboxes[w][0]))
  {
    var t := Apply(plan, s, Deliver(w));
    if s.outboxes[w][0].PairPut? && !t.manager.Draining? {
      var pair := t.manager.pair;
      assert pair != [];
      var merged := Apply(plan, t, Merge);
      assert Read(merged.local, pair[0].out) == Merged(ReadAll(t.local, pair));
    }
  }

  /** One turn of the sweep is one Sweep step. */
  lemma SweepIsStep(plan: Plan, s: State)
    requires Enabled(plan, s, Sweep)
    ensures ViewOf(Apply(plan, s, Sweep)) == SweepOne(ViewOf(s), s.manager.rest[0])
  {
  }
}
