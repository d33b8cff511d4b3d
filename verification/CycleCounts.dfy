/** Jobs, counters and mail: which process holds which job, what the completion counter counts, and
    why a counter of zero means that nothing of the cycle is left anywhere. */
module CycleCounts {
  import opened Wrappers
  import opened Sums
  import opened Protocol

  // ---------- measures ----------

  function Open(p: Phase): nat {
    if p.Finished? then 0 else 1
  }

  function ClosedAs(success: bool): Phase -> nat {
    (p: Phase) => if p == Finished(success) then 1 else 0
  }

  function IsDone(success: bool): Msg -> nat {
    (m: Msg) => if m == JobDone(success) then 1 else 0
  }

  /** JobDone messages with this flag in one sender's mail. */
  function Dones(success: bool): seq<Msg> -> nat {
    (mail: seq<Msg>) => Sum(mail, IsDone(success))
  }

  // ---------- invariants ----------

  predicate ActivePhase(job: Job, p: Phase) {
    p == Fetching || (job.ready && (p == Splitting || (p.Working? && p.done <= |job.pieces|)))
  }

  ghost predicate QueueOk(phases: seq<Phase>, queue: seq<nat>) {
    && (forall i :: 0 <= i < |queue| ==> queue[i] < |phases| && phases[queue[i]] == Queued)
    && (forall i, k :: 0 <= i < k < |queue| ==> queue[i] != queue[k])
    && (forall j :: 0 <= j < |phases| && phases[j] == Queued ==> j in queue)
  }

  ghost predicate Held(holds: seq<Option<nat>>, j: nat) {
    exists w :: 0 <= w < |holds| && holds[w] == Some(j)
  }

  ghost predicate HoldersOk(plan: Plan, phases: seq<Phase>, holds: seq<Option<nat>>) {
    && |phases| == |plan|
    && (forall w :: 0 <= w < |holds| && holds[w].Some? ==>
          holds[w].value < |phases| && ActivePhase(plan[holds[w].value], phases[holds[w].value]))
    && (forall w, v :: 0 <= w < v < |holds| && holds[w].Some? && holds[v].Some? ==> holds[w].value != holds[v].value)
    && (forall j :: 0 <= j < |phases| ==>
          phases[j] == Unqueued || phases[j] == Queued || phases[j].Finished? || Held(holds, j))
    && (forall j :: 0 <= j < |phases| && phases[j] == Finished(true) ==> plan[j].ready)
  }

  ghost predicate PushOk(phases: seq<Phase>, manager: Manager) {
    && (manager.Pushing? ==> manager.next < |phases|)
    && forall j :: 0 <= j < |phases| ==> (phases[j] == Unqueued <==> manager.Pushing? && manager.next <= j)
  }

  /** Every job not finished, and every JobDone not yet dispatched, is still counted. */
  ghost predicate CountsOk(phases: seq<Phase>, outboxes: seq<seq<Msg>>, p: Progress) {
    && p.remaining == Sum(phases, Open) + Sum(outboxes, Dones(true)) + Sum(outboxes, Dones(false))
    && p.success + Sum(outboxes, Dones(true)) == Sum(phases, ClosedAs(true))
    && p.failure + Sum(outboxes, Dones(false)) == Sum(phases, ClosedAs(false))
  }

  /** A sender whose newest message is a piece is still at work; its JobDone is yet to come. */
  ghost predicate MailOk(holds: seq<Option<nat>>, outboxes: seq<seq<Msg>>) {
    && |holds| == |outboxes|
    && forall w :: 0 <= w < |outboxes| && outboxes[w] != [] && outboxes[w][|outboxes[w]| - 1].PairPut? ==> holds[w].Some?
  }

  ghost predicate ManagerOk(manager: Manager, buckets: map<string, seq<Item>>, p: Progress) {
    && (manager.Sweeping? || manager.Ended? ==> p.remaining == 0 && buckets == map[])
    && (manager.Merging? ==> manager.pair != []) && (manager.Shipping? ==> manager.pair != [])
    && (manager.Cleaning? ==> manager.pair != [])
    && (manager.Sweeping? ==> forall i :: 0 <= i < |manager.rest| ==> manager.rest[i] != [])
    && forall k :: k in buckets ==> buckets[k] != []
  }

  ghost predicate JobsInv(plan: Plan, s: State) {
    && QueueOk(s.phases, s.queue)
    && HoldersOk(plan, s.phases, s.holds)
    && PushOk(s.phases, s.manager)
    && CountsOk(s.phases, s.outboxes, s.progress)
    && MailOk(s.holds, s.outboxes)
    && ManagerOk(s.manager, s.buckets, s.progress)
  }

  // ---------- counting lemmas ----------

  lemma PhaseCounts(phases: seq<Phase>, j: nat, p: Phase)
    requires j < |phases|
    ensures Sum(phases[j := p], Open) + Open(phases[j]) == Sum(phases, Open) + Open(p)
    ensures forall ok :: Sum(phases[j := p], ClosedAs(ok)) + ClosedAs(ok)(phases[j]) == Sum(phases, ClosedAs(ok)) + ClosedAs(ok)(p)
  {
    SumUpdate(phases, j, p, Open);
    forall ok ensures Sum(phases[j := p], ClosedAs(ok)) + ClosedAs(ok)(phases[j]) == Sum(phases, ClosedAs(ok)) + ClosedAs(ok)(p) {
      SumUpdate(phases, j, p, ClosedAs(ok));
    }
  }

  lemma PostCounts(outboxes: seq<seq<Msg>>, w: nat, m: Msg)
    requires w < |outboxes|
    ensures forall ok :: Sum(outboxes[w := outboxes[w] + [m]], Dones(ok)) == Sum(outboxes, Dones(ok)) + IsDone(ok)(m)
  {
    forall ok ensures Sum(outboxes[w := outboxes[w] + [m]], Dones(ok)) == Sum(outboxes, Dones(ok)) + IsDone(ok)(m) {
      SumUpdate(outboxes, w, outboxes[w] + [m], Dones(ok));
      SumOne(outboxes[w], m, IsDone(ok));
    }
  }

  lemma TakeCounts(outboxes: seq<seq<Msg>>, w: nat)
    requires w < |outboxes| && outboxes[w] != []
    ensures forall ok :: Sum(outboxes[w := outboxes[w][1..]], Dones(ok)) + IsDone(ok)(outboxes[w][0]) == Sum(outboxes, Dones(ok))
  {
    forall ok ensures Sum(outboxes[w := outboxes[w][1..]], Dones(ok)) + IsDone(ok)(outboxes[w][0]) == Sum(outboxes, Dones(ok)) {
      SumUpdate(outboxes, w, outboxes[w][1..], Dones(ok));
    }
  }

  // ---------- each step keeps the invariants ----------

  /** A worker step that moves its own job from one active phase to another. */
  lemma AdvanceKeeps(plan: Plan, phases: seq<Phase>, queue: seq<nat>, holds: seq<Option<nat>>, manager: Manager,
                     outboxes: seq<seq<Msg>>, progress: Progress, w: nat, p: Phase)
    requires QueueOk(phases, queue) && HoldersOk(plan, phases, holds) && PushOk(phases, manager)
    requires CountsOk(phases, outboxes, progress)
    requires w < |holds| && holds[w].Some? && ActivePhase(plan[holds[w].value], p)
    ensures QueueOk(phases[holds[w].value := p], queue)
    ensures HoldersOk(plan, phases[holds[w].value := p], holds)
    ensures PushOk(phases[holds[w].value := p], manager)
    ensures CountsOk(phases[holds[w].value := p], outboxes, progress)
  {
    PhaseCounts(phases, holds[w].value, p);
  }

  /** A worker step that finishes its job with a JobDone. */
  lemma CloseKeeps(plan: Plan, phases: seq<Phase>, queue: seq<nat>, holds: seq<Option<nat>>, manager: Manager,
                   outboxes: seq<seq<Msg>>, progress: Progress, w: nat, ok: bool)
    requires QueueOk(phases, queue) && HoldersOk(plan, phases, holds) && PushOk(phases, manager)
    requires CountsOk(phases, outboxes, progress) && MailOk(holds, outboxes)
    requires w < |holds| && holds[w].Some? && (ok ==> plan[holds[w].value].ready)
    ensures var j := holds[w].value;
            var after := phases[j := Finished(ok)];
            var mail := outboxes[w := outboxes[w] + [JobDone(ok)]];
            && QueueOk(after, queue) && HoldersOk(plan, after, holds[w := None]) && PushOk(after, manager)
            && CountsOk(after, mail, progress) && MailOk(holds[w := None], mail)
  {
    var j := holds[w].value;
    PhaseCounts(phases, j, Finished(ok));
    PostCounts(outboxes, w, JobDone(ok));
    var after, free := phases[j := Finished(ok)], holds[w := None];
    forall i | 0 <= i < |after| && i != j && Held(holds, i) ensures Held(free, i) {
      var v :| 0 <= v < |holds| && holds[v] == Some(i);
      assert free[v] == Some(i);
    }
  }

  lemma PushQueue(plan: Plan, phases: seq<Phase>, queue: seq<nat>, holds: seq<Option<nat>>, j: nat)
    requires QueueOk(phases, queue) && HoldersOk(plan, phases, holds) && j < |phases| && phases[j] == Unqueued
    ensures QueueOk(phases[j := Queued], queue + [j]) && HoldersOk(plan, phases[j := Queued], holds)
  {
  }

  lemma PushKeeps(plan: Plan, s: State)
    requires JobsInv(plan, s) && Enabled(plan, s, Push)
    ensures JobsInv(plan, Apply(plan, s, Push))
  {
    PhaseCounts(s.phases, s.manager.next, Queued);
    PushQueue(plan, s.phases, s.queue, s.holds, s.manager.next);
  }

  lemma PopQueue(phases: seq<Phase>, queue: seq<nat>)
    requires QueueOk(phases, queue) && queue != []
    ensures QueueOk(phases[queue[0] := Fetching], queue[1..])
  {
    var after := phases[queue[0] := Fetching];
    forall i | 0 <= i < |after| && after[i] == Queued ensures i in queue[1..] {
      assert i in queue;
    }
    forall i | 0 <= i < |queue[1..]| ensures after[queue[1..][i]] == Queued {
      assert queue[1..][i] == queue[i + 1] != queue[0];
    }
  }

  lemma PopHolders(plan: Plan, phases: seq<Phase>, holds: seq<Option<nat>>, w: nat, j: nat)
    requires HoldersOk(plan, phases, holds)
    requires w < |holds| && holds[w].None? && j < |phases| && phases[j] == Queued
    ensures HoldersOk(plan, phases[j := Fetching], holds[w := Some(j)])
  {
    var after, taken := phases[j := Fetching], holds[w := Some(j)];
    assert taken[w] == Some(j);
    forall i | 0 <= i < |after|
      ensures after[i] == Unqueued || after[i] == Queued || after[i].Finished? || Held(taken, i)
    {
      if i != j && Held(holds, i) {
        var v :| 0 <= v < |holds| && holds[v] == Some(i);
        assert taken[v] == Some(i);
      }
    }
  }

  lemma PopKeeps(plan: Plan, s: State, w: nat)
    requires JobsInv(plan, s) && Enabled(plan, s, Pop(w))
    ensures JobsInv(plan, Apply(plan, s, Pop(w)))
  {
    var j := s.queue[0];
    PhaseCounts(s.phases, j, Fetching);
    PopQueue(s.phases, s.queue);
    PopHolders(plan, s.phases, s.holds, w, j);
  }

  lemma PostKeeps(plan: Plan, s: State, w: nat)
    requires JobsInv(plan, s) && Enabled(plan, s, Post(w))
    ensures JobsInv(plan, Apply(plan, s, Post(w)))
  {
    var k := PhaseOf(s, w).done;
    var piece := JobOf(plan, s, w).pieces[k];
    AdvanceKeeps(plan, s.phases, s.queue, s.holds, s.manager, s.outboxes, s.progress, w, Working(k + 1));
    PostMail(s.phases[s.holds[w].value := Working(k + 1)], s.holds, s.outboxes, s.progress, w, piece);
    var t := Apply(plan, s, Post(w));
    assert t.phases == s.phases[s.holds[w].value := Working(k + 1)] && t.queue == s.queue && t.holds == s.holds;
    assert t.manager == s.manager && t.buckets == s.buckets && t.progress == s.progress;
  }

  lemma PostMail(phases: seq<Phase>, holds: seq<Option<nat>>, outboxes: seq<seq<Msg>>, progress: Progress, w: nat, piece: Piece)
    requires CountsOk(phases, outboxes, progress) && MailOk(holds, outboxes) && w < |holds| && holds[w].Some?
    ensures var mail := outboxes[w := outboxes[w] + [PairPut(piece.key, ItemOf(piece))]];
            CountsOk(phases, mail, progress) && MailOk(holds, mail)
  {
    PostCounts(outboxes, w, PairPut(piece.key, ItemOf(piece)));
  }

  lemma TakeMail(holds: seq<Option<nat>>, outboxes: seq<seq<Msg>>, w: nat)
    requires MailOk(holds, outboxes) && w < |outboxes| && outboxes[w] != []
    ensures MailOk(holds, outboxes[w := outboxes[w][1..]])
  {
    var mail := outboxes[w := outboxes[w][1..]];
    forall v | 0 <= v < |mail| && mail[v] != [] ensures mail[v][|mail[v]| - 1] == outboxes[v][|outboxes[v]| - 1] {
    }
  }

  lemma DeliverCounts(phases: seq<Phase>, outboxes: seq<seq<Msg>>, p: Progress, w: nat)
    requires CountsOk(phases, outboxes, p) && w < |outboxes| && outboxes[w] != []
    ensures var mail := outboxes[w := outboxes[w][1..]];
            match outboxes[w][0]
            case JobDone(ok) => CountsOk(phases, mail, MarkOneDone(p, ok))
            case PairPut(_, _) => CountsOk(phases, mail, p)
  {
    TakeCounts(outboxes, w);
    assert forall ok :: IsDone(ok)(outboxes[w][0]) == if outboxes[w][0] == JobDone(ok) then 1 else 0;
  }

  lemma DeliverKeeps(plan: Plan, s: State, w: nat)
    requires JobsInv(plan, s) && Enabled(plan, s, Deliver(w))
    ensures JobsInv(plan, Apply(plan, s, Deliver(w)))
  {
    DeliverCounts(s.phases, s.outboxes, s.progress, w);
    TakeMail(s.holds, s.outboxes, w);
    DispatchKeeps(s.phases, s.(outboxes := s.outboxes[w := s.outboxes[w][1..]]), s.outboxes[w][0]);
  }

  lemma DispatchKeeps(phases: seq<Phase>, s: State, msg: Msg)
    requires PushOk(phases, s.manager) && s.manager.Draining? && ManagerOk(s.manager, s.buckets, s.progress)
    ensures var t := Dispatch(s, msg);
            PushOk(phases, t.manager) && ManagerOk(t.manager, t.buckets, t.progress)
  {
    if msg.PairPut? && PutResult(s.buckets, msg.key, msg.item).Some? {
      assert PutResult(s.buckets, msg.key, msg.item).value != [];
    }
  }

  lemma ManagerStepKeeps(plan: Plan, s: State, step: Step)
    requires JobsInv(plan, s) && Enabled(plan, s, step)
    requires step.Merge? || step.Ship? || step.Clean? || step.Sweep? || step.Finish?
    ensures JobsInv(plan, Apply(plan, s, step))
  {
  }

  lemma TakeBucketsKeeps(plan: Plan, s: State, order: seq<string>)
    requires JobsInv(plan, s) && Enabled(plan, s, Close(order))
    ensures JobsInv(plan, Apply(plan, s, Close(order)))
  {
    CountersAddUp(plan, s);
    var rest := Taken(s.buckets, order);
    forall i | 0 <= i < |rest| ensures rest[i] != [] { assert order[i] in order; }
  }

  lemma WorkKeeps(plan: Plan, s: State, step: Step)
    requires JobsInv(plan, s) && Enabled(plan, s, step) && (step.Fetch? || step.Split? || step.UploadMid?)
    ensures JobsInv(plan, Apply(plan, s, step))
  {
    var p := if step.Fetch? then Splitting else if step.Split? then Working(0) else Working(PhaseOf(s, step.w).done + 1);
    AdvanceKeeps(plan, s.phases, s.queue, s.holds, s.manager, s.outboxes, s.progress, step.w, p);
    var t := Apply(plan, s, step);
    assert t.phases == s.phases[s.holds[step.w].value := p] && t.queue == s.queue && t.holds == s.holds;
    assert t.manager == s.manager && t.buckets == s.buckets && t.outboxes == s.outboxes && t.progress == s.progress;
  }

  lemma EndKeeps(plan: Plan, s: State, step: Step)
    requires JobsInv(plan, s) && Enabled(plan, s, step) && (step.Report? || step.Abort?)
    ensures JobsInv(plan, Apply(plan, s, step))
  {
    CloseKeeps(plan, s.phases, s.queue, s.holds, s.manager, s.outboxes, s.progress, step.w, step.Report?);
  }

  lemma JobsInvKept(plan: Plan, s: State, step: Step)
    requires JobsInv(plan, s) && Enabled(plan, s, step)
    ensures JobsInv(plan, Apply(plan, s, step))
  {
    if step.Push? {
      PushKeeps(plan, s);
    } else if step.Pop? {
      PopKeeps(plan, s, step.w);
    } else if step.Fetch? || step.Split? || step.UploadMid? {
      WorkKeeps(plan, s, step);
    } else if step.Post? {
      PostKeeps(plan, s, step.w);
    } else if step.Report? || step.Abort? {
      EndKeeps(plan, s, step);
    } else if step.Deliver? {
      DeliverKeeps(plan, s, step.w);
    } else if step.Close? {
      TakeBucketsKeeps(plan, s, step.order);
    } else {
      ManagerStepKeeps(plan, s, step);
    }
  }

  lemma {:induction false} AllOpen(phases: seq<Phase>)
    requires forall i :: 0 <= i < |phases| ==> phases[i] == Unqueued
    ensures Sum(phases, Open) == |phases|
    ensures Sum(phases, ClosedAs(true)) == 0 && Sum(phases, ClosedAs(false)) == 0
  {
    if phases != [] {
      AllOpen(phases[1..]);
    }
  }

  lemma JobsInvAtStart(plan: Plan, s: State)
    requires s == Start(plan, |s.holds|, s.local, s.store)
    ensures JobsInv(plan, s)
  {
    StartCounts(s.phases, s.outboxes, s.progress);
    assert HoldersOk(plan, s.phases, s.holds);
  }

  lemma StartCounts(phases: seq<Phase>, outboxes: seq<seq<Msg>>, p: Progress)
    requires forall j :: 0 <= j < |phases| ==> phases[j] == Unqueued
    requires forall w :: 0 <= w < |outboxes| ==> outboxes[w] == []
    requires p == Progress(|phases|, 0, 0)
    ensures CountsOk(phases, outboxes, p)
  {
    AllOpen(phases);
    SumZero(outboxes, Dones(true));
    SumZero(outboxes, Dones(false));
  }

  // ---------- quiescence and accounting ----------

  /** Nothing of a cycle is left in the queue, with a worker or in the mail. */
  ghost predicate Quiet(s: State) {
    && s.queue == []
    && (forall w :: 0 <= w < |s.holds| ==> s.holds[w].None?)
    && (forall w :: 0 <= w < |s.outboxes| ==> s.outboxes[w] == [])
  }

  /** A counter of zero means quiet: the drain loop cannot exit while a job, a worker or a message of
      the cycle is still on its way. */
  lemma CounterZeroMeansQuiet(plan: Plan, s: State)
    requires JobsInv(plan, s) && s.progress.remaining <= 0
    ensures Quiet(s)
    ensures forall j :: 0 <= j < |s.phases| ==> s.phases[j].Finished?
  {
    if s.queue != [] {
      QueuedJobIsOpen(s.phases, s.queue);
    }
    forall j | 0 <= j < |s.phases| ensures s.phases[j].Finished? {
      SumAt(s.phases, j, Open);
    }
    forall w | 0 <= w < |s.outboxes| ensures s.outboxes[w] == [] {
      if s.outboxes[w] != [] {
        LastIsDone(s.outboxes, w);
      }
    }
  }

  lemma QueuedJobIsOpen(phases: seq<Phase>, queue: seq<nat>)
    requires QueueOk(phases, queue) && queue != []
    ensures Sum(phases, Open) > 0
  {
    SumAt(phases, queue[0], Open);
  }

  lemma LastIsDone(outboxes: seq<seq<Msg>>, w: nat)
    requires w < |outboxes| && outboxes[w] != [] && outboxes[w][|outboxes[w]| - 1].JobDone?
    ensures Sum(outboxes, Dones(true)) + Sum(outboxes, Dones(false)) > 0
  {
    var ok := outboxes[w][|outboxes[w]| - 1].success;
    SumAt(outboxes[w], |outboxes[w]| - 1, IsDone(ok));
    SumAt(outboxes, w, Dones(ok));
  }

  lemma {:induction false} PhasesAddUp(phases: seq<Phase>)
    ensures Sum(phases, Open) + Sum(phases, ClosedAs(true)) + Sum(phases, ClosedAs(false)) == |phases|
  {
    if phases != [] {
      PhasesAddUp(phases[1..]);
    }
  }

  /** The three counters always add up to the number of jobs. */
  lemma CountersAddUp(plan: Plan, s: State)
    requires JobsInv(plan, s)
    ensures s.progress.success + s.progress.failure + s.progress.remaining == |plan|
    ensures s.progress.remaining >= 0
  {
    PhasesAddUp(s.phases);
  }

  /** Once the counter is zero, success is notified (no failure counted) exactly when no job failed. */
  lemma NotifiedOutcomeIsRight(plan: Plan, s: State)
    requires JobsInv(plan, s) && s.progress.remaining <= 0
    ensures s.progress.failure == 0 <==> forall j :: 0 <= j < |plan| ==> s.phases[j] == Finished(true)
  {
    CounterZeroMeansQuiet(plan, s);
    if s.progress.failure == 0 {
      forall j | 0 <= j < |plan| ensures s.phases[j] == Finished(true) {
        SumAt(s.phases, j, ClosedAs(false));
      }
    } else if forall j :: 0 <= j < |plan| ==> s.phases[j] == Finished(true) {
      SumZero(s.phases, ClosedAs(false));
    }
  }

  // ---------- no hang ----------

  lemma {:induction false} ListingExists(keys: set<string>) returns (order: seq<string>)
    ensures Lists(order, keys)
  {
    if keys == {} {
      order := [];
    } else {
      var k :| k in keys;
      var rest := ListingExists(keys - {k});
      order := [k] + rest;
      forall x | x in keys ensures x in order { if x != k { assert x in rest; } }
    }
  }

  predicate AllReady(plan: Plan) {
    forall j :: 0 <= j < |plan| ==> plan[j].ready
  }

  predicate StepOf(step: Step, w: nat) {
    && (step.Pop? || step.Fetch? || step.Split? || step.UploadMid? || step.Post? || step.Report? || step.Abort? || step.Deliver?)
    && step.w == w
  }

  lemma WorkerCanStep(plan: Plan, s: State, w: nat) returns (step: Step)
    requires JobsInv(plan, s) && w < |s.holds| && s.holds[w].Some?
    ensures Enabled(plan, s, step) && StepOf(step, w) && !step.Deliver?
    ensures AllReady(plan) ==> !step.Abort?
  {
    assert Holding(s, w);
    var job, p := JobOf(plan, s, w), PhaseOf(s, w);
    if p == Fetching {
      step := if job.ready then Fetch(w) else Abort(w, s.local);
    } else if p == Splitting {
      step := Split(w);
    } else if p.done < |job.pieces| {
      step := if p.done < job.mids then UploadMid(w) else Post(w);
    } else {
      step := Report(w);
    }
  }

  lemma OpenJobCanMove(plan: Plan, s: State, j: nat) returns (step: Step)
    requires JobsInv(plan, s) && |s.holds| >= 1 && j < |s.phases| && s.phases[j] != Unqueued && !s.phases[j].Finished?
    ensures Enabled(plan, s, step)
    ensures AllReady(plan) ==> !step.Abort?
  {
    if s.phases[j] == Queued {
      assert j in s.queue;
      if s.holds[0].None? {
        step := Pop(0);
      } else {
        step := WorkerCanStep(plan, s, 0);
      }
    } else {
      var w :| 0 <= w < |s.holds| && s.holds[w] == Some(j);
      step := WorkerCanStep(plan, s, w);
    }
  }

  /** With at least one worker some step is enabled until the cycle has ended, and a failure is forced
      only by a job that cannot be placed. */
  lemma NoHang(plan: Plan, s: State) returns (step: Step)
    requires JobsInv(plan, s) && |s.holds| >= 1 && !s.manager.Ended?
    ensures Enabled(plan, s, step)
    ensures AllReady(plan) ==> !step.Abort?
  {
    match s.manager {
      case Pushing(_) => step := Push;
      case Merging(_) => step := Merge;
      case Shipping(_) => step := Ship;
      case Cleaning(_) => step := Clean;
      case Sweeping(rest) => step := if rest == [] then Finish else Sweep;
      case Draining =>
        if s.progress.remaining <= 0 {
          var order := ListingExists(s.buckets.Keys);
          step := Close(order);
        } else if Sum(s.phases, Open) > 0 {
          var j := SumPositive(s.phases, Open);
          step := OpenJobCanMove(plan, s, j);
        } else {
          var ok := Sum(s.outboxes, Dones(true)) > 0;
          var w := SumPositive(s.outboxes, Dones(ok));
          step := Deliver(w);
        }
    }
  }

  // ---------- nobody waits for another ----------

  /** Whoever has something to do can do it next, so every interleaving of the processes is a run: a worker
      with a job or with a job to take; while the manager drains, the mail of any sender; and at zero any order
      of the remaining buckets. */
  lemma NobodyWaits(plan: Plan, s: State, w: nat) returns (step: Step)
    requires JobsInv(plan, s) && w < |s.holds|
    ensures s.holds[w].Some? || s.queue != [] ==> Enabled(plan, s, step) && StepOf(step, w) && !step.Deliver?
    ensures s.manager.Draining? && s.outboxes[w] != [] ==> Enabled(plan, s, Deliver(w))
    ensures s.manager.Draining? && Quiet(s) ==>
              forall order :: Lists(order, s.buckets.Keys) ==> Enabled(plan, s, Close(order))
    ensures s.manager.Pushing? ==> Enabled(plan, s, Push)
  {
    step := Pop(w);
    if s.holds[w].Some? {
      step := WorkerCanStep(plan, s, w);
    }
    if s.progress.remaining <= 0 {
      CounterZeroMeansQuiet(plan, s);
    }
    if s.manager.Draining? && Quiet(s) {
      QuietMeansZero(plan, s);
    }
  }

  /** The converse of `CounterZeroMeansQuiet`, once every job has been pushed. */
  lemma QuietMeansZero(plan: Plan, s: State)
    requires JobsInv(plan, s) && !s.manager.Pushing? && Quiet(s)
    ensures s.progress.remaining == 0
  {
    forall j | 0 <= j < |s.phases| ensures s.phases[j].Finished? {
      assert s.phases[j] != Unqueued && s.phases[j] != Queued;
    }
    SumZero(s.phases, Open);
    SumZero(s.outboxes, Dones(true));
    SumZero(s.outboxes, Dones(false));
  }

  // ---------- jobs are taken in the listed order ----------

  predicate Started(p: Phase) {
    !p.Unqueued? && !p.Queued?
  }

  ghost predicate InOrder(phases: seq<Phase>, queue: seq<nat>) {
    && (forall i, k :: 0 <= i < k < |queue| ==> queue[i] < queue[k])
    && (forall j, i :: 0 <= j < |phases| && 0 <= i < |queue| && Started(phases[j]) ==> j < queue[i])
  }

  lemma InOrderKept(plan: Plan, s: State, step: Step)
    requires JobsInv(plan, s) && InOrder(s.phases, s.queue) && Enabled(plan, s, step)
    ensures InOrder(Apply(plan, s, step).phases, Apply(plan, s, step).queue)
  {
    if step.Push? {
      PushInOrder(s.phases, s.queue, s.manager);
    } else if step.Pop? {
      PopInOrder(s.phases, s.queue);
    } else if step.Fetch? || step.Split? || step.UploadMid? || step.Post? || step.Report? || step.Abort? {
      WorkMovesOne(plan, s, step);
    } else {
      ManagerLeavesJobs(plan, s, step);
    }
  }

  /** At work a worker moves only the job it has taken. */
  lemma WorkMovesOne(plan: Plan, s: State, step: Step)
    requires Enabled(plan, s, step) && HoldersOk(plan, s.phases, s.holds)
    requires step.Fetch? || step.Split? || step.UploadMid? || step.Post? || step.Report? || step.Abort?
    ensures var t, j := Apply(plan, s, step), s.holds[step.w].value;
            && t.queue == s.queue && j < |s.phases| == |t.phases| && Started(s.phases[j]) && Started(t.phases[j])
            && t.phases == s.phases[j := t.phases[j]]
  {
  }

  lemma ManagerLeavesJobs(plan: Plan, s: State, step: Step)
    requires Enabled(plan, s, step)
    requires step.Deliver? || step.Merge? || step.Ship? || step.Clean? || step.Close? || step.Sweep? || step.Finish?
    ensures Apply(plan, s, step).phases == s.phases && Apply(plan, s, step).queue == s.queue
  {
  }

  lemma PushInOrder(phases: seq<Phase>, queue: seq<nat>, manager: Manager)
    requires QueueOk(phases, queue) && InOrder(phases, queue) && PushOk(phases, manager) && manager.Pushing?
    ensures InOrder(phases[manager.next := Queued], queue + [manager.next])
  {
  }

  lemma PopInOrder(phases: seq<Phase>, queue: seq<nat>)
    requires QueueOk(phases, queue) && InOrder(phases, queue) && queue != []
    ensures InOrder(phases[queue[0] := Fetching], queue[1..])
  {
  }

  /** No job is taken from the queue before an earlier one of the listing. */
  lemma {:induction false} TakenInOrder(plan: Plan, run: seq<State>, steps: seq<Step>, i: nat)
    requires IsRun(plan, run, steps) && i < |run|
    requires run[0] == Start(plan, |run[0].holds|, run[0].local, run[0].store)
    ensures JobsInv(plan, run[i]) && InOrder(run[i].phases, run[i].queue)
    ensures forall j, k :: 0 <= j < k < |plan| && Started(run[i].phases[k]) ==> Started(run[i].phases[j])
  {
    if i == 0 {
      JobsInvAtStart(plan, run[0]);
    } else {
      TakenInOrder(plan, run, steps, i - 1);
      JobsInvKept(plan, run[i - 1], steps[i - 1]);
      InOrderKept(plan, run[i - 1], steps[i - 1]);
    }
    StartedIsPrefix(plan, run[i]);
  }

  lemma StartedIsPrefix(plan: Plan, s: State)
    requires JobsInv(plan, s) && InOrder(s.phases, s.queue)
    ensures forall j, k :: 0 <= j < k < |plan| && Started(s.phases[k]) ==> Started(s.phases[j])
  {
    forall j, k | 0 <= j < k < |plan| && Started(s.phases[k]) ensures Started(s.phases[j]) {
    }
  }

  // ---------- termination ----------

  function PhaseWeight(job: Job, p: Phase): nat {
    var ends := if job.mids <= |job.pieces| then |job.pieces| - job.mids else 0;
    var work := job.mids + 6 * ends;
    match p
    case Unqueued => work + 6
    case Queued => work + 5
    case Fetching => work + 4
    case Splitting => work + 3
    case Working(k) =>
      2 + (if k < job.mids then job.mids - k + 6 * ends else if k < |job.pieces| then 6 * (|job.pieces| - k) else 0)
    case Finished(_) => 0
  }

  function PhasesWeight(plan: Plan, phases: seq<Phase>): nat
    requires |plan| == |phases|
  {
    if plan == [] then 0 else PhaseWeight(plan[0], phases[0]) + PhasesWeight(plan[1..], phases[1..])
  }

  function MsgWeight(m: Msg): nat {
    if m.PairPut? then 5 else 1
  }

  function MailWeight(mail: seq<Msg>): nat {
    Sum(mail, MsgWeight)
  }

  function ManagerWeight(m: Manager): nat {
    match m
    case Pushing(_) => 2
    case Draining => 2
    case Merging(_) => 5
    case Shipping(_) => 4
    case Cleaning(_) => 3
    case Sweeping(rest) => 1 + |rest|
    case Ended => 0
  }

  function Measure(plan: Plan, s: State): nat
    requires |plan| == |s.phases|
  {
    PhasesWeight(plan, s.phases) + Sum(s.outboxes, MailWeight) + 4 * |s.buckets| + ManagerWeight(s.manager)
  }

  lemma {:induction false} PhaseWeightUpdate(plan: Plan, phases: seq<Phase>, j: nat, p: Phase)
    requires |plan| == |phases| && j < |plan|
    ensures PhasesWeight(plan, phases[j := p]) + PhaseWeight(plan[j], phases[j])
            == PhasesWeight(plan, phases) + PhaseWeight(plan[j], p)
  {
    if j == 0 {
      assert phases[j := p][1..] == phases[1..];
    } else {
      PhaseWeightUpdate(plan[1..], phases[1..], j - 1, p);
      assert phases[j := p][1..] == phases[1..][j - 1 := p];
    }
  }

  lemma PostWeight(outboxes: seq<seq<Msg>>, w: nat, m: Msg)
    requires w < |outboxes|
    ensures Sum(outboxes[w := outboxes[w] + [m]], MailWeight) == Sum(outboxes, MailWeight) + MsgWeight(m)
  {
    SumUpdate(outboxes, w, outboxes[w] + [m], MailWeight);
    SumOne(outboxes[w], m, MsgWeight);
  }

  lemma TakeWeight(outboxes: seq<seq<Msg>>, w: nat)
    requires w < |outboxes| && outboxes[w] != []
    ensures Sum(outboxes[w := outboxes[w][1..]], MailWeight) + MsgWeight(outboxes[w][0]) == Sum(outboxes, MailWeight)
  {
    SumUpdate(outboxes, w, outboxes[w][1..], MailWeight);
  }

  lemma {:induction false} ListingLength(order: seq<string>, keys: set<string>)
    requires Lists(order, keys)
    ensures |order| == |keys|
  {
    if order == [] {
      forall x ensures x !in keys {
      }
      assert keys == {};
    } else {
      var k, rest := order[0], order[1..];
      forall x | x in keys - {k} ensures x in rest {
        var i :| 0 <= i < |order| && order[i] == x;
        assert rest[i - 1] == x;
      }
      forall i | 0 <= i < |rest| ensures rest[i] in keys - {k} { assert rest[i] == order[i + 1]; }
      ListingLength(rest, keys - {k});
    }
  }

  lemma AdvanceDecreases(plan: Plan, s: State, t: State, w: nat, p: Phase)
    requires |plan| == |s.phases| && HoldsJob(plan, s, w)
    requires PhaseWeight(JobOf(plan, s, w), p) < PhaseWeight(JobOf(plan, s, w), PhaseOf(s, w))
    requires t.phases == s.phases[s.holds[w].value := p]
    requires t.outboxes == s.outboxes && t.buckets == s.buckets && t.manager == s.manager
    ensures Measure(plan, t) < Measure(plan, s)
  {
    PhaseWeightUpdate(plan, s.phases, s.holds[w].value, p);
  }

  lemma PostDecreases(plan: Plan, s: State, w: nat)
    requires |plan| == |s.phases| && Enabled(plan, s, Post(w))
    ensures Measure(plan, Apply(plan, s, Post(w))) < Measure(plan, s)
  {
    var k := PhaseOf(s, w).done;
    var piece := JobOf(plan, s, w).pieces[k];
    PhaseWeightUpdate(plan, s.phases, s.holds[w].value, Working(k + 1));
    PostWeight(s.outboxes, w, PairPut(piece.key, ItemOf(piece)));
  }

  lemma DoneDecreases(plan: Plan, s: State, w: nat, step: Step)
    requires |plan| == |s.phases| && Enabled(plan, s, step)
    requires step == Report(w) || (step.Abort? && step.w == w)
    ensures Measure(plan, Apply(plan, s, step)) < Measure(plan, s)
  {
    PhaseWeightUpdate(plan, s.phases, s.holds[w].value, Finished(step.Report?));
    PostWeight(s.outboxes, w, JobDone(step.Report?));
  }

  lemma DeliverDecreases(plan: Plan, s: State, w: nat)
    requires |plan| == |s.phases| && Enabled(plan, s, Deliver(w))
    ensures Measure(plan, Apply(plan, s, Deliver(w))) < Measure(plan, s)
  {
    TakeWeight(s.outboxes, w);
    DispatchWeight(s.(outboxes := s.outboxes[w := s.outboxes[w][1..]]), s.outboxes[w][0]);
  }

  lemma DispatchWeight(s: State, msg: Msg)
    requires s.manager.Draining?
    ensures var t := Dispatch(s, msg);
            && t.phases == s.phases && t.outboxes == s.outboxes
            && 4 * |t.buckets| + ManagerWeight(t.manager) < MsgWeight(msg) + 4 * |s.buckets| + ManagerWeight(s.manager)
  {
  }

  lemma ManagerDecreases(plan: Plan, s: State, step: Step)
    requires |plan| == |s.phases| && Enabled(plan, s, step)
    requires step.Merge? || step.Ship? || step.Clean? || step.Close? || step.Sweep? || step.Finish?
    ensures Measure(plan, Apply(plan, s, step)) < Measure(plan, s)
  {
    if step.Close? {
      ListingLength(step.order, s.buckets.Keys);
      assert |s.buckets.Keys| == |s.buckets|;
    }
  }

  lemma FetchAndSplitDecrease(plan: Plan, s: State, w: nat, step: Step)
    requires |plan| == |s.phases| && Enabled(plan, s, step)
    requires step == Fetch(w) || step == Split(w) || step == UploadMid(w)
    ensures Measure(plan, Apply(plan, s, step)) < Measure(plan, s)
  {
    var p := if step.Fetch? then Splitting else if step.Split? then Working(0) else Working(PhaseOf(s, w).done + 1);
    assert PhaseWeight(JobOf(plan, s, w), p) < PhaseWeight(JobOf(plan, s, w), PhaseOf(s, w));
    AdvanceDecreases(plan, s, Apply(plan, s, step), w, p);
  }

  lemma QueueStepsDecrease(plan: Plan, s: State, step: Step)
    requires |plan| == |s.phases| && Enabled(plan, s, step)
    requires step.Push? || step.Pop?
    requires step.Push? ==> s.phases[s.manager.next] == Unqueued
    requires step.Pop? ==> s.phases[s.queue[0]] == Queued
    ensures Measure(plan, Apply(plan, s, step)) < Measure(plan, s)
  {
    if step.Push? {
      PhaseWeightUpdate(plan, s.phases, s.manager.next, Queued);
    } else {
      PhaseWeightUpdate(plan, s.phases, s.queue[0], Fetching);
    }
  }

  /** Every step, whoever takes it, makes the measure smaller. */
  lemma StepsDecrease(plan: Plan, s: State, step: Step)
    requires |plan| == |s.phases| && Enabled(plan, s, step)
    requires step.Push? ==> s.phases[s.manager.next] == Unqueued
    requires step.Pop? ==> s.phases[s.queue[0]] == Queued
    ensures |Apply(plan, s, step).phases| == |plan|
    ensures Measure(plan, Apply(plan, s, step)) < Measure(plan, s)
  {
    match step {
      case Push => QueueStepsDecrease(plan, s, step);
      case Pop(w) => QueueStepsDecrease(plan, s, step);
      case Fetch(w) => FetchAndSplitDecrease(plan, s, w, step);
      case Split(w) => FetchAndSplitDecrease(plan, s, w, step);
      case UploadMid(w) => FetchAndSplitDecrease(plan, s, w, step);
      case Post(w) => PostDecreases(plan, s, w);
      case Report(w) => DoneDecreases(plan, s, w, step);
      case Abort(w, after) => DoneDecreases(plan, s, w, step);
      case Deliver(w) => DeliverDecreases(plan, s, w);
      case _ => ManagerDecreases(plan, s, step);
    }
  }

  lemma {:induction false} JobsInvAlong(plan: Plan, run: seq<State>, steps: seq<Step>, i: nat)
    requires IsRun(plan, run, steps) && JobsInv(plan, run[0]) && i < |run|
    ensures JobsInv(plan, run[i])
  {
    if i > 0 {
      JobsInvAlong(plan, run, steps, i - 1);
      JobsInvKept(plan, run[i - 1], steps[i - 1]);
    }
  }

  /** No run is longer than the measure of its first state, so every interleaving terminates. */
  lemma {:induction false} RunsAreBounded(plan: Plan, run: seq<State>, steps: seq<Step>)
    requires IsRun(plan, run, steps) && JobsInv(plan, run[0])
    ensures |steps| <= Measure(plan, run[0])
    decreases |steps|
  {
    if steps != [] {
      StepEnabledPhases(plan, run[0], steps[0]);
      StepsDecrease(plan, run[0], steps[0]);
      JobsInvKept(plan, run[0], steps[0]);
      RunsAreBounded(plan, run[1..], steps[1..]);
    }
  }

  lemma StepEnabledPhases(plan: Plan, s: State, step: Step)
    requires JobsInv(plan, s) && Enabled(plan, s, step)
    ensures step.Push? ==> s.phases[s.manager.next] == Unqueued
    ensures step.Pop? ==> s.phases[s.queue[0]] == Queued
  {
  }

  /** A run that cannot go on has ended its cycle, quietly. */
  lemma StuckMeansEnded(plan: Plan, run: seq<State>, steps: seq<Step>)
    requires IsRun(plan, run, steps) && JobsInv(plan, run[0])
    requires var last := run[|steps|]; |last.holds| >= 1 && forall step :: !Enabled(plan, last, step)
    ensures run[|steps|].manager.Ended? && Quiet(run[|steps|]) && run[|steps|].buckets == map[]
  {
    var last := run[|steps|];
    JobsInvAlong(plan, run, steps, |steps|);
    if !last.manager.Ended? {
      var step := NoHang(plan, last);
    } else {
      CounterZeroMeansQuiet(plan, last);
    }
  }

  // ---------- a successful end is always within reach ----------

  predicate NoneFailed(phases: seq<Phase>) {
    forall j :: 0 <= j < |phases| ==> phases[j] != Finished(false)
  }

  lemma NoneFailedKept(plan: Plan, s: State, step: Step)
    requires NoneFailed(s.phases) && Enabled(plan, s, step) && !step.Abort?
    ensures NoneFailed(Apply(plan, s, step).phases)
    ensures |Apply(plan, s, step).holds| == |s.holds|
  {
  }

  lemma PrependStep(plan: Plan, s: State, step: Step, run: seq<State>, steps: seq<Step>)
    requires Enabled(plan, s, step) && IsRun(plan, run, steps) && run[0] == Apply(plan, s, step)
    ensures IsRun(plan, [s] + run, [step] + steps)
  {
    var run', steps' := [s] + run, [step] + steps;
    forall i | 0 <= i < |steps'| ensures Enabled(plan, run'[i], steps'[i]) && run'[i + 1] == Apply(plan, run'[i], steps'[i]) {
      if i > 0 { assert run'[i] == run[i - 1] && steps'[i] == steps[i - 1]; }
    }
  }

  /** From every state without a failed job, if every job can be placed, the cycle can still end with
      every job successful. */
  lemma {:induction false} CanSucceed(plan: Plan, s: State) returns (run: seq<State>, steps: seq<Step>)
    requires JobsInv(plan, s) && |s.holds| >= 1 && AllReady(plan) && NoneFailed(s.phases)
    ensures IsRun(plan, run, steps) && run[0] == s
    ensures run[|steps|].manager.Ended? && run[|steps|].progress.failure == 0
    decreases Measure(plan, s)
  {
    if s.manager.Ended? {
      run, steps := [s], [];
      CounterZeroMeansQuiet(plan, s);
      NotifiedOutcomeIsRight(plan, s);
    } else {
      var step := NoHang(plan, s);
      StepEnabledPhases(plan, s, step);
      StepsDecrease(plan, s, step);
      JobsInvKept(plan, s, step);
      NoneFailedKept(plan, s, step);
      var rest, more := CanSucceed(plan, Apply(plan, s, step));
      PrependStep(plan, s, step, rest, more);
      run, steps := [s] + rest, [step] + more;
      assert run[|steps|] == rest[|more|];
    }
  }
}
