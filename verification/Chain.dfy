/** Cycle after cycle: what separates them, and which cycle's records an object finally holds. */
module Chain {
  import opened Wrappers
  import opened PcapFormat
  import opened Protocol
  import opened CycleCounts
  import opened CycleOutcome
  import opened Refinement
  import opened Renaming
  import opened SharedPaths

  // ---------- cycles do not mix ----------

  /** The run of a daemon: cycles one after another, each starting on what the one before left. */
  ghost predicate Chained(plans: seq<Plan>, runs: seq<seq<State>>, steps: seq<seq<Step>>) {
    && |plans| == |runs| == |steps|
    && (forall c :: 0 <= c < |plans| ==> IsRun(plans[c], runs[c], steps[c]) && runs[c][|steps[c]|].manager.Ended?)
    && (forall c :: 0 <= c < |plans| && c > 0 ==> BeginsAfter(plans[c], runs[c - 1][|steps[c - 1]|], runs[c][0]))
  }

  /** `_run_cycle` replaces the buckets and the counters and queues the new jobs; queue, workers, mail,
      disk and store are whatever the cycle before left. */
  ghost predicate BeginsAfter(plan: Plan, before: State, s: State) {
    && s.phases == seq(|plan|, _ => Unqueued)
    && s.queue == before.queue && s.holds == before.holds && s.outboxes == before.outboxes
    && s.local == before.local && s.store == before.store
    && s.manager == (if plan == [] then Draining else Pushing(0))
    && s.buckets == map[] && s.progress == Progress(|plan|, 0, 0) && s.log == []
  }

  lemma BeginsClean(plan: Plan, before: State, s: State)
    requires Quiet(before) && |before.holds| == |before.outboxes| && BeginsAfter(plan, before, s)
    ensures s == Start(plan, |s.holds|, s.local, s.store)
  {
    assert s.holds == seq(|s.holds|, _ => None);
    assert s.outboxes == seq(|s.holds|, _ => []);
  }

  lemma CycleKeepsCount(plan: Plan, run: seq<State>, steps: seq<Step>, i: nat)
    requires IsCycle(plan, run, steps) && i < |run|
    ensures JobsInv(plan, run[i])
  {
    JobsInvAtStart(plan, run[0]);
    JobsInvAlong(plan, run, steps, i);
  }

  lemma {:induction false} EveryCycleBegins(plans: seq<Plan>, runs: seq<seq<State>>, steps: seq<seq<Step>>, c: nat)
    requires Chained(plans, runs, steps) && c < |plans| && IsCycle(plans[0], runs[0], steps[0])
    ensures IsCycle(plans[c], runs[c], steps[c])
  {
    if c > 0 {
      var last := |steps[c - 1]|;
      EveryCycleBegins(plans, runs, steps, c - 1);
      CycleKeepsCount(plans[c - 1], runs[c - 1], steps[c - 1], last);
      CounterZeroMeansQuiet(plans[c - 1], runs[c - 1][last]);
      BeginsClean(plans[c], runs[c - 1][last], runs[c][0]);
    }
  }

  /** No message of one cycle is dispatched in another, whatever the plans: every cycle of every chain starts
      with an empty queue, idle workers and no mail, and keeps count of its jobs throughout. */
  lemma CyclesDoNotMix(plans: seq<Plan>, runs: seq<seq<State>>, steps: seq<seq<Step>>, c: nat, i: nat)
    requires Chained(plans, runs, steps) && c < |plans| && i < |runs[c]|
    requires IsCycle(plans[0], runs[0], steps[0])
    ensures IsCycle(plans[c], runs[c], steps[c]) && Quiet(runs[c][0])
    ensures JobsInv(plans[c], runs[c][i])
    ensures GoodPlan(plans[c]) ==> CycleInv(plans[c], runs[c][0].store, runs[c][i])
  {
    EveryCycleBegins(plans, runs, steps, c);
    CycleKeepsCount(plans[c], runs[c], steps[c], i);
    if GoodPlan(plans[c]) {
      ReachableStatesAreGood(plans[c], runs[c], steps[c], i);
    }
  }

  // ---------- objects from cycle to cycle ----------

  /** Some piece of the plan goes to this object. */
  ghost predicate SendsTo(plan: Plan, o: string) {
    exists j, k :: IsPiece(plan, j, k) && plan[j].pieces[k].dest == o
  }

  /** A chain of cycles whose plans meet what every list of raw files does; pieces may share paths. */
  ghost predicate LooseChain(plans: seq<Plan>, runs: seq<seq<State>>, steps: seq<seq<Step>>) {
    && Chained(plans, runs, steps) && plans != [] && IsCycle(plans[0], runs[0], steps[0])
    && forall d :: 0 <= d < |plans| ==> Loose(plans[d]) && NoEmptyPieces(plans[d])
  }

  /** The state a cycle of the chain ends in. */
  ghost function EndOf(plans: seq<Plan>, runs: seq<seq<State>>, steps: seq<seq<Step>>, c: nat): State
    requires Chained(plans, runs, steps) && c < |plans|
  {
    runs[c][|steps[c]|]
  }

  /** An object survives every cycle that has no piece for it, whatever else happens in them. */
  lemma {:induction false} UnnamedObjectSurvives(plans: seq<Plan>, runs: seq<seq<State>>, steps: seq<seq<Step>>,
                                                 c: nat, d: nat, o: string)
    requires LooseChain(plans, runs, steps) && c <= d < |plans|
    requires forall e :: c < e <= d ==> !SendsTo(plans[e], o)
    ensures SameAt(EndOf(plans, runs, steps, c).store, EndOf(plans, runs, steps, d).store, o)
  {
    if c < d {
      UnnamedObjectSurvives(plans, runs, steps, c, d - 1, o);
      CyclesDoNotMix(plans, runs, steps, d, |steps[d]|);
      assert BeginsAfter(plans[d], EndOf(plans, runs, steps, d - 1), runs[d][0]);
      UnnamedObjectKept(plans[d], runs[d], steps[d], o);
    }
  }

  /** The last cycle up to `d` with a piece for the object is `e`. */
  ghost predicate LastNamer(plans: seq<Plan>, o: string, e: nat, d: nat) {
    e <= d < |plans| && SendsTo(plans[e], o) && forall x :: e < x <= d ==> !SendsTo(plans[x], o)
  }

  /** The last cycle with pieces of a key decides: if there the key is exclusive, its pieces share no paths and
      its jobs succeed, its object afterwards holds exactly that cycle's records of the key, none of the
      earlier cycles'. */
  lemma LastCycleDecides(plans: seq<Plan>, runs: seq<seq<State>>, steps: seq<seq<Step>>, e: nat, d: nat, j: int, k: int)
    requires LooseChain(plans, runs, steps) && e < |plans| && IsPiece(plans[e], j, k)
    requires LastNamer(plans, plans[e][j].pieces[k].dest, e, d)
    requires Exclusive(plans[e], plans[e][j].pieces[k].key) && KeyUnshared(plans[e], plans[e][j].pieces[k].key)
    requires KeySucceeded(plans[e], EndOf(plans, runs, steps, e).phases, plans[e][j].pieces[k].key)
    ensures HoldsGroup(plans[e], plans[e][j].pieces[k].key, EndOf(plans, runs, steps, d).store, j, k)
  {
    CyclesDoNotMix(plans, runs, steps, e, |steps[e]|);
    UnsharedHoldsGroup(plans[e], runs[e], steps[e], j, k);
    UnnamedObjectSurvives(plans, runs, steps, e, d, plans[e][j].pieces[k].dest);
  }

  /** So the group an earlier cycle has put into an object is still there exactly when no later cycle has a
      piece for the object or the last one that has brings the same records again. */
  lemma GroupSurvivesIff(plans: seq<Plan>, runs: seq<seq<State>>, steps: seq<seq<Step>>,
                         c: nat, j: int, k: int, e: nat, j': int, k': int, d: nat)
    requires LooseChain(plans, runs, steps) && c <= e < |plans| && IsPiece(plans[c], j, k) && IsPiece(plans[e], j', k')
    requires plans[c][j].pieces[k].dest == plans[e][j'].pieces[k'].dest && LastNamer(plans, plans[c][j].pieces[k].dest, e, d)
    requires Exclusive(plans[e], plans[e][j'].pieces[k'].key) && KeyUnshared(plans[e], plans[e][j'].pieces[k'].key)
    requires KeySucceeded(plans[e], EndOf(plans, runs, steps, e).phases, plans[e][j'].pieces[k'].key)
    ensures HoldsGroup(plans[c], plans[c][j].pieces[k].key, EndOf(plans, runs, steps, d).store, j, k)
            <==> KeyRecords(plans[c], plans[c][j].pieces[k].key) == KeyRecords(plans[e], plans[e][j'].pieces[k'].key)
  {
    LastCycleDecides(plans, runs, steps, e, d, j', k');
  }

  lemma KeyHasRecords(plan: Plan, j: int, k: int)
    requires IsPiece(plan, j, k) && NoEmptyPieces(plan)
    ensures |KeyRecords(plan, plan[j].pieces[k].key)| > 0
  {
    var key := plan[j].pieces[k].key;
    var a := KeyIndex(plan, key, j, k);
    FlatHasOne(Flat(plan), key, a);
    assert RecordsOf(plan[j].pieces[k].bytes)[0] in KeyPart(Flat(plan)[a], key);
  }

  /** Records of one second that come in different cycles are never brought together: the later object
      replaces the earlier one. */
  lemma CyclesAreNotJoined(plans: seq<Plan>, runs: seq<seq<State>>, steps: seq<seq<Step>>,
                           c: nat, j: int, k: int, e: nat, j': int, k': int, d: nat)
    requires LooseChain(plans, runs, steps) && c < e < |plans| && IsPiece(plans[c], j, k) && IsPiece(plans[e], j', k')
    requires plans[c][j].pieces[k].dest == plans[e][j'].pieces[k'].dest && LastNamer(plans, plans[c][j].pieces[k].dest, e, d)
    requires Exclusive(plans[e], plans[e][j'].pieces[k'].key) && KeyUnshared(plans[e], plans[e][j'].pieces[k'].key)
    requires KeySucceeded(plans[e], EndOf(plans, runs, steps, e).phases, plans[e][j'].pieces[k'].key)
    ensures var o, after := plans[c][j].pieces[k].dest, EndOf(plans, runs, steps, d).store;
            && o in after
            && multiset(RecordsOf(after[o]))
               != KeyRecords(plans[c], plans[c][j].pieces[k].key) + KeyRecords(plans[e], plans[e][j'].pieces[k'].key)
  {
    LastCycleDecides(plans, runs, steps, e, d, j', k');
    KeyHasRecords(plans[c], j, k);
    var a, b := KeyRecords(plans[c], plans[c][j].pieces[k].key), KeyRecords(plans[e], plans[e][j'].pieces[k'].key);
    assert |a + b| == |a| + |b|;
  }
}
