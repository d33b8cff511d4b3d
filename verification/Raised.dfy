/** What an exception in the manager can do to the next cycle: the old cycle's mail is still there. */
module Raised {
  import opened Wrappers
  import opened Bytes
  import opened FileSystem
  import opened Protocol
  import opened CycleCounts
  import opened Chain
  import opened Worker
  import opened Collision

  /** A merge raises: the request is answered with a failure and the next one begins in this state. */
  predicate Raises(s: State) {
    s.manager.Merging? || s.manager.Shipping? || (s.manager.Sweeping? && s.manager.rest != [])
  }

  /** One stale JobDone is enough to end a next cycle of one job before any worker has taken it: the cycle
      counts a success or a failure, and the job stays in the queue. */
  lemma StaleDoneEndsCycle(next: Plan, before: State, ok: bool) returns (run: seq<State>, steps: seq<Step>)
    requires |next| == 1 && before.queue == [] && before.holds == [None] && before.outboxes == [[JobDone(ok)]]
    ensures IsRun(next, run, steps) && BeginsAfter(next, before, run[0])
    ensures var s := run[|steps|];
            && s.manager.Ended? && s.phases == [Queued] && s.queue == [0]
            && s.progress == MarkOneDone(Progress(1, 0, 0), ok) && s.store == before.store
  {
    var s := State([Unqueued], [], [None], [[JobDone(ok)]], Pushing(0), map[], Progress(1, 0, 0), before.local, before.store, []);
    assert seq(1, _ => Unqueued) == [Unqueued];
    assert BeginsAfter(next, before, s);
    assert IsRun(next, [s], []) && [s][0] == s;
    assert Leads(next, s, s);
    var queued := Apply(next, s, Push);
    LeadsOneMore(next, s, s, Push);
    assert queued.phases == [Queued] && queued.queue == [0];
    var counted := Apply(next, queued, Deliver(0));
    LeadsOneMore(next, s, queued, Deliver(0));
    var t := EndCycle(next, s, counted);
    run, steps :| IsRun(next, run, steps) && run[0] == s && run[|steps|] == t;
  }

  /** Such a state is reached: two jobs done, the first two messages dispatched, and the merge raises while the
      last JobDone is still in the mail. */
  lemma RaiseLeavesDone(plan: Plan, p: Piece, x: seq<byte>, y: seq<byte>, local: Files, store: Files) returns (before: State)
    requires Twins(plan, p, x, y)
    ensures Leads(plan, Start(plan, 1, local, store), before) && Raises(before)
    ensures before.queue == [] && before.holds == [None] && before.outboxes == [[JobDone(true)]]
  {
    var s := Start(plan, 1, local, store);
    var worked := WorkBoth(plan, p, x, y, s);
    before := FirstThree(plan, s, worked, p.key, ItemOf(p));
  }

  lemma FirstThree(plan: Plan, s: State, u: State, key: string, item: Item) returns (t: State)
    requires Leads(plan, s, u) && u.manager == Draining && u.progress == Progress(2, 0, 0) && u.buckets == map[]
    requires u.outboxes == [[PairPut(key, item)] + ([JobDone(true)] + ([PairPut(key, item)] + ([JobDone(true)] + [])))]
    ensures Leads(plan, s, t) && t.manager == Merging([item, item]) && t.outboxes == [[JobDone(true)]]
    ensures t.queue == u.queue && t.holds == u.holds
  {
    var put, done := PairPut(key, item), JobDone(true);
    var a := DeliverFirst(plan, s, u, key, item, [done] + ([put] + ([done] + [])));
    var b := DeliverDone(plan, s, a, [put] + ([done] + []));
    t := DeliverTwin(plan, s, b, key, item, [done] + []);
    assert [done] + [] == [done];
  }

  /** Together: after a merge that raises, the next cycle can report success without having done its job. */
  lemma RaiseCanMixCycles(plan: Plan, p: Piece, x: seq<byte>, y: seq<byte>, next: Plan, local: Files, store: Files)
    returns (before: State, run: seq<State>, steps: seq<Step>)
    requires Twins(plan, p, x, y) && |next| == 1
    ensures Leads(plan, Start(plan, 1, local, store), before) && Raises(before)
    ensures IsRun(next, run, steps) && BeginsAfter(next, before, run[0])
    ensures var s := run[|steps|];
            s.manager.Ended? && s.progress.failure == 0 && s.phases == [Queued] && !Quiet(s)
  {
    before := RaiseLeavesDone(plan, p, x, y, local, store);
    run, steps := StaleDoneEndsCycle(next, before, true);
  }
}
