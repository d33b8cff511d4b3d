/** One request after another, in terms of their raw files: whose records an object finally holds. */
module Requests {
  import opened PcapFormat
  import opened Partition
  import opened Names
  import opened FileSystem
  import opened Protocol
  import opened CycleOutcome
  import opened Refinement
  import opened Renaming
  import opened Pipeline
  import opened EndToEnd
  import opened Chain

  /** The raw files of each request, one cycle per request. */
  function PlansFor(cfg: Config, lists: seq<seq<RawFile>>): seq<Plan> {
    seq(|lists|, c requires 0 <= c < |lists| => PlanFor(cfg, lists[c]))
  }

  ghost predicate Served(cfg: Config, lists: seq<seq<RawFile>>, runs: seq<seq<State>>, steps: seq<seq<Step>>) {
    && lists != [] && Chained(PlansFor(cfg, lists), runs, steps) && IsCycle(PlanFor(cfg, lists[0]), runs[0], steps[0])
    && forall c :: 0 <= c < |lists| ==> ValidInputs(cfg, lists[c])
  }

  /** The store after a request has been served. */
  ghost function StoreAfter(cfg: Config, lists: seq<seq<RawFile>>, runs: seq<seq<State>>, steps: seq<seq<Step>>, c: nat): Files
    requires Served(cfg, lists, runs, steps) && c < |lists|
  {
    runs[c][|steps[c]|].store
  }

  /** Some recorded second of these files goes to the object. */
  ghost predicate NamesObject(cfg: Config, files: seq<RawFile>, o: string) {
    exists i, v, m, s :: Contributes(cfg, files, i, v, m, s) && DestFor(cfg, files[i], s) == o
  }

  lemma NamesMatches(cfg: Config, files: seq<RawFile>, o: string)
    requires ValidInputs(cfg, files) && SendsTo(PlanFor(cfg, files), o)
    ensures NamesObject(cfg, files, o)
  {
    var j, k :| IsPiece(PlanFor(cfg, files), j, k) && PlanFor(cfg, files)[j].pieces[k].dest == o;
    var v, m, s := PieceDest(cfg, files, j, k);
  }

  lemma ServedIsLoose(cfg: Config, lists: seq<seq<RawFile>>, runs: seq<seq<State>>, steps: seq<seq<Step>>)
    requires Served(cfg, lists, runs, steps)
    ensures LooseChain(PlansFor(cfg, lists), runs, steps)
  {
    forall c | 0 <= c < |lists| ensures Loose(PlanFor(cfg, lists[c])) && NoEmptyPieces(PlanFor(cfg, lists[c])) {
      PlanIsLoose(cfg, lists[c]);
    }
  }

  /** An object stays as it is until a request brings a second that goes to it. */
  lemma ObjectSurvives(cfg: Config, lists: seq<seq<RawFile>>, runs: seq<seq<State>>, steps: seq<seq<Step>>,
                       e: nat, d: nat, o: string)
    requires Served(cfg, lists, runs, steps) && e <= d < |lists|
    requires forall x :: e < x <= d ==> !NamesObject(cfg, lists[x], o)
    ensures SameAt(StoreAfter(cfg, lists, runs, steps, e), StoreAfter(cfg, lists, runs, steps, d), o)
  {
    ServedIsLoose(cfg, lists, runs, steps);
    forall x | e < x <= d ensures !SendsTo(PlansFor(cfg, lists)[x], o) {
      if SendsTo(PlanFor(cfg, lists[x]), o) { NamesMatches(cfg, lists[x], o); }
    }
    UnnamedObjectSurvives(PlansFor(cfg, lists), runs, steps, e, d, o);
  }

  /** What has to hold in a request for a second of it to be grouped. */
  ghost predicate WellServed(cfg: Config, files: seq<RawFile>, phases: seq<Phase>, v: string, m: string, second: nat) {
    && ExclusiveSecond(cfg, files, v, m, second) && MinutesAgree(cfg, files, v, m, second)
    && SecondSucceeded(cfg, files, phases, v, m, second)
  }

  /** The last request with a second for an object decides: the object then holds exactly that request's
      records of the second, none of earlier requests'. */
  lemma LastRequestDecides(cfg: Config, lists: seq<seq<RawFile>>, runs: seq<seq<State>>, steps: seq<seq<Step>>,
                           e: nat, d: nat, i: int, v: string, m: string, second: nat)
    requires Served(cfg, lists, runs, steps) && e <= d < |lists| && Contributes(cfg, lists[e], i, v, m, second)
    requires WellServed(cfg, lists[e], runs[e][|steps[e]|].phases, v, m, second)
    requires forall x :: e < x <= d ==> !NamesObject(cfg, lists[x], DestFor(cfg, lists[e][i], second))
    ensures ObjectHolds(cfg, lists[e], StoreAfter(cfg, lists, runs, steps, d), i, v, m, second)
  {
    CyclesDoNotMix(PlansFor(cfg, lists), runs, steps, e, 0);
    SecondIsGrouped(cfg, lists[e], runs[e], steps[e], i, v, m, second);
    ObjectSurvives(cfg, lists, runs, steps, e, d, DestFor(cfg, lists[e][i], second));
  }

  lemma {:induction false} ContributesRecords(cfg: Config, files: seq<RawFile>, i: nat, v: string, m: string, second: nat)
    requires Contributes(cfg, files, i, v, m, second)
    ensures |GroupRecords(cfg, files, v, m, second)| > 0
  {
    if i == 0 {
      GroupMembers(RecordsOf(files[0].bytes), second);
      assert Group(RecordsOf(files[0].bytes), second)[0] in multiset(Group(RecordsOf(files[0].bytes), second));
    } else {
      assert Contributes(cfg, files[1..], i - 1, v, m, second);
      ContributesRecords(cfg, files[1..], i - 1, v, m, second);
    }
  }

  /** A second whose TAIL comes with one request and whose HEAD with a later one, as at the boundary of two
      date folders: the later piece goes to the same object and replaces the earlier one, so the records of
      the two requests are not brought together. */
  lemma RequestsAreNotJoined(cfg: Config, lists: seq<seq<RawFile>>, runs: seq<seq<State>>, steps: seq<seq<Step>>,
                             c: nat, i: int, e: nat, j: int, d: nat, v: string, m: string, second: nat)
    requires Served(cfg, lists, runs, steps) && c < e <= d < |lists|
    requires Contributes(cfg, lists[c], i, v, m, second) && AtEdge(lists[c][i], second)
    requires Contributes(cfg, lists[e], j, v, m, second) && AtEdge(lists[e][j], second)
    requires WellServed(cfg, lists[e], runs[e][|steps[e]|].phases, v, m, second)
    requires forall x :: e < x <= d ==> !NamesObject(cfg, lists[x], DestFor(cfg, lists[e][j], second))
    ensures var o, after := DestFor(cfg, lists[c][i], second), StoreAfter(cfg, lists, runs, steps, d);
            && o == DestFor(cfg, lists[e][j], second) && o in after
            && multiset(RecordsOf(after[o])) == GroupRecords(cfg, lists[e], v, m, second)
            && multiset(RecordsOf(after[o])) != GroupRecords(cfg, lists[c], v, m, second) + GroupRecords(cfg, lists[e], v, m, second)
  {
    LastRequestDecides(cfg, lists, runs, steps, e, d, j, v, m, second);
    ContributesRecords(cfg, lists[c], i, v, m, second);
    var a, b := GroupRecords(cfg, lists[c], v, m, second), GroupRecords(cfg, lists[e], v, m, second);
    assert |a + b| == |a| + |b|;
  }
}
