/** The refinement theorem for plans in which some pieces share local paths: it holds for every key whose
    own pieces do not, whatever becomes of the others. */
module SharedPaths {
  import opened FileSystem
  import opened Protocol
  import opened CycleOutcome
  import opened Refinement
  import opened Renaming

  // ---------- fresh paths ----------

  function PieceLengths(ps: seq<Piece>): nat {
    if ps == [] then 0 else |ps[0].path| + |ps[0].out| + PieceLengths(ps[1..])
  }

  /** At least as long as every path of the plan. */
  function PlanLength(plan: Plan): nat {
    if plan == [] then 0 else |plan[0].source| + PieceLengths(plan[0].pieces) + PlanLength(plan[1..])
  }

  lemma {:induction false} PieceLengthBound(ps: seq<Piece>, k: nat)
    requires k < |ps|
    ensures |ps[k].path| + |ps[k].out| <= PieceLengths(ps)
  {
    if k > 0 {
      PieceLengthBound(ps[1..], k - 1);
    }
  }

  lemma {:induction false} PlanLengthBound(plan: Plan, j: nat)
    requires j < |plan|
    ensures |plan[j].source| + PieceLengths(plan[j].pieces) <= PlanLength(plan)
  {
    if j > 0 {
      PlanLengthBound(plan[1..], j - 1);
    }
  }

  /** Longer than every path of the plan, and of another length for every piece. */
  function FreshPath(plan: Plan, j: nat, k: nat): string
    requires j <= |plan|
  {
    seq(PlanLength(plan) + 1 + Offset(plan, j) + k, _ => 'x')
  }

  ghost function RenamedPiece(plan: Plan, j: nat, k: nat): Piece
    requires IsPiece(plan, j, k)
  {
    if Unshared(plan, j, k) then plan[j].pieces[k] else plan[j].pieces[k].(path := FreshPath(plan, j, k))
  }

  ghost function RenamedJob(plan: Plan, j: nat): Job
    requires j < |plan|
  {
    plan[j].(pieces := seq(|plan[j].pieces|, k requires 0 <= k < |plan[j].pieces| => RenamedPiece(plan, j, k)))
  }

  ghost function Renamed(plan: Plan): Plan {
    seq(|plan|, j requires 0 <= j < |plan| => RenamedJob(plan, j))
  }

  lemma RenamedAt(plan: Plan, j: nat, k: nat)
    requires IsPiece(plan, j, k)
    ensures IsPiece(Renamed(plan), j, k) && Renamed(plan)[j].pieces[k] == RenamedPiece(plan, j, k)
  {
  }

  lemma RenamedRenames(plan: Plan)
    ensures Renames(plan, Renamed(plan))
  {
    forall j, k | IsPiece(plan, j, k) ensures Renamed(plan)[j].pieces[k] == RenamedPiece(plan, j, k) {
      RenamedAt(plan, j, k);
    }
  }

  /** A fresh path is no path of the plan. */
  lemma FreshIsFresh(plan: Plan, j: nat, k: nat, x: nat, y: nat)
    requires IsPiece(plan, j, k) && x < |plan|
    ensures FreshPath(plan, j, k) != plan[x].source
    ensures IsPiece(plan, x, y) ==> FreshPath(plan, j, k) != plan[x].pieces[y].path && FreshPath(plan, j, k) != plan[x].pieces[y].out
  {
    PlanLengthBound(plan, x);
    if IsPiece(plan, x, y) { PieceLengthBound(plan[x].pieces, y); }
  }

  lemma RenamedPathsDiffer(plan: Plan, j: nat, k: nat, j': nat, k': nat)
    requires IsPiece(plan, j, k) && IsPiece(plan, j', k')
    requires RenamedPiece(plan, j, k).path == RenamedPiece(plan, j', k').path
    ensures j == j' && k == k'
  {
    FreshIsFresh(plan, j, k, j', k');
    FreshIsFresh(plan, j', k', j, k);
    if j != j' || k != k' { FreshPathsDiffer(plan, j, k, j', k'); }
  }

  lemma FreshPathsDiffer(plan: Plan, j: nat, k: nat, j': nat, k': nat)
    requires IsPiece(plan, j, k) && IsPiece(plan, j', k') && (j != j' || k != k')
    ensures FreshPath(plan, j, k) != FreshPath(plan, j', k')
  {
    DifferentOffsets(plan, j, k, j', k');
    assert |FreshPath(plan, j, k)| != |FreshPath(plan, j', k')|;
  }

  lemma RenamedPiecesApart(plan: Plan, j: nat, k: nat, x: nat)
    requires Loose(plan) && IsPiece(plan, j, k) && x < |plan|
    ensures RenamedPiece(plan, j, k).path != plan[x].source && plan[j].pieces[k].out != plan[x].source
  {
    FreshIsFresh(plan, j, k, x, 0);
  }

  lemma RenamedOutsApart(plan: Plan, j: nat, k: nat, x: nat, y: nat)
    requires Loose(plan) && IsPiece(plan, j, k) && IsPiece(plan, x, y)
    ensures plan[j].pieces[k].out != RenamedPiece(plan, x, y).path
  {
    FreshIsFresh(plan, x, y, j, k);
  }

  lemma RenamedIsPrivate(plan: Plan)
    requires Loose(plan)
    ensures PathsPrivate(Renamed(plan))
  {
    var other := Renamed(plan);
    forall j, k, j', k' | IsPiece(other, j, k) && IsPiece(other, j', k') && other[j].pieces[k].path == other[j'].pieces[k'].path
      ensures j == j' && k == k'
    {
      RenamedAt(plan, j, k);
      RenamedAt(plan, j', k');
      RenamedPathsDiffer(plan, j, k, j', k');
    }
    forall j, k, j' | IsPiece(other, j, k) && 0 <= j' < |other|
      ensures other[j].pieces[k].path != other[j'].source && other[j].pieces[k].out != other[j'].source
    {
      RenamedAt(plan, j, k);
      RenamedPiecesApart(plan, j, k, j');
    }
    forall j, k, j', k' | IsPiece(other, j, k) && IsPiece(other, j', k') ensures other[j].pieces[k].out != other[j'].pieces[k'].path {
      RenamedAt(plan, j, k);
      RenamedAt(plan, j', k');
      RenamedOutsApart(plan, j, k, j', k');
    }
  }

  /** Nothing that a name or a content is asked for depends on the local paths. */
  lemma OtherIsGood(plan: Plan, other: Plan)
    requires Setting(plan, other)
    ensures GoodPlan(other) && (NoEmptyPieces(plan) ==> NoEmptyPieces(other))
  {
    OtherAgrees(plan, other);
    forall j, k | IsPiece(other, j, k) ensures IsPiece(plan, j, k) && other[j].pieces[k].bytes == plan[j].pieces[k].bytes {
      SamePieces(plan, other, j, k);
    }
    forall j | 0 <= j < |other| ensures GoodJob(other[j]) {
      forall k | 0 <= k < |other[j].pieces| ensures other[j].pieces[k].bytes == plan[j].pieces[k].bytes {
        assert IsPiece(other, j, k);
      }
      assert GoodJob(plan[j]);
    }
  }

  lemma OtherAgrees(plan: Plan, other: Plan)
    requires Setting(plan, other)
    ensures NamesAgree(other)
  {
    forall j, k | IsPiece(other, j, k)
      ensures IsPiece(plan, j, k) && (IsEnd(plan, j, k) <==> IsEnd(other, j, k))
      ensures other[j].pieces[k] == plan[j].pieces[k].(path := other[j].pieces[k].path)
    {
      SamePieces(plan, other, j, k);
    }
  }

  // ---------- keys ----------

  /** No piece of this key shares its local path. */
  ghost predicate KeyUnshared(plan: Plan, key: string) {
    forall j, k :: HasKey(plan, j, k, key) ==> Unshared(plan, j, k)
  }

  lemma SameKeys(plan: Plan, other: Plan, key: string)
    requires Renames(plan, other)
    ensures forall j, k :: HasKey(plan, j, k, key) <==> HasKey(other, j, k, key)
    ensures Exclusive(plan, key) <==> Exclusive(other, key)
  {
    forall j, k ensures HasKey(plan, j, k, key) <==> HasKey(other, j, k, key) {
      SamePieces(plan, other, j, k);
    }
    forall j | 0 <= j < |plan| ensures plan[j].mids == other[j].mids && |plan[j].pieces| == |other[j].pieces| {
      assert other[j] == plan[j].(pieces := other[j].pieces);
    }
    if Exclusive(plan, key) {
      ExclusiveAlike(plan, other, key);
    }
    if Exclusive(other, key) {
      ExclusiveAlike(other, plan, key);
    }
  }

  lemma ExclusiveAlike(plan: Plan, other: Plan, key: string)
    requires forall j, k :: HasKey(plan, j, k, key) <==> HasKey(other, j, k, key)
    requires |plan| == |other| && forall j :: 0 <= j < |plan| ==> plan[j].mids == other[j].mids && |plan[j].pieces| == |other[j].pieces|
    requires Exclusive(plan, key)
    ensures Exclusive(other, key)
  {
    if j, k :| SinglePiece(plan, key, j, k) {
      assert SinglePiece(other, key, j, k);
    } else {
      var j, k, j', k' :| TwoEnds(plan, key, j, k, j', k');
      assert TwoEnds(other, key, j, k, j', k');
    }
  }

  /** The records with a key are the same. */
  lemma {:induction false} SameKeyRecords(plan: Plan, other: Plan, key: string)
    requires |plan| == |other|
    requires forall j :: 0 <= j < |plan| ==> SamePieceContents(plan[j].pieces, other[j].pieces)
    ensures KeyRecords(plan, key) == KeyRecords(other, key)
  {
    if plan != [] {
      SameKeyRecords(plan[1..], other[1..], key);
      FlatAppend(plan[0].pieces, Flat(plan[1..]), key);
      FlatAppend(other[0].pieces, Flat(other[1..]), key);
      SameContents(plan[0].pieces, other[0].pieces, key);
    }
  }

  predicate SamePieceContents(ps: seq<Piece>, qs: seq<Piece>) {
    |ps| == |qs| && forall k :: 0 <= k < |ps| ==> ps[k].key == qs[k].key && ps[k].bytes == qs[k].bytes
  }

  lemma {:induction false} SameContents(ps: seq<Piece>, qs: seq<Piece>, key: string)
    requires SamePieceContents(ps, qs)
    ensures FlatRecords(ps, key) == FlatRecords(qs, key)
  {
    if ps != [] {
      SameContents(ps[1..], qs[1..], key);
    }
  }

  lemma RenamedRecords(plan: Plan, other: Plan, key: string)
    requires Renames(plan, other)
    ensures KeyRecords(plan, key) == KeyRecords(other, key)
  {
    forall j | 0 <= j < |plan| ensures SamePieceContents(plan[j].pieces, other[j].pieces) {
      forall k | 0 <= k < |plan[j].pieces|
        ensures plan[j].pieces[k].key == other[j].pieces[k].key && plan[j].pieces[k].bytes == other[j].pieces[k].bytes
      {
        assert IsPiece(plan, j, k);
      }
    }
    SameKeyRecords(plan, other, key);
  }

  /** The object of a piece whose key is unshared is untangled. */
  lemma KeyObjectUntangled(plan: Plan, key: string, j: int, k: int)
    requires Loose(plan) && KeyUnshared(plan, key) && HasKey(plan, j, k, key)
    ensures Untangled(plan, plan[j].pieces[k].dest)
  {
    forall a, b | IsPiece(plan, a, b) && plan[a].pieces[b].dest == plan[j].pieces[k].dest ensures Unshared(plan, a, b) {
      assert HasKey(plan, a, b, key);
    }
  }

  lemma HoldsAlike(plan: Plan, other: Plan, key: string, store: Files, store': Files, j: int, k: int)
    requires Setting(plan, other) && KeyUnshared(plan, key) && StoreRel(plan, store, store')
    ensures HoldsGroup(plan, key, store, j, k) <==> HoldsGroup(other, key, store', j, k)
  {
    SameKeys(plan, other, key);
    if HasKey(plan, j, k, key) {
      SamePieces(plan, other, j, k);
      KeyObjectUntangled(plan, key, j, k);
      assert SameAt(store, store', plan[j].pieces[k].dest);
      RenamedRecords(plan, other, key);
    }
  }

  // ---------- the theorems ----------

  lemma RenamedIsSetting(plan: Plan)
    requires Loose(plan)
    ensures Setting(plan, Renamed(plan)) && GoodPlan(Renamed(plan))
    ensures NoEmptyPieces(plan) ==> NoEmptyPieces(Renamed(plan))
  {
    RenamedRenames(plan);
    RenamedIsPrivate(plan);
    OtherIsGood(plan, Renamed(plan));
  }

  /** The counterpart of a cycle in the plan with renamed paths. */
  lemma Counterpart(plan: Plan, run: seq<State>, steps: seq<Step>)
    returns (other: Plan, run': seq<State>, steps': seq<Step>)
    requires Loose(plan) && IsCycle(plan, run, steps)
    ensures Setting(plan, other) && GoodPlan(other) && (NoEmptyPieces(plan) ==> NoEmptyPieces(other))
    ensures IsCycle(other, run', steps') && run'[0].store == run[0].store
    ensures Sim(plan, other, run[|steps|], run'[|steps'|])
  {
    other := Renamed(plan);
    RenamedIsSetting(plan);
    var s' := Start(other, |run[0].holds|, run[0].local, run[0].store);
    StartSim(plan, other, |run[0].holds|, run[0].local, run[0].store);
    run', steps' := RunSim(plan, other, run, steps, s');
  }

  /** For every interleaving that ends the cycle, and every key none of whose jobs failed and none of whose
      pieces shares its path: the key's records are together in one of its objects if and only if the key
      is exclusive. */
  lemma UnsharedPreservedIffExclusive(plan: Plan, run: seq<State>, steps: seq<Step>, key: string)
    requires Loose(plan) && NoEmptyPieces(plan) && IsCycle(plan, run, steps) && KeyUnshared(plan, key)
    requires run[|steps|].manager.Ended? && KeySucceeded(plan, run[|steps|].phases, key)
    ensures Preserved(plan, key, run[|steps|].store) <==> Exclusive(plan, key)
  {
    var other, run', steps' := Counterpart(plan, run, steps);
    var s, s' := run[|steps|], run'[|steps'|];
    SameKeys(plan, other, key);
    assert KeySucceeded(other, s'.phases, key);
    GroupPreservedIffExclusive(other, run', steps', key);
    forall j, k ensures HoldsGroup(plan, key, s.store, j, k) <==> HoldsGroup(other, key, s'.store, j, k) {
      HoldsAlike(plan, other, key, s.store, s'.store, j, k);
    }
    PreservedAlike(plan, other, key, s.store, s'.store);
  }

  lemma PreservedAlike(plan: Plan, other: Plan, key: string, store: Files, store': Files)
    requires forall j, k :: HoldsGroup(plan, key, store, j, k) <==> HoldsGroup(other, key, store', j, k)
    ensures Preserved(plan, key, store) <==> Preserved(other, key, store')
  {
    if j, k :| HoldsGroup(plan, key, store, j, k) {
      assert HoldsGroup(other, key, store', j, k);
    }
    if j, k :| HoldsGroup(other, key, store', j, k) {
      assert HoldsGroup(plan, key, store, j, k);
    }
  }

  /** Every such key that is exclusive has its records in the object of each of its pieces. */
  lemma UnsharedHoldsGroup(plan: Plan, run: seq<State>, steps: seq<Step>, j: int, k: int)
    requires Loose(plan) && IsCycle(plan, run, steps) && IsPiece(plan, j, k) && run[|steps|].manager.Ended?
    requires KeyUnshared(plan, plan[j].pieces[k].key) && Exclusive(plan, plan[j].pieces[k].key)
    requires KeySucceeded(plan, run[|steps|].phases, plan[j].pieces[k].key)
    ensures HoldsGroup(plan, plan[j].pieces[k].key, run[|steps|].store, j, k)
  {
    var key := plan[j].pieces[k].key;
    var other, run', steps' := Counterpart(plan, run, steps);
    SameKeys(plan, other, key);
    SamePieces(plan, other, j, k);
    assert KeySucceeded(other, run'[|steps'|].phases, key);
    CycleRefinesGrouping(other, run', steps');
    HoldsAlike(plan, other, key, run[|steps|].store, run'[|steps'|].store, j, k);
  }

  /** Objects that no piece goes to are as before the cycle, shared paths or not. */
  lemma UnnamedObjectKept(plan: Plan, run: seq<State>, steps: seq<Step>, o: string)
    requires Loose(plan) && IsCycle(plan, run, steps) && run[|steps|].manager.Ended?
    requires forall j, k :: IsPiece(plan, j, k) ==> plan[j].pieces[k].dest != o
    ensures SameAt(run[|steps|].store, run[0].store, o)
  {
    var other, run', steps' := Counterpart(plan, run, steps);
    forall j, k | IsPiece(other, j, k) ensures other[j].pieces[k].dest != o {
      SamePieces(plan, other, j, k);
    }
    CycleRefinesGrouping(other, run', steps');
    assert Untangled(plan, o);
    assert SameAt(run[|steps|].store, run'[|steps'|].store, o);
  }
}
