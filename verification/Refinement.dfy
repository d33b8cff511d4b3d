/** The concurrent cycle against its specification, "group all records by key": for every interleaving
    in which the key's jobs succeed, its group ends up in one object exactly when the key belongs to a
    single piece, or to exactly two pieces that are both HEAD or TAIL. */
module Refinement {
  import opened Bytes
  import opened PcapFormat
  import opened FileSystem
  import opened SplitSpec
  import opened Sums
  import opened Protocol
  import opened CycleContents
  import opened CycleOutcome

  ghost predicate SinglePiece(plan: Plan, key: string, j: int, k: int) {
    HasKey(plan, j, k, key) && forall i, m :: HasKey(plan, i, m, key) ==> i == j && m == k
  }

  ghost predicate TwoEnds(plan: Plan, key: string, j: int, k: int, j': int, k': int) {
    && HasKey(plan, j, k, key) && HasKey(plan, j', k', key) && (j != j' || k != k')
    && IsEnd(plan, j, k) && IsEnd(plan, j', k')
    && forall i, m :: HasKey(plan, i, m, key) ==> (i == j && m == k) || (i == j' && m == k')
  }

  /** The condition on the input: decided by the jobs alone, before the cycle starts. */
  ghost predicate Exclusive(plan: Plan, key: string) {
    || (exists j, k :: SinglePiece(plan, key, j, k))
    || (exists j, k, j', k' :: TwoEnds(plan, key, j, k, j', k'))
  }

  ghost predicate HoldsGroup(plan: Plan, key: string, store: Files, j: int, k: int) {
    && HasKey(plan, j, k, key)
    && plan[j].pieces[k].dest in store
    && multiset(RecordsOf(store[plan[j].pieces[k].dest])) == KeyRecords(plan, key)
  }

  /** One of the key's objects holds all records with the key, and nothing else. */
  ghost predicate Preserved(plan: Plan, key: string, store: Files) {
    exists j, k :: HoldsGroup(plan, key, store, j, k)
  }

  /** No job with a piece of this key failed; others may have. */
  ghost predicate KeySucceeded(plan: Plan, phases: seq<Phase>, key: string) {
    |phases| == |plan| && forall j, k :: HasKey(plan, j, k, key) ==> phases[j] == Finished(true)
  }

  /** A cycle that ended with every job of the key successful. */
  ghost predicate Succeeded(plan: Plan, store: Files, s: State, key: string) {
    GoodPlan(plan) && CycleInv(plan, store, s) && s.manager.Ended? && KeySucceeded(plan, s.phases, key)
  }

  ghost predicate NoEmptyPieces(plan: Plan) {
    forall j, k :: IsPiece(plan, j, k) ==> RecordsOf(plan[j].pieces[k].bytes) != []
  }

  // ---------- uploads and pieces ----------

  ghost predicate SingleOfPiece(plan: Plan, u: Upload, j: int, k: int) {
    IsPiece(plan, j, k) && u == Upload(plan[j].pieces[k].dest, [plan[j].pieces[k].path], plan[j].pieces[k].bytes)
  }

  /** The piece or the two pieces an upload was made of. */
  lemma UploadPieces(plan: Plan, u: Upload) returns (pair: bool, j: int, k: int, j': int, k': int)
    requires SingleUpload(plan, u) || PairUpload(plan, u)
    ensures !pair ==> SingleOfPiece(plan, u, j, k)
    ensures pair ==> PairOf(plan, u, j, k, j', k') && IsPiece(plan, j, k) && IsPiece(plan, j', k') && (j != j' || k != k')
  {
    if SingleUpload(plan, u) {
      pair, j', k' := false, 0, 0;
      j, k :| IsPiece(plan, j, k)
        && u == Upload(plan[j].pieces[k].dest, [plan[j].pieces[k].path], plan[j].pieces[k].bytes);
    } else {
      pair := true;
      j, k, j', k' :| PairOf(plan, u, j, k, j', k');
    }
  }

  /** An upload under a piece's object name is made of pieces with that piece's key. */
  lemma UploadKeys(plan: Plan, u: Upload, i: int, m: int) returns (pair: bool, j: int, k: int, j': int, k': int)
    requires GoodPlan(plan) && (SingleUpload(plan, u) || PairUpload(plan, u))
    requires IsPiece(plan, i, m) && u.dest == plan[i].pieces[m].dest
    ensures HasKey(plan, j, k, plan[i].pieces[m].key)
    ensures !pair ==> SingleOfPiece(plan, u, j, k)
    ensures pair ==> PairOf(plan, u, j, k, j', k') && HasKey(plan, j', k', plan[i].pieces[m].key) && (j != j' || k != k')
  {
    pair, j, k, j', k' := UploadPieces(plan, u);
    assert IsPiece(plan, j, k) && IsPiece(plan, i, m);
  }

  /** An upload that mentions a piece goes to that piece's object. */
  lemma MentionedDest(plan: Plan, u: Upload, i: int, m: int)
    requires GoodPlan(plan) && (SingleUpload(plan, u) || PairUpload(plan, u))
    requires IsPiece(plan, i, m) && plan[i].pieces[m].path in u.sources
    ensures u.dest == plan[i].pieces[m].dest
  {
    var pair, j, k, j', k' := UploadPieces(plan, u);
    assert IsPiece(plan, j, k) && IsPiece(plan, i, m);
    if pair {
      assert IsPiece(plan, j', k');
      if plan[i].pieces[m].path == plan[j'].pieces[k'].path {
        assert i == j' && m == k';
      }
    }
  }

  lemma SingleRecords(plan: Plan, u: Upload, j: int, k: int)
    requires SingleOfPiece(plan, u, j, k)
    ensures |multiset(RecordsOf(u.bytes))| == Size(plan, j, k)
  {
  }

  lemma PairRecords(plan: Plan, u: Upload, j: int, k: int, j': int, k': int)
    requires GoodPlan(plan) && PairOf(plan, u, j, k, j', k')
    ensures IsPiece(plan, j, k) && IsPiece(plan, j', k')
    ensures RecordsOf(u.bytes) == RecordsOf(plan[j].pieces[k].bytes) + RecordsOf(plan[j'].pieces[k'].bytes)
    ensures |multiset(RecordsOf(u.bytes))| == Size(plan, j, k) + Size(plan, j', k')
  {
    assert IsPiece(plan, j, k) && IsPiece(plan, j', k');
    var a, b := plan[j].pieces[k].bytes, plan[j'].pieces[k'].bytes;
    assert GoodJob(plan[j]) && GoodJob(plan[j']);
    MergedTwo(a, b);
  }

  lemma MergedTwo(a: seq<byte>, b: seq<byte>)
    requires Whole(a) && Whole(b)
    ensures RecordsOf(Merged([a, b])) == RecordsOf(a) + RecordsOf(b)
  {
    MergeConcatenatesRecords([a, b]);
    assert [a, b][1..] == [b] && [b][1..] == [];
    assert AllRecords([b]) == RecordsOf(b) + [];
    assert AllRecords([a, b]) == RecordsOf(a) + AllRecords([b]);
  }

  /** The upload whose content a piece's object finally has. */
  lemma FinalUpload(plan: Plan, store: Files, s: State, key: string, j: int, k: int) returns (i: nat)
    requires Succeeded(plan, store, s, key) && HasKey(plan, j, k, key)
    ensures i < |s.log| && s.log[i].dest == plan[j].pieces[k].dest
    ensures plan[j].pieces[k].dest in s.store && s.store[plan[j].pieces[k].dest] == s.log[i].bytes
  {
    PiecesUploadedOnce(plan, store, s, j, k);
    assert s.phases[j] == Finished(true);
    var a := LoggedAt(s.log, plan[j].pieces[k].path);
    MentionedDest(plan, s.log[a], j, k);
    var last := LastUpload(store, s.log, plan[j].pieces[k].dest);
    i := last;
  }

  // ---------- preserved groups are exclusive ----------

  lemma WholeGroupInPair(plan: Plan, key: string, j: int, k: int, j': int, k': int)
    requires NoEmptyPieces(plan) && HasKey(plan, j, k, key) && HasKey(plan, j', k', key) && (j != j' || k != k')
    requires IsEnd(plan, j, k) && IsEnd(plan, j', k')
    requires |KeyRecords(plan, key)| <= Size(plan, j, k) + Size(plan, j', k')
    ensures TwoEnds(plan, key, j, k, j', k')
  {
    forall x, y | HasKey(plan, x, y, key) ensures (x == j && y == k) || (x == j' && y == k') {
      if (x != j || y != k) && (x != j' || y != k') {
        ThreeWithKey(plan, key, j, k, j', k', x, y);
      }
    }
  }

  lemma WholeGroupInOne(plan: Plan, key: string, j: int, k: int)
    requires NoEmptyPieces(plan) && HasKey(plan, j, k, key) && |KeyRecords(plan, key)| <= Size(plan, j, k)
    ensures SinglePiece(plan, key, j, k)
  {
    forall x, y | HasKey(plan, x, y, key) ensures x == j && y == k {
      if x != j || y != k {
        TwoWithKey(plan, key, j, k, x, y);
      }
    }
  }

  lemma PreservedMeansExclusive(plan: Plan, store: Files, s: State, key: string)
    requires Succeeded(plan, store, s, key) && NoEmptyPieces(plan) && Preserved(plan, key, s.store)
    ensures Exclusive(plan, key)
  {
    var j, k :| HoldsGroup(plan, key, s.store, j, k);
    var i := FinalUpload(plan, store, s, key, j, k);
    var pair, a, b, a', b' := UploadKeys(plan, s.log[i], j, k);
    if pair {
      PairRecords(plan, s.log[i], a, b, a', b');
      WholeGroupInPair(plan, key, a, b, a', b');
    } else {
      SingleRecords(plan, s.log[i], a, b);
      WholeGroupInOne(plan, key, a, b);
    }
  }

  // ---------- exclusive groups are preserved ----------

  lemma SinglePiecePreserved(plan: Plan, store: Files, s: State, key: string, j: int, k: int)
    requires Succeeded(plan, store, s, key) && SinglePiece(plan, key, j, k)
    ensures HoldsGroup(plan, key, s.store, j, k)
  {
    var i := FinalUpload(plan, store, s, key, j, k);
    var pair, a, b, a', b' := UploadKeys(plan, s.log[i], j, k);
    OneWithKey(plan, key, j, k);
  }

  /** Two different uploads of lone HEAD/TAIL pieces have different keys. */
  lemma OneSinglePerKey(plan: Plan, store: Files, s: State, key: string, a: nat, b: nat, j: int, k: int, j': int, k': int)
    requires Succeeded(plan, store, s, key) && a < |s.log| && b < |s.log|
    requires SingleOfPiece(plan, s.log[a], j, k) && IsEnd(plan, j, k) && plan[j].pieces[k].key == key
    requires SingleOfPiece(plan, s.log[b], j', k') && IsEnd(plan, j', k') && plan[j'].pieces[k'].key == key
    ensures a == b
  {
    assert EndPath(plan, s.log[a].sources[0], key) && EndPath(plan, s.log[b].sources[0], key);
    if a < b {
      SumAtTwo(s.log, a, b, SingleOf(plan, key));
    } else if b < a {
      SumAtTwo(s.log, b, a, SingleOf(plan, key));
    }
  }

  lemma OnlyUploadOf(plan: Plan, store: Files, s: State, key: string, j: int, k: int, a: nat, b: nat)
    requires Succeeded(plan, store, s, key) && HasKey(plan, j, k, key) && a < |s.log| && b < |s.log|
    requires plan[j].pieces[k].path in s.log[a].sources && plan[j].pieces[k].path in s.log[b].sources
    ensures a == b
  {
    PiecesUploadedOnce(plan, store, s, j, k);
    if a != b { LoggedTwice(s.log, plan[j].pieces[k].path, a, b); }
  }

  /** Every upload to the key's object is the merge of its two pieces. */
  lemma TwoEndsAreMerged(plan: Plan, store: Files, s: State, key: string, j: int, k: int, j': int, k': int, i: nat)
    requires Succeeded(plan, store, s, key) && TwoEnds(plan, key, j, k, j', k')
    requires i < |s.log| && s.log[i].dest == plan[j].pieces[k].dest
    ensures PairOf(plan, s.log[i], j, k, j', k') || PairOf(plan, s.log[i], j', k', j, k)
  {
    var pair, a, b, a', b' := UploadKeys(plan, s.log[i], j, k);
    if !pair {
      var c, d := if a == j && b == k then j' else j, if a == j && b == k then k' else k;
      NotUploadedAlone(plan, store, s, key, a, b, c, d, i);
    }
  }

  lemma NotUploadedAlone(plan: Plan, store: Files, s: State, key: string, a: int, b: int, c: int, d: int, i: nat)
    requires Succeeded(plan, store, s, key) && (TwoEnds(plan, key, a, b, c, d) || TwoEnds(plan, key, c, d, a, b))
    requires i < |s.log|
    ensures !SingleOfPiece(plan, s.log[i], a, b)
  {
    if SingleOfPiece(plan, s.log[i], a, b) {
      var o, pair := UploadOfPartner(plan, store, s, key, a, b, c, d);
      if pair {
        OnlyUploadOf(plan, store, s, key, a, b, o, i);
      } else {
        OneSinglePerKey(plan, store, s, key, o, i, c, d, a, b);
      }
    }
  }

  /** The upload of one of two ends either holds the other as well or is of the one alone. */
  lemma UploadOfPartner(plan: Plan, store: Files, s: State, key: string, a: int, b: int, c: int, d: int)
    returns (o: nat, pair: bool)
    requires Succeeded(plan, store, s, key) && (TwoEnds(plan, key, a, b, c, d) || TwoEnds(plan, key, c, d, a, b))
    ensures o < |s.log| && plan[c].pieces[d].path in s.log[o].sources
    ensures pair ==> plan[a].pieces[b].path in s.log[o].sources && |s.log[o].sources| == 2
    ensures !pair ==> SingleOfPiece(plan, s.log[o], c, d)
  {
    var x, y, x', y';
    o, pair, x, y, x', y' := UploadMentioning(plan, store, s, key, c, d);
    if pair {
      assert s.log[o].sources[0] == plan[x].pieces[y].path && s.log[o].sources[1] == plan[x'].pieces[y'].path;
    }
  }

  /** The upload of a piece, and the piece or pieces it was made of. */
  lemma UploadMentioning(plan: Plan, store: Files, s: State, key: string, c: int, d: int)
    returns (o: nat, pair: bool, x: int, y: int, x': int, y': int)
    requires Succeeded(plan, store, s, key) && HasKey(plan, c, d, key)
    ensures o < |s.log| && plan[c].pieces[d].path in s.log[o].sources
    ensures HasKey(plan, x, y, key)
    ensures !pair ==> SingleOfPiece(plan, s.log[o], x, y) && x == c && y == d
    ensures pair ==> PairOf(plan, s.log[o], x, y, x', y') && HasKey(plan, x', y', key) && (x != x' || y != y')
  {
    PiecesUploadedOnce(plan, store, s, c, d);
    assert s.phases[c] == Finished(true);
    o := LoggedAt(s.log, plan[c].pieces[d].path);
    MentionedDest(plan, s.log[o], c, d);
    pair, x, y, x', y' := UploadKeys(plan, s.log[o], c, d);
    if !pair {
      assert s.log[o].sources == [plan[x].pieces[y].path];
    }
  }

  lemma TwoEndsPreserved(plan: Plan, store: Files, s: State, key: string, j: int, k: int, j': int, k': int)
    requires Succeeded(plan, store, s, key) && TwoEnds(plan, key, j, k, j', k')
    ensures HoldsGroup(plan, key, s.store, j, k)
  {
    var i := FinalUpload(plan, store, s, key, j, k);
    TwoEndsAreMerged(plan, store, s, key, j, k, j', k', i);
    ExactlyTwoWithKey(plan, key, j, k, j', k');
    if PairOf(plan, s.log[i], j, k, j', k') {
      PairRecords(plan, s.log[i], j, k, j', k');
    } else {
      PairRecords(plan, s.log[i], j', k', j, k);
    }
  }

  lemma ExclusiveMeansPreserved(plan: Plan, store: Files, s: State, key: string)
    requires Succeeded(plan, store, s, key) && Exclusive(plan, key)
    ensures Preserved(plan, key, s.store)
  {
    if j, k :| SinglePiece(plan, key, j, k) {
      SinglePiecePreserved(plan, store, s, key, j, k);
    } else {
      var j, k, j', k' :| TwoEnds(plan, key, j, k, j', k');
      TwoEndsPreserved(plan, store, s, key, j, k, j', k');
    }
  }

  // ---------- the theorems ----------

  /** For every interleaving that ends the cycle, and for every key none of whose jobs failed: the key's
      records are together in one of its objects if and only if the key is exclusive.  Jobs of other keys
      may have failed at any point. */
  lemma GroupPreservedIffExclusive(plan: Plan, run: seq<State>, steps: seq<Step>, key: string)
    requires GoodPlan(plan) && NoEmptyPieces(plan) && IsCycle(plan, run, steps)
    requires run[|steps|].manager.Ended? && KeySucceeded(plan, run[|steps|].phases, key)
    ensures Preserved(plan, key, run[|steps|].store) <==> Exclusive(plan, key)
  {
    var s := run[|steps|];
    ReachableStatesAreGood(plan, run, steps, |steps|);
    if Exclusive(plan, key) {
      ExclusiveMeansPreserved(plan, run[0].store, s, key);
    }
    if Preserved(plan, key, s.store) {
      PreservedMeansExclusive(plan, run[0].store, s, key);
    }
  }

  /** Every exclusive key whose jobs succeed has exactly one object afterwards, which holds exactly the
      records with that key; objects of no piece are as they were. */
  lemma CycleRefinesGrouping(plan: Plan, run: seq<State>, steps: seq<Step>)
    requires GoodPlan(plan) && IsCycle(plan, run, steps) && run[|steps|].manager.Ended?
    ensures forall j, k :: IsPiece(plan, j, k) && Exclusive(plan, plan[j].pieces[k].key)
                           && KeySucceeded(plan, run[|steps|].phases, plan[j].pieces[k].key) ==>
              HoldsGroup(plan, plan[j].pieces[k].key, run[|steps|].store, j, k)
    ensures forall j, k, j', k' :: IsPiece(plan, j, k) && IsPiece(plan, j', k') && Exclusive(plan, plan[j].pieces[k].key) ==>
              (plan[j].pieces[k].dest == plan[j'].pieces[k'].dest <==> plan[j].pieces[k].key == plan[j'].pieces[k'].key)
    ensures forall o :: (forall j, k :: IsPiece(plan, j, k) ==> plan[j].pieces[k].dest != o) ==>
              (o in run[|steps|].store <==> o in run[0].store)
              && (o in run[0].store ==> run[|steps|].store[o] == run[0].store[o])
  {
    var s := run[|steps|];
    ReachableStatesAreGood(plan, run, steps, |steps|);
    forall j, k | IsPiece(plan, j, k) && Exclusive(plan, plan[j].pieces[k].key)
                  && KeySucceeded(plan, s.phases, plan[j].pieces[k].key)
      ensures HoldsGroup(plan, plan[j].pieces[k].key, s.store, j, k)
    {
      PieceHoldsGroup(plan, run[0].store, s, j, k);
    }
    forall j, k, j', k' | IsPiece(plan, j, k) && IsPiece(plan, j', k') && Exclusive(plan, plan[j].pieces[k].key)
      ensures plan[j].pieces[k].dest == plan[j'].pieces[k'].dest <==> plan[j].pieces[k].key == plan[j'].pieces[k'].key
    {
      OneDestPerKey(plan, j, k, j', k');
    }
    forall o | forall j, k :: IsPiece(plan, j, k) ==> plan[j].pieces[k].dest != o
      ensures (o in s.store <==> o in run[0].store) && (o in run[0].store ==> s.store[o] == run[0].store[o])
    {
      OtherObjectsKept(plan, run[0].store, s, o);
    }
  }

  lemma SumContains(x: multiset<Record>, a: multiset<Record>, b: multiset<Record>)
    requires x <= b
    ensures x <= a + b && a + x <= a + b && x + a <= a + b
  {
  }

  lemma {:induction false} FlatHasOne(ps: seq<Piece>, key: string, a: nat)
    requires a < |ps| && ps[a].key == key
    ensures KeyPart(ps[a], key) <= FlatRecords(ps, key)
  {
    var rest := FlatRecords(ps[1..], key);
    if a == 0 {
      SumContains(multiset{}, KeyPart(ps[0], key), rest);
    } else {
      FlatHasOne(ps[1..], key, a - 1);
      SumContains(KeyPart(ps[a], key), KeyPart(ps[0], key), rest);
    }
  }

  lemma {:induction false} FlatHasTwo(ps: seq<Piece>, key: string, a: nat, b: nat)
    requires a < b < |ps| && ps[a].key == key && ps[b].key == key
    ensures KeyPart(ps[a], key) + KeyPart(ps[b], key) <= FlatRecords(ps, key)
  {
    var rest := FlatRecords(ps[1..], key);
    if a == 0 {
      FlatHasOne(ps[1..], key, b - 1);
      SumContains(KeyPart(ps[b], key), KeyPart(ps[0], key), rest);
    } else {
      FlatHasTwo(ps[1..], key, a - 1, b - 1);
      SumContains(KeyPart(ps[a], key) + KeyPart(ps[b], key), KeyPart(ps[0], key), rest);
    }
  }

  lemma PairIsOfKey(plan: Plan, u: Upload, key: string, j: int, k: int, j': int, k': int)
    requires GoodPlan(plan) && PairOf(plan, u, j, k, j', k') && HasKey(plan, j, k, key) && HasKey(plan, j', k', key)
    requires j != j' || k != k'
    ensures multiset(RecordsOf(u.bytes)) <= KeyRecords(plan, key)
  {
    PairRecords(plan, u, j, k, j', k');
    var a := KeyIndex(plan, key, j, k);
    var b := KeyIndex(plan, key, j', k');
    DifferentOffsets(plan, j, k, j', k');
    if a < b {
      FlatHasTwo(Flat(plan), key, a, b);
    } else {
      FlatHasTwo(Flat(plan), key, b, a);
    }
  }

  /** In every reachable state, whatever has failed so far, the object of a piece is untouched or holds
      records of that piece's key only, none more often than the key has it. */
  lemma ObjectsHoldOneKey(plan: Plan, run: seq<State>, steps: seq<Step>, i: nat, j: int, k: int)
    requires GoodPlan(plan) && IsCycle(plan, run, steps) && i < |run| && IsPiece(plan, j, k)
    ensures var o, s := plan[j].pieces[k].dest, run[i].store;
            || (if o in run[0].store then o in s && s[o] == run[0].store[o] else o !in s)
            || (o in s && multiset(RecordsOf(s[o])) <= KeyRecords(plan, plan[j].pieces[k].key))
  {
    ReachableStatesAreGood(plan, run, steps, i);
    var s, key := run[i], plan[j].pieces[k].key;
    var last := LastUpload(run[0].store, s.log, plan[j].pieces[k].dest);
    if last >= 0 {
      var pair, a, b, a', b' := UploadKeys(plan, s.log[last], j, k);
      if pair {
        PairIsOfKey(plan, s.log[last], key, a, b, a', b');
      } else {
        var x := KeyIndex(plan, key, a, b);
        FlatHasOne(Flat(plan), key, x);
      }
    }
  }

  lemma PieceHoldsGroup(plan: Plan, store: Files, s: State, j: int, k: int)
    requires IsPiece(plan, j, k) && Succeeded(plan, store, s, plan[j].pieces[k].key) && Exclusive(plan, plan[j].pieces[k].key)
    ensures HoldsGroup(plan, plan[j].pieces[k].key, s.store, j, k)
  {
    var key := plan[j].pieces[k].key;
    assert HasKey(plan, j, k, key);
    if a, b :| SinglePiece(plan, key, a, b) {
      SinglePiecePreserved(plan, store, s, key, a, b);
    } else {
      var a, b, a', b' :| TwoEnds(plan, key, a, b, a', b');
      if a == j && b == k {
        TwoEndsPreserved(plan, store, s, key, a, b, a', b');
      } else {
        TwoEndsPreserved(plan, store, s, key, a', b', a, b);
      }
    }
  }

  lemma ExclusivePieces(plan: Plan, key: string, j: int, k: int, j': int, k': int)
    requires Exclusive(plan, key) && HasKey(plan, j, k, key) && HasKey(plan, j', k', key)
    ensures (j == j' && k == k') || (IsEnd(plan, j, k) && IsEnd(plan, j', k'))
  {
    if a, b :| SinglePiece(plan, key, a, b) {
      assert j == a && k == b && j' == a && k' == b;
    }
  }

  lemma OneDestPerKey(plan: Plan, j: int, k: int, j': int, k': int)
    requires GoodPlan(plan) && IsPiece(plan, j, k) && IsPiece(plan, j', k') && Exclusive(plan, plan[j].pieces[k].key)
    ensures plan[j].pieces[k].dest == plan[j'].pieces[k'].dest <==> plan[j].pieces[k].key == plan[j'].pieces[k'].key
  {
    if plan[j'].pieces[k'].key == plan[j].pieces[k].key {
      ExclusivePieces(plan, plan[j].pieces[k].key, j, k, j', k');
    }
  }

  lemma OtherObjectsKept(plan: Plan, store: Files, s: State, o: string)
    requires CycleInv(plan, store, s)
    requires forall j, k :: IsPiece(plan, j, k) ==> plan[j].pieces[k].dest != o
    ensures (o in s.store <==> o in store) && (o in store ==> s.store[o] == store[o])
  {
    var i := LastUpload(store, s.log, o);
    if i >= 0 {
      var j, k := UploadIsOfPlan(plan, s.log[i]);
    }
  }

  lemma UploadIsOfPlan(plan: Plan, u: Upload) returns (j: int, k: int)
    requires SingleUpload(plan, u) || PairUpload(plan, u)
    ensures IsPiece(plan, j, k) && plan[j].pieces[k].dest == u.dest
  {
    var pair, j', k';
    pair, j, k, j', k' := UploadPieces(plan, u);
  }
}
