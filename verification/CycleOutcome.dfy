/** What a finished cycle leaves in the object store: which upload decides an object, and how the records of
    a key are spread over the pieces. */
module CycleOutcome {
  import opened PcapFormat
  import opened FileSystem
  import opened Sums
  import opened Protocol
  import opened CycleCounts
  import opened CyclePieces
  import opened CycleContents

  // ---------- all invariants along a run ----------

  ghost predicate CycleInv(plan: Plan, store: Files, s: State) {
    JobsInv(plan, s) && PiecesInv(plan, s) && ContentsInv(plan, store, s)
  }

  lemma HoldersMeanNotEnded(plan: Plan, s: State, w: nat)
    requires JobsInv(plan, s) && w < |s.holds| && s.holds[w].Some?
    ensures !s.manager.Sweeping? && !s.manager.Ended?
  {
    if s.manager.Sweeping? || s.manager.Ended? {
      CounterZeroMeansQuiet(plan, s);
    }
  }

  lemma CycleInvKept(plan: Plan, store: Files, s: State, step: Step)
    requires GoodPlan(plan) && CycleInv(plan, store, s) && Enabled(plan, s, step)
    ensures CycleInv(plan, store, Apply(plan, s, step))
  {
    StepEnabledPhases(plan, s, step);
    if step.UploadMid? { HoldersMeanNotEnded(plan, s, step.w); }
    JobsInvKept(plan, s, step);
    PiecesInvKept(plan, s, step);
    ContentsInvKept(plan, store, s, step);
  }

  /** A run of one cycle: it begins as `_run_cycle` does, with everything before it dealt with. */
  ghost predicate IsCycle(plan: Plan, run: seq<State>, steps: seq<Step>) {
    IsRun(plan, run, steps) && run[0] == Start(plan, |run[0].holds|, run[0].local, run[0].store)
  }

  /** Every state of every interleaving satisfies the invariants. */
  lemma {:induction false} ReachableStatesAreGood(plan: Plan, run: seq<State>, steps: seq<Step>, i: nat)
    requires GoodPlan(plan) && IsCycle(plan, run, steps) && i < |run|
    ensures CycleInv(plan, run[0].store, run[i])
  {
    if i == 0 {
      JobsInvAtStart(plan, run[0]);
      PiecesInvAtStart(plan, run[0]);
      ContentsInvAtStart(plan, run[0]);
    } else {
      ReachableStatesAreGood(plan, run, steps, i - 1);
      CycleInvKept(plan, run[0].store, run[i - 1], steps[i - 1]);
    }
  }

  // ---------- a finished cycle ----------

  /** At the end of a cycle each piece of a successful job is in exactly one upload; of a failed job no
      HEAD or TAIL piece is, and a MID piece at most once. */
  lemma PiecesUploadedOnce(plan: Plan, store: Files, s: State, j: int, k: int)
    requires CycleInv(plan, store, s) && s.manager.Ended? && IsPiece(plan, j, k)
    ensures s.phases[j].Finished?
    ensures s.phases[j] == Finished(true) ==> InLog(s.log, plan[j].pieces[k].path) == 1
    ensures s.phases[j] == Finished(false) ==> InLog(s.log, plan[j].pieces[k].path) <= if IsEnd(plan, j, k) then 0 else 1
  {
    CounterZeroMeansQuiet(plan, s);
    SumZero(s.outboxes, PostsOf(plan[j].pieces[k].path));
    assert PlacesFit(plan[j], s.phases[j], k, Places(s.outboxes, s.buckets, s.manager, s.log, plan[j].pieces[k]));
  }

  /** While a HEAD or TAIL piece of a job is anywhere at all, every MID piece of the job is uploaded. */
  lemma MidsBeforePairs(plan: Plan, store: Files, s: State, j: int, k: int, m: int)
    requires CycleInv(plan, store, s) && IsEnd(plan, j, k) && IsPiece(plan, j, m) && !IsEnd(plan, j, m)
    requires Places(s.outboxes, s.buckets, s.manager, s.log, plan[j].pieces[k]) >= 1
    requires PathsPrivate(plan)
    ensures InLog(s.log, plan[j].pieces[m].path) == 1
  {
    assert IsPiece(plan, j, k);
    var end, mid := plan[j].pieces[k], plan[j].pieces[m];
    assert PlacesFit(plan[j], s.phases[j], k, Places(s.outboxes, s.buckets, s.manager, s.log, end));
    assert PlacesFit(plan[j], s.phases[j], m, Places(s.outboxes, s.buckets, s.manager, s.log, mid));
    MidsAreNeverPosted(plan, s, j, m);
  }

  /** Only HEAD and TAIL pieces travel through the mail, the buckets and the manager's hands. */
  lemma MidsAreNeverPosted(plan: Plan, s: State, j: int, m: int)
    requires PathsPrivate(plan) && PiecesInv(plan, s) && IsPiece(plan, j, m) && !IsEnd(plan, j, m)
    ensures InMail(s.outboxes, plan[j].pieces[m].path) == 0
    ensures InBuckets(s.buckets, plan[j].pieces[m]) == 0
    ensures InHand(s.manager, plan[j].pieces[m].path) == 0
  {
    var p := plan[j].pieces[m].path;
    if InMail(s.outboxes, p) > 0 {
      var w := SumPositive(s.outboxes, PostsOf(p));
      var i := SumPositive(s.outboxes[w], IsPost(p));
      EndItemIs(plan, s.outboxes[w][i].key, s.outboxes[w][i].item, j, m);
    }
    if InBuckets(s.buckets, plan[j].pieces[m]) > 0 {
      EndItemIs(plan, plan[j].pieces[m].key, s.buckets[plan[j].pieces[m].key][0], j, m);
    }
    if InHand(s.manager, p) > 0 {
      MidNotInHand(plan, s, j, m);
    }
  }

  lemma MidNotInHand(plan: Plan, s: State, j: int, m: int)
    requires PathsPrivate(plan) && HandItems(plan, s.manager) && IsPiece(plan, j, m)
    requires InHand(s.manager, plan[j].pieces[m].path) > 0
    ensures IsEnd(plan, j, m)
  {
    var p := plan[j].pieces[m].path;
    match s.manager {
      case Merging(pair) => PairSourceIsEnd(plan, pair, j, m);
      case Shipping(pair) => PairSourceIsEnd(plan, pair, j, m);
      case Sweeping(rest) =>
        var i := SumPositive(rest, CountSrc(p));
        var key :| EndItem(plan, key, rest[i][0]);
        assert Sources(rest[i]) == [rest[i][0].src];
        EndItemIs(plan, key, rest[i][0], j, m);
    }
  }

  lemma PairSourceIsEnd(plan: Plan, pair: seq<Item>, j: int, m: int)
    requires PathsPrivate(plan) && EndPair(plan, pair) && IsPiece(plan, j, m) && CountSrc(plan[j].pieces[m].path)(pair) > 0
    ensures IsEnd(plan, j, m)
  {
    var a, b, a', b' := PairPieces(plan, pair);
    assert IsPiece(plan, a, b) && IsPiece(plan, a', b');
    assert multiset(Sources(pair)) == multiset{plan[a].pieces[b].path, plan[a'].pieces[b'].path};
  }

  // ---------- the last upload of an object decides its content ----------

  lemma {:induction false} LastUpload(store: Files, log: seq<Upload>, o: string) returns (i: int)
    ensures -1 <= i < |log|
    ensures i == -1 ==> (forall a :: 0 <= a < |log| ==> log[a].dest != o)
                        && (o in Replay(store, log) <==> o in store) && (o in store ==> Replay(store, log)[o] == store[o])
    ensures i >= 0 ==> log[i].dest == o && o in Replay(store, log) && Replay(store, log)[o] == log[i].bytes
  {
    if log == [] {
      i := -1;
    } else {
      var n := |log| - 1;
      if log[n].dest == o {
        i := n;
      } else {
        i := LastUpload(store, log[..n], o);
      }
    }
  }

  lemma {:induction false} LoggedAt(log: seq<Upload>, p: string) returns (i: nat)
    requires InLog(log, p) >= 1
    ensures i < |log| && p in log[i].sources
  {
    i := SumPositive(log, Mentions(p));
  }

  lemma LoggedTwice(log: seq<Upload>, p: string, a: nat, b: nat)
    requires a < |log| && b < |log| && a != b && p in log[a].sources && p in log[b].sources
    ensures InLog(log, p) >= 2
  {
    SumAtTwo(log, if a < b then a else b, if a < b then b else a, Mentions(p));
  }

  // ---------- records by key ----------

  function Flat(plan: Plan): seq<Piece> {
    if plan == [] then [] else plan[0].pieces + Flat(plan[1..])
  }

  function KeyPart(p: Piece, key: string): multiset<Record> {
    if p.key == key then multiset(RecordsOf(p.bytes)) else multiset{}
  }

  function FlatRecords(ps: seq<Piece>, key: string): multiset<Record> {
    if ps == [] then multiset{} else KeyPart(ps[0], key) + FlatRecords(ps[1..], key)
  }

  /** All records of the plan's pieces with this key: what one second of one module should hold. */
  function KeyRecords(plan: Plan, key: string): multiset<Record> {
    FlatRecords(Flat(plan), key)
  }

  function Offset(plan: Plan, j: nat): nat
    requires j <= |plan|
  {
    if j == 0 then 0 else |plan[0].pieces| + Offset(plan[1..], j - 1)
  }

  lemma {:induction false} FlatAt(plan: Plan, j: int, k: int)
    requires IsPiece(plan, j, k)
    ensures Offset(plan, j) + k < |Flat(plan)| && Flat(plan)[Offset(plan, j) + k] == plan[j].pieces[k]
  {
    if j > 0 {
      assert IsPiece(plan[1..], j - 1, k);
      FlatAt(plan[1..], j - 1, k);
    }
  }

  lemma {:induction false} FlatRef(plan: Plan, i: nat) returns (j: nat, k: nat)
    requires i < |Flat(plan)|
    ensures IsPiece(plan, j, k) && Offset(plan, j) + k == i && Flat(plan)[i] == plan[j].pieces[k]
  {
    if i < |plan[0].pieces| {
      j, k := 0, i;
    } else {
      var j', k' := FlatRef(plan[1..], i - |plan[0].pieces|);
      j, k := j' + 1, k';
    }
  }

  lemma {:induction false} OffsetMonotone(plan: Plan, j: int, k: int, j': int, k': int)
    requires IsPiece(plan, j, k) && IsPiece(plan, j', k') && (j < j' || (j == j' && k < k'))
    ensures Offset(plan, j) + k < Offset(plan, j') + k'
  {
    if j > 0 {
      assert IsPiece(plan[1..], j - 1, k) && IsPiece(plan[1..], j' - 1, k');
      OffsetMonotone(plan[1..], j - 1, k, j' - 1, k');
    } else if j' > 0 {
      assert Offset(plan, 0) == 0;
    }
  }

  function SizeOf(key: string): Piece -> nat {
    (p: Piece) => |KeyPart(p, key)|
  }

  lemma {:induction false} FlatSize(ps: seq<Piece>, key: string)
    ensures |FlatRecords(ps, key)| == Sum(ps, SizeOf(key))
  {
    if ps != [] {
      FlatSize(ps[1..], key);
    }
  }

  lemma {:induction false} FlatAppend(a: seq<Piece>, b: seq<Piece>, key: string)
    ensures FlatRecords(a + b, key) == FlatRecords(a, key) + FlatRecords(b, key)
  {
    if a == [] {
      assert a + b == b;
    } else {
      var part := KeyPart(a[0], key);
      calc {
        FlatRecords(a + b, key);
        { FlatStep(a + b, key); assert (a + b)[0] == a[0] && (a + b)[1..] == a[1..] + b; }
        part + FlatRecords(a[1..] + b, key);
        { FlatAppend(a[1..], b, key); }
        part + (FlatRecords(a[1..], key) + FlatRecords(b, key));
        { Regroup(part, FlatRecords(a[1..], key), FlatRecords(b, key)); }
        (part + FlatRecords(a[1..], key)) + FlatRecords(b, key);
        { FlatStep(a, key); }
        FlatRecords(a, key) + FlatRecords(b, key);
      }
    }
  }

  lemma Regroup(a: multiset<Record>, b: multiset<Record>, c: multiset<Record>)
    ensures a + (b + c) == (a + b) + c
  {
  }

  lemma FlatStep(ps: seq<Piece>, key: string)
    requires ps != []
    ensures FlatRecords(ps, key) == KeyPart(ps[0], key) + FlatRecords(ps[1..], key)
  {
  }

  lemma {:induction false} FlatNone(ps: seq<Piece>, key: string)
    requires forall i :: 0 <= i < |ps| ==> ps[i].key != key
    ensures FlatRecords(ps, key) == multiset{}
  {
    if ps != [] {
      FlatNone(ps[1..], key);
    }
  }

  lemma {:induction false} FlatOne(ps: seq<Piece>, key: string, a: nat)
    requires a < |ps| && forall i :: 0 <= i < |ps| && i != a ==> ps[i].key != key
    ensures FlatRecords(ps, key) == KeyPart(ps[a], key)
  {
    if a == 0 {
      FlatNone(ps[1..], key);
    } else {
      FlatOne(ps[1..], key, a - 1);
    }
  }

  lemma {:induction false} FlatTwo(ps: seq<Piece>, key: string, a: nat, b: nat)
    requires a < b < |ps| && forall i :: 0 <= i < |ps| && i != a && i != b ==> ps[i].key != key
    ensures FlatRecords(ps, key) == KeyPart(ps[a], key) + KeyPart(ps[b], key)
  {
    var rest := ps[1..];
    assert FlatRecords(ps, key) == KeyPart(ps[0], key) + FlatRecords(rest, key);
    assert rest[b - 1] == ps[b];
    if a == 0 {
      forall i | 0 <= i < |rest| && i != b - 1 ensures rest[i].key != key { assert rest[i] == ps[i + 1]; }
      FlatOne(rest, key, b - 1);
    } else {
      assert rest[a - 1] == ps[a] && KeyPart(ps[0], key) == multiset{};
      forall i | 0 <= i < |rest| && i != a - 1 && i != b - 1 ensures rest[i].key != key { assert rest[i] == ps[i + 1]; }
      FlatTwo(rest, key, a - 1, b - 1);
    }
  }

  lemma {:induction false} SumAtThree<T>(xs: seq<T>, i: nat, j: nat, k: nat, f: T -> nat)
    requires i < j < k < |xs|
    ensures f(xs[i]) + f(xs[j]) + f(xs[k]) <= Sum(xs, f)
  {
    if i > 0 {
      SumAtThree(xs[1..], i - 1, j - 1, k - 1, f);
    } else {
      SumAtTwo(xs[1..], j - 1, k - 1, f);
    }
  }

  ghost predicate HasKey(plan: Plan, j: int, k: int, key: string) {
    IsPiece(plan, j, k) && plan[j].pieces[k].key == key
  }

  function Size(plan: Plan, j: int, k: int): nat
    requires IsPiece(plan, j, k)
  {
    |RecordsOf(plan[j].pieces[k].bytes)|
  }

  lemma TwoWithKey(plan: Plan, key: string, j: int, k: int, j': int, k': int)
    requires HasKey(plan, j, k, key) && HasKey(plan, j', k', key) && (j != j' || k != k')
    ensures |KeyRecords(plan, key)| >= Size(plan, j, k) + Size(plan, j', k')
  {
    var a := KeyIndex(plan, key, j, k);
    var b := KeyIndex(plan, key, j', k');
    DifferentOffsets(plan, j, k, j', k');
    FlatSize(Flat(plan), key);
    if a < b {
      SumAtTwo(Flat(plan), a, b, SizeOf(key));
    } else {
      SumAtTwo(Flat(plan), b, a, SizeOf(key));
    }
  }

  lemma ThreeIndices(ps: seq<Piece>, key: string, a: nat, b: nat, c: nat)
    requires a < |ps| && b < |ps| && c < |ps| && a != b && b != c && a != c
    ensures Sum(ps, SizeOf(key)) >= SizeOf(key)(ps[a]) + SizeOf(key)(ps[b]) + SizeOf(key)(ps[c])
  {
    if a < b {
      if b < c { SumAtThree(ps, a, b, c, SizeOf(key)); }
      else if a < c { SumAtThree(ps, a, c, b, SizeOf(key)); }
      else { SumAtThree(ps, c, a, b, SizeOf(key)); }
    } else {
      if a < c { SumAtThree(ps, b, a, c, SizeOf(key)); }
      else if b < c { SumAtThree(ps, b, c, a, SizeOf(key)); }
      else { SumAtThree(ps, c, b, a, SizeOf(key)); }
    }
  }

  lemma DifferentOffsets(plan: Plan, j: int, k: int, j': int, k': int)
    requires IsPiece(plan, j, k) && IsPiece(plan, j', k') && (j != j' || k != k')
    ensures Offset(plan, j) + k != Offset(plan, j') + k'
  {
    if j < j' || (j == j' && k < k') {
      OffsetMonotone(plan, j, k, j', k');
    } else {
      OffsetMonotone(plan, j', k', j, k);
    }
  }

  lemma ThreeWithKey(plan: Plan, key: string, j: int, k: int, j': int, k': int, i: int, m: int)
    requires HasKey(plan, j, k, key) && HasKey(plan, j', k', key) && HasKey(plan, i, m, key)
    requires (j != j' || k != k') && (j != i || k != m) && (j' != i || k' != m)
    ensures |KeyRecords(plan, key)| >= Size(plan, j, k) + Size(plan, j', k') + Size(plan, i, m)
  {
    var a := KeyIndex(plan, key, j, k);
    var b := KeyIndex(plan, key, j', k');
    var c := KeyIndex(plan, key, i, m);
    DifferentOffsets(plan, j, k, j', k');
    DifferentOffsets(plan, j, k, i, m);
    DifferentOffsets(plan, j', k', i, m);
    SizeOfThree(Flat(plan), key, a, b, c);
  }

  lemma SizeOfThree(ps: seq<Piece>, key: string, a: nat, b: nat, c: nat)
    requires a < |ps| && b < |ps| && c < |ps| && a != b && b != c && a != c
    ensures |FlatRecords(ps, key)| >= SizeOf(key)(ps[a]) + SizeOf(key)(ps[b]) + SizeOf(key)(ps[c])
  {
    FlatSize(ps, key);
    ThreeIndices(ps, key, a, b, c);
  }

  /** The position of a piece in the flat list. */
  lemma KeyIndex(plan: Plan, key: string, j: int, k: int) returns (a: nat)
    requires HasKey(plan, j, k, key)
    ensures a == Offset(plan, j) + k && a < |Flat(plan)| && Flat(plan)[a] == plan[j].pieces[k]
    ensures SizeOf(key)(Flat(plan)[a]) == Size(plan, j, k)
  {
    FlatAt(plan, j, k);
    a := Offset(plan, j) + k;
  }

  lemma OneWithKey(plan: Plan, key: string, j: int, k: int)
    requires HasKey(plan, j, k, key)
    requires forall i, m :: HasKey(plan, i, m, key) ==> i == j && m == k
    ensures KeyRecords(plan, key) == multiset(RecordsOf(plan[j].pieces[k].bytes))
  {
    FlatAt(plan, j, k);
    var a := Offset(plan, j) + k;
    forall i | 0 <= i < |Flat(plan)| && i != a ensures Flat(plan)[i].key != key {
      var x, y := FlatRef(plan, i);
      assert HasKey(plan, x, y, key) <==> Flat(plan)[i].key == key;
    }
    FlatOne(Flat(plan), key, a);
  }

  lemma ExactlyTwoWithKey(plan: Plan, key: string, j: int, k: int, j': int, k': int)
    requires HasKey(plan, j, k, key) && HasKey(plan, j', k', key) && (j != j' || k != k')
    requires forall i, m :: HasKey(plan, i, m, key) ==> (i == j && m == k) || (i == j' && m == k')
    ensures KeyRecords(plan, key)
            == multiset(RecordsOf(plan[j].pieces[k].bytes)) + multiset(RecordsOf(plan[j'].pieces[k'].bytes))
  {
    var a := KeyIndex(plan, key, j, k);
    var b := KeyIndex(plan, key, j', k');
    DifferentOffsets(plan, j, k, j', k');
    OthersDiffer(plan, key, j, k, j', k');
    TwoInAnyOrder(Flat(plan), key, a, b);
  }

  lemma TwoInAnyOrder(ps: seq<Piece>, key: string, a: nat, b: nat)
    requires a < |ps| && b < |ps| && a != b && ps[a].key == key && ps[b].key == key
    requires forall i :: 0 <= i < |ps| && i != a && i != b ==> ps[i].key != key
    ensures FlatRecords(ps, key) == multiset(RecordsOf(ps[a].bytes)) + multiset(RecordsOf(ps[b].bytes))
  {
    if a < b {
      FlatTwo(ps, key, a, b);
    } else {
      FlatTwo(ps, key, b, a);
    }
  }

  lemma OthersDiffer(plan: Plan, key: string, j: int, k: int, j': int, k': int)
    requires IsPiece(plan, j, k) && IsPiece(plan, j', k')
    requires forall i, m :: HasKey(plan, i, m, key) ==> (i == j && m == k) || (i == j' && m == k')
    ensures forall i :: 0 <= i < |Flat(plan)| && i != Offset(plan, j) + k && i != Offset(plan, j') + k' ==>
              Flat(plan)[i].key != key
  {
    forall i | 0 <= i < |Flat(plan)| && i != Offset(plan, j) + k && i != Offset(plan, j') + k'
      ensures Flat(plan)[i].key != key
    {
      var x, y := FlatRef(plan, i);
      assert HasKey(plan, x, y, key) <==> Flat(plan)[i].key == key;
    }
  }
}
