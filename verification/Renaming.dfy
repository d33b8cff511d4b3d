/** Plans in which pieces share local paths, compared with the same plan after each shared path has been
    renamed: whatever happens to the shared ones, pieces with a path of their own fare alike in both. */
module Renaming {
  import opened Wrappers
  import opened Bytes
  import opened FileSystem
  import opened SplitSpec
  import opened Protocol
  import opened CyclePieces
  import opened CycleContents

  // ---------- plans that differ in shared paths ----------

  /** No other piece has this piece's local path. */
  ghost predicate Unshared(plan: Plan, j: int, k: int) {
    && IsPiece(plan, j, k)
    && forall a, b :: IsPiece(plan, a, b) && plan[a].pieces[b].path == plan[j].pieces[k].path ==> a == j && b == k
  }

  /** What is asked of a plan apart from private piece paths. */
  ghost predicate Loose(plan: Plan) {
    && NamesAgree(plan)
    && (forall j :: 0 <= j < |plan| ==> GoodJob(plan[j]))
    && (forall j, j' :: 0 <= j < |plan| && 0 <= j' < |plan| && plan[j].source == plan[j'].source ==> j == j')
    && (forall j, k, j' {:trigger IsPiece(plan, j, k), plan[j']} ::
          IsPiece(plan, j, k) && 0 <= j' < |plan| ==>
            plan[j].pieces[k].path != plan[j'].source && plan[j].pieces[k].out != plan[j'].source)
    && (forall j, k, j', k' {:trigger IsPiece(plan, j, k), IsPiece(plan, j', k')} ::
          IsPiece(plan, j, k) && IsPiece(plan, j', k') ==> plan[j].pieces[k].out != plan[j'].pieces[k'].path)
  }

  /** The same plan but for the paths of pieces that share theirs. */
  ghost predicate Renames(plan: Plan, other: Plan) {
    && |other| == |plan|
    && (forall j :: 0 <= j < |plan| ==> other[j] == plan[j].(pieces := other[j].pieces) && |other[j].pieces| == |plan[j].pieces|)
    && (forall j, k :: IsPiece(plan, j, k) ==> other[j].pieces[k] == plan[j].pieces[k].(path := other[j].pieces[k].path))
    && (forall j, k :: Unshared(plan, j, k) ==> other[j].pieces[k] == plan[j].pieces[k])
  }

  ghost predicate Setting(plan: Plan, other: Plan) {
    Loose(plan) && Renames(plan, other) && PathsPrivate(other)
  }

  lemma SamePieces(plan: Plan, other: Plan, j: int, k: int)
    requires Renames(plan, other)
    ensures IsPiece(plan, j, k) <==> IsPiece(other, j, k)
    ensures IsEnd(plan, j, k) <==> IsEnd(other, j, k)
  {
  }

  // ---------- the relation ----------

  predicate SameAt(a: Files, b: Files, p: string) {
    (p in a <==> p in b) && (p in a ==> a[p] == b[p])
  }

  ghost predicate ItemOfPiece(plan: Plan, other: Plan, key: string, i: Item, i': Item, j: int, k: int) {
    && IsEnd(plan, j, k) && j < |other| && k < |other[j].pieces| && plan[j].pieces[k].key == key
    && i == ItemOf(plan[j].pieces[k]) && i' == ItemOf(other[j].pieces[k])
  }

  /** The items of one end piece in the two plans. */
  ghost predicate ItemRel(plan: Plan, other: Plan, key: string, i: Item, i': Item)
    requires Renames(plan, other)
  {
    exists j, k :: ItemOfPiece(plan, other, key, i, i', j, k)
  }

  ghost predicate MsgRel(plan: Plan, other: Plan, m: Msg, m': Msg)
    requires Renames(plan, other)
  {
    match m
    case JobDone(_) => m' == m
    case PairPut(key, item) => m'.PairPut? && m'.key == key && ItemRel(plan, other, key, item, m'.item)
  }

  ghost predicate MailRel(plan: Plan, other: Plan, a: seq<seq<Msg>>, b: seq<seq<Msg>>)
    requires Renames(plan, other)
  {
    && |a| == |b| && (forall w :: 0 <= w < |a| ==> |a[w]| == |b[w]|)
    && forall w, i :: 0 <= w < |a| && 0 <= i < |a[w]| ==> MsgRel(plan, other, a[w][i], b[w][i])
  }

  ghost predicate BucketRel(plan: Plan, other: Plan, a: map<string, seq<Item>>, b: map<string, seq<Item>>)
    requires Renames(plan, other)
  {
    && a.Keys == b.Keys
    && forall key :: key in a ==> |a[key]| == 1 && |b[key]| == 1 && ItemRel(plan, other, key, a[key][0], b[key][0])
  }

  ghost predicate PairRel(plan: Plan, other: Plan, a: seq<Item>, b: seq<Item>)
    requires Renames(plan, other)
  {
    && |a| == 2 && |b| == 2
    && exists key :: ItemRel(plan, other, key, a[0], b[0]) && ItemRel(plan, other, key, a[1], b[1])
  }

  ghost predicate OneRel(plan: Plan, other: Plan, a: seq<Item>, b: seq<Item>)
    requires Renames(plan, other)
  {
    |a| == 1 && |b| == 1 && exists key :: ItemRel(plan, other, key, a[0], b[0])
  }

  ghost predicate HandRel(plan: Plan, other: Plan, m: Manager, m': Manager)
    requires Renames(plan, other)
  {
    match m
    case Merging(pair) => m'.Merging? && PairRel(plan, other, pair, m'.pair)
    case Shipping(pair) => m'.Shipping? && PairRel(plan, other, pair, m'.pair)
    case Cleaning(pair) => m'.Cleaning? && PairRel(plan, other, pair, m'.pair)
    case Sweeping(rest) =>
      m'.Sweeping? && |m'.rest| == |rest| && forall i :: 0 <= i < |rest| ==> OneRel(plan, other, rest[i], m'.rest[i])
    case _ => m' == m
  }

  ghost predicate LocalRel(plan: Plan, a: Files, b: Files) {
    forall j, k :: Unshared(plan, j, k) ==> SameAt(a, b, plan[j].pieces[k].path)
  }

  ghost predicate UnsharedItem(plan: Plan, i: Item) {
    exists j, k :: Unshared(plan, j, k) && ItemOf(plan[j].pieces[k]) == i
  }

  /** A merge of pieces with paths of their own is the same in both. */
  ghost predicate OutRel(plan: Plan, m: Manager, a: Files, b: Files) {
    m.Shipping? && |m.pair| == 2 && UnsharedItem(plan, m.pair[0]) && UnsharedItem(plan, m.pair[1]) ==> SameAt(a, b, m.pair[0].out)
  }

  /** All pieces for this object have paths of their own. */
  ghost predicate Untangled(plan: Plan, o: string) {
    forall j, k :: IsPiece(plan, j, k) && plan[j].pieces[k].dest == o ==> Unshared(plan, j, k)
  }

  ghost predicate StoreRel(plan: Plan, a: Files, b: Files) {
    forall o :: Untangled(plan, o) ==> SameAt(a, b, o)
  }

  ghost predicate Sim(plan: Plan, other: Plan, s: State, s': State)
    requires Renames(plan, other)
  {
    && s.phases == s'.phases && s.queue == s'.queue && s.holds == s'.holds && s.progress == s'.progress
    && MailRel(plan, other, s.outboxes, s'.outboxes) && BucketRel(plan, other, s.buckets, s'.buckets)
    && HandRel(plan, other, s.manager, s'.manager)
    && LocalRel(plan, s.local, s'.local) && OutRel(plan, s.manager, s.local, s'.local) && StoreRel(plan, s.store, s'.store)
  }

  // ---------- items of pieces with their own path ----------

  /** Such an item is the same in both plans. */
  lemma UnsharedItemIsSame(plan: Plan, other: Plan, key: string, i: Item, i': Item)
    requires Setting(plan, other) && ItemRel(plan, other, key, i, i')
    ensures i'.out == i.out && i'.prefix == i.prefix
    ensures UnsharedItem(plan, i) ==> i' == i
  {
    var j, k :| ItemOfPiece(plan, other, key, i, i', j, k);
    assert IsPiece(plan, j, k);
    if a, b :| Unshared(plan, a, b) && ItemOf(plan[a].pieces[b]) == i {
      assert j == a && k == b;
    }
  }

  /** An item that goes to an untangled object has a path of its own. */
  lemma UntangledItem(plan: Plan, other: Plan, key: string, i: Item, i': Item)
    requires Setting(plan, other) && ItemRel(plan, other, key, i, i') && Untangled(plan, i.prefix)
    ensures UnsharedItem(plan, i)
  {
    var j, k :| ItemOfPiece(plan, other, key, i, i', j, k);
    assert IsPiece(plan, j, k);
  }

  /** Both items of a key go to one object. */
  lemma OneObject(plan: Plan, other: Plan, key: string, i: Item, i': Item, m: Item, m': Item)
    requires Setting(plan, other) && ItemRel(plan, other, key, i, i') && ItemRel(plan, other, key, m, m')
    ensures i.prefix == m.prefix && i.out == m.out
  {
    var a, b :| ItemOfPiece(plan, other, key, i, i', a, b);
    var c, d :| ItemOfPiece(plan, other, key, m, m', c, d);
    assert IsEnd(plan, a, b) && IsEnd(plan, c, d);
  }

  /** A piece with its own path keeps it when another item's path is removed in both. */
  lemma RemoveItem(plan: Plan, other: Plan, key: string, i: Item, i': Item, a: Files, b: Files)
    requires Setting(plan, other) && ItemRel(plan, other, key, i, i') && LocalRel(plan, a, b)
    ensures LocalRel(plan, a - {i.src}, b - {i'.src})
  {
    var j, k :| ItemOfPiece(plan, other, key, i, i', j, k);
    RemovePiece(plan, other, j, k, a, b);
  }

  lemma RemovePiece(plan: Plan, other: Plan, j: int, k: int, a: Files, b: Files)
    requires Setting(plan, other) && IsPiece(plan, j, k) && LocalRel(plan, a, b)
    ensures k < |other[j].pieces|
    ensures LocalRel(plan, a - {plan[j].pieces[k].path}, b - {other[j].pieces[k].path})
  {
    SamePieces(plan, other, j, k);
    var p, p' := plan[j].pieces[k].path, other[j].pieces[k].path;
    forall x, y | Unshared(plan, x, y) ensures SameAt(a - {p}, b - {p'}, plan[x].pieces[y].path) {
      SamePieces(plan, other, x, y);
      assert IsPiece(other, x, y) && IsPiece(other, j, k);
      assert SameAt(a, b, plan[x].pieces[y].path);
      if x != j || y != k {
        assert plan[x].pieces[y].path != p && other[x].pieces[y].path != p';
      }
    }
  }

  // ---------- mail and buckets ----------

  lemma MailGrowsRel(plan: Plan, other: Plan, a: seq<seq<Msg>>, b: seq<seq<Msg>>, w: nat, m: Msg, m': Msg)
    requires Renames(plan, other) && MailRel(plan, other, a, b) && w < |a| && MsgRel(plan, other, m, m')
    ensures MailRel(plan, other, a[w := a[w] + [m]], b[w := b[w] + [m']])
  {
    var x: seq<seq<Msg>>, y: seq<seq<Msg>> := a[w := a[w] + [m]], b[w := b[w] + [m']];
    forall v, i | 0 <= v < |x| && 0 <= i < |x[v]| ensures MsgRel(plan, other, x[v][i], y[v][i]) {
      if v != w || i < |a[w]| {
        assert x[v][i] == a[v][i] && y[v][i] == b[v][i];
      } else {
        assert x[v][i] == m && y[v][i] == m';
      }
    }
  }

  lemma MailShrinksRel(plan: Plan, other: Plan, a: seq<seq<Msg>>, b: seq<seq<Msg>>, w: nat)
    requires Renames(plan, other) && MailRel(plan, other, a, b) && w < |a| && a[w] != []
    ensures b[w] != [] && MsgRel(plan, other, a[w][0], b[w][0])
    ensures MailRel(plan, other, a[w := a[w][1..]], b[w := b[w][1..]])
  {
    assert |a[w]| == |b[w]|;
    var x: seq<seq<Msg>>, y: seq<seq<Msg>> := a[w := a[w][1..]], b[w := b[w][1..]];
    forall v, i | 0 <= v < |x| && 0 <= i < |x[v]| ensures MsgRel(plan, other, x[v][i], y[v][i]) {
      if v == w {
        assert x[v][i] == a[v][i + 1] && y[v][i] == b[v][i + 1];
      } else {
        assert x[v][i] == a[v][i] && y[v][i] == b[v][i];
      }
    }
  }

  lemma FirstPutResult(buckets: map<string, seq<Item>>, key: string, item: Item)
    requires key !in buckets
    ensures PutResult(buckets, key, item) == None && PutBuckets(buckets, key, item) == buckets[key := [item]]
  {
    assert [] + [item] == [item];
  }

  lemma AddBucketRel(plan: Plan, other: Plan, a: map<string, seq<Item>>, b: map<string, seq<Item>>, key: string, i: Item, i': Item)
    requires Renames(plan, other) && BucketRel(plan, other, a, b) && ItemRel(plan, other, key, i, i')
    ensures BucketRel(plan, other, a[key := [i]], b[key := [i']])
  {
    var x, y := a[key := [i]], b[key := [i']];
    forall k | k in x ensures |x[k]| == 1 && |y[k]| == 1 && ItemRel(plan, other, k, x[k][0], y[k][0]) {
      if k != key { assert k in a; }
    }
  }

  lemma FirstPutRel(plan: Plan, other: Plan, a: map<string, seq<Item>>, b: map<string, seq<Item>>, key: string, i: Item, i': Item)
    requires Renames(plan, other) && BucketRel(plan, other, a, b) && ItemRel(plan, other, key, i, i') && key !in a
    ensures PutBuckets(a, key, i) == a[key := [i]] && PutBuckets(b, key, i') == b[key := [i']]
    ensures PutResult(a, key, i).None? && PutResult(b, key, i').None?
    ensures BucketRel(plan, other, a[key := [i]], b[key := [i']])
  {
    assert key !in b by { assert key !in a.Keys; }
    FirstPutResult(a, key, i);
    FirstPutResult(b, key, i');
    AddBucketRel(plan, other, a, b, key, i, i');
  }

  lemma TakeBucketRel(plan: Plan, other: Plan, a: map<string, seq<Item>>, b: map<string, seq<Item>>, key: string)
    requires Renames(plan, other) && BucketRel(plan, other, a, b)
    ensures BucketRel(plan, other, a - {key}, b - {key})
  {
  }

  lemma SecondPutRel(plan: Plan, other: Plan, a: map<string, seq<Item>>, b: map<string, seq<Item>>, key: string, i: Item, i': Item)
    requires Renames(plan, other) && BucketRel(plan, other, a, b) && ItemRel(plan, other, key, i, i') && key in a
    ensures key in b && |a[key]| == 1 && |b[key]| == 1
    ensures PutBuckets(a, key, i) == a - {key} && PutBuckets(b, key, i') == b - {key}
    ensures PutResult(a, key, i) == Some([a[key][0], i]) && PutResult(b, key, i') == Some([b[key][0], i'])
    ensures PairRel(plan, other, [a[key][0], i], [b[key][0], i'])
  {
    BucketAt(plan, other, a, b, key);
    SecondPutResult(a, key, i);
    SecondPutResult(b, key, i');
    PairOfKey(plan, other, key, a[key][0], b[key][0], i, i');
  }

  lemma BucketAt(plan: Plan, other: Plan, a: map<string, seq<Item>>, b: map<string, seq<Item>>, key: string)
    requires Renames(plan, other) && BucketRel(plan, other, a, b) && key in a
    ensures key in b && |a[key]| == 1 && |b[key]| == 1 && ItemRel(plan, other, key, a[key][0], b[key][0])
  {
    assert key in b.Keys;
  }

  lemma PairOfKey(plan: Plan, other: Plan, key: string, i: Item, i': Item, m: Item, m': Item)
    requires Renames(plan, other) && ItemRel(plan, other, key, i, i') && ItemRel(plan, other, key, m, m')
    ensures PairRel(plan, other, [i, m], [i', m'])
  {
    var a, b := [i, m], [i', m'];
    assert a[0] == i && a[1] == m && b[0] == i' && b[1] == m';
    assert ItemRel(plan, other, key, a[0], b[0]) && ItemRel(plan, other, key, a[1], b[1]);
  }

  // ---------- workers ----------

  /** Both workers hold the same job at the same point. */
  lemma SameJob(plan: Plan, other: Plan, s: State, s': State, w: nat)
    requires Renames(plan, other) && Sim(plan, other, s, s') && HoldsJob(plan, s, w)
    ensures HoldsJob(other, s', w) && PhaseOf(s', w) == PhaseOf(s, w)
    ensures JobOf(other, s', w) == JobOf(plan, s, w).(pieces := JobOf(other, s', w).pieces)
    ensures |JobOf(other, s', w).pieces| == |JobOf(plan, s, w).pieces|
  {
  }

  /** Steps that move neither files nor items. */
  lemma QuietSim(plan: Plan, other: Plan, s: State, s': State, step: Step)
    requires Setting(plan, other) && Sim(plan, other, s, s') && Enabled(plan, s, step) && (step.Push? || step.Pop? || step.Finish?)
    ensures Enabled(other, s', step) && Sim(plan, other, Apply(plan, s, step), Apply(other, s', step))
  {
  }

  lemma ReportSim(plan: Plan, other: Plan, s: State, s': State, w: nat)
    requires Setting(plan, other) && Sim(plan, other, s, s') && Enabled(plan, s, Report(w))
    ensures Enabled(other, s', Report(w)) && Sim(plan, other, Apply(plan, s, Report(w)), Apply(other, s', Report(w)))
  {
    SameJob(plan, other, s, s', w);
    MailGrowsRel(plan, other, s.outboxes, s'.outboxes, w, JobDone(true), JobDone(true));
  }

  lemma PostedRel(plan: Plan, other: Plan, a: seq<seq<Msg>>, b: seq<seq<Msg>>, w: nat, j: int, k: int)
    requires Renames(plan, other) && MailRel(plan, other, a, b) && w < |a| && IsEnd(plan, j, k)
    ensures k < |other[j].pieces|
    ensures var p, p' := plan[j].pieces[k], other[j].pieces[k];
            MailRel(plan, other, a[w := a[w] + [PairPut(p.key, ItemOf(p))]], b[w := b[w] + [PairPut(p'.key, ItemOf(p'))]])
  {
    var p, p' := plan[j].pieces[k], other[j].pieces[k];
    assert IsPiece(plan, j, k);
    assert ItemOfPiece(plan, other, p.key, ItemOf(p), ItemOf(p'), j, k);
    MailGrowsRel(plan, other, a, b, w, PairPut(p.key, ItemOf(p)), PairPut(p'.key, ItemOf(p')));
  }

  lemma PostState(plan: Plan, s: State, w: nat, j: nat, k: nat)
    requires Enabled(plan, s, Post(w)) && s.holds[w] == Some(j) && s.phases[j] == Working(k)
    ensures IsEnd(plan, j, k)
    ensures var p := plan[j].pieces[k];
            Apply(plan, s, Post(w)) == s.(phases := s.phases[j := Working(k + 1)],
                                          outboxes := s.outboxes[w := s.outboxes[w] + [PairPut(p.key, ItemOf(p))]])
  {
  }

  lemma PostSim(plan: Plan, other: Plan, s: State, s': State, w: nat)
    requires Setting(plan, other) && Sim(plan, other, s, s') && Enabled(plan, s, Post(w))
    ensures Enabled(other, s', Post(w)) && Sim(plan, other, Apply(plan, s, Post(w)), Apply(other, s', Post(w)))
  {
    SameJob(plan, other, s, s', w);
    var j, k := s.holds[w].value, PhaseOf(s, w).done;
    PostState(plan, s, w, j, k);
    PostState(other, s', w, j, k);
    PostedRel(plan, other, s.outboxes, s'.outboxes, w, j, k);
  }

  /** The output of the merge in hand, if any, is no piece and no source. */
  lemma OutIsApart(plan: Plan, other: Plan, m: Manager, m': Manager)
    requires Setting(plan, other) && HandRel(plan, other, m, m') && m.Shipping?
    ensures m'.Shipping? && |m.pair| == 2 && |m'.pair| == 2 && m'.pair[0].out == m.pair[0].out
    ensures forall j :: 0 <= j < |plan| ==> plan[j].source != m.pair[0].out && other[j].source != m.pair[0].out
    ensures forall j, k :: IsPiece(plan, j, k) ==>
              plan[j].pieces[k].path != m.pair[0].out && IsPiece(other, j, k) && other[j].pieces[k].path != m.pair[0].out
  {
    var key :| ItemRel(plan, other, key, m.pair[0], m'.pair[0]) && ItemRel(plan, other, key, m.pair[1], m'.pair[1]);
    var a, b :| ItemOfPiece(plan, other, key, m.pair[0], m'.pair[0], a, b);
    assert IsPiece(plan, a, b) && IsPiece(other, a, b);
    forall j, k | IsPiece(plan, j, k)
      ensures plan[j].pieces[k].path != m.pair[0].out && IsPiece(other, j, k) && other[j].pieces[k].path != m.pair[0].out
    {
      SamePieces(plan, other, j, k);
    }
  }

  lemma FetchFiles(plan: Plan, other: Plan, m: Manager, m': Manager, a: Files, b: Files, j: int)
    requires Setting(plan, other) && HandRel(plan, other, m, m') && LocalRel(plan, a, b) && OutRel(plan, m, a, b)
    requires 0 <= j < |plan|
    ensures var source, raw := plan[j].source, plan[j].raw;
            LocalRel(plan, a[source := raw], b[source := raw]) && OutRel(plan, m, a[source := raw], b[source := raw])
  {
    var source, raw := plan[j].source, plan[j].raw;
    if m.Shipping? {
      OutIsApart(plan, other, m, m');
    }
    forall x, y | Unshared(plan, x, y) ensures SameAt(a[source := raw], b[source := raw], plan[x].pieces[y].path) {
      assert IsPiece(plan, x, y) && SameAt(a, b, plan[x].pieces[y].path);
    }
  }

  lemma FetchState(plan: Plan, s: State, w: nat, j: nat)
    requires Enabled(plan, s, Fetch(w)) && s.holds[w] == Some(j)
    ensures Apply(plan, s, Fetch(w)) == s.(phases := s.phases[j := Splitting], local := s.local[plan[j].source := plan[j].raw])
  {
  }

  lemma FetchSim(plan: Plan, other: Plan, s: State, s': State, w: nat)
    requires Setting(plan, other) && Sim(plan, other, s, s') && Enabled(plan, s, Fetch(w))
    ensures Enabled(other, s', Fetch(w)) && Sim(plan, other, Apply(plan, s, Fetch(w)), Apply(other, s', Fetch(w)))
  {
    SameJob(plan, other, s, s', w);
    var j := s.holds[w].value;
    FetchState(plan, s, w, j);
    FetchState(other, s', w, j);
    FetchFiles(plan, other, s.manager, s'.manager, s.local, s'.local, j);
  }

  lemma WrittenAlike(plan: Plan, other: Plan, a: Files, b: Files, j: int, x: int, y: int)
    requires Setting(plan, other) && LocalRel(plan, a, b) && 0 <= j < |plan| && Unshared(plan, x, y)
    ensures SameAt(WriteAll(a, plan[j].pieces) - {plan[j].source}, WriteAll(b, other[j].pieces) - {other[j].source},
                   plan[x].pieces[y].path)
  {
    SamePieces(plan, other, x, y);
    var p := plan[x].pieces[y].path;
    assert SameAt(a, b, p);
    forall k | 0 <= k < |plan[j].pieces| && (j != x || k != y) ensures plan[j].pieces[k].path != p && other[j].pieces[k].path != p {
      SamePieces(plan, other, j, k);
      assert IsPiece(plan, j, k) && IsPiece(other, j, k) && IsPiece(other, x, y);
    }
    if j == x {
      WrittenPiece(a, plan[j].pieces, y);
      WrittenPiece(b, other[j].pieces, y);
    } else {
      NotWritten(a, plan[j].pieces, p);
      NotWritten(b, other[j].pieces, p);
    }
  }

  lemma NotWrittenElsewhere(local: Files, job: Job, p: string)
    requires p != job.source && forall k :: 0 <= k < |job.pieces| ==> job.pieces[k].path != p
    ensures SameAt(local, WriteAll(local, job.pieces) - {job.source}, p)
  {
    NotWritten(local, job.pieces, p);
  }

  lemma SplitSim(plan: Plan, other: Plan, s: State, s': State, w: nat)
    requires Setting(plan, other) && Sim(plan, other, s, s') && Enabled(plan, s, Split(w))
    ensures Enabled(other, s', Split(w)) && Sim(plan, other, Apply(plan, s, Split(w)), Apply(other, s', Split(w)))
  {
    SameJob(plan, other, s, s', w);
    SplitFiles(plan, other, s.manager, s'.manager, s.local, s'.local, s.holds[w].value);
  }

  lemma SplitFiles(plan: Plan, other: Plan, m: Manager, m': Manager, a: Files, b: Files, j: int)
    requires Setting(plan, other) && HandRel(plan, other, m, m') && LocalRel(plan, a, b) && OutRel(plan, m, a, b)
    requires 0 <= j < |plan|
    ensures var a', b' := WriteAll(a, plan[j].pieces) - {plan[j].source}, WriteAll(b, other[j].pieces) - {other[j].source};
            LocalRel(plan, a', b') && OutRel(plan, m, a', b')
  {
    var a', b' := WriteAll(a, plan[j].pieces) - {plan[j].source}, WriteAll(b, other[j].pieces) - {other[j].source};
    forall x, y | Unshared(plan, x, y) ensures SameAt(a', b', plan[x].pieces[y].path) {
      WrittenAlike(plan, other, a, b, j, x, y);
    }
    if m.Shipping? {
      OutIsApart(plan, other, m, m');
      var o := m.pair[0].out;
      forall k | 0 <= k < |plan[j].pieces| ensures plan[j].pieces[k].path != o && other[j].pieces[k].path != o {
        assert IsPiece(plan, j, k);
      }
      NotWrittenElsewhere(a, plan[j], o);
      NotWrittenElsewhere(b, other[j], o);
    }
  }

  // ---------- uploads ----------

  /** The content uploaded to an untangled object is the same. */
  lemma UploadRel(plan: Plan, a: Files, b: Files, o: string, x: seq<byte>, y: seq<byte>)
    requires StoreRel(plan, a, b) && (Untangled(plan, o) ==> x == y)
    ensures StoreRel(plan, a[o := x], b[o := y])
  {
    forall p | Untangled(plan, p) ensures SameAt(a[o := x], b[o := y], p) {
      assert SameAt(a, b, p);
    }
  }

  lemma UploadMidFiles(plan: Plan, other: Plan, m: Manager, m': Manager, a: Files, b: Files, j: int, k: int)
    requires Setting(plan, other) && HandRel(plan, other, m, m') && LocalRel(plan, a, b) && OutRel(plan, m, a, b)
    requires IsPiece(plan, j, k)
    ensures k < |other[j].pieces| && other[j].pieces[k].dest == plan[j].pieces[k].dest
    ensures var p, p' := plan[j].pieces[k].path, other[j].pieces[k].path;
            && LocalRel(plan, a - {p}, b - {p'}) && OutRel(plan, m, a - {p}, b - {p'})
            && (Untangled(plan, plan[j].pieces[k].dest) ==> Read(a, p) == Read(b, p'))
  {
    SamePieces(plan, other, j, k);
    RemovePiece(plan, other, j, k, a, b);
    if m.Shipping? {
      OutIsApart(plan, other, m, m');
    }
    if Untangled(plan, plan[j].pieces[k].dest) {
      assert Unshared(plan, j, k);
      assert SameAt(a, b, plan[j].pieces[k].path);
    }
  }

  lemma UploadMidSim(plan: Plan, other: Plan, s: State, s': State, w: nat)
    requires Setting(plan, other) && Sim(plan, other, s, s') && Enabled(plan, s, UploadMid(w))
    ensures Enabled(other, s', UploadMid(w))
    ensures Sim(plan, other, Apply(plan, s, UploadMid(w)), Apply(other, s', UploadMid(w)))
  {
    SameJob(plan, other, s, s', w);
    var j, k := s.holds[w].value, PhaseOf(s, w).done;
    var u := UploadMidState(plan, s, w, j, k);
    var u' := UploadMidState(other, s', w, j, k);
    UploadMidFiles(plan, other, s.manager, s'.manager, s.local, s'.local, j, k);
    UploadRel(plan, s.store, s'.store, u.dest, u.bytes, u'.bytes);
  }

  // ---------- failures ----------

  /** The paths of the job's pieces that no other piece has. */
  ghost function UnsharedPaths(plan: Plan, j: int): set<string>
    requires 0 <= j < |plan|
  {
    set k | 0 <= k < |plan[j].pieces| && Unshared(plan, j, k) :: plan[j].pieces[k].path
  }

  /** What a failed job leaves in the other plan: the same at unshared paths, nothing new elsewhere. */
  ghost function AfterFailure(plan: Plan, j: int, after: Files, local: Files): Files
    requires 0 <= j < |plan|
  {
    var own := UnsharedPaths(plan, j);
    (local - own) + (map p | p in after && p in own :: after[p])
  }

  lemma FailureFiles(plan: Plan, other: Plan, m: Manager, m': Manager, a: Files, b: Files, j: int, after: Files)
    requires Setting(plan, other) && HandRel(plan, other, m, m') && LocalRel(plan, a, b) && OutRel(plan, m, a, b)
    requires 0 <= j < |plan| && SameElsewhere(plan[j], a, after)
    ensures var after' := AfterFailure(plan, j, after, b);
            && SameElsewhere(other[j], b, after') && LocalRel(plan, after, after') && OutRel(plan, m, after, after')
  {
    var after' := AfterFailure(plan, j, after, b);
    FailureIsOwn(plan, other, b, j, after);
    forall x, y | Unshared(plan, x, y) ensures SameAt(after, after', plan[x].pieces[y].path) {
      FailureAt(plan, other, a, b, j, after, x, y);
    }
    if m.Shipping? {
      OutIsApart(plan, other, m, m');
      assert !OwnPath(plan[j], m.pair[0].out) by {
        forall k | 0 <= k < |plan[j].pieces| ensures plan[j].pieces[k].path != m.pair[0].out { assert IsPiece(plan, j, k); }
      }
      assert m.pair[0].out !in UnsharedPaths(plan, j);
      SameOutside(plan[j], a, after, m.pair[0].out);
    }
  }

  lemma SameOutside(job: Job, a: Files, b: Files, p: string)
    requires SameElsewhere(job, a, b) && !OwnPath(job, p)
    ensures SameAt(a, b, p)
  {
  }

  lemma FailureIsOwn(plan: Plan, other: Plan, b: Files, j: int, after: Files)
    requires Setting(plan, other) && 0 <= j < |plan|
    ensures SameElsewhere(other[j], b, AfterFailure(plan, j, after, b))
  {
    forall p | p in UnsharedPaths(plan, j) ensures OwnPath(other[j], p) {
      var k :| 0 <= k < |plan[j].pieces| && Unshared(plan, j, k) && p == plan[j].pieces[k].path;
      assert other[j].pieces[k].path == p;
    }
  }

  lemma FailureAt(plan: Plan, other: Plan, a: Files, b: Files, j: int, after: Files, x: int, y: int)
    requires Setting(plan, other) && LocalRel(plan, a, b) && 0 <= j < |plan| && SameElsewhere(plan[j], a, after)
    requires Unshared(plan, x, y)
    ensures SameAt(after, AfterFailure(plan, j, after, b), plan[x].pieces[y].path)
  {
    var p := plan[x].pieces[y].path;
    assert SameAt(a, b, p);
    if x == j {
      assert p in UnsharedPaths(plan, j);
    } else {
      assert !OwnPath(plan[j], p) by {
        forall k | 0 <= k < |plan[j].pieces| ensures plan[j].pieces[k].path != p { assert IsPiece(plan, j, k); }
      }
      assert p !in UnsharedPaths(plan, j);
      SameOutside(plan[j], a, after, p);
    }
  }

  lemma AbortSim(plan: Plan, other: Plan, s: State, s': State, w: nat, after: Files) returns (after': Files)
    requires Setting(plan, other) && Sim(plan, other, s, s') && Enabled(plan, s, Abort(w, after))
    ensures Enabled(other, s', Abort(w, after'))
    ensures Sim(plan, other, Apply(plan, s, Abort(w, after)), Apply(other, s', Abort(w, after')))
  {
    SameJob(plan, other, s, s', w);
    var j := s.holds[w].value;
    after' := AfterFailure(plan, j, after, s'.local);
    FailureFiles(plan, other, s.manager, s'.manager, s.local, s'.local, j, after);
    MailGrowsRel(plan, other, s.outboxes, s'.outboxes, w, JobDone(false), JobDone(false));
  }

  // ---------- manager ----------

  lemma DeliverDoneSim(plan: Plan, other: Plan, s: State, s': State, w: nat)
    requires Setting(plan, other) && Sim(plan, other, s, s') && Enabled(plan, s, Deliver(w)) && s.outboxes[w][0].JobDone?
    ensures Enabled(other, s', Deliver(w)) && Sim(plan, other, Apply(plan, s, Deliver(w)), Apply(other, s', Deliver(w)))
  {
    MailShrinksRel(plan, other, s.outboxes, s'.outboxes, w);
  }

  /** A put that completes a pair, and one that does not. */
  lemma DeliverState(plan: Plan, s: State, w: nat)
    requires Enabled(plan, s, Deliver(w)) && s.outboxes[w][0].PairPut?
    ensures var PairPut(key, item) := s.outboxes[w][0];
            var t, mail := Apply(plan, s, Deliver(w)), s.outboxes[w := s.outboxes[w][1..]];
            && (PutResult(s.buckets, key, item).None? ==>
                  t == s.(outboxes := mail, buckets := PutBuckets(s.buckets, key, item)))
            && (PutResult(s.buckets, key, item).Some? ==>
                  t == s.(outboxes := mail, buckets := PutBuckets(s.buckets, key, item),
                          manager := Merging(PutResult(s.buckets, key, item).value)))
  {
  }

  lemma DeliverFirstSim(plan: Plan, other: Plan, s: State, s': State, w: nat)
    requires Setting(plan, other) && Sim(plan, other, s, s') && Enabled(plan, s, Deliver(w))
    requires s.outboxes[w][0].PairPut? && s.outboxes[w][0].key !in s.buckets
    ensures Enabled(other, s', Deliver(w)) && Sim(plan, other, Apply(plan, s, Deliver(w)), Apply(other, s', Deliver(w)))
  {
    MailShrinksRel(plan, other, s.outboxes, s'.outboxes, w);
    FirstPutRel(plan, other, s.buckets, s'.buckets, s.outboxes[w][0].key, s.outboxes[w][0].item, s'.outboxes[w][0].item);
    DeliverState(plan, s, w);
    DeliverState(other, s', w);
  }

  lemma DeliverSecondSim(plan: Plan, other: Plan, s: State, s': State, w: nat)
    requires Setting(plan, other) && Sim(plan, other, s, s') && Enabled(plan, s, Deliver(w))
    requires s.outboxes[w][0].PairPut? && s.outboxes[w][0].key in s.buckets
    ensures Enabled(other, s', Deliver(w)) && Sim(plan, other, Apply(plan, s, Deliver(w)), Apply(other, s', Deliver(w)))
  {
    MailShrinksRel(plan, other, s.outboxes, s'.outboxes, w);
    SecondPutRel(plan, other, s.buckets, s'.buckets, s.outboxes[w][0].key, s.outboxes[w][0].item, s'.outboxes[w][0].item);
    TakeBucketRel(plan, other, s.buckets, s'.buckets, s.outboxes[w][0].key);
    DeliverState(plan, s, w);
    DeliverState(other, s', w);
  }

  lemma DeliverSim(plan: Plan, other: Plan, s: State, s': State, w: nat)
    requires Setting(plan, other) && Sim(plan, other, s, s') && Enabled(plan, s, Deliver(w))
    ensures Enabled(other, s', Deliver(w)) && Sim(plan, other, Apply(plan, s, Deliver(w)), Apply(other, s', Deliver(w)))
  {
    if s.outboxes[w][0].JobDone? {
      DeliverDoneSim(plan, other, s, s', w);
    } else if s.outboxes[w][0].key in s.buckets {
      DeliverSecondSim(plan, other, s, s', w);
    } else {
      DeliverFirstSim(plan, other, s, s', w);
    }
  }

  /** The two inputs of a merge of unshared pieces read the same. */
  lemma PairReads(plan: Plan, other: Plan, pair: seq<Item>, pair': seq<Item>, a: Files, b: Files)
    requires Setting(plan, other) && PairRel(plan, other, pair, pair') && LocalRel(plan, a, b)
    requires UnsharedItem(plan, pair[0]) && UnsharedItem(plan, pair[1])
    ensures ReadAll(a, pair) == ReadAll(b, pair')
  {
    var key :| ItemRel(plan, other, key, pair[0], pair'[0]) && ItemRel(plan, other, key, pair[1], pair'[1]);
    UnsharedItemIsSame(plan, other, key, pair[0], pair'[0]);
    UnsharedItemIsSame(plan, other, key, pair[1], pair'[1]);
    UnsharedRead(plan, pair[0], a, b);
    UnsharedRead(plan, pair[1], a, b);
    TwoReads(a, pair);
    TwoReads(b, pair');
  }

  lemma TwoReads(local: Files, pair: seq<Item>)
    requires |pair| == 2
    ensures ReadAll(local, pair) == [Read(local, pair[0].src), Read(local, pair[1].src)]
  {
  }

  lemma UnsharedRead(plan: Plan, i: Item, a: Files, b: Files)
    requires LocalRel(plan, a, b) && UnsharedItem(plan, i)
    ensures Read(a, i.src) == Read(b, i.src)
  {
    var j, k :| Unshared(plan, j, k) && ItemOf(plan[j].pieces[k]) == i;
    assert SameAt(a, b, plan[j].pieces[k].path);
  }

  lemma PairNames(plan: Plan, other: Plan, pair: seq<Item>, pair': seq<Item>)
    requires Setting(plan, other) && PairRel(plan, other, pair, pair')
    ensures pair'[0].out == pair[0].out && pair'[0].prefix == pair[0].prefix
    ensures Untangled(plan, pair[0].prefix) ==> UnsharedItem(plan, pair[0]) && UnsharedItem(plan, pair[1])
    ensures exists j, k :: IsPiece(plan, j, k) && plan[j].pieces[k].out == pair[0].out
  {
    var key :| ItemRel(plan, other, key, pair[0], pair'[0]) && ItemRel(plan, other, key, pair[1], pair'[1]);
    UnsharedItemIsSame(plan, other, key, pair[0], pair'[0]);
    OneObject(plan, other, key, pair[0], pair'[0], pair[1], pair'[1]);
    if Untangled(plan, pair[0].prefix) {
      UntangledItem(plan, other, key, pair[0], pair'[0]);
      UntangledItem(plan, other, key, pair[1], pair'[1]);
    }
    var j, k :| ItemOfPiece(plan, other, key, pair[0], pair'[0], j, k);
    assert IsPiece(plan, j, k);
  }

  lemma MergeSim(plan: Plan, other: Plan, s: State, s': State)
    requires Setting(plan, other) && Sim(plan, other, s, s') && Enabled(plan, s, Merge)
    ensures Enabled(other, s', Merge) && Sim(plan, other, Apply(plan, s, Merge), Apply(other, s', Merge))
  {
    var pair, pair' := s.manager.pair, s'.manager.pair;
    PairNames(plan, other, pair, pair');
    MergeFiles(plan, other, pair, pair', s.local, s'.local);
  }

  lemma OutWritten(plan: Plan, a: Files, b: Files, j: int, k: int, x: seq<byte>, y: seq<byte>)
    requires Loose(plan) && LocalRel(plan, a, b) && IsPiece(plan, j, k)
    ensures LocalRel(plan, a[plan[j].pieces[k].out := x], b[plan[j].pieces[k].out := y])
  {
    var o := plan[j].pieces[k].out;
    forall u, v | Unshared(plan, u, v) ensures SameAt(a[o := x], b[o := y], plan[u].pieces[v].path) {
      assert IsPiece(plan, u, v) && SameAt(a, b, plan[u].pieces[v].path);
    }
  }

  lemma MergeFiles(plan: Plan, other: Plan, pair: seq<Item>, pair': seq<Item>, a: Files, b: Files)
    requires Setting(plan, other) && PairRel(plan, other, pair, pair') && LocalRel(plan, a, b)
    requires pair'[0].out == pair[0].out && exists j, k :: IsPiece(plan, j, k) && plan[j].pieces[k].out == pair[0].out
    ensures var o, x, y := pair[0].out, Merged(ReadAll(a, pair)), Merged(ReadAll(b, pair'));
            LocalRel(plan, a[o := x], b[o := y]) && OutRel(plan, Shipping(pair), a[o := x], b[o := y])
  {
    var j, k :| IsPiece(plan, j, k) && plan[j].pieces[k].out == pair[0].out;
    var x, y := Merged(ReadAll(a, pair)), Merged(ReadAll(b, pair'));
    OutWritten(plan, a, b, j, k, x, y);
    MergedAlike(plan, other, pair, pair', a, b);
  }

  lemma MergedAlike(plan: Plan, other: Plan, pair: seq<Item>, pair': seq<Item>, a: Files, b: Files)
    requires Setting(plan, other) && PairRel(plan, other, pair, pair') && LocalRel(plan, a, b)
    ensures UnsharedItem(plan, pair[0]) && UnsharedItem(plan, pair[1]) ==>
              Merged(ReadAll(a, pair)) == Merged(ReadAll(b, pair'))
  {
    if UnsharedItem(plan, pair[0]) && UnsharedItem(plan, pair[1]) {
      PairReads(plan, other, pair, pair', a, b);
    }
  }

  lemma ShippedAlike(plan: Plan, other: Plan, pair: seq<Item>, pair': seq<Item>, a: Files, b: Files)
    requires Setting(plan, other) && PairRel(plan, other, pair, pair') && OutRel(plan, Shipping(pair), a, b)
    ensures pair'[0].prefix == pair[0].prefix
    ensures Untangled(plan, pair[0].prefix) ==> Read(a, pair[0].out) == Read(b, pair'[0].out)
  {
    PairNames(plan, other, pair, pair');
  }

  lemma ShipState(plan: Plan, s: State) returns (u: Upload)
    requires Enabled(plan, s, Ship)
    ensures u.dest == s.manager.pair[0].prefix && u.bytes == Read(s.local, s.manager.pair[0].out)
    ensures u.sources == Sources(s.manager.pair)
    ensures Apply(plan, s, Ship)
            == s.(store := s.store[u.dest := u.bytes], log := s.log + [u], manager := Cleaning(s.manager.pair))
  {
    var pair := s.manager.pair;
    u := Upload(pair[0].prefix, Sources(pair), Read(s.local, pair[0].out));
  }

  lemma ShipSim(plan: Plan, other: Plan, s: State, s': State)
    requires Setting(plan, other) && Sim(plan, other, s, s') && Enabled(plan, s, Ship)
    ensures Enabled(other, s', Ship) && Sim(plan, other, Apply(plan, s, Ship), Apply(other, s', Ship))
  {
    var u := ShipState(plan, s);
    var u' := ShipState(other, s');
    ShippedAlike(plan, other, s.manager.pair, s'.manager.pair, s.local, s'.local);
    UploadRel(plan, s.store, s'.store, u.dest, u.bytes, u'.bytes);
  }

  lemma CleanSim(plan: Plan, other: Plan, s: State, s': State)
    requires Setting(plan, other) && Sim(plan, other, s, s') && Enabled(plan, s, Clean)
    ensures Enabled(other, s', Clean) && Sim(plan, other, Apply(plan, s, Clean), Apply(other, s', Clean))
  {
    CleanFiles(plan, other, s.manager.pair, s'.manager.pair, s.local, s'.local);
  }

  /** An unshared path is removed in both or in neither. */
  lemma RemovedAlike(plan: Plan, other: Plan, key: string, i: Item, i': Item, x: int, y: int)
    requires Setting(plan, other) && ItemRel(plan, other, key, i, i') && Unshared(plan, x, y)
    ensures plan[x].pieces[y].path == i.src <==> plan[x].pieces[y].path == i'.src
    ensures plan[x].pieces[y].path != i.out && i'.out == i.out
  {
    var j, k :| ItemOfPiece(plan, other, key, i, i', j, k);
    assert IsPiece(plan, j, k) && IsPiece(plan, x, y);
    SamePieces(plan, other, j, k);
    SamePieces(plan, other, x, y);
    assert IsPiece(other, j, k) && IsPiece(other, x, y);
  }

  lemma CleanFiles(plan: Plan, other: Plan, pair: seq<Item>, pair': seq<Item>, a: Files, b: Files)
    requires Setting(plan, other) && PairRel(plan, other, pair, pair') && LocalRel(plan, a, b)
    ensures LocalRel(plan, a - ({pair[0].out} + Paths(pair)), b - ({pair'[0].out} + Paths(pair')))
  {
    var key :| ItemRel(plan, other, key, pair[0], pair'[0]) && ItemRel(plan, other, key, pair[1], pair'[1]);
    CleanPaths(pair);
    CleanPaths(pair');
    forall x, y | Unshared(plan, x, y)
      ensures SameAt(a - ({pair[0].out} + Paths(pair)), b - ({pair'[0].out} + Paths(pair')), plan[x].pieces[y].path)
    {
      RemovedAlike(plan, other, key, pair[0], pair'[0], x, y);
      RemovedAlike(plan, other, key, pair[1], pair'[1], x, y);
      RemoveAlike(a, b, plan[x].pieces[y].path, {pair[0].out} + Paths(pair), {pair'[0].out} + Paths(pair'));
    }
  }

  lemma RemoveAlike(a: Files, b: Files, p: string, gone: set<string>, gone': set<string>)
    requires SameAt(a, b, p) && (p in gone <==> p in gone')
    ensures SameAt(a - gone, b - gone', p)
  {
  }

  lemma CloseSim(plan: Plan, other: Plan, s: State, s': State, order: seq<string>)
    requires Setting(plan, other) && Sim(plan, other, s, s') && Enabled(plan, s, Close(order))
    ensures Enabled(other, s', Close(order))
    ensures Sim(plan, other, Apply(plan, s, Close(order)), Apply(other, s', Close(order)))
  {
    TakenRel(plan, other, s.buckets, s'.buckets, order);
  }

  lemma TakenRel(plan: Plan, other: Plan, a: map<string, seq<Item>>, b: map<string, seq<Item>>, order: seq<string>)
    requires Renames(plan, other) && BucketRel(plan, other, a, b) && forall k :: k in order ==> k in a
    ensures forall k :: k in order ==> k in b
    ensures HandRel(plan, other, Sweeping(Taken(a, order)), Sweeping(Taken(b, order)))
  {
    forall k | k in order ensures k in b { assert k in a.Keys; }
    var rest, rest' := Taken(a, order), Taken(b, order);
    forall i | 0 <= i < |rest| ensures OneRel(plan, other, rest[i], rest'[i]) {
      assert order[i] in order;
      assert ItemRel(plan, other, order[i], rest[i][0], rest'[i][0]);
    }
  }

  lemma SweepSim(plan: Plan, other: Plan, s: State, s': State)
    requires Setting(plan, other) && Sim(plan, other, s, s') && Enabled(plan, s, Sweep)
    ensures Enabled(other, s', Sweep) && Sim(plan, other, Apply(plan, s, Sweep), Apply(other, s', Sweep))
  {
    assert OneRel(plan, other, s.manager.rest[0], s'.manager.rest[0]);
    var i: Item, i': Item := s.manager.rest[0][0], s'.manager.rest[0][0];
    var key :| ItemRel(plan, other, key, i, i');
    SweepItem(plan, other, key, i, i', s.local, s'.local);
    UploadRel(plan, s.store, s'.store, i.prefix, Read(s.local, i.src), Read(s'.local, i'.src));
    SweepRest(plan, other, s.manager.rest, s'.manager.rest);
  }

  lemma SweepRest(plan: Plan, other: Plan, rest: seq<seq<Item>>, rest': seq<seq<Item>>)
    requires Renames(plan, other) && HandRel(plan, other, Sweeping(rest), Sweeping(rest')) && rest != []
    ensures HandRel(plan, other, Sweeping(rest[1..]), Sweeping(rest'[1..]))
  {
    forall i | 0 <= i < |rest[1..]| ensures OneRel(plan, other, rest[1..][i], rest'[1..][i]) {
      assert OneRel(plan, other, rest[i + 1], rest'[i + 1]);
    }
  }

  lemma SweepItem(plan: Plan, other: Plan, key: string, i: Item, i': Item, a: Files, b: Files)
    requires Setting(plan, other) && ItemRel(plan, other, key, i, i') && LocalRel(plan, a, b)
    ensures i'.prefix == i.prefix && LocalRel(plan, a - {i.src}, b - {i'.src})
    ensures Untangled(plan, i.prefix) ==> Read(a, i.src) == Read(b, i'.src)
  {
    UnsharedItemIsSame(plan, other, key, i, i');
    RemoveItem(plan, other, key, i, i', a, b);
    if Untangled(plan, i.prefix) {
      UntangledItem(plan, other, key, i, i');
      UnsharedRead(plan, i, a, b);
    }
  }

  // ---------- runs ----------

  /** The same step, except for what a failure leaves behind. */
  predicate Matches(step: Step, step': Step) {
    step' == step || (step.Abort? && step'.Abort? && step'.w == step.w)
  }

  /** Every step has its counterpart. */
  lemma StepSim(plan: Plan, other: Plan, s: State, s': State, step: Step) returns (step': Step)
    requires Setting(plan, other) && Sim(plan, other, s, s') && Enabled(plan, s, step)
    ensures Matches(step, step')
    ensures Enabled(other, s', step') && Sim(plan, other, Apply(plan, s, step), Apply(other, s', step'))
  {
    step' := step;
    match step {
      case Fetch(w) => FetchSim(plan, other, s, s', w);
      case Split(w) => SplitSim(plan, other, s, s', w);
      case UploadMid(w) => UploadMidSim(plan, other, s, s', w);
      case Post(w) => PostSim(plan, other, s, s', w);
      case Report(w) => ReportSim(plan, other, s, s', w);
      case Abort(w, after) =>
        var after' := AbortSim(plan, other, s, s', w, after);
        step' := Abort(w, after');
      case Deliver(w) => DeliverSim(plan, other, s, s', w);
      case Merge => MergeSim(plan, other, s, s');
      case Ship => ShipSim(plan, other, s, s');
      case Clean => CleanSim(plan, other, s, s');
      case Close(order) => CloseSim(plan, other, s, s', order);
      case Sweep => SweepSim(plan, other, s, s');
      case _ => QuietSim(plan, other, s, s', step);
    }
  }

  /** So every run of the one plan has a counterpart in the other. */
  lemma {:induction false} RunSim(plan: Plan, other: Plan, run: seq<State>, steps: seq<Step>, s': State)
    returns (run': seq<State>, steps': seq<Step>)
    requires Setting(plan, other) && IsRun(plan, run, steps) && Sim(plan, other, run[0], s')
    ensures IsRun(other, run', steps') && |steps'| == |steps| && run'[0] == s'
    ensures Sim(plan, other, run[|steps|], run'[|steps'|])
    decreases |steps|
  {
    if steps == [] {
      run', steps' := [s'], [];
    } else {
      var n := |steps| - 1;
      CutRun(plan, run, steps);
      var r, t := RunSim(plan, other, run[..|run| - 1], steps[..n], s');
      var step' := StepSim(plan, other, run[n], r[n], steps[n]);
      run', steps' := r + [Apply(other, r[n], step')], t + [step'];
      ExtendRun(other, r, t, step');
    }
  }

  lemma CutRun(plan: Plan, run: seq<State>, steps: seq<Step>)
    requires IsRun(plan, run, steps) && steps != []
    ensures IsRun(plan, run[..|run| - 1], steps[..|steps| - 1])
    ensures Enabled(plan, run[|steps| - 1], steps[|steps| - 1])
    ensures run[|steps|] == Apply(plan, run[|steps| - 1], steps[|steps| - 1])
  {
    var n := |steps| - 1;
    var r, t := run[..|run| - 1], steps[..n];
    forall i | 0 <= i < |t| ensures Enabled(plan, r[i], t[i]) && r[i + 1] == Apply(plan, r[i], t[i]) {
      assert r[i] == run[i] && r[i + 1] == run[i + 1] && t[i] == steps[i];
    }
  }

  lemma ExtendRun(plan: Plan, run: seq<State>, steps: seq<Step>, step: Step)
    requires IsRun(plan, run, steps) && Enabled(plan, run[|steps|], step)
    ensures IsRun(plan, run + [Apply(plan, run[|steps|], step)], steps + [step])
  {
    var r, t := run + [Apply(plan, run[|steps|], step)], steps + [step];
    forall i | 0 <= i < |t| ensures Enabled(plan, r[i], t[i]) && r[i + 1] == Apply(plan, r[i], t[i]) {
      if i < |steps| {
        assert r[i] == run[i] && r[i + 1] == run[i + 1] && t[i] == steps[i];
      }
    }
  }

  lemma StartSim(plan: Plan, other: Plan, workers: nat, local: Files, store: Files)
    requires Setting(plan, other)
    ensures Sim(plan, other, Start(plan, workers, local, store), Start(other, workers, local, store))
  {
  }
}
