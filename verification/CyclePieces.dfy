/** Where the pieces of a cycle are: every piece its worker has handled is in exactly one place, namely
    the mail, a bucket, the manager's hands or one upload. */
module CyclePieces {
  import opened Wrappers
  import opened Sums
  import opened Protocol

  // ---------- counting a path ----------

  function IsPost(p: string): Msg -> nat {
    (m: Msg) => if m.PairPut? && m.item.src == p then 1 else 0
  }

  function PostsOf(p: string): seq<Msg> -> nat {
    (mail: seq<Msg>) => Sum(mail, IsPost(p))
  }

  function InMail(outboxes: seq<seq<Msg>>, p: string): nat {
    Sum(outboxes, PostsOf(p))
  }

  function InBuckets(buckets: map<string, seq<Item>>, piece: Piece): nat {
    if piece.key in buckets && buckets[piece.key] != [] && buckets[piece.key][0].src == piece.path then 1 else 0
  }

  function CountSrc(p: string): seq<Item> -> nat {
    (items: seq<Item>) => multiset(Sources(items))[p]
  }

  function InHand(manager: Manager, p: string): nat {
    match manager
    case Merging(pair) => CountSrc(p)(pair)
    case Shipping(pair) => CountSrc(p)(pair)
    case Sweeping(rest) => Sum(rest, CountSrc(p))
    case _ => 0
  }

  function Mentions(p: string): Upload -> nat {
    (u: Upload) => multiset(u.sources)[p]
  }

  function InLog(log: seq<Upload>, p: string): nat {
    Sum(log, Mentions(p))
  }

  /** In how many places a piece is. */
  function Places(outboxes: seq<seq<Msg>>, buckets: map<string, seq<Item>>, manager: Manager, log: seq<Upload>,
                  piece: Piece): nat {
    InMail(outboxes, piece.path) + InBuckets(buckets, piece) + InHand(manager, piece.path) + InLog(log, piece.path)
  }

  /** How many places the `k`-th piece of a job should be in: one once its worker has handled it, none
      before; of a failed job the MID pieces handled before the failure, and no others. */
  predicate PlacesFit(job: Job, phase: Phase, k: nat, places: nat) {
    match phase
    case Working(done) => places == if k < done then 1 else 0
    case Finished(true) => places == 1
    case Finished(false) => places <= if k < job.mids then 1 else 0
    case _ => places == 0
  }

  // ---------- invariants ----------

  /** The item is that of a HEAD or TAIL piece of the plan, under its own key. */
  ghost predicate EndItem(plan: Plan, key: string, item: Item) {
    exists j, k :: IsEnd(plan, j, k) && plan[j].pieces[k].key == key && ItemOf(plan[j].pieces[k]) == item
  }

  ghost predicate MailItems(plan: Plan, outboxes: seq<seq<Msg>>) {
    forall w, i :: 0 <= w < |outboxes| && 0 <= i < |outboxes[w]| && outboxes[w][i].PairPut? ==>
      EndItem(plan, outboxes[w][i].key, outboxes[w][i].item)
  }

  ghost predicate BucketItems(plan: Plan, buckets: map<string, seq<Item>>) {
    forall key :: key in buckets ==> |buckets[key]| == 1 && EndItem(plan, key, buckets[key][0])
  }

  ghost predicate EndPair(plan: Plan, pair: seq<Item>) {
    && |pair| == 2 && pair[0].src != pair[1].src
    && exists key :: EndItem(plan, key, pair[0]) && EndItem(plan, key, pair[1])
  }

  ghost predicate RestItems(plan: Plan, rest: seq<seq<Item>>) {
    forall i :: 0 <= i < |rest| ==> |rest[i]| == 1 && exists key :: EndItem(plan, key, rest[i][0])
  }

  ghost predicate HandItems(plan: Plan, manager: Manager) {
    match manager
    case Merging(pair) => EndPair(plan, pair)
    case Shipping(pair) => EndPair(plan, pair)
    case Cleaning(pair) => EndPair(plan, pair)
    case Sweeping(rest) => RestItems(plan, rest)
    case _ => true
  }

  ghost predicate Located(plan: Plan, phases: seq<Phase>, outboxes: seq<seq<Msg>>,
                          buckets: map<string, seq<Item>>, manager: Manager, log: seq<Upload>) {
    && |phases| == |plan|
    && forall j, k :: IsPiece(plan, j, k) ==>
         PlacesFit(plan[j], phases[j], k, Places(outboxes, buckets, manager, log, plan[j].pieces[k]))
  }

  ghost predicate PiecesInv(plan: Plan, s: State) {
    && MailItems(plan, s.outboxes)
    && BucketItems(plan, s.buckets)
    && HandItems(plan, s.manager)
    && Located(plan, s.phases, s.outboxes, s.buckets, s.manager, s.log)
  }

  // ---------- paths tell pieces apart ----------

  lemma EndItemIs(plan: Plan, key: string, item: Item, j: int, k: int)
    requires PathsPrivate(plan) && EndItem(plan, key, item)
    requires IsPiece(plan, j, k) && plan[j].pieces[k].path == item.src
    ensures IsEnd(plan, j, k) && plan[j].pieces[k].key == key && ItemOf(plan[j].pieces[k]) == item
  {
    var j', k' :| IsEnd(plan, j', k') && plan[j'].pieces[k'].key == key && ItemOf(plan[j'].pieces[k']) == item;
    assert IsPiece(plan, j', k');
  }

  // ---------- workers ----------

  predicate Untouched(p: Phase) {
    p == Unqueued || p == Queued || p == Fetching || p == Splitting || p == Working(0)
  }

  lemma QuietPhaseChange(plan: Plan, phases: seq<Phase>, outboxes: seq<seq<Msg>>, buckets: map<string, seq<Item>>,
                         manager: Manager, manager': Manager, log: seq<Upload>, j: nat, p: Phase)
    requires Located(plan, phases, outboxes, buckets, manager, log)
    requires j < |phases| && Untouched(phases[j]) && Untouched(p)
    requires forall q :: InHand(manager, q) == InHand(manager', q)
    ensures Located(plan, phases[j := p], outboxes, buckets, manager', log)
  {
    forall i, k | IsPiece(plan, i, k)
      ensures PlacesFit(plan[i], phases[j := p][i], k, Places(outboxes, buckets, manager', log, plan[i].pieces[k]))
    {
      assert PlacesFit(plan[i], phases[i], k, Places(outboxes, buckets, manager, log, plan[i].pieces[k]));
    }
  }

  lemma MailGrows(outboxes: seq<seq<Msg>>, w: nat, m: Msg, p: string)
    requires w < |outboxes|
    ensures InMail(outboxes[w := outboxes[w] + [m]], p) == InMail(outboxes, p) + IsPost(p)(m)
  {
    SumUpdate(outboxes, w, outboxes[w] + [m], PostsOf(p));
    SumOne(outboxes[w], m, IsPost(p));
  }

  lemma MailShrinks(outboxes: seq<seq<Msg>>, w: nat, p: string)
    requires w < |outboxes| && outboxes[w] != []
    ensures InMail(outboxes[w := outboxes[w][1..]], p) + IsPost(p)(outboxes[w][0]) == InMail(outboxes, p)
  {
    SumUpdate(outboxes, w, outboxes[w][1..], PostsOf(p));
  }

  lemma LogGrows(log: seq<Upload>, u: Upload, p: string)
    ensures InLog(log + [u], p) == InLog(log, p) + multiset(u.sources)[p]
  {
    SumOne(log, u, Mentions(p));
  }

  /** Handling piece `k` of job `j` puts it, and no other piece, in one more place. */
  lemma HandleOne(plan: Plan, phases: seq<Phase>, outboxes: seq<seq<Msg>>, outboxes': seq<seq<Msg>>,
                  buckets: map<string, seq<Item>>, manager: Manager, log: seq<Upload>, log': seq<Upload>, j: nat, k: nat)
    requires PathsPrivate(plan) && Located(plan, phases, outboxes, buckets, manager, log)
    requires IsPiece(plan, j, k) && phases[j] == Working(k)
    requires forall p :: InMail(outboxes', p) + InLog(log', p)
                         == InMail(outboxes, p) + InLog(log, p) + if p == plan[j].pieces[k].path then 1 else 0
    ensures Located(plan, phases[j := Working(k + 1)], outboxes', buckets, manager, log')
  {
    forall i, m | IsPiece(plan, i, m)
      ensures PlacesFit(plan[i], phases[j := Working(k + 1)][i], m, Places(outboxes', buckets, manager, log', plan[i].pieces[m]))
    {
      var piece := plan[i].pieces[m];
      assert PlacesFit(plan[i], phases[i], m, Places(outboxes, buckets, manager, log, piece));
      assert piece.path == plan[j].pieces[k].path <==> i == j && m == k;
    }
  }

  lemma UploadMidLocated(plan: Plan, s: State, w: nat)
    requires PathsPrivate(plan) && PiecesInv(plan, s) && Enabled(plan, s, UploadMid(w))
    ensures PiecesInv(plan, Apply(plan, s, UploadMid(w)))
  {
    var j, k := s.holds[w].value, PhaseOf(s, w).done;
    var t := Apply(plan, s, UploadMid(w));
    forall p ensures InLog(t.log, p) == InLog(s.log, p) + if p == plan[j].pieces[k].path then 1 else 0 {
      LogGrows(s.log, t.log[|s.log|], p);
    }
    HandleOne(plan, s.phases, s.outboxes, s.outboxes, s.buckets, s.manager, s.log, t.log, j, k);
  }

  lemma PostLocated(plan: Plan, s: State, w: nat)
    requires PathsPrivate(plan) && PiecesInv(plan, s) && Enabled(plan, s, Post(w))
    ensures PiecesInv(plan, Apply(plan, s, Post(w)))
  {
    PostedPlaces(plan, s.phases, s.outboxes, s.buckets, s.manager, s.log, w, s.holds[w].value, PhaseOf(s, w).done);
  }

  lemma PostedPlaces(plan: Plan, phases: seq<Phase>, outboxes: seq<seq<Msg>>, buckets: map<string, seq<Item>>,
                     manager: Manager, log: seq<Upload>, w: nat, j: nat, k: nat)
    requires PathsPrivate(plan) && Located(plan, phases, outboxes, buckets, manager, log) && MailItems(plan, outboxes)
    requires IsEnd(plan, j, k) && phases[j] == Working(k) && w < |outboxes|
    ensures var piece := plan[j].pieces[k];
            var after := outboxes[w := outboxes[w] + [PairPut(piece.key, ItemOf(piece))]];
            Located(plan, phases[j := Working(k + 1)], after, buckets, manager, log) && MailItems(plan, after)
  {
    var piece := plan[j].pieces[k];
    var msg := PairPut(piece.key, ItemOf(piece));
    var after := outboxes[w := outboxes[w] + [msg]];
    forall p ensures InMail(after, p) == InMail(outboxes, p) + if p == piece.path then 1 else 0 {
      MailGrows(outboxes, w, msg, p);
    }
    HandleOne(plan, phases, outboxes, after, buckets, manager, log, log, j, k);
    assert EndItem(plan, msg.key, msg.item);
    MailItemsGrow(plan, outboxes, w, msg);
  }

  lemma MailItemsGrow(plan: Plan, outboxes: seq<seq<Msg>>, w: nat, m: Msg)
    requires MailItems(plan, outboxes) && w < |outboxes|
    requires m.PairPut? ==> EndItem(plan, m.key, m.item)
    ensures MailItems(plan, outboxes[w := outboxes[w] + [m]])
  {
    var after: seq<seq<Msg>> := outboxes[w := outboxes[w] + [m]];
    forall v, i | 0 <= v < |after| && 0 <= i < |after[v]| && after[v][i].PairPut?
      ensures EndItem(plan, after[v][i].key, after[v][i].item)
    {
      if v == w && i == |outboxes[w]| {
        assert after[v][i] == m;
      } else {
        assert after[v][i] == outboxes[v][i];
      }
    }
  }

  /** JobDone is posted: no piece moves, and the final phase allows the places its pieces are in. */
  lemma DoneLocated(plan: Plan, s: State, w: nat, step: Step)
    requires PathsPrivate(plan) && PiecesInv(plan, s) && Enabled(plan, s, step)
    requires step == Report(w) || (step.Abort? && step.w == w)
    ensures PiecesInv(plan, Apply(plan, s, step))
  {
    var j := s.holds[w].value;
    var ok := step.Report?;
    var t := Apply(plan, s, step);
    MailItemsGrow(plan, s.outboxes, w, JobDone(ok));
    forall i, m | IsPiece(plan, i, m)
      ensures PlacesFit(plan[i], t.phases[i], m, Places(t.outboxes, s.buckets, s.manager, s.log, plan[i].pieces[m]))
    {
      MailGrows(s.outboxes, w, JobDone(ok), plan[i].pieces[m].path);
      assert PlacesFit(plan[i], s.phases[i], m, Places(s.outboxes, s.buckets, s.manager, s.log, plan[i].pieces[m]));
    }
  }

  // ---------- manager ----------

  lemma MailItemsShrink(plan: Plan, outboxes: seq<seq<Msg>>, w: nat)
    requires MailItems(plan, outboxes) && w < |outboxes| && outboxes[w] != []
    ensures MailItems(plan, outboxes[w := outboxes[w][1..]])
    ensures outboxes[w][0].PairPut? ==> EndItem(plan, outboxes[w][0].key, outboxes[w][0].item)
  {
    var after: seq<seq<Msg>> := outboxes[w := outboxes[w][1..]];
    forall v, i | 0 <= v < |after| && 0 <= i < |after[v]| && after[v][i].PairPut?
      ensures EndItem(plan, after[v][i].key, after[v][i].item)
    {
      if v == w { assert after[v][i] == outboxes[v][i + 1]; }
    }
  }

  /** No piece changes its number of places, so it keeps fitting its job's phase. */
  lemma SamePlaces(plan: Plan, phases: seq<Phase>, outboxes: seq<seq<Msg>>, outboxes': seq<seq<Msg>>,
                   buckets: map<string, seq<Item>>, buckets': map<string, seq<Item>>,
                   manager: Manager, manager': Manager, log: seq<Upload>, log': seq<Upload>)
    requires Located(plan, phases, outboxes, buckets, manager, log)
    requires forall j, k :: IsPiece(plan, j, k) ==>
               Places(outboxes', buckets', manager', log', plan[j].pieces[k])
               == Places(outboxes, buckets, manager, log, plan[j].pieces[k])
    ensures Located(plan, phases, outboxes', buckets', manager', log')
  {
  }

  lemma DeliverDoneLocated(plan: Plan, s: State, w: nat)
    requires PathsPrivate(plan) && PiecesInv(plan, s) && Enabled(plan, s, Deliver(w)) && s.outboxes[w][0].JobDone?
    ensures PiecesInv(plan, Apply(plan, s, Deliver(w)))
  {
    var t := Apply(plan, s, Deliver(w));
    MailItemsShrink(plan, s.outboxes, w);
    forall j, k | IsPiece(plan, j, k)
      ensures Places(t.outboxes, s.buckets, s.manager, s.log, plan[j].pieces[k])
           == Places(s.outboxes, s.buckets, s.manager, s.log, plan[j].pieces[k])
    {
      MailShrinks(s.outboxes, w, plan[j].pieces[k].path);
    }
    SamePlaces(plan, s.phases, s.outboxes, t.outboxes, s.buckets, s.buckets, s.manager, s.manager, s.log, s.log);
  }

  lemma FirstPutFits(plan: Plan, phases: seq<Phase>, outboxes: seq<seq<Msg>>, buckets: map<string, seq<Item>>,
                     manager: Manager, log: seq<Upload>, w: nat)
    requires PathsPrivate(plan) && Located(plan, phases, outboxes, buckets, manager, log)
    requires w < |outboxes| && outboxes[w] != [] && outboxes[w][0].PairPut? && outboxes[w][0].key !in buckets
    requires EndItem(plan, outboxes[w][0].key, outboxes[w][0].item)
    ensures Located(plan, phases, outboxes[w := outboxes[w][1..]],
                    buckets[outboxes[w][0].key := [outboxes[w][0].item]], manager, log)
  {
    var PairPut(key, item) := outboxes[w][0];
    var mail, put := outboxes[w := outboxes[w][1..]], buckets[key := [item]];
    forall j, k | IsPiece(plan, j, k)
      ensures Places(mail, put, manager, log, plan[j].pieces[k])
           == Places(outboxes, buckets, manager, log, plan[j].pieces[k])
    {
      MailShrinks(outboxes, w, plan[j].pieces[k].path);
      if plan[j].pieces[k].path == item.src { EndItemIs(plan, key, item, j, k); }
    }
    SamePlaces(plan, phases, outboxes, mail, buckets, put, manager, manager, log, log);
  }

  /** The first piece of a key goes from the mail into its bucket. */
  lemma FirstPutLocated(plan: Plan, s: State, w: nat)
    requires PathsPrivate(plan) && PiecesInv(plan, s) && Enabled(plan, s, Deliver(w)) && s.outboxes[w][0].PairPut?
    requires s.outboxes[w][0].key !in s.buckets
    ensures PiecesInv(plan, Apply(plan, s, Deliver(w)))
  {
    var PairPut(key, item) := s.outboxes[w][0];
    MailItemsShrink(plan, s.outboxes, w);
    FirstPutFits(plan, s.phases, s.outboxes, s.buckets, s.manager, s.log, w);
    var t := Apply(plan, s, Deliver(w));
    assert [] + [item] == [item];
    assert t.buckets == s.buckets[key := [item]] && t.manager == s.manager;
  }

  /** A piece in the mail is in no bucket. */
  lemma MailedIsNotBucketed(plan: Plan, s: State, w: nat, key: string)
    requires PathsPrivate(plan) && PiecesInv(plan, s) && w < |s.outboxes| && s.outboxes[w] != []
    requires s.outboxes[w][0].PairPut? && s.outboxes[w][0].key == key && key in s.buckets
    ensures s.buckets[key][0].src != s.outboxes[w][0].item.src
  {
    var item := s.outboxes[w][0].item;
    MailItemsShrink(plan, s.outboxes, w);
    var j, k :| IsEnd(plan, j, k) && plan[j].pieces[k].key == key && ItemOf(plan[j].pieces[k]) == item;
    assert IsPiece(plan, j, k);
    assert PlacesFit(plan[j], s.phases[j], k, Places(s.outboxes, s.buckets, s.manager, s.log, plan[j].pieces[k]));
    MailShrinks(s.outboxes, w, item.src);
    assert InMail(s.outboxes, item.src) >= 1;
  }

  lemma SecondPutPlaces(plan: Plan, outboxes: seq<seq<Msg>>, buckets: map<string, seq<Item>>, w: nat, j: int, k: int)
    requires PathsPrivate(plan) && BucketItems(plan, buckets) && IsPiece(plan, j, k)
    requires w < |outboxes| && outboxes[w] != [] && outboxes[w][0].PairPut? && outboxes[w][0].key in buckets
    requires EndItem(plan, outboxes[w][0].key, outboxes[w][0].item)
    requires buckets[outboxes[w][0].key][0].src != outboxes[w][0].item.src
    ensures var key, piece := outboxes[w][0].key, plan[j].pieces[k];
            InMail(outboxes[w := outboxes[w][1..]], piece.path) + InBuckets(buckets - {key}, piece)
            + multiset([buckets[key][0].src, outboxes[w][0].item.src])[piece.path]
            == InMail(outboxes, piece.path) + InBuckets(buckets, piece)
  {
    var PairPut(key, item) := outboxes[w][0];
    var piece, other := plan[j].pieces[k], buckets[key][0];
    MailShrinks(outboxes, w, piece.path);
    if piece.path == item.src { EndItemIs(plan, key, item, j, k); }
    assert EndItem(plan, key, other);
    if piece.path == other.src { EndItemIs(plan, key, other, j, k); }
  }

  lemma SecondPutFits(plan: Plan, phases: seq<Phase>, outboxes: seq<seq<Msg>>, buckets: map<string, seq<Item>>,
                      log: seq<Upload>, w: nat)
    requires PathsPrivate(plan) && BucketItems(plan, buckets) && Located(plan, phases, outboxes, buckets, Draining, log)
    requires w < |outboxes| && outboxes[w] != [] && outboxes[w][0].PairPut? && outboxes[w][0].key in buckets
    requires EndItem(plan, outboxes[w][0].key, outboxes[w][0].item)
    requires buckets[outboxes[w][0].key][0].src != outboxes[w][0].item.src
    ensures var key := outboxes[w][0].key;
            Located(plan, phases, outboxes[w := outboxes[w][1..]], buckets - {key},
                    Merging([buckets[key][0], outboxes[w][0].item]), log)
  {
    var key := outboxes[w][0].key;
    var pair := [buckets[key][0], outboxes[w][0].item];
    assert Sources(pair) == [pair[0].src, pair[1].src];
    forall j, k | IsPiece(plan, j, k)
      ensures Places(outboxes[w := outboxes[w][1..]], buckets - {key}, Merging(pair), log, plan[j].pieces[k])
           == Places(outboxes, buckets, Draining, log, plan[j].pieces[k])
    {
      SecondPutPlaces(plan, outboxes, buckets, w, j, k);
    }
    SamePlaces(plan, phases, outboxes, outboxes[w := outboxes[w][1..]], buckets, buckets - {key},
               Draining, Merging(pair), log, log);
  }

  /** The second one leaves the mail, its partner leaves the bucket, and both are in the manager's hands. */
  lemma SecondPutLocated(plan: Plan, s: State, w: nat)
    requires PathsPrivate(plan) && PiecesInv(plan, s) && Enabled(plan, s, Deliver(w)) && s.outboxes[w][0].PairPut?
    requires s.outboxes[w][0].key in s.buckets
    ensures PiecesInv(plan, Apply(plan, s, Deliver(w)))
  {
    var PairPut(key, item) := s.outboxes[w][0];
    var other := s.buckets[key][0];
    MailItemsShrink(plan, s.outboxes, w);
    MailedIsNotBucketed(plan, s, w, key);
    SecondPutFits(plan, s.phases, s.outboxes, s.buckets, s.log, w);
    SecondPutResult(s.buckets, key, item);
    assert EndItem(plan, key, other);
    var t := Apply(plan, s, Deliver(w));
    assert t.buckets == s.buckets - {key} && t.manager == Merging([other, item]);
    assert EndPair(plan, [other, item]);
  }

  lemma SecondPutResult(buckets: map<string, seq<Item>>, key: string, item: Item)
    requires key in buckets && |buckets[key]| == 1
    ensures PutResult(buckets, key, item) == Some([buckets[key][0], item])
    ensures PutBuckets(buckets, key, item) == buckets - {key}
  {
    assert buckets[key] + [item] == [buckets[key][0], item];
  }

  /** What leaves the manager's hands is in the log. */
  lemma HandToLog(plan: Plan, phases: seq<Phase>, outboxes: seq<seq<Msg>>, buckets: map<string, seq<Item>>,
                  manager: Manager, manager': Manager, log: seq<Upload>, log': seq<Upload>)
    requires Located(plan, phases, outboxes, buckets, manager, log)
    requires forall p :: InHand(manager', p) + InLog(log', p) == InHand(manager, p) + InLog(log, p)
    ensures Located(plan, phases, outboxes, buckets, manager', log')
  {
    SamePlaces(plan, phases, outboxes, outboxes, buckets, buckets, manager, manager', log, log');
  }

  lemma MergeLocated(plan: Plan, s: State)
    requires PiecesInv(plan, s) && Enabled(plan, s, Merge)
    ensures PiecesInv(plan, Apply(plan, s, Merge))
  {
    HandToLog(plan, s.phases, s.outboxes, s.buckets, s.manager, Shipping(s.manager.pair), s.log, s.log);
  }

  lemma ShipLocated(plan: Plan, s: State)
    requires PiecesInv(plan, s) && Enabled(plan, s, Ship)
    ensures PiecesInv(plan, Apply(plan, s, Ship))
  {
    var pair := s.manager.pair;
    var u := Upload(pair[0].prefix, Sources(pair), Read(s.local, pair[0].out));
    forall p ensures InLog(s.log + [u], p) == InLog(s.log, p) + CountSrc(p)(pair) {
      LogGrows(s.log, u, p);
    }
    HandToLog(plan, s.phases, s.outboxes, s.buckets, s.manager, Cleaning(pair), s.log, s.log + [u]);
  }

  lemma CleanLocated(plan: Plan, s: State)
    requires PiecesInv(plan, s) && Enabled(plan, s, Clean)
    ensures PiecesInv(plan, Apply(plan, s, Clean))
  {
    HandToLog(plan, s.phases, s.outboxes, s.buckets, s.manager, Draining, s.log, s.log);
  }

  lemma FinishLocated(plan: Plan, s: State)
    requires PiecesInv(plan, s) && Enabled(plan, s, Finish)
    ensures PiecesInv(plan, Apply(plan, s, Finish))
  {
    HandToLog(plan, s.phases, s.outboxes, s.buckets, s.manager, Ended, s.log, s.log);
  }

  lemma SweepLocated(plan: Plan, s: State)
    requires PiecesInv(plan, s) && Enabled(plan, s, Sweep)
    ensures PiecesInv(plan, Apply(plan, s, Sweep))
  {
    var rest: seq<seq<Item>> := s.manager.rest;
    var item: Item := rest[0][0];
    var u := Upload(item.prefix, [item.src], Read(s.local, item.src));
    assert Sources(rest[0]) == [item.src];
    forall p ensures InLog(s.log + [u], p) == InLog(s.log, p) + CountSrc(p)(rest[0]) {
      LogGrows(s.log, u, p);
    }
    HandToLog(plan, s.phases, s.outboxes, s.buckets, s.manager, Sweeping(rest[1..]), s.log, s.log + [u]);
    RestShrinks(plan, rest);
  }

  lemma RestShrinks(plan: Plan, rest: seq<seq<Item>>)
    requires RestItems(plan, rest) && rest != []
    ensures RestItems(plan, rest[1..])
  {
    forall i | 0 <= i < |rest[1..]| ensures |rest[1..][i]| == 1 && exists key :: EndItem(plan, key, rest[1..][i][0]) {
      assert rest[1..][i] == rest[i + 1];
    }
  }

  lemma BucketCount(plan: Plan, buckets: map<string, seq<Item>>, x: string, j: int, k: int)
    requires PathsPrivate(plan) && BucketItems(plan, buckets) && IsPiece(plan, j, k) && x in buckets
    ensures CountSrc(plan[j].pieces[k].path)(buckets[x])
            == if plan[j].pieces[k].key == x then InBuckets(buckets, plan[j].pieces[k]) else 0
  {
    var bucket := buckets[x];
    assert EndItem(plan, x, bucket[0]);
    assert Sources(bucket) == [bucket[0].src];
    if bucket[0].src == plan[j].pieces[k].path { EndItemIs(plan, x, bucket[0], j, k); }
  }

  /** Listing the buckets counts a piece as often as looking it up under its key. */
  lemma {:induction false} TakenCount(plan: Plan, buckets: map<string, seq<Item>>, order: seq<string>, j: int, k: int)
    requires PathsPrivate(plan) && BucketItems(plan, buckets) && IsPiece(plan, j, k)
    requires forall x :: x in order ==> x in buckets
    requires forall a, b :: 0 <= a < b < |order| ==> order[a] != order[b]
    ensures var piece := plan[j].pieces[k];
            Sum(Taken(buckets, order), CountSrc(piece.path))
            == if piece.key in order then InBuckets(buckets, piece) else 0
  {
    if order != [] {
      var rest := order[1..];
      TakenRest(buckets, order);
      TakenCount(plan, buckets, rest, j, k);
      BucketCount(plan, buckets, order[0], j, k);
    }
  }

  lemma TakenRest(buckets: map<string, seq<Item>>, order: seq<string>)
    requires order != [] && forall x :: x in order ==> x in buckets
    ensures order[0] in buckets && forall y :: y in order[1..] ==> y in buckets
    ensures Taken(buckets, order) == [buckets[order[0]]] + Taken(buckets, order[1..])
    ensures forall y :: y in order <==> y == order[0] || y in order[1..]
    ensures (forall a, b :: 0 <= a < b < |order| ==> order[a] != order[b]) ==> order[0] !in order[1..]
  {
    assert order[0] in order;
    forall y | y in order[1..] ensures y in order {
      var i :| 0 <= i < |order[1..]| && order[1..][i] == y;
      assert order[i + 1] == y;
    }
    assert forall y :: y in order ==> y == order[0] || y in order[1..];
  }

  lemma TakenItems(plan: Plan, buckets: map<string, seq<Item>>, order: seq<string>)
    requires BucketItems(plan, buckets) && forall x :: x in order ==> x in buckets
    ensures RestItems(plan, Taken(buckets, order))
  {
    var rest := Taken(buckets, order);
    forall i | 0 <= i < |rest| ensures |rest[i]| == 1 && exists key :: EndItem(plan, key, rest[i][0]) {
      assert order[i] in order;
      assert EndItem(plan, order[i], rest[i][0]);
    }
  }

  lemma ClosePlaces(plan: Plan, s: State, order: seq<string>, j: int, k: int)
    requires PathsPrivate(plan) && BucketItems(plan, s.buckets) && IsPiece(plan, j, k)
    requires s.manager.Draining? && Lists(order, s.buckets.Keys)
    ensures Places(s.outboxes, map[], Sweeping(Taken(s.buckets, order)), s.log, plan[j].pieces[k])
         == Places(s.outboxes, s.buckets, s.manager, s.log, plan[j].pieces[k])
  {
    TakenCount(plan, s.buckets, order, j, k);
  }

  lemma CloseLocated(plan: Plan, s: State, order: seq<string>)
    requires PathsPrivate(plan) && PiecesInv(plan, s) && Enabled(plan, s, Close(order))
    ensures PiecesInv(plan, Apply(plan, s, Close(order)))
  {
    var t := Apply(plan, s, Close(order));
    TakenItems(plan, s.buckets, order);
    forall j, k | IsPiece(plan, j, k)
      ensures Places(t.outboxes, t.buckets, t.manager, t.log, plan[j].pieces[k])
           == Places(s.outboxes, s.buckets, s.manager, s.log, plan[j].pieces[k])
    {
      ClosePlaces(plan, s, order, j, k);
    }
    SamePlaces(plan, s.phases, s.outboxes, t.outboxes, s.buckets, t.buckets, s.manager, t.manager, s.log, t.log);
  }

  lemma EarlyStepLocated(plan: Plan, s: State, step: Step)
    requires PiecesInv(plan, s) && Enabled(plan, s, step)
    requires step.Push? || step.Pop? || step.Fetch? || step.Split?
    requires step.Push? ==> s.phases[s.manager.next] == Unqueued
    requires step.Pop? ==> s.phases[s.queue[0]] == Queued
    ensures PiecesInv(plan, Apply(plan, s, step))
  {
    var t := Apply(plan, s, step);
    var j := if step.Push? then s.manager.next else if step.Pop? then s.queue[0] else s.holds[step.w].value;
    QuietPhaseChange(plan, s.phases, s.outboxes, s.buckets, s.manager, t.manager, s.log, j, t.phases[j]);
  }

  lemma PiecesInvKept(plan: Plan, s: State, step: Step)
    requires PathsPrivate(plan) && PiecesInv(plan, s) && Enabled(plan, s, step)
    requires step.Push? ==> s.phases[s.manager.next] == Unqueued
    requires step.Pop? ==> s.phases[s.queue[0]] == Queued
    ensures PiecesInv(plan, Apply(plan, s, step))
  {
    match step {
      case UploadMid(w) => UploadMidLocated(plan, s, w);
      case Post(w) => PostLocated(plan, s, w);
      case Report(w) => DoneLocated(plan, s, w, step);
      case Abort(w, after) => DoneLocated(plan, s, w, step);
      case Deliver(w) =>
        if s.outboxes[w][0].JobDone? {
          DeliverDoneLocated(plan, s, w);
        } else if s.outboxes[w][0].key in s.buckets {
          SecondPutLocated(plan, s, w);
        } else {
          FirstPutLocated(plan, s, w);
        }
      case Close(order) => CloseLocated(plan, s, order);
      case Sweep => SweepLocated(plan, s);
      case Merge => MergeLocated(plan, s);
      case Ship => ShipLocated(plan, s);
      case Clean => CleanLocated(plan, s);
      case Finish => FinishLocated(plan, s);
      case _ => EarlyStepLocated(plan, s, step);
    }
  }

  lemma PiecesInvAtStart(plan: Plan, s: State)
    requires s == Start(plan, |s.holds|, s.local, s.store)
    ensures PiecesInv(plan, s)
  {
    forall j, k | IsPiece(plan, j, k)
      ensures PlacesFit(plan[j], s.phases[j], k, Places(s.outboxes, s.buckets, s.manager, s.log, plan[j].pieces[k]))
    {
      SumZero(s.outboxes, PostsOf(plan[j].pieces[k].path));
    }
  }
}
