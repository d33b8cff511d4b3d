/** What the local files and the uploaded objects of a cycle contain, in every reachable state. */
module CycleContents {
  import opened Wrappers
  import opened Bytes
  import opened FileSystem
  import opened SplitSpec
  import opened Sums
  import opened Protocol
  import opened CyclePieces

  // ---------- invariants ----------

  predicate Written(p: Phase) {
    p.Working? || p == Finished(true)
  }

  /** A downloaded file and every written piece that has not been uploaded are on disk, unchanged. */
  ghost predicate DiskOk(plan: Plan, phases: seq<Phase>, log: seq<Upload>, local: Files) {
    && |phases| == |plan|
    && (forall j :: 0 <= j < |plan| && phases[j] == Splitting ==>
          plan[j].source in local && local[plan[j].source] == plan[j].raw)
    && (forall j, k :: IsPiece(plan, j, k) && Written(phases[j]) && InLog(log, plan[j].pieces[k].path) == 0 ==>
          plan[j].pieces[k].path in local && local[plan[j].pieces[k].path] == plan[j].pieces[k].bytes)
  }

  ghost predicate PieceNamed(plan: Plan, path: string, j: int, k: int) {
    IsPiece(plan, j, k) && plan[j].pieces[k].path == path
  }

  /** The content of a merge of two named pieces. */
  ghost predicate MergedFrom(plan: Plan, content: seq<byte>, p: string, q: string) {
    forall j, k, j', k' :: PieceNamed(plan, p, j, k) && PieceNamed(plan, q, j', k') ==>
      content == Merged([plan[j].pieces[k].bytes, plan[j'].pieces[k'].bytes])
  }

  ghost predicate HandOk(plan: Plan, manager: Manager, log: seq<Upload>, local: Files) {
    match manager
    case Shipping(pair) =>
      |pair| == 2 && pair[0].out in local && MergedFrom(plan, local[pair[0].out], pair[0].src, pair[1].src)
    case Cleaning(pair) => forall i :: 0 <= i < |pair| ==> InLog(log, pair[i].src) > 0
    case _ => true
  }

  /** One piece on its own under its own object name. */
  ghost predicate SingleUpload(plan: Plan, u: Upload) {
    exists j, k :: IsPiece(plan, j, k)
      && u == Upload(plan[j].pieces[k].dest, [plan[j].pieces[k].path], plan[j].pieces[k].bytes)
  }

  ghost predicate PairOf(plan: Plan, u: Upload, j: int, k: int, j': int, k': int) {
    && IsEnd(plan, j, k) && IsEnd(plan, j', k') && plan[j].pieces[k].key == plan[j'].pieces[k'].key
    && plan[j].pieces[k].path != plan[j'].pieces[k'].path
    && u == Upload(plan[j].pieces[k].dest, [plan[j].pieces[k].path, plan[j'].pieces[k'].path],
                   Merged([plan[j].pieces[k].bytes, plan[j'].pieces[k'].bytes]))
  }

  /** Two HEAD/TAIL pieces of one key, merged. */
  ghost predicate PairUpload(plan: Plan, u: Upload) {
    exists j, k, j', k' :: PairOf(plan, u, j, k, j', k')
  }

  ghost predicate LogOk(plan: Plan, log: seq<Upload>) {
    forall i :: 0 <= i < |log| ==> SingleUpload(plan, log[i]) || PairUpload(plan, log[i])
  }

  /** The path is that of a HEAD or TAIL piece with this key. */
  ghost predicate EndPath(plan: Plan, path: string, key: string) {
    exists j, k :: IsEnd(plan, j, k) && plan[j].pieces[k].key == key && plan[j].pieces[k].path == path
  }

  ghost function SingleOf(plan: Plan, key: string): Upload -> nat {
    (u: Upload) => if |u.sources| == 1 && EndPath(plan, u.sources[0], key) then 1 else 0
  }

  ghost function RestOf(plan: Plan, key: string): seq<Item> -> nat {
    (items: seq<Item>) => if |items| >= 1 && EndPath(plan, items[0].src, key) then 1 else 0
  }

  /** HEAD/TAIL pieces are uploaded alone only by the sweep, at most one per key. */
  ghost predicate SinglesOk(plan: Plan, manager: Manager, log: seq<Upload>) {
    forall key ::
      match manager
      case Sweeping(rest) => Sum(log, SingleOf(plan, key)) + Sum(rest, RestOf(plan, key)) <= 1
      case Ended => Sum(log, SingleOf(plan, key)) <= 1
      case _ => Sum(log, SingleOf(plan, key)) == 0
  }

  /** The store after a list of uploads. */
  function Replay(store: Files, log: seq<Upload>): Files {
    if log == [] then store
    else
      var n := |log| - 1;
      Replay(store, log[..n])[log[n].dest := log[n].bytes]
  }

  ghost predicate ContentsInv(plan: Plan, store: Files, s: State) {
    && DiskOk(plan, s.phases, s.log, s.local)
    && HandOk(plan, s.manager, s.log, s.local)
    && LogOk(plan, s.log)
    && SinglesOk(plan, s.manager, s.log)
    && s.store == Replay(store, s.log)
  }

  // ---------- helpers ----------

  lemma ReplayOne(store: Files, log: seq<Upload>, u: Upload)
    ensures Replay(store, log + [u]) == Replay(store, log)[u.dest := u.bytes]
  {
    assert (log + [u])[..|log|] == log;
  }

  lemma {:induction false} WrittenPiece(local: Files, pieces: seq<Piece>, i: nat)
    requires i < |pieces| && forall a :: i < a < |pieces| ==> pieces[a].path != pieces[i].path
    ensures pieces[i].path in WriteAll(local, pieces) && WriteAll(local, pieces)[pieces[i].path] == pieces[i].bytes
  {
    if i < |pieces| - 1 {
      WrittenPiece(local, pieces[..|pieces| - 1], i);
    }
  }

  lemma {:induction false} NotWritten(local: Files, pieces: seq<Piece>, p: string)
    requires forall i :: 0 <= i < |pieces| ==> pieces[i].path != p
    ensures p in WriteAll(local, pieces) <==> p in local
    ensures p in local ==> WriteAll(local, pieces)[p] == local[p]
  {
    if pieces != [] {
      NotWritten(local, pieces[..|pieces| - 1], p);
    }
  }

  /** A piece in the mail, a bucket or the manager's hands is still on disk with its content. */
  lemma WaitingPieceIsOnDisk(plan: Plan, s: State, j: int, k: int)
    requires PiecesInv(plan, s) && DiskOk(plan, s.phases, s.log, s.local) && IsEnd(plan, j, k)
    requires InMail(s.outboxes, plan[j].pieces[k].path) + InBuckets(s.buckets, plan[j].pieces[k])
             + InHand(s.manager, plan[j].pieces[k].path) >= 1
    ensures InLog(s.log, plan[j].pieces[k].path) == 0 && Written(s.phases[j])
    ensures plan[j].pieces[k].path in s.local && s.local[plan[j].pieces[k].path] == plan[j].pieces[k].bytes
  {
    assert IsPiece(plan, j, k);
    assert PlacesFit(plan[j], s.phases[j], k, Places(s.outboxes, s.buckets, s.manager, s.log, plan[j].pieces[k]));
  }

  // ---------- disk: worker steps ----------

  lemma FetchDisk(plan: Plan, s: State, w: nat)
    requires PathsPrivate(plan) && DiskOk(plan, s.phases, s.log, s.local) && HandItems(plan, s.manager)
    requires HandOk(plan, s.manager, s.log, s.local) && Enabled(plan, s, Fetch(w))
    ensures var t := Apply(plan, s, Fetch(w));
            DiskOk(plan, t.phases, t.log, t.local) && HandOk(plan, t.manager, t.log, t.local)
  {
    var t := Apply(plan, s, Fetch(w));
    var job := s.holds[w].value;
    forall j, k | IsPiece(plan, j, k) ensures plan[j].pieces[k].path != plan[job].source {
    }
    HandFramed(plan, s.manager, s.log, s.log, s.local, t.local);
  }

  /** The manager's merge output survives whatever leaves merge outputs alone. */
  lemma HandFramed(plan: Plan, manager: Manager, log: seq<Upload>, log': seq<Upload>, local: Files, local': Files)
    requires HandItems(plan, manager) && HandOk(plan, manager, log, local)
    requires forall p :: InLog(log', p) >= InLog(log, p)
    requires forall j, k :: IsPiece(plan, j, k) && plan[j].pieces[k].out in local ==>
               plan[j].pieces[k].out in local' && local'[plan[j].pieces[k].out] == local[plan[j].pieces[k].out]
    ensures HandOk(plan, manager, log', local')
  {
    if manager.Shipping? {
      var key :| EndItem(plan, key, manager.pair[0]) && EndItem(plan, key, manager.pair[1]);
      var j, k :| IsEnd(plan, j, k) && plan[j].pieces[k].key == key && ItemOf(plan[j].pieces[k]) == manager.pair[0];
      assert IsPiece(plan, j, k);
    }
  }

  lemma SplitDisk(plan: Plan, s: State, w: nat)
    requires PathsPrivate(plan) && DiskOk(plan, s.phases, s.log, s.local) && Enabled(plan, s, Split(w))
    ensures var t := Apply(plan, s, Split(w));
            DiskOk(plan, t.phases, t.log, t.local)
  {
    var t := Apply(plan, s, Split(w));
    var i := s.holds[w].value;
    var pieces := plan[i].pieces;
    forall a, b | 0 <= a < b < |pieces| ensures pieces[a].path != pieces[b].path {
      assert IsPiece(plan, i, a) && IsPiece(plan, i, b);
    }
    forall j | 0 <= j < |plan| && t.phases[j] == Splitting
      ensures plan[j].source in t.local && t.local[plan[j].source] == plan[j].raw
    {
      forall a | 0 <= a < |pieces| ensures pieces[a].path != plan[j].source { assert IsPiece(plan, i, a); }
      NotWritten(s.local, pieces, plan[j].source);
    }
    forall j, k | IsPiece(plan, j, k) && Written(t.phases[j]) && InLog(t.log, plan[j].pieces[k].path) == 0
      ensures plan[j].pieces[k].path in t.local && t.local[plan[j].pieces[k].path] == plan[j].pieces[k].bytes
    {
      assert plan[j].pieces[k].path != plan[i].source;
      if j == i {
        WrittenPiece(s.local, pieces, k);
      } else {
        forall a | 0 <= a < |pieces| ensures pieces[a].path != plan[j].pieces[k].path { assert IsPiece(plan, i, a); }
        NotWritten(s.local, pieces, plan[j].pieces[k].path);
      }
    }
  }

  lemma SplitHand(plan: Plan, s: State, w: nat)
    requires PathsPrivate(plan) && HandItems(plan, s.manager)
    requires HandOk(plan, s.manager, s.log, s.local) && Enabled(plan, s, Split(w))
    ensures HandOk(plan, s.manager, s.log, Apply(plan, s, Split(w)).local)
  {
    var t := Apply(plan, s, Split(w));
    var i := s.holds[w].value;
    forall j, k | IsPiece(plan, j, k) && plan[j].pieces[k].out in s.local
      ensures plan[j].pieces[k].out in t.local && t.local[plan[j].pieces[k].out] == s.local[plan[j].pieces[k].out]
    {
      forall a | 0 <= a < |plan[i].pieces| ensures plan[i].pieces[a].path != plan[j].pieces[k].out { assert IsPiece(plan, i, a); }
      NotWritten(s.local, plan[i].pieces, plan[j].pieces[k].out);
      assert plan[j].pieces[k].out != plan[i].source;
    }
    HandFramed(plan, s.manager, s.log, s.log, s.local, t.local);
  }

  lemma AbortDisk(plan: Plan, s: State, w: nat, after: Files)
    requires PathsPrivate(plan) && DiskOk(plan, s.phases, s.log, s.local) && HandItems(plan, s.manager)
    requires HandOk(plan, s.manager, s.log, s.local) && Enabled(plan, s, Abort(w, after))
    ensures var t := Apply(plan, s, Abort(w, after));
            DiskOk(plan, t.phases, t.log, t.local) && HandOk(plan, t.manager, t.log, t.local)
  {
    var t := Apply(plan, s, Abort(w, after));
    var i := s.holds[w].value;
    forall j | 0 <= j < |plan| && t.phases[j] == Splitting ensures !OwnPath(plan[i], plan[j].source) {
      forall a | 0 <= a < |plan[i].pieces| ensures plan[i].pieces[a].path != plan[j].source { assert IsPiece(plan, i, a); }
    }
    forall j, k | IsPiece(plan, j, k) ensures !OwnPath(plan[i], plan[j].pieces[k].out) {
      forall a | 0 <= a < |plan[i].pieces| ensures plan[i].pieces[a].path != plan[j].pieces[k].out { assert IsPiece(plan, i, a); }
    }
    forall j, k | IsPiece(plan, j, k) && j != i ensures !OwnPath(plan[i], plan[j].pieces[k].path) {
      forall a | 0 <= a < |plan[i].pieces| ensures plan[i].pieces[a].path != plan[j].pieces[k].path { assert IsPiece(plan, i, a); }
    }
    HandFramed(plan, s.manager, s.log, s.log, s.local, t.local);
  }

  // ---------- uploads ----------

  /** Uploading one piece alone: the content read is the piece's, and removing it loses nothing else. */
  lemma SingleUploadDisk(plan: Plan, phases: seq<Phase>, log: seq<Upload>, local: Files, j: int, k: int, u: Upload)
    requires PathsPrivate(plan) && DiskOk(plan, phases, log, local) && IsPiece(plan, j, k)
    requires Written(phases[j]) && InLog(log, plan[j].pieces[k].path) == 0
    requires u == Upload(plan[j].pieces[k].dest, [plan[j].pieces[k].path], Read(local, plan[j].pieces[k].path))
    ensures DiskOk(plan, phases, log + [u], local - {plan[j].pieces[k].path})
    ensures SingleUpload(plan, u)
    ensures forall p :: InLog(log + [u], p) >= InLog(log, p)
  {
    forall p ensures InLog(log + [u], p) == InLog(log, p) + if p == plan[j].pieces[k].path then 1 else 0 {
      LogGrows(log, u, p);
    }
  }

  lemma SinglesGrow(plan: Plan, log: seq<Upload>, u: Upload, key: string)
    ensures Sum(log + [u], SingleOf(plan, key)) == Sum(log, SingleOf(plan, key)) + SingleOf(plan, key)(u)
  {
    SumOne(log, u, SingleOf(plan, key));
  }

  lemma EndPathIsEnd(plan: Plan, j: int, k: int, key: string)
    requires PathsPrivate(plan) && IsPiece(plan, j, k)
    ensures EndPath(plan, plan[j].pieces[k].path, key) <==> IsEnd(plan, j, k) && plan[j].pieces[k].key == key
  {
    if EndPath(plan, plan[j].pieces[k].path, key) {
      var j', k' :| IsEnd(plan, j', k') && plan[j'].pieces[k'].key == key && plan[j'].pieces[k'].path == plan[j].pieces[k].path;
      assert IsPiece(plan, j', k');
    }
  }

  lemma WrittenPhaseDisk(plan: Plan, phases: seq<Phase>, log: seq<Upload>, local: Files, j: nat, p: Phase)
    requires DiskOk(plan, phases, log, local) && j < |phases| && Written(phases[j]) && Written(p)
    ensures DiskOk(plan, phases[j := p], log, local)
  {
  }

  lemma HandAfterRemoval(plan: Plan, manager: Manager, log: seq<Upload>, log': seq<Upload>, local: Files, j: int, k: int)
    requires PathsPrivate(plan) && HandItems(plan, manager) && HandOk(plan, manager, log, local) && IsPiece(plan, j, k)
    requires forall p :: InLog(log', p) >= InLog(log, p)
    ensures HandOk(plan, manager, log', local - {plan[j].pieces[k].path})
  {
    HandFramed(plan, manager, log, log', local, local - {plan[j].pieces[k].path});
  }

  lemma LogOkGrows(plan: Plan, log: seq<Upload>, u: Upload)
    requires LogOk(plan, log) && (SingleUpload(plan, u) || PairUpload(plan, u))
    ensures LogOk(plan, log + [u])
  {
  }

  lemma MidIsNoSingle(plan: Plan, manager: Manager, log: seq<Upload>, u: Upload, j: int, k: int)
    requires PathsPrivate(plan) && SinglesOk(plan, manager, log) && !manager.Sweeping? && !manager.Ended?
    requires IsPiece(plan, j, k) && !IsEnd(plan, j, k) && u.sources == [plan[j].pieces[k].path]
    ensures SinglesOk(plan, manager, log + [u])
  {
    forall key ensures Sum(log + [u], SingleOf(plan, key)) == 0 {
      SinglesGrow(plan, log, u, key);
      EndPathIsEnd(plan, j, k, key);
    }
  }

  lemma MidUploaded(plan: Plan, phases: seq<Phase>, manager: Manager, log: seq<Upload>, local: Files, j: nat, k: nat, u: Upload)
    requires PathsPrivate(plan) && DiskOk(plan, phases, log, local) && HandItems(plan, manager)
    requires HandOk(plan, manager, log, local) && LogOk(plan, log) && SinglesOk(plan, manager, log)
    requires !manager.Sweeping? && !manager.Ended? && IsPiece(plan, j, k) && !IsEnd(plan, j, k)
    requires phases[j] == Working(k) && InLog(log, plan[j].pieces[k].path) == 0
    requires u == Upload(plan[j].pieces[k].dest, [plan[j].pieces[k].path], Read(local, plan[j].pieces[k].path))
    ensures var rest := local - {plan[j].pieces[k].path};
            && DiskOk(plan, phases[j := Working(k + 1)], log + [u], rest) && HandOk(plan, manager, log + [u], rest)
            && LogOk(plan, log + [u]) && SinglesOk(plan, manager, log + [u])
  {
    SingleUploadDisk(plan, phases, log, local, j, k, u);
    WrittenPhaseDisk(plan, phases, log + [u], local - {plan[j].pieces[k].path}, j, Working(k + 1));
    HandAfterRemoval(plan, manager, log, log + [u], local, j, k);
    LogOkGrows(plan, log, u);
    MidIsNoSingle(plan, manager, log, u, j, k);
  }

  lemma UploadMidContents(plan: Plan, store: Files, s: State, w: nat)
    requires PathsPrivate(plan) && PiecesInv(plan, s) && ContentsInv(plan, store, s) && Enabled(plan, s, UploadMid(w))
    requires !s.manager.Sweeping? && !s.manager.Ended?
    ensures ContentsInv(plan, store, Apply(plan, s, UploadMid(w)))
  {
    var j, k := s.holds[w].value, PhaseOf(s, w).done;
    var u := UploadMidState(plan, s, w, j, k);
    UploadMidOf(plan, store, s, j, k, u);
  }

  lemma UploadMidState(plan: Plan, s: State, w: nat, j: nat, k: nat) returns (u: Upload)
    requires Enabled(plan, s, UploadMid(w)) && s.holds[w] == Some(j) && s.phases[j] == Working(k)
    ensures IsPiece(plan, j, k) && !IsEnd(plan, j, k)
    ensures u == Upload(plan[j].pieces[k].dest, [plan[j].pieces[k].path], Read(s.local, plan[j].pieces[k].path))
    ensures Apply(plan, s, UploadMid(w))
            == s.(phases := s.phases[j := Working(k + 1)], log := s.log + [u],
                  local := s.local - {plan[j].pieces[k].path}, store := s.store[u.dest := u.bytes])
  {
    u := Upload(plan[j].pieces[k].dest, [plan[j].pieces[k].path], Read(s.local, plan[j].pieces[k].path));
  }

  lemma UploadMidOf(plan: Plan, store: Files, s: State, j: nat, k: nat, u: Upload)
    requires PathsPrivate(plan) && PiecesInv(plan, s) && ContentsInv(plan, store, s)
    requires !s.manager.Sweeping? && !s.manager.Ended?
    requires IsPiece(plan, j, k) && !IsEnd(plan, j, k) && s.phases[j] == Working(k)
    requires u == Upload(plan[j].pieces[k].dest, [plan[j].pieces[k].path], Read(s.local, plan[j].pieces[k].path))
    ensures ContentsInv(plan, store, s.(phases := s.phases[j := Working(k + 1)], log := s.log + [u],
                                        local := s.local - {plan[j].pieces[k].path}, store := s.store[u.dest := u.bytes]))
  {
    MidNotYetLogged(plan, s, j, k);
    MidUploaded(plan, s.phases, s.manager, s.log, s.local, j, k, u);
    ReplayOne(store, s.log, u);
  }

  lemma MidNotYetLogged(plan: Plan, s: State, j: int, k: int)
    requires PiecesInv(plan, s) && IsPiece(plan, j, k) && s.phases[j] == Working(k)
    ensures InLog(s.log, plan[j].pieces[k].path) == 0
  {
    assert PlacesFit(plan[j], s.phases[j], k, Places(s.outboxes, s.buckets, s.manager, s.log, plan[j].pieces[k]));
  }

  /** The pieces an EndPair stands for. */
  lemma PairPieces(plan: Plan, pair: seq<Item>) returns (j: int, k: int, j': int, k': int)
    requires EndPair(plan, pair)
    ensures IsEnd(plan, j, k) && IsEnd(plan, j', k') && plan[j].pieces[k].key == plan[j'].pieces[k'].key
    ensures ItemOf(plan[j].pieces[k]) == pair[0] && ItemOf(plan[j'].pieces[k']) == pair[1]
    ensures plan[j].pieces[k].path != plan[j'].pieces[k'].path
    ensures Sources(pair) == [plan[j].pieces[k].path, plan[j'].pieces[k'].path]
  {
    var key :| EndItem(plan, key, pair[0]) && EndItem(plan, key, pair[1]);
    j, k :| IsEnd(plan, j, k) && plan[j].pieces[k].key == key && ItemOf(plan[j].pieces[k]) == pair[0];
    j', k' :| IsEnd(plan, j', k') && plan[j'].pieces[k'].key == key && ItemOf(plan[j'].pieces[k']) == pair[1];
  }

  lemma NamedOnce(plan: Plan, p: string, j: int, k: int, j': int, k': int)
    requires PathsPrivate(plan) && PieceNamed(plan, p, j, k) && PieceNamed(plan, p, j', k')
    ensures j == j' && k == k'
  {
  }

  lemma MergedFromPieces(plan: Plan, content: seq<byte>, j: int, k: int, j': int, k': int)
    requires PathsPrivate(plan) && IsPiece(plan, j, k) && IsPiece(plan, j', k')
    requires content == Merged([plan[j].pieces[k].bytes, plan[j'].pieces[k'].bytes])
    ensures MergedFrom(plan, content, plan[j].pieces[k].path, plan[j'].pieces[k'].path)
  {
    var p, q := plan[j].pieces[k].path, plan[j'].pieces[k'].path;
    assert PieceNamed(plan, p, j, k) && PieceNamed(plan, q, j', k');
    forall a, b, a', b' | PieceNamed(plan, p, a, b) && PieceNamed(plan, q, a', b')
      ensures content == Merged([plan[a].pieces[b].bytes, plan[a'].pieces[b'].bytes])
    {
      NamedOnce(plan, p, j, k, a, b);
      NamedOnce(plan, q, j', k', a', b');
    }
  }

  /** Both inputs of a merge are on disk, with the content their splits wrote. */
  lemma MergeInputsPresent(plan: Plan, s: State, j: int, k: int, j': int, k': int)
    requires PiecesInv(plan, s) && DiskOk(plan, s.phases, s.log, s.local) && s.manager.Merging?
    requires IsEnd(plan, j, k) && IsEnd(plan, j', k')
    requires ItemOf(plan[j].pieces[k]) == s.manager.pair[0] && ItemOf(plan[j'].pieces[k']) == s.manager.pair[1]
    ensures forall i :: 0 <= i < |s.manager.pair| ==> s.manager.pair[i].src in s.local
    ensures ReadAll(s.local, s.manager.pair) == [plan[j].pieces[k].bytes, plan[j'].pieces[k'].bytes]
  {
    var pair := s.manager.pair;
    assert Sources(pair) == [pair[0].src, pair[1].src];
    WaitingPieceIsOnDisk(plan, s, j, k);
    WaitingPieceIsOnDisk(plan, s, j', k');
  }

  lemma MergeContents(plan: Plan, store: Files, s: State)
    requires PathsPrivate(plan) && PiecesInv(plan, s) && ContentsInv(plan, store, s) && Enabled(plan, s, Merge)
    ensures ContentsInv(plan, store, Apply(plan, s, Merge))
  {
    var pair := s.manager.pair;
    var content := Merged(ReadAll(s.local, pair));
    var j, k, j', k' := PairPieces(plan, pair);
    MergeInputsPresent(plan, s, j, k, j', k');
    MergedFromPieces(plan, content, j, k, j', k');
    OutsideWrite(plan, s.phases, s.log, s.local, j, k, content);
    assert HandOk(plan, Shipping(pair), s.log, s.local[pair[0].out := content]);
    assert SinglesOk(plan, Shipping(pair), s.log) by {
      forall key ensures Sum(s.log, SingleOf(plan, key)) == 0 {
      }
    }
  }

  lemma OutsideWrite(plan: Plan, phases: seq<Phase>, log: seq<Upload>, local: Files, j: int, k: int, content: seq<byte>)
    requires PathsPrivate(plan) && DiskOk(plan, phases, log, local) && IsEnd(plan, j, k)
    ensures DiskOk(plan, phases, log, local[plan[j].pieces[k].out := content])
  {
    assert IsPiece(plan, j, k);
  }

  lemma ShipContents(plan: Plan, store: Files, s: State)
    requires PathsPrivate(plan) && PiecesInv(plan, s) && ContentsInv(plan, store, s) && Enabled(plan, s, Ship)
    ensures ContentsInv(plan, store, Apply(plan, s, Ship))
  {
    var pair := s.manager.pair;
    var u := Upload(pair[0].prefix, Sources(pair), Read(s.local, pair[0].out));
    var j, k, j', k' := PairPieces(plan, pair);
    assert PieceNamed(plan, pair[0].src, j, k) && PieceNamed(plan, pair[1].src, j', k');
    assert PairOf(plan, u, j, k, j', k');
    LogOkGrows(plan, s.log, u);
    ReplayOne(store, s.log, u);
    ShippedLog(plan, s.phases, s.log, s.local, u, pair);
  }

  lemma ShippedLog(plan: Plan, phases: seq<Phase>, log: seq<Upload>, local: Files, u: Upload, pair: seq<Item>)
    requires DiskOk(plan, phases, log, local) && SinglesOk(plan, Shipping(pair), log)
    requires |pair| == 2 && u.sources == [pair[0].src, pair[1].src]
    ensures DiskOk(plan, phases, log + [u], local)
    ensures SinglesOk(plan, Cleaning(pair), log + [u])
    ensures HandOk(plan, Cleaning(pair), log + [u], local)
  {
    forall p ensures InLog(log + [u], p) == InLog(log, p) + multiset(u.sources)[p] {
      LogGrows(log, u, p);
    }
    forall x ensures Sum(log + [u], SingleOf(plan, x)) == 0 {
      SinglesGrow(plan, log, u, x);
    }
  }

  lemma CleanContents(plan: Plan, store: Files, s: State)
    requires PathsPrivate(plan) && PiecesInv(plan, s) && ContentsInv(plan, store, s) && Enabled(plan, s, Clean)
    ensures ContentsInv(plan, store, Apply(plan, s, Clean))
  {
    CleanedDisk(plan, s.phases, s.log, s.local, s.manager.pair);
    CleanedSingles(plan, s.manager.pair, s.log);
  }

  lemma CleanedDisk(plan: Plan, phases: seq<Phase>, log: seq<Upload>, local: Files, pair: seq<Item>)
    requires PathsPrivate(plan) && DiskOk(plan, phases, log, local) && EndPair(plan, pair)
    requires HandOk(plan, Cleaning(pair), log, local)
    ensures DiskOk(plan, phases, log, local - ({pair[0].out} + Paths(pair)))
  {
    var j, k, j', k' := PairPieces(plan, pair);
    CleanPaths(pair);
    CleanDisk(plan, phases, log, local, j, k, j', k');
  }

  lemma CleanPaths(pair: seq<Item>)
    requires |pair| == 2
    ensures {pair[0].out} + Paths(pair) == {pair[0].out, pair[0].src, pair[1].src}
  {
    assert pair[1].src in Paths(pair);
  }

  lemma CleanedSingles(plan: Plan, pair: seq<Item>, log: seq<Upload>)
    requires SinglesOk(plan, Cleaning(pair), log)
    ensures SinglesOk(plan, Draining, log)
  {
    forall key ensures Sum(log, SingleOf(plan, key)) == 0 {
    }
  }

  lemma CleanDisk(plan: Plan, phases: seq<Phase>, log: seq<Upload>, local: Files, j: int, k: int, j': int, k': int)
    requires PathsPrivate(plan) && DiskOk(plan, phases, log, local) && IsPiece(plan, j, k) && IsPiece(plan, j', k')
    requires InLog(log, plan[j].pieces[k].path) > 0 && InLog(log, plan[j'].pieces[k'].path) > 0
    ensures DiskOk(plan, phases, log,
                   local - {plan[j].pieces[k].out, plan[j].pieces[k].path, plan[j'].pieces[k'].path})
  {
  }

  // ---------- the sweep ----------

  lemma {:induction false} TakenKeys(plan: Plan, buckets: map<string, seq<Item>>, order: seq<string>, key: string)
    requires PathsPrivate(plan) && BucketItems(plan, buckets) && forall x :: x in order ==> x in buckets
    requires forall a, b :: 0 <= a < b < |order| ==> order[a] != order[b]
    ensures Sum(Taken(buckets, order), RestOf(plan, key)) <= if key in order then 1 else 0
  {
    if order != [] {
      TakenRest(buckets, order);
      var item: Item := buckets[order[0]][0];
      TakenKeys(plan, buckets, order[1..], key);
      assert EndItem(plan, order[0], item);
      EndItemPath(plan, order[0], item, key);
    }
  }

  lemma EndItemPath(plan: Plan, x: string, item: Item, key: string)
    requires PathsPrivate(plan) && EndItem(plan, x, item)
    ensures EndPath(plan, item.src, key) ==> key == x
  {
    var j, k :| IsEnd(plan, j, k) && plan[j].pieces[k].key == x && ItemOf(plan[j].pieces[k]) == item;
    assert IsPiece(plan, j, k);
    EndPathIsEnd(plan, j, k, key);
  }

  lemma CloseContents(plan: Plan, store: Files, s: State, order: seq<string>)
    requires PathsPrivate(plan) && PiecesInv(plan, s) && ContentsInv(plan, store, s) && Enabled(plan, s, Close(order))
    ensures ContentsInv(plan, store, Apply(plan, s, Close(order)))
  {
    forall key ensures Sum(s.log, SingleOf(plan, key)) + Sum(Taken(s.buckets, order), RestOf(plan, key)) <= 1 {
      TakenKeys(plan, s.buckets, order, key);
    }
  }

  /** The piece a swept bucket stands for. */
  lemma SweptPiece(plan: Plan, s: State) returns (j: int, k: int)
    requires PiecesInv(plan, s) && DiskOk(plan, s.phases, s.log, s.local) && s.manager.Sweeping? && s.manager.rest != []
    ensures |s.manager.rest[0]| == 1 && IsEnd(plan, j, k) && ItemOf(plan[j].pieces[k]) == s.manager.rest[0][0]
    ensures InLog(s.log, plan[j].pieces[k].path) == 0 && Written(s.phases[j])
    ensures plan[j].pieces[k].path in s.local && s.local[plan[j].pieces[k].path] == plan[j].pieces[k].bytes
  {
    var rest := s.manager.rest;
    var item := rest[0][0];
    var key :| EndItem(plan, key, item);
    j, k :| IsEnd(plan, j, k) && plan[j].pieces[k].key == key && ItemOf(plan[j].pieces[k]) == item;
    assert Sources(rest[0]) == [item.src];
    assert CountSrc(item.src)(rest[0]) == 1;
    SumAt(rest, 0, CountSrc(item.src));
    WaitingPieceIsOnDisk(plan, s, j, k);
  }

  lemma SweptSingles(plan: Plan, rest: seq<seq<Item>>, log: seq<Upload>, u: Upload)
    requires rest != [] && |rest[0]| == 1 && SinglesOk(plan, Sweeping(rest), log) && u.sources == [rest[0][0].src]
    ensures SinglesOk(plan, Sweeping(rest[1..]), log + [u])
  {
    forall x ensures Sum(log + [u], SingleOf(plan, x)) + Sum(rest[1..], RestOf(plan, x)) <= 1 {
      SinglesGrow(plan, log, u, x);
      assert Sum(log, SingleOf(plan, x)) + Sum(rest, RestOf(plan, x)) <= 1;
    }
  }

  lemma SweepContents(plan: Plan, store: Files, s: State)
    requires PathsPrivate(plan) && PiecesInv(plan, s) && ContentsInv(plan, store, s) && Enabled(plan, s, Sweep)
    ensures ContentsInv(plan, store, Apply(plan, s, Sweep))
  {
    var item := s.manager.rest[0][0];
    var j, k := SweptPiece(plan, s);
    assert IsPiece(plan, j, k);
    var u := Upload(item.prefix, [item.src], Read(s.local, item.src));
    SingleUploadDisk(plan, s.phases, s.log, s.local, j, k, u);
    LogOkGrows(plan, s.log, u);
    ReplayOne(store, s.log, u);
    SweptSingles(plan, s.manager.rest, s.log, u);
  }

  // ---------- all steps ----------

  lemma ContentsInvKept(plan: Plan, store: Files, s: State, step: Step)
    requires PathsPrivate(plan) && PiecesInv(plan, s) && ContentsInv(plan, store, s) && Enabled(plan, s, step)
    requires step.UploadMid? ==> !s.manager.Sweeping? && !s.manager.Ended?
    requires step.Push? ==> s.phases[s.manager.next] == Unqueued
    requires step.Pop? ==> s.phases[s.queue[0]] == Queued
    ensures ContentsInv(plan, store, Apply(plan, s, step))
  {
    match step {
      case Push => AdvanceContents(plan, store, s, step);
      case Pop(w) => AdvanceContents(plan, store, s, step);
      case Fetch(w) => FetchDisk(plan, s, w);
      case Split(w) => SplitDisk(plan, s, w); SplitHand(plan, s, w);
      case UploadMid(w) => UploadMidContents(plan, store, s, w);
      case Post(w) => AdvanceContents(plan, store, s, step);
      case Report(w) => AdvanceContents(plan, store, s, step);
      case Abort(w, after) => AbortDisk(plan, s, w, after);
      case Deliver(w) => DeliverContents(plan, store, s, w);
      case Merge => MergeContents(plan, store, s);
      case Ship => ShipContents(plan, store, s);
      case Clean => CleanContents(plan, store, s);
      case Close(order) => CloseContents(plan, store, s, order);
      case Sweep => SweepContents(plan, store, s);
      case Finish =>
        forall key ensures Sum(s.log, SingleOf(plan, key)) <= 1 {
          assert Sum(s.log, SingleOf(plan, key)) + Sum(s.manager.rest, RestOf(plan, key)) <= 1;
        }
    }
  }

  lemma AdvancedDisk(plan: Plan, phases: seq<Phase>, log: seq<Upload>, local: Files, j: nat, p: Phase)
    requires DiskOk(plan, phases, log, local) && j < |phases|
    requires p != Splitting && (Written(p) ==> Written(phases[j]))
    ensures DiskOk(plan, phases[j := p], log, local)
  {
  }

  lemma AdvanceContents(plan: Plan, store: Files, s: State, step: Step)
    requires ContentsInv(plan, store, s) && Enabled(plan, s, step)
    requires step.Push? || step.Pop? || step.Post? || step.Report?
    ensures ContentsInv(plan, store, Apply(plan, s, step))
  {
    var t := Apply(plan, s, step);
    var j := if step.Push? then s.manager.next else if step.Pop? then s.queue[0] else s.holds[step.w].value;
    AdvancedDisk(plan, s.phases, s.log, s.local, j, t.phases[j]);
    assert t.phases == s.phases[j := t.phases[j]] && t.log == s.log && t.local == s.local && t.store == s.store;
    if step.Push? {
      assert forall key :: Sum(s.log, SingleOf(plan, key)) == 0;
    }
  }

  lemma DeliverContents(plan: Plan, store: Files, s: State, w: nat)
    requires ContentsInv(plan, store, s) && Enabled(plan, s, Deliver(w))
    ensures ContentsInv(plan, store, Apply(plan, s, Deliver(w)))
  {
    var t := Apply(plan, s, Deliver(w));
    assert t.phases == s.phases && t.local == s.local && t.log == s.log && t.store == s.store;
    assert t.manager.Draining? || t.manager.Merging?;
    assert SinglesOk(plan, t.manager, t.log) by {
      forall key ensures Sum(s.log, SingleOf(plan, key)) == 0 {
      }
    }
  }

  lemma ContentsInvAtStart(plan: Plan, s: State)
    requires s == Start(plan, |s.holds|, s.local, s.store)
    ensures ContentsInv(plan, s.store, s)
  {
  }
}
