/** Two HEAD/TAIL pieces of one key that share their local path with each other and with no other piece:
    the one that is split later replaces the other before both are merged, in every interleaving. */
module TwinPieces {
  import opened Bytes
  import opened PcapFormat
  import opened FileSystem
  import opened SplitSpec
  import opened Protocol
  import opened CycleCounts
  import opened CyclePieces
  import opened CycleContents
  import opened CycleOutcome
  import opened Refinement
  import opened Renaming
  import opened SharedPaths

  // ---------- the pair ----------

  /** Piece `k` of job `j` and piece `m` of job `i`, with contents `x` and `y`, and the paths `q` and `r` they
      have in the plan without shared paths. */
  datatype Twin = Twin(key: string, path: string, out: string, dest: string, x: seq<byte>, y: seq<byte>,
                       j: nat, k: nat, i: nat, m: nat, q: string, r: string)

  ghost predicate IsTwin(plan: Plan, other: Plan, t: Twin) {
    && IsEnd(plan, t.j, t.k) && IsEnd(plan, t.i, t.m) && IsPiece(other, t.j, t.k) && IsPiece(other, t.i, t.m) && t.j != t.i
    && plan[t.j].pieces[t.k] == Piece(t.path, t.key, t.out, t.dest, t.x)
    && plan[t.i].pieces[t.m] == Piece(t.path, t.key, t.out, t.dest, t.y)
    && other[t.j].pieces[t.k].path == t.q && other[t.i].pieces[t.m].path == t.r
    && (forall a, b :: IsPiece(plan, a, b) && (plan[a].pieces[b].path == t.path || plan[a].pieces[b].key == t.key) ==>
          IsOne(t, a, b))
  }

  predicate IsOne(t: Twin, a: int, b: int) {
    (a == t.j && b == t.k) || (a == t.i && b == t.m)
  }

  /** The content of one of the two. */
  predicate EitherOne(t: Twin, c: seq<byte>) {
    c == t.x || c == t.y
  }

  /** One of the two merged with itself. */
  predicate Doubled(t: Twin, c: seq<byte>) {
    c == Merged([t.x, t.x]) || c == Merged([t.y, t.y])
  }

  // ---------- the invariant ----------

  /** Neither job has failed. */
  predicate Alive(t: Twin, phases: seq<Phase>) {
    t.j < |phases| && t.i < |phases| && phases[t.j] != Finished(false) && phases[t.i] != Finished(false)
  }

  predicate EitherWritten(t: Twin, phases: seq<Phase>) {
    t.j < |phases| && t.i < |phases| && (Written(phases[t.j]) || Written(phases[t.i]))
  }

  /** One of the two has been uploaded, in the run without shared paths. */
  predicate Logged(t: Twin, log: seq<Upload>) {
    InLog(log, t.q) > 0 || InLog(log, t.r) > 0
  }

  /** The last upload to the object was a merge. */
  predicate LastIsPair(log: seq<Upload>, o: string) {
    log != [] &&
    var n := |log| - 1;
    if log[n].dest == o then |log[n].sources| == 2 else LastIsPair(log[..n], o)
  }

  predicate HasEither(t: Twin, local: Files) {
    t.path in local && EitherOne(t, local[t.path])
  }

  predicate HasDoubled(t: Twin, files: Files, p: string) {
    p in files && Doubled(t, files[p])
  }

  predicate TwinInHand(t: Twin, m: Manager) {
    m.Shipping? && |m.pair| == 2 && m.pair[0].src == t.path
  }

  /** Until one of the two is uploaded their path holds one of them; a merge of the two holds one of them
      twice, on disk and in the store. */
  predicate TwinParts(t: Twin, phases: seq<Phase>, manager: Manager, log: seq<Upload>, local: Files, store: Files) {
    Alive(t, phases) ==>
      && (EitherWritten(t, phases) && !Logged(t, log) ==> HasEither(t, local))
      && (TwinInHand(t, manager) ==> HasDoubled(t, local, t.out))
      && (LastIsPair(log, t.dest) ==> HasDoubled(t, store, t.dest))
  }

  ghost predicate TwinInv(t: Twin, s: State, s': State) {
    TwinParts(t, s.phases, s.manager, s'.log, s.local, s.store)
  }

  // ---------- steps that leave the pair alone ----------

  /** Nothing the invariant speaks of changes, except by an upload of one of the two. */
  lemma Framed(t: Twin, phases: seq<Phase>, phases': seq<Phase>, manager: Manager, manager': Manager,
               log: seq<Upload>, log': seq<Upload>, local: Files, local': Files, store: Files, store': Files)
    requires TwinParts(t, phases, manager, log, local, store)
    requires Alive(t, phases') ==> Alive(t, phases)
    requires EitherWritten(t, phases') ==> EitherWritten(t, phases)
    requires Logged(t, log) ==> Logged(t, log')
    requires LastIsPair(log', t.dest) ==> LastIsPair(log, t.dest) && SameAt(store, store', t.dest)
    requires Alive(t, phases') ==> SameAt(local, local', t.path) || Logged(t, log')
    requires Alive(t, phases') && TwinInHand(t, manager') ==> manager' == manager && SameAt(local, local', t.out)
    ensures TwinParts(t, phases', manager', log', local', store')
  {
  }

  lemma PhaseFramed(t: Twin, phases: seq<Phase>, z: nat, p: Phase)
    requires z < |phases| && !phases[z].Finished?
    ensures Alive(t, phases[z := p]) ==> Alive(t, phases)
    ensures (Written(p) ==> Written(phases[z])) ==> (EitherWritten(t, phases[z := p]) ==> EitherWritten(t, phases))
  {
  }

  lemma LoggedGrows(t: Twin, log: seq<Upload>, u: Upload)
    ensures Logged(t, log) ==> Logged(t, log + [u])
    ensures t.q in u.sources || t.r in u.sources ==> Logged(t, log + [u])
    ensures u.dest != t.dest ==> (LastIsPair(log + [u], t.dest) <==> LastIsPair(log, t.dest))
    ensures u.dest == t.dest ==> (LastIsPair(log + [u], t.dest) <==> |u.sources| == 2)
  {
    LogGrows(log, u, t.q);
    LogGrows(log, u, t.r);
    assert (log + [u])[..|log|] == log;
  }

  // ---------- which pieces are the two ----------

  lemma NotTheTwins(plan: Plan, other: Plan, t: Twin)
    requires Setting(plan, other) && IsTwin(plan, other, t)
    ensures forall z :: 0 <= z < |plan| ==> plan[z].source != t.path && plan[z].source != t.out
    ensures forall a, b :: IsPiece(plan, a, b) ==> plan[a].pieces[b].path != t.out && plan[a].pieces[b].out != t.path
  {
    assert IsPiece(plan, t.j, t.k);
  }

  /** An item at the path, or for the object, is one of the two. */
  lemma TwinItem(plan: Plan, other: Plan, t: Twin, key: string, i: Item, i': Item)
    requires Setting(plan, other) && IsTwin(plan, other, t) && ItemRel(plan, other, key, i, i')
    ensures (i.src == t.path <==> i.prefix == t.dest) && (i.src == t.path <==> key == t.key)
    ensures i.src == t.path ==> i.out == t.out && (i'.src == t.q || i'.src == t.r)
    ensures i'.prefix == i.prefix && i.out != t.path
  {
    var a, b :| ItemOfPiece(plan, other, key, i, i', a, b);
    assert IsPiece(plan, a, b) && IsEnd(plan, a, b) && IsPiece(plan, t.j, t.k);
    NotTheTwins(plan, other, t);
    if i.prefix == t.dest {
      assert plan[a].pieces[b].dest == plan[t.j].pieces[t.k].dest;
      assert plan[a].pieces[b].key == t.key;
    }
  }

  /** The manager holds both of the two or neither. */
  lemma TwinPair(plan: Plan, other: Plan, t: Twin, pair: seq<Item>, pair': seq<Item>)
    requires Setting(plan, other) && IsTwin(plan, other, t) && PairRel(plan, other, pair, pair')
    ensures pair[0].src == t.path <==> pair[1].src == t.path
    ensures pair[0].src == t.path <==> pair[0].prefix == t.dest
    ensures pair[0].src == t.path ==> pair[0].out == t.out && (pair'[0].src == t.q || pair'[0].src == t.r)
    ensures pair[1].src == t.path ==> pair'[1].src == t.q || pair'[1].src == t.r
    ensures pair'[0].prefix == pair[0].prefix && pair[0].out != t.path
  {
    var key :| ItemRel(plan, other, key, pair[0], pair'[0]) && ItemRel(plan, other, key, pair[1], pair'[1]);
    TwinItem(plan, other, t, key, pair[0], pair'[0]);
    TwinItem(plan, other, t, key, pair[1], pair'[1]);
  }

  // ---------- workers ----------

  lemma JobTwin(plan: Plan, s: State, w: nat)
    requires JobsInv(plan, s) && HoldsJob(plan, s, w)
    ensures !PhaseOf(s, w).Finished?
  {
  }

  /** Steps that touch neither files nor objects. */
  lemma QuietTwin(plan: Plan, other: Plan, t: Twin, s: State, s': State, step: Step)
    requires JobsInv(plan, s) && TwinInv(t, s, s') && Enabled(plan, s, step) && Enabled(other, s', step)
    requires step.Push? || step.Pop? || step.Post? || step.Report? || step.Finish?
    ensures TwinInv(t, Apply(plan, s, step), Apply(other, s', step))
  {
    var u, u' := Apply(plan, s, step), Apply(other, s', step);
    if !step.Finish? {
      var z := if step.Push? then s.manager.next else if step.Pop? then s.queue[0] else s.holds[step.w].value;
      PhaseFramed(t, s.phases, z, u.phases[z]);
      assert u.phases == s.phases[z := u.phases[z]];
    }
    Framed(t, s.phases, u.phases, s.manager, u.manager, s'.log, u'.log, s.local, u.local, s.store, u.store);
  }

  lemma FetchTwin(plan: Plan, other: Plan, t: Twin, s: State, s': State, w: nat)
    requires Setting(plan, other) && IsTwin(plan, other, t) && JobsInv(plan, s) && TwinInv(t, s, s')
    requires Enabled(plan, s, Fetch(w)) && Enabled(other, s', Fetch(w))
    ensures TwinInv(t, Apply(plan, s, Fetch(w)), Apply(other, s', Fetch(w)))
  {
    var u, z := Apply(plan, s, Fetch(w)), s.holds[w].value;
    FetchState(plan, s, w, z);
    NotTheTwins(plan, other, t);
    PhaseFramed(t, s.phases, z, Splitting);
    Framed(t, s.phases, u.phases, s.manager, u.manager, s'.log, s'.log, s.local, u.local, s.store, u.store);
  }

  lemma SplitLeavesOut(plan: Plan, other: Plan, t: Twin, local: Files, z: nat)
    requires Setting(plan, other) && IsTwin(plan, other, t) && z < |plan|
    ensures var after := WriteAll(local, plan[z].pieces) - {plan[z].source};
            && SameAt(local, after, t.out)
            && (z != t.j && z != t.i ==> SameAt(local, after, t.path))
            && (z == t.j || z == t.i ==> HasEither(t, after))
  {
    NotTheTwins(plan, other, t);
    var pieces := plan[z].pieces;
    forall k | 0 <= k < |pieces| ensures pieces[k].path != t.out && (pieces[k].path == t.path ==> IsOne(t, z, k)) {
      assert IsPiece(plan, z, k);
    }
    NotWrittenElsewhere(local, plan[z], t.out);
    if z == t.j {
      WrittenPiece(local, pieces, t.k);
    } else if z == t.i {
      WrittenPiece(local, pieces, t.m);
    } else {
      NotWrittenElsewhere(local, plan[z], t.path);
    }
  }

  lemma SplitTwin(plan: Plan, other: Plan, t: Twin, s: State, s': State, w: nat)
    requires Setting(plan, other) && IsTwin(plan, other, t) && JobsInv(plan, s) && TwinInv(t, s, s')
    requires Enabled(plan, s, Split(w)) && Enabled(other, s', Split(w))
    ensures TwinInv(t, Apply(plan, s, Split(w)), Apply(other, s', Split(w)))
  {
    var u, z := Apply(plan, s, Split(w)), s.holds[w].value;
    SplitLeavesOut(plan, other, t, s.local, z);
    SplitParts(t, s.phases, s.manager, s'.log, s.local, u.local, s.store, z);
  }

  lemma SplitParts(t: Twin, phases: seq<Phase>, manager: Manager, log: seq<Upload>, local: Files, local': Files,
                   store: Files, z: nat)
    requires TwinParts(t, phases, manager, log, local, store) && z < |phases| && phases[z] == Splitting
    requires SameAt(local, local', t.out)
    requires if z == t.j || z == t.i then HasEither(t, local') else SameAt(local, local', t.path)
    ensures TwinParts(t, phases[z := Working(0)], manager, log, local', store)
  {
  }

  /** A MID piece is neither of the two, and goes to another object. */
  lemma MidIsNoTwin(plan: Plan, other: Plan, t: Twin, z: nat, b: nat)
    requires Setting(plan, other) && IsTwin(plan, other, t) && IsPiece(plan, z, b) && !IsEnd(plan, z, b)
    ensures plan[z].pieces[b].path != t.path && plan[z].pieces[b].path != t.out && plan[z].pieces[b].dest != t.dest
  {
    NotTheTwins(plan, other, t);
    assert IsPiece(plan, t.j, t.k);
  }

  lemma UploadMidParts(t: Twin, phases: seq<Phase>, z: nat, b: nat, manager: Manager, log: seq<Upload>, u: Upload,
                       local: Files, path: string, store: Files, content: seq<byte>)
    requires TwinParts(t, phases, manager, log, local, store) && z < |phases| && phases[z] == Working(b)
    requires path != t.path && path != t.out && u.dest != t.dest
    ensures TwinParts(t, phases[z := Working(b + 1)], manager, log + [u], local - {path}, store[u.dest := content])
  {
    LoggedGrows(t, log, u);
    PhaseFramed(t, phases, z, Working(b + 1));
    Framed(t, phases, phases[z := Working(b + 1)], manager, manager, log, log + [u], local, local - {path},
           store, store[u.dest := content]);
  }

  lemma OtherMid(plan: Plan, other: Plan, s: State, s': State, w: nat) returns (u: Upload)
    requires Renames(plan, other) && Sim(plan, other, s, s')
    requires Enabled(plan, s, UploadMid(w)) && Enabled(other, s', UploadMid(w))
    ensures u.dest == plan[s.holds[w].value].pieces[PhaseOf(s, w).done].dest
    ensures Apply(other, s', UploadMid(w)).log == s'.log + [u]
  {
    var z, b := s.holds[w].value, PhaseOf(s, w).done;
    SameJob(plan, other, s, s', w);
    SamePieces(plan, other, z, b);
    u := UploadMidState(other, s', w, z, b);
  }

  lemma UploadMidTwin(plan: Plan, other: Plan, t: Twin, s: State, s': State, w: nat)
    requires Setting(plan, other) && IsTwin(plan, other, t) && Sim(plan, other, s, s') && TwinInv(t, s, s')
    requires Enabled(plan, s, UploadMid(w)) && Enabled(other, s', UploadMid(w))
    ensures TwinInv(t, Apply(plan, s, UploadMid(w)), Apply(other, s', UploadMid(w)))
  {
    var z, b := s.holds[w].value, PhaseOf(s, w).done;
    var u := UploadMidState(plan, s, w, z, b);
    var u' := OtherMid(plan, other, s, s', w);
    MidIsNoTwin(plan, other, t, z, b);
    UploadMidParts(t, s.phases, z, b, s.manager, s'.log, u', s.local, plan[z].pieces[b].path, s.store, u.bytes);
  }

  lemma AbortParts(t: Twin, phases: seq<Phase>, z: nat, manager: Manager, log: seq<Upload>, local: Files, after: Files, store: Files)
    requires TwinParts(t, phases, manager, log, local, store) && z < |phases| && !phases[z].Finished?
    requires z != t.j && z != t.i ==> SameAt(local, after, t.path) && SameAt(local, after, t.out)
    ensures TwinParts(t, phases[z := Finished(false)], manager, log, after, store)
  {
    PhaseFramed(t, phases, z, Finished(false));
    Framed(t, phases, phases[z := Finished(false)], manager, manager, log, log, local, after, store, store);
  }

  lemma AbortTwin(plan: Plan, other: Plan, t: Twin, s: State, s': State, w: nat, after: Files, after': Files)
    requires Setting(plan, other) && IsTwin(plan, other, t) && JobsInv(plan, s) && TwinInv(t, s, s')
    requires Enabled(plan, s, Abort(w, after)) && Enabled(other, s', Abort(w, after'))
    ensures TwinInv(t, Apply(plan, s, Abort(w, after)), Apply(other, s', Abort(w, after')))
  {
    var z := s.holds[w].value;
    JobTwin(plan, s, w);
    if z != t.j && z != t.i {
      OwnIsNoTwin(plan, other, t, z);
      SameOutside(plan[z], s.local, after, t.path);
      SameOutside(plan[z], s.local, after, t.out);
    }
    AbortParts(t, s.phases, z, s.manager, s'.log, s.local, after, s.store);
  }

  lemma OwnIsNoTwin(plan: Plan, other: Plan, t: Twin, z: nat)
    requires Setting(plan, other) && IsTwin(plan, other, t) && z < |plan| && z != t.j && z != t.i
    ensures !OwnPath(plan[z], t.path) && !OwnPath(plan[z], t.out)
  {
    NotTheTwins(plan, other, t);
    forall k | 0 <= k < |plan[z].pieces| ensures plan[z].pieces[k].path != t.path && plan[z].pieces[k].path != t.out {
      assert IsPiece(plan, z, k);
    }
  }

  // ---------- manager ----------

  lemma DeliverTwin(plan: Plan, other: Plan, t: Twin, s: State, s': State, step: Step)
    requires TwinInv(t, s, s') && Enabled(plan, s, step) && Enabled(other, s', step) && (step.Deliver? || step.Close?)
    ensures TwinInv(t, Apply(plan, s, step), Apply(other, s', step))
  {
    var u, u' := Apply(plan, s, step), Apply(other, s', step);
    assert u.phases == s.phases && u.local == s.local && u.store == s.store && u'.log == s'.log && !u.manager.Shipping?;
    Framed(t, s.phases, u.phases, s.manager, u.manager, s'.log, u'.log, s.local, u.local, s.store, u.store);
  }

  lemma BothInHand(t: Twin, pair: seq<Item>)
    requires |pair| == 2 && pair[0].src != pair[1].src
    requires (pair[0].src == t.q || pair[0].src == t.r) && (pair[1].src == t.q || pair[1].src == t.r)
    ensures InHand(Merging(pair), t.q) >= 1 && InHand(Merging(pair), t.r) >= 1
  {
    assert Sources(pair) == [pair[0].src, pair[1].src];
  }

  /** While the manager is about to merge the two, both are written and neither is uploaded. */
  lemma TwinsWait(plan: Plan, other: Plan, t: Twin, store: Files, s': State)
    requires Renames(plan, other) && IsTwin(plan, other, t) && CycleInv(other, store, s') && s'.manager.Merging?
    requires |s'.manager.pair| == 2
    requires (s'.manager.pair[0].src == t.q || s'.manager.pair[0].src == t.r)
             && (s'.manager.pair[1].src == t.q || s'.manager.pair[1].src == t.r)
    ensures EitherWritten(t, s'.phases) && !Logged(t, s'.log)
  {
    assert EndPair(other, s'.manager.pair);
    BothInHand(t, s'.manager.pair);
    SamePieces(plan, other, t.j, t.k);
    SamePieces(plan, other, t.i, t.m);
    WaitingPieceIsOnDisk(other, s', t.j, t.k);
    WaitingPieceIsOnDisk(other, s', t.i, t.m);
  }

  lemma MergeTwinParts(t: Twin, phases: seq<Phase>, pair: seq<Item>, log: seq<Upload>, local: Files, store: Files)
    requires TwinParts(t, phases, Merging(pair), log, local, store) && |pair| == 2 && pair[0].out != t.path
    requires pair[0].src == t.path ==> pair[1].src == t.path && pair[0].out == t.out && EitherWritten(t, phases) && !Logged(t, log)
    ensures TwinParts(t, phases, Shipping(pair), log, local[pair[0].out := Merged(ReadAll(local, pair))], store)
  {
    TwoReads(local, pair);
  }

  lemma MergeApply(plan: Plan, other: Plan, t: Twin, s: State, s': State)
    requires TwinInv(t, s, s') && Enabled(plan, s, Merge) && Enabled(other, s', Merge)
    requires |s.manager.pair| == 2 && s.manager.pair[0].out != t.path
    requires s.manager.pair[0].src == t.path ==>
               s.manager.pair[1].src == t.path && s.manager.pair[0].out == t.out && EitherWritten(t, s.phases) && !Logged(t, s'.log)
    ensures TwinInv(t, Apply(plan, s, Merge), Apply(other, s', Merge))
  {
    MergeTwinParts(t, s.phases, s.manager.pair, s'.log, s.local, s.store);
  }

  lemma MergeFacts(plan: Plan, other: Plan, t: Twin, store: Files, s: State, s': State)
    requires Setting(plan, other) && IsTwin(plan, other, t) && CycleInv(other, store, s')
    requires s.manager.Merging? && s'.manager.Merging? && PairRel(plan, other, s.manager.pair, s'.manager.pair)
    ensures |s.manager.pair| == 2 && s.manager.pair[0].out != t.path
    ensures s.manager.pair[0].src == t.path ==>
              s.manager.pair[1].src == t.path && s.manager.pair[0].out == t.out && EitherWritten(t, s'.phases) && !Logged(t, s'.log)
  {
    TwinPair(plan, other, t, s.manager.pair, s'.manager.pair);
    if s.manager.pair[0].src == t.path {
      TwinsWait(plan, other, t, store, s');
    }
  }

  lemma MergeTwinStep(plan: Plan, other: Plan, t: Twin, store: Files, s: State, s': State)
    requires Setting(plan, other) && IsTwin(plan, other, t) && Sim(plan, other, s, s') && CycleInv(other, store, s')
    requires TwinInv(t, s, s') && Enabled(plan, s, Merge) && Enabled(other, s', Merge)
    ensures TwinInv(t, Apply(plan, s, Merge), Apply(other, s', Merge))
  {
    MergeFacts(plan, other, t, store, s, s');
    MergeApply(plan, other, t, s, s');
  }

  lemma ShipTwinParts(t: Twin, phases: seq<Phase>, pair: seq<Item>, log: seq<Upload>, u: Upload, local: Files, store: Files,
                      o: string, content: seq<byte>)
    requires TwinParts(t, phases, Shipping(pair), log, local, store) && |pair| == 2 && |u.sources| == 2 && u.dest == o
    requires pair[0].src == t.path <==> o == t.dest
    requires pair[0].src == t.path ==> content == Read(local, t.out) && (t.q in u.sources || t.r in u.sources)
    ensures TwinParts(t, phases, Cleaning(pair), log + [u], local, store[o := content])
  {
    LoggedGrows(t, log, u);
  }

  lemma ShipApply(plan: Plan, other: Plan, t: Twin, s: State, s': State)
    requires TwinInv(t, s, s') && Enabled(plan, s, Ship) && Enabled(other, s', Ship)
    requires |s.manager.pair| == 2 && |s'.manager.pair| == 2 && s'.manager.pair[0].prefix == s.manager.pair[0].prefix
    requires s.manager.pair[0].src == t.path <==> s.manager.pair[0].prefix == t.dest
    requires s.manager.pair[0].src == t.path ==>
               s.manager.pair[0].out == t.out && (s'.manager.pair[0].src == t.q || s'.manager.pair[0].src == t.r)
    ensures TwinInv(t, Apply(plan, s, Ship), Apply(other, s', Ship))
  {
    var u := ShipState(plan, s);
    var u' := ShipState(other, s');
    assert u'.sources[0] == s'.manager.pair[0].src;
    ShipTwinParts(t, s.phases, s.manager.pair, s'.log, u', s.local, s.store, s.manager.pair[0].prefix, u.bytes);
  }

  lemma ShipTwin(plan: Plan, other: Plan, t: Twin, s: State, s': State)
    requires Setting(plan, other) && IsTwin(plan, other, t) && Sim(plan, other, s, s')
    requires TwinInv(t, s, s') && Enabled(plan, s, Ship) && Enabled(other, s', Ship)
    ensures TwinInv(t, Apply(plan, s, Ship), Apply(other, s', Ship))
  {
    TwinPair(plan, other, t, s.manager.pair, s'.manager.pair);
    ShipApply(plan, other, t, s, s');
  }

  lemma CleanParts(t: Twin, phases: seq<Phase>, pair: seq<Item>, log: seq<Upload>, local: Files, store: Files)
    requires TwinParts(t, phases, Cleaning(pair), log, local, store) && |pair| == 2 && pair[0].out != t.path
    requires pair[0].src == t.path <==> pair[1].src == t.path
    requires pair[0].src == t.path ==> Logged(t, log)
    ensures TwinParts(t, phases, Draining, log, local - ({pair[0].out} + Paths(pair)), store)
  {
    CleanPaths(pair);
    Framed(t, phases, phases, Cleaning(pair), Draining, log, log, local, local - ({pair[0].out} + Paths(pair)), store, store);
  }

  lemma CleanApply(plan: Plan, other: Plan, t: Twin, s: State, s': State)
    requires TwinInv(t, s, s') && Enabled(plan, s, Clean) && Enabled(other, s', Clean)
    requires |s.manager.pair| == 2 && s.manager.pair[0].out != t.path
    requires s.manager.pair[0].src == t.path <==> s.manager.pair[1].src == t.path
    requires s.manager.pair[0].src == t.path ==> Logged(t, s'.log)
    ensures TwinInv(t, Apply(plan, s, Clean), Apply(other, s', Clean))
  {
    CleanParts(t, s.phases, s.manager.pair, s'.log, s.local, s.store);
  }

  lemma CleanedIsLogged(other: Plan, store: Files, s': State)
    requires CycleInv(other, store, s') && s'.manager.Cleaning? && |s'.manager.pair| == 2
    ensures InLog(s'.log, s'.manager.pair[0].src) > 0
  {
  }

  lemma CleanTwin(plan: Plan, other: Plan, t: Twin, store: Files, s: State, s': State)
    requires Setting(plan, other) && IsTwin(plan, other, t) && Sim(plan, other, s, s') && CycleInv(other, store, s')
    requires TwinInv(t, s, s') && Enabled(plan, s, Clean) && Enabled(other, s', Clean)
    ensures TwinInv(t, Apply(plan, s, Clean), Apply(other, s', Clean))
  {
    TwinPair(plan, other, t, s.manager.pair, s'.manager.pair);
    CleanedIsLogged(other, store, s');
    CleanApply(plan, other, t, s, s');
  }

  lemma SweepState(plan: Plan, s: State) returns (u: Upload)
    requires Enabled(plan, s, Sweep)
    ensures u.dest == s.manager.rest[0][0].prefix && u.sources == [s.manager.rest[0][0].src]
    ensures Apply(plan, s, Sweep)
            == s.(store := s.store[u.dest := u.bytes], log := s.log + [u], manager := Sweeping(s.manager.rest[1..]),
                  local := s.local - {s.manager.rest[0][0].src})
  {
    var item := s.manager.rest[0][0];
    u := Upload(item.prefix, [item.src], Read(s.local, item.src));
  }

  lemma SweepParts(t: Twin, phases: seq<Phase>, rest: seq<seq<Item>>, log: seq<Upload>, u: Upload, local: Files, src: string,
                   store: Files, content: seq<byte>)
    requires TwinParts(t, phases, Sweeping(rest), log, local, store) && rest != [] && |u.sources| == 1
    requires src == t.path <==> u.dest == t.dest
    requires src == t.path ==> t.q in u.sources || t.r in u.sources
    ensures TwinParts(t, phases, Sweeping(rest[1..]), log + [u], local - {src}, store[u.dest := content])
  {
    LoggedGrows(t, log, u);
    Framed(t, phases, phases, Sweeping(rest), Sweeping(rest[1..]), log, log + [u], local, local - {src},
           store, store[u.dest := content]);
  }

  lemma SweepApply(plan: Plan, other: Plan, t: Twin, s: State, s': State, i: Item, i': Item)
    requires TwinInv(t, s, s') && Enabled(plan, s, Sweep) && Enabled(other, s', Sweep)
    requires i == s.manager.rest[0][0] && i' == s'.manager.rest[0][0] && i'.prefix == i.prefix
    requires i.src == t.path <==> i.prefix == t.dest
    requires i.src == t.path ==> i'.src == t.q || i'.src == t.r
    ensures TwinInv(t, Apply(plan, s, Sweep), Apply(other, s', Sweep))
  {
    var u := SweepState(plan, s);
    var u' := SweepState(other, s');
    SweepParts(t, s.phases, s.manager.rest, s'.log, u', s.local, i.src, s.store, u.bytes);
  }

  lemma SweepTwin(plan: Plan, other: Plan, t: Twin, s: State, s': State)
    requires Setting(plan, other) && IsTwin(plan, other, t) && Sim(plan, other, s, s')
    requires TwinInv(t, s, s') && Enabled(plan, s, Sweep) && Enabled(other, s', Sweep)
    ensures TwinInv(t, Apply(plan, s, Sweep), Apply(other, s', Sweep))
  {
    assert OneRel(plan, other, s.manager.rest[0], s'.manager.rest[0]);
    var i: Item, i': Item := s.manager.rest[0][0], s'.manager.rest[0][0];
    var key :| ItemRel(plan, other, key, i, i');
    TwinItem(plan, other, t, key, i, i');
    SweepApply(plan, other, t, s, s', i, i');
  }

  // ---------- runs ----------

  lemma WorkerTwin(plan: Plan, other: Plan, t: Twin, s: State, s': State, step: Step, step': Step)
    requires Setting(plan, other) && IsTwin(plan, other, t) && Sim(plan, other, s, s') && JobsInv(plan, s) && TwinInv(t, s, s')
    requires Enabled(plan, s, step) && Enabled(other, s', step') && Matches(step, step')
    requires step.Fetch? || step.Split? || step.UploadMid? || step.Abort?
    ensures TwinInv(t, Apply(plan, s, step), Apply(other, s', step'))
  {
    if step.Fetch? {
      FetchTwin(plan, other, t, s, s', step.w);
    } else if step.Split? {
      SplitTwin(plan, other, t, s, s', step.w);
    } else if step.UploadMid? {
      UploadMidTwin(plan, other, t, s, s', step.w);
    } else {
      AbortTwin(plan, other, t, s, s', step.w, step.after, step'.after);
    }
  }

  lemma ManagerTwin(plan: Plan, other: Plan, t: Twin, store: Files, s: State, s': State, step: Step)
    requires Setting(plan, other) && IsTwin(plan, other, t) && Sim(plan, other, s, s') && CycleInv(other, store, s')
    requires TwinInv(t, s, s') && Enabled(plan, s, step) && Enabled(other, s', step)
    requires step.Merge? || step.Ship? || step.Clean? || step.Sweep?
    ensures TwinInv(t, Apply(plan, s, step), Apply(other, s', step))
  {
    if step.Merge? {
      MergeTwinStep(plan, other, t, store, s, s');
    } else if step.Ship? {
      ShipTwin(plan, other, t, s, s');
    } else if step.Clean? {
      CleanTwin(plan, other, t, store, s, s');
    } else {
      SweepTwin(plan, other, t, s, s');
    }
  }

  lemma StepTwin(plan: Plan, other: Plan, t: Twin, store: Files, s: State, s': State, step: Step, step': Step)
    requires Setting(plan, other) && IsTwin(plan, other, t) && Sim(plan, other, s, s')
    requires JobsInv(plan, s) && CycleInv(other, store, s') && TwinInv(t, s, s')
    requires Enabled(plan, s, step) && Enabled(other, s', step') && Matches(step, step')
    ensures TwinInv(t, Apply(plan, s, step), Apply(other, s', step'))
  {
    if step.Fetch? || step.Split? || step.UploadMid? || step.Abort? {
      WorkerTwin(plan, other, t, s, s', step, step');
    } else if step.Deliver? || step.Close? {
      DeliverTwin(plan, other, t, s, s', step);
    } else if step.Merge? || step.Ship? || step.Clean? || step.Sweep? {
      ManagerTwin(plan, other, t, store, s, s', step);
    } else {
      QuietTwin(plan, other, t, s, s', step);
    }
  }

  /** All that holds of a state and its counterpart. */
  ghost predicate Twinned(plan: Plan, other: Plan, t: Twin, store: Files, s: State, s': State)
    requires Renames(plan, other)
  {
    Sim(plan, other, s, s') && JobsInv(plan, s) && CycleInv(other, store, s') && TwinInv(t, s, s')
  }

  lemma StepBoth(plan: Plan, other: Plan, t: Twin, store: Files, s: State, s': State, step: Step) returns (step': Step)
    requires Setting(plan, other) && IsTwin(plan, other, t) && GoodPlan(other)
    requires Twinned(plan, other, t, store, s, s') && Enabled(plan, s, step)
    ensures Enabled(other, s', step') && Twinned(plan, other, t, store, Apply(plan, s, step), Apply(other, s', step'))
  {
    step' := StepSim(plan, other, s, s', step);
    StepTwin(plan, other, t, store, s, s', step, step');
    CycleInvKept(other, store, s', step');
    JobsInvKept(plan, s, step);
  }

  /** Every run ends in a state with a counterpart. */
  lemma {:induction false} TwinRun(plan: Plan, other: Plan, t: Twin, store: Files, run: seq<State>, steps: seq<Step>, s': State)
    returns (last: State)
    requires Setting(plan, other) && IsTwin(plan, other, t) && GoodPlan(other)
    requires IsRun(plan, run, steps) && Twinned(plan, other, t, store, run[0], s')
    ensures Twinned(plan, other, t, store, run[|steps|], last)
    decreases |steps|
  {
    if steps == [] {
      last := s';
    } else {
      var n := |steps| - 1;
      CutRun(plan, run, steps);
      var before := TwinRun(plan, other, t, store, run[..|run| - 1], steps[..n], s');
      var step' := StepBoth(plan, other, t, store, run[n], before, steps[n]);
      last := Apply(other, before, step');
    }
  }

  // ---------- the theorem ----------

  /** Two HEAD/TAIL pieces of one key, of different jobs, at one path that no other piece has. */
  ghost predicate SharedEnds(plan: Plan, key: string, j: int, k: int, i: int, m: int) {
    && TwoEnds(plan, key, j, k, i, m) && j != i && plan[j].pieces[k].path == plan[i].pieces[m].path
    && forall a, b :: IsPiece(plan, a, b) && plan[a].pieces[b].path == plan[j].pieces[k].path ==>
         (a == j && b == k) || (a == i && b == m)
  }

  lemma {:induction false} LastUploadIsPair(store: Files, log: seq<Upload>, o: string)
    requires exists a :: 0 <= a < |log| && log[a].dest == o
    requires forall a :: 0 <= a < |log| && log[a].dest == o ==> |log[a].sources| == 2
    ensures LastIsPair(log, o)
  {
    var n := |log| - 1;
    if log[n].dest != o {
      var a :| 0 <= a < |log| && log[a].dest == o;
      assert log[..n][a].dest == o;
      LastUploadIsPair(store, log[..n], o);
    }
  }

  lemma TwinExists(plan: Plan, other: Plan, key: string, j: int, k: int, i: int, m: int) returns (t: Twin)
    requires Setting(plan, other) && SharedEnds(plan, key, j, k, i, m)
    ensures IsTwin(plan, other, t) && t.j == j && t.k == k && t.i == i && t.m == m && t.key == key
  {
    SamePieces(plan, other, j, k);
    SamePieces(plan, other, i, m);
    var p, o := plan[j].pieces[k], plan[i].pieces[m];
    assert p.out == o.out && p.dest == o.dest;
    t := Twin(key, p.path, p.out, p.dest, p.bytes, o.bytes, j, k, i, m, other[j].pieces[k].path, other[i].pieces[m].path);
    forall a, b | IsPiece(plan, a, b) && (plan[a].pieces[b].path == t.path || plan[a].pieces[b].key == t.key)
      ensures IsOne(t, a, b)
    {
      if plan[a].pieces[b].key == t.key { assert HasKey(plan, a, b, key); }
    }
  }

  /** In the counterpart every upload to the object is the merge of the two. */
  lemma TwinsAreMerged(plan: Plan, other: Plan, t: Twin, store: Files, s': State)
    requires Setting(plan, other) && IsTwin(plan, other, t) && GoodPlan(other) && CycleInv(other, store, s') && s'.manager.Ended?
    requires TwoEnds(other, t.key, t.j, t.k, t.i, t.m) && KeySucceeded(other, s'.phases, t.key)
    ensures LastIsPair(s'.log, t.dest)
  {
    SamePieces(plan, other, t.j, t.k);
    assert other[t.j].pieces[t.k].dest == t.dest;
    var a := FinalUpload(other, store, s', t.key, t.j, t.k);
    forall b | 0 <= b < |s'.log| && s'.log[b].dest == t.dest ensures |s'.log[b].sources| == 2 {
      TwoEndsAreMerged(other, store, s', t.key, t.j, t.k, t.i, t.m, b);
    }
    LastUploadIsPair(store, s'.log, t.dest);
  }

  /** In every interleaving in which both jobs succeed the object of the two ends holds one of them twice. */
  lemma SharedEndsAreDoubled(plan: Plan, run: seq<State>, steps: seq<Step>, key: string, j: int, k: int, i: int, m: int)
    requires Loose(plan) && IsCycle(plan, run, steps) && run[|steps|].manager.Ended?
    requires SharedEnds(plan, key, j, k, i, m) && KeySucceeded(plan, run[|steps|].phases, key)
    ensures var o, x, y := plan[j].pieces[k].dest, plan[j].pieces[k].bytes, plan[i].pieces[m].bytes;
            && o in run[|steps|].store
            && (run[|steps|].store[o] == Merged([x, x]) || run[|steps|].store[o] == Merged([y, y]))
  {
    var other := Renamed(plan);
    RenamedIsSetting(plan);
    var t := TwinExists(plan, other, key, j, k, i, m);
    var s' := Start(other, |run[0].holds|, run[0].local, run[0].store);
    StartSim(plan, other, |run[0].holds|, run[0].local, run[0].store);
    StartTwin(plan, other, t, run[0], s');
    var last := TwinRun(plan, other, t, s'.store, run, steps, s');
    TwinEnd(plan, other, t, s'.store, run[|steps|], last);
  }

  lemma TwinEnd(plan: Plan, other: Plan, t: Twin, store: Files, s: State, s': State)
    requires Setting(plan, other) && IsTwin(plan, other, t) && GoodPlan(other) && TwoEnds(plan, t.key, t.j, t.k, t.i, t.m)
    requires Twinned(plan, other, t, store, s, s') && s.manager.Ended? && KeySucceeded(plan, s.phases, t.key)
    ensures HasDoubled(t, s.store, t.dest)
  {
    OtherEnd(plan, other, t, s'.phases);
    TwinsAreMerged(plan, other, t, store, s');
    EndParts(plan, t, s, s');
  }

  lemma OtherEnd(plan: Plan, other: Plan, t: Twin, phases: seq<Phase>)
    requires Renames(plan, other) && TwoEnds(plan, t.key, t.j, t.k, t.i, t.m) && KeySucceeded(plan, phases, t.key)
    ensures TwoEnds(other, t.key, t.j, t.k, t.i, t.m) && KeySucceeded(other, phases, t.key)
  {
    SameKeys(plan, other, t.key);
    OtherTwoEnds(plan, other, t.key, t.j, t.k, t.i, t.m);
  }

  lemma EndParts(plan: Plan, t: Twin, s: State, s': State)
    requires TwinInv(t, s, s') && HasKey(plan, t.j, t.k, t.key) && HasKey(plan, t.i, t.m, t.key)
    requires KeySucceeded(plan, s.phases, t.key) && LastIsPair(s'.log, t.dest)
    ensures HasDoubled(t, s.store, t.dest)
  {
  }

  lemma StartTwin(plan: Plan, other: Plan, t: Twin, s: State, s': State)
    requires Setting(plan, other) && IsTwin(plan, other, t) && GoodPlan(other)
    requires s == Start(plan, |s.holds|, s.local, s.store) && s' == Start(other, |s'.holds|, s'.local, s'.store)
    ensures JobsInv(plan, s) && CycleInv(other, s'.store, s') && TwinInv(t, s, s')
  {
    JobsInvAtStart(plan, s);
    StartIsGood(other, s');
    StartParts(t, s.phases, s.manager, s.local, s.store);
  }

  lemma StartIsGood(plan: Plan, s: State)
    requires s == Start(plan, |s.holds|, s.local, s.store)
    ensures CycleInv(plan, s.store, s)
  {
    JobsInvAtStart(plan, s);
    PiecesInvAtStart(plan, s);
    ContentsInvAtStart(plan, s);
  }

  lemma StartParts(t: Twin, phases: seq<Phase>, manager: Manager, local: Files, store: Files)
    requires forall j :: 0 <= j < |phases| ==> phases[j] == Unqueued
    requires !manager.Shipping?
    ensures TwinParts(t, phases, manager, [], local, store)
  {
  }

  lemma OtherTwoEnds(plan: Plan, other: Plan, key: string, j: int, k: int, i: int, m: int)
    requires Renames(plan, other) && TwoEnds(plan, key, j, k, i, m)
    ensures TwoEnds(other, key, j, k, i, m)
  {
    SameKeys(plan, other, key);
    SamePieces(plan, other, j, k);
    SamePieces(plan, other, i, m);
  }

  /** So its records are kept together if and only if the two hold the same records equally often. */
  lemma SharedEndsPreservedIff(plan: Plan, run: seq<State>, steps: seq<Step>, key: string, j: int, k: int, i: int, m: int)
    requires Loose(plan) && IsCycle(plan, run, steps) && run[|steps|].manager.Ended?
    requires SharedEnds(plan, key, j, k, i, m) && KeySucceeded(plan, run[|steps|].phases, key)
    ensures Preserved(plan, key, run[|steps|].store)
            <==> multiset(RecordsOf(plan[j].pieces[k].bytes)) == multiset(RecordsOf(plan[i].pieces[m].bytes))
    ensures Preserved(plan, key, run[|steps|].store) ==>
              HoldsGroup(plan, key, run[|steps|].store, j, k) && HoldsGroup(plan, key, run[|steps|].store, i, m)
  {
    SharedEndsAreDoubled(plan, run, steps, key, j, k, i, m);
    DoubledHolds(plan, run[|steps|].store, key, j, k, i, m);
  }

  lemma DoubledHolds(plan: Plan, store: Files, key: string, j: int, k: int, i: int, m: int)
    requires Loose(plan) && TwoEnds(plan, key, j, k, i, m) && plan[j].pieces[k].dest in store
    requires var x, y, c := plan[j].pieces[k].bytes, plan[i].pieces[m].bytes, store[plan[j].pieces[k].dest];
             c == Merged([x, x]) || c == Merged([y, y])
    ensures Preserved(plan, key, store)
            <==> multiset(RecordsOf(plan[j].pieces[k].bytes)) == multiset(RecordsOf(plan[i].pieces[m].bytes))
    ensures Preserved(plan, key, store) ==> HoldsGroup(plan, key, store, j, k) && HoldsGroup(plan, key, store, i, m)
  {
    var o := plan[j].pieces[k].dest;
    DoubledRecords(plan, j, k, i, m, store[o]);
    ExactlyTwoWithKey(plan, key, j, k, i, m);
    SameDest(plan, key, j, k, i, m);
    if a, b :| HoldsGroup(plan, key, store, a, b) {
      SameDest(plan, key, j, k, a, b);
    }
    if multiset(RecordsOf(plan[j].pieces[k].bytes)) == multiset(RecordsOf(plan[i].pieces[m].bytes)) {
      assert HoldsGroup(plan, key, store, j, k) && HoldsGroup(plan, key, store, i, m);
    }
  }

  lemma SameDest(plan: Plan, key: string, j: int, k: int, a: int, b: int)
    requires NamesAgree(plan) && HasKey(plan, j, k, key) && HasKey(plan, a, b, key) && IsEnd(plan, j, k) && IsEnd(plan, a, b)
    ensures plan[a].pieces[b].dest == plan[j].pieces[k].dest
  {
  }

  /** A doubled content has the records of both exactly if both have the same. */
  lemma DoubledRecords(plan: Plan, j: int, k: int, i: int, m: int, c: seq<byte>)
    requires Loose(plan) && IsPiece(plan, j, k) && IsPiece(plan, i, m)
    requires var x, y := plan[j].pieces[k].bytes, plan[i].pieces[m].bytes; c == Merged([x, x]) || c == Merged([y, y])
    ensures var a, b := multiset(RecordsOf(plan[j].pieces[k].bytes)), multiset(RecordsOf(plan[i].pieces[m].bytes));
            multiset(RecordsOf(c)) == a + b <==> a == b
  {
    var x, y := plan[j].pieces[k].bytes, plan[i].pieces[m].bytes;
    assert GoodJob(plan[j]) && GoodJob(plan[i]);
    MergedTwo(x, x);
    MergedTwo(y, y);
    DoubledIsSum(multiset(RecordsOf(x)), multiset(RecordsOf(y)));
  }

  lemma DoubledIsSum(a: multiset<Record>, b: multiset<Record>)
    ensures a + a == a + b <==> a == b
    ensures b + b == a + b <==> a == b
  {
    if a + a == a + b {
      forall r ensures a[r] == b[r] { assert (a + a)[r] == (a + b)[r]; }
    }
    if b + b == a + b {
      forall r ensures a[r] == b[r] { assert (b + b)[r] == (a + b)[r]; }
    }
  }
}
