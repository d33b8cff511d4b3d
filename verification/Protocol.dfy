/** One normalization cycle as a transition system: N workers and one manager over a shared job queue,
    a mailbox that is FIFO per sender, the local disk and the object store.  Every interleaving of the
    steps below is a run; the code's idle polls are the runs' stutters and are left implicit. */
module Protocol {
  import opened Wrappers
  import opened Bytes
  import opened FileSystem
  import opened SplitSpec

  // ---------- what a cycle works on ----------

  /** A piece of a split file: its local path, pair key, merge output path, object name and content. */
  datatype Piece = Piece(path: string, key: string, out: string, dest: string, bytes: seq<byte>)

  /** One raw file and what its split yields: first the `mids` MID pieces, then the HEAD and the TAIL.
      `ready` is false when its name has no dot or names an unregistered module. */
  datatype Job = Job(ready: bool, source: string, raw: seq<byte>, pieces: seq<Piece>, mids: nat)

  type Plan = seq<Job>

  /** UnprocessedPcap */
  datatype Item = Item(src: string, out: string, prefix: string)

  datatype Msg = PairPut(key: string, item: Item) | JobDone(success: bool)

  function ItemOf(p: Piece): Item {
    Item(p.path, p.out, p.dest)
  }

  // ---------- state ----------

  /** How far a job has come; `Working(k)`: its first `k` pieces are uploaded or posted. */
  datatype Phase = Unqueued | Queued | Fetching | Splitting | Working(done: nat) | Finished(success: bool)

  datatype Manager =
    | Pushing(next: nat)
    | Draining
    | Merging(pair: seq<Item>)
    | Shipping(pair: seq<Item>)
    | Cleaning(pair: seq<Item>)
    | Sweeping(rest: seq<seq<Item>>)
    | Ended

  datatype Progress = Progress(remaining: int, success: nat, failure: nat)

  /** A history entry: these local pieces were uploaded together as this object. */
  datatype Upload = Upload(dest: string, sources: seq<string>, bytes: seq<byte>)

  /** `phases` and `log` are history: no step's guard reads `log`, and a guard reads a phase only
      of the job the acting process holds. */
  datatype State = State(
    phases: seq<Phase>,
    queue: seq<nat>,
    holds: seq<Option<nat>>,
    outboxes: seq<seq<Msg>>,
    manager: Manager,
    buckets: map<string, seq<Item>>,
    progress: Progress,
    local: Files,
    store: Files,
    log: seq<Upload>)

  function Start(plan: Plan, workers: nat, local: Files, store: Files): State {
    State(seq(|plan|, _ => Unqueued), [], seq(workers, _ => None), seq(workers, _ => []),
          if plan == [] then Draining else Pushing(0), map[], Progress(|plan|, 0, 0), local, store, [])
  }

  // ---------- PairBuckets and JobProgressTracker as functions ----------

  function PutBuckets<T>(buckets: map<string, seq<T>>, key: string, item: T): map<string, seq<T>> {
    var bucket := (if key in buckets then buckets[key] else []) + [item];
    if |bucket| >= 2 then buckets - {key} else buckets[key := bucket]
  }

  function PutResult<T>(buckets: map<string, seq<T>>, key: string, item: T): Option<seq<T>> {
    var bucket := (if key in buckets then buckets[key] else []) + [item];
    if |bucket| >= 2 then Some(bucket) else None
  }

  function MarkOneDone(p: Progress, success: bool): Progress {
    if success then Progress(p.remaining - 1, p.success + 1, p.failure)
    else Progress(p.remaining - 1, p.success, p.failure + 1)
  }

  // ---------- steps ----------

  datatype Step =
    | Push                        // manager: push the next job
    | Pop(w: nat)                 // worker: take a job
    | Fetch(w: nat)               // worker: download the raw file
    | Split(w: nat)               // worker: write the pieces, remove the raw file
    | UploadMid(w: nat)           // worker: upload one MID piece and remove it
    | Post(w: nat)                // worker: post one HEAD or TAIL piece
    | Report(w: nat)              // worker: post JobDone(true)
    | Abort(w: nat, after: Files) // worker: an exception, JobDone(false); own files left in any state
    | Deliver(w: nat)             // manager: dispatch the oldest message of one sender
    | Merge                       // manager: write the merge output
    | Ship                        // manager: upload it
    | Clean                       // manager: remove it and its inputs
    | Close(order: seq<string>)   // manager: counter at zero, take the remaining buckets
    | Sweep                       // manager: upload and remove one remaining piece
    | Finish

  predicate Holding(s: State, w: nat) {
    && w < |s.holds| && w < |s.outboxes| && s.holds[w].Some?
    && s.holds[w].value < |s.phases|
  }

  function PhaseOf(s: State, w: nat): Phase
    requires Holding(s, w)
  {
    s.phases[s.holds[w].value]
  }

  predicate HoldsJob(plan: Plan, s: State, w: nat) {
    Holding(s, w) && s.holds[w].value < |plan|
  }

  function JobOf(plan: Plan, s: State, w: nat): Job
    requires HoldsJob(plan, s, w)
  {
    plan[s.holds[w].value]
  }

  predicate OwnPath(job: Job, p: string) {
    p == job.source || exists k :: 0 <= k < |job.pieces| && job.pieces[k].path == p
  }

  predicate SameElsewhere(job: Job, a: Files, b: Files) {
    forall p :: p in a.Keys + b.Keys && !OwnPath(job, p) ==> p in a && p in b && a[p] == b[p]
  }

  predicate Lists(order: seq<string>, keys: set<string>) {
    && (forall i, j :: 0 <= i < j < |order| ==> order[i] != order[j])
    && (forall k :: k in order ==> k in keys)
    && (forall k :: k in keys ==> k in order)
  }

  predicate Enabled(plan: Plan, s: State, step: Step) {
    match step
    case Push => s.manager.Pushing? && s.manager.next < |s.phases|
    case Pop(w) => w < |s.holds| && s.holds[w].None? && s.queue != [] && s.queue[0] < |s.phases|
    case Fetch(w) => HoldsJob(plan, s, w) && PhaseOf(s, w) == Fetching && JobOf(plan, s, w).ready
    case Split(w) => HoldsJob(plan, s, w) && PhaseOf(s, w) == Splitting
    case UploadMid(w) =>
      && HoldsJob(plan, s, w) && PhaseOf(s, w).Working?
      && PhaseOf(s, w).done < JobOf(plan, s, w).mids && PhaseOf(s, w).done < |JobOf(plan, s, w).pieces|
    case Post(w) =>
      && HoldsJob(plan, s, w) && PhaseOf(s, w).Working?
      && JobOf(plan, s, w).mids <= PhaseOf(s, w).done < |JobOf(plan, s, w).pieces|
    case Report(w) => HoldsJob(plan, s, w) && PhaseOf(s, w) == Working(|JobOf(plan, s, w).pieces|)
    case Abort(w, after) =>
      && HoldsJob(plan, s, w)
      && (|| PhaseOf(s, w) == Fetching || PhaseOf(s, w) == Splitting
          || (PhaseOf(s, w).Working? && PhaseOf(s, w).done <= JobOf(plan, s, w).mids))
      && SameElsewhere(JobOf(plan, s, w), s.local, after)
    case Deliver(w) =>
      s.manager.Draining? && s.progress.remaining > 0 && w < |s.outboxes| && s.outboxes[w] != []
    case Merge => s.manager.Merging? && s.manager.pair != []
    case Ship => s.manager.Shipping? && s.manager.pair != []
    case Clean => s.manager.Cleaning? && s.manager.pair != []
    case Close(order) => s.manager.Draining? && s.progress.remaining <= 0 && Lists(order, s.buckets.Keys)
    case Sweep => s.manager.Sweeping? && s.manager.rest != [] && s.manager.rest[0] != []
    case Finish => s.manager.Sweeping? && s.manager.rest == []
  }

  /** Reading a path. With private paths the invariants show that no step reads a missing one; with shared ones
      the code raises there, which is a failed job or the end of the cycle, so its runs are among these. */
  function Read(files: Files, p: string): seq<byte> {
    if p in files then files[p] else []
  }

  function WriteAll(local: Files, pieces: seq<Piece>): Files {
    if pieces == [] then local
    else
      var n := |pieces| - 1;
      WriteAll(local, pieces[..n])[pieces[n].path := pieces[n].bytes]
  }

  function Sources(items: seq<Item>): seq<string> {
    seq(|items|, i requires 0 <= i < |items| => items[i].src)
  }

  function ReadAll(local: Files, items: seq<Item>): seq<seq<byte>> {
    seq(|items|, i requires 0 <= i < |items| => Read(local, items[i].src))
  }

  function Taken(buckets: map<string, seq<Item>>, order: seq<string>): seq<seq<Item>>
    requires forall k :: k in order ==> k in buckets
  {
    seq(|order|, i requires 0 <= i < |order| => assert order[i] in order; buckets[order[i]])
  }

  function Paths(items: seq<Item>): set<string> {
    set i | 0 <= i < |items| :: items[i].src
  }

  function Dispatch(s: State, msg: Msg): State {
    match msg
    case JobDone(success) => s.(progress := MarkOneDone(s.progress, success))
    case PairPut(key, item) =>
      match PutResult(s.buckets, key, item)
      case None => s.(buckets := PutBuckets(s.buckets, key, item))
      case Some(pair) => s.(buckets := PutBuckets(s.buckets, key, item), manager := Merging(pair))
  }

  function Apply(plan: Plan, s: State, step: Step): State
    requires Enabled(plan, s, step)
  {
    match step
    case Push =>
      var j := s.manager.next;
      s.(phases := s.phases[j := Queued], queue := s.queue + [j],
         manager := if j + 1 < |s.phases| then Pushing(j + 1) else Draining)
    case Pop(w) =>
      var j := s.queue[0];
      s.(phases := s.phases[j := Fetching], queue := s.queue[1..], holds := s.holds[w := Some(j)])
    case Fetch(w) =>
      var job := JobOf(plan, s, w);
      s.(phases := s.phases[s.holds[w].value := Splitting], local := s.local[job.source := job.raw])
    case Split(w) =>
      var job := JobOf(plan, s, w);
      s.(phases := s.phases[s.holds[w].value := Working(0)],
         local := WriteAll(s.local, job.pieces) - {job.source})
    case UploadMid(w) =>
      var job, k := JobOf(plan, s, w), PhaseOf(s, w).done;
      var piece := job.pieces[k];
      var content := Read(s.local, piece.path);
      s.(phases := s.phases[s.holds[w].value := Working(k + 1)],
         store := s.store[piece.dest := content], local := s.local - {piece.path},
         log := s.log + [Upload(piece.dest, [piece.path], content)])
    case Post(w) =>
      var job, k := JobOf(plan, s, w), PhaseOf(s, w).done;
      s.(phases := s.phases[s.holds[w].value := Working(k + 1)],
         outboxes := s.outboxes[w := s.outboxes[w] + [PairPut(job.pieces[k].key, ItemOf(job.pieces[k]))]])
    case Report(w) =>
      s.(phases := s.phases[s.holds[w].value := Finished(true)], holds := s.holds[w := None],
         outboxes := s.outboxes[w := s.outboxes[w] + [JobDone(true)]])
    case Abort(w, after) =>
      s.(phases := s.phases[s.holds[w].value := Finished(false)], holds := s.holds[w := None],
         outboxes := s.outboxes[w := s.outboxes[w] + [JobDone(false)]], local := after)
    case Deliver(w) =>
      Dispatch(s.(outboxes := s.outboxes[w := s.outboxes[w][1..]]), s.outboxes[w][0])
    case Merge =>
      var pair := s.manager.pair;
      s.(local := s.local[pair[0].out := Merged(ReadAll(s.local, pair))], manager := Shipping(pair))
    case Ship =>
      var pair := s.manager.pair;
      var content := Read(s.local, pair[0].out);
      s.(store := s.store[pair[0].prefix := content],
         log := s.log + [Upload(pair[0].prefix, Sources(pair), content)], manager := Cleaning(pair))
    case Clean =>
      s.(local := s.local - ({s.manager.pair[0].out} + Paths(s.manager.pair)), manager := Draining)
    case Close(order) =>
      s.(buckets := map[], manager := Sweeping(Taken(s.buckets, order)))
    case Sweep =>
      var item := s.manager.rest[0][0];
      var content := Read(s.local, item.src);
      s.(store := s.store[item.prefix := content], local := s.local - {item.src},
         log := s.log + [Upload(item.prefix, [item.src], content)],
         manager := Sweeping(s.manager.rest[1..]))
    case Finish => s.(manager := Ended)
  }

  // ---------- runs ----------

  ghost predicate IsRun(plan: Plan, run: seq<State>, steps: seq<Step>) {
    && |run| == |steps| + 1
    && forall i :: 0 <= i < |steps| ==> Enabled(plan, run[i], steps[i]) && run[i + 1] == Apply(plan, run[i], steps[i])
  }

  // ---------- what a cycle assumes of its plan ----------

  predicate IsPiece(plan: Plan, j: int, k: int) {
    0 <= j < |plan| && 0 <= k < |plan[j].pieces|
  }

  predicate IsEnd(plan: Plan, j: int, k: int) {
    IsPiece(plan, j, k) && plan[j].mids <= k
  }

  /** Local paths are private to one job or one piece. */
  ghost predicate PathsPrivate(plan: Plan) {
    && (forall j, j' :: 0 <= j < |plan| && 0 <= j' < |plan| && plan[j].source == plan[j'].source ==> j == j')
    && (forall j, k, j', k' {:trigger IsPiece(plan, j, k), IsPiece(plan, j', k')} ::
          IsPiece(plan, j, k) && IsPiece(plan, j', k') && plan[j].pieces[k].path == plan[j'].pieces[k'].path ==>
            j == j' && k == k')
    && (forall j, k, j' {:trigger IsPiece(plan, j, k), plan[j']} ::
          IsPiece(plan, j, k) && 0 <= j' < |plan| ==>
            plan[j].pieces[k].path != plan[j'].source && plan[j].pieces[k].out != plan[j'].source)
    && (forall j, k, j', k' {:trigger IsPiece(plan, j, k), IsPiece(plan, j', k')} ::
          IsPiece(plan, j, k) && IsPiece(plan, j', k') ==> plan[j].pieces[k].out != plan[j'].pieces[k'].path)
  }

  /** Keys fix merge outputs and objects, and objects fix key and kind. */
  ghost predicate NamesAgree(plan: Plan) {
    && (forall j, k, j', k' {:trigger IsEnd(plan, j, k), IsEnd(plan, j', k')} ::
          IsEnd(plan, j, k) && IsEnd(plan, j', k') && plan[j].pieces[k].key == plan[j'].pieces[k'].key ==>
            && plan[j].pieces[k].out == plan[j'].pieces[k'].out
            && plan[j].pieces[k].dest == plan[j'].pieces[k'].dest)
    && (forall j, k, j', k' {:trigger IsPiece(plan, j, k), IsPiece(plan, j', k')} ::
          IsPiece(plan, j, k) && IsPiece(plan, j', k') && plan[j].pieces[k].dest == plan[j'].pieces[k'].dest ==>
            plan[j].pieces[k].key == plan[j'].pieces[k'].key && (IsEnd(plan, j, k) <==> IsEnd(plan, j', k')))
  }

  predicate GoodJob(job: Job) {
    job.mids <= |job.pieces| && forall k :: 0 <= k < |job.pieces| ==> Whole(job.pieces[k].bytes)
  }

  ghost predicate GoodPlan(plan: Plan) {
    && PathsPrivate(plan) && NamesAgree(plan)
    && forall j :: 0 <= j < |plan| ==> GoodJob(plan[j])
  }
}
