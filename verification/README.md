# Sensor data normalization: a verified model

The repository turns raw PCAP captures of vehicle sensors into one object per vehicle, module and capture
second. N worker processes download raw files, split them by second and upload the inner seconds; the first
and the last second of a file may continue in a neighbouring file, so their pieces go to a manager process
that merges them pairwise by key, uploads the merges and finally sweeps what found no partner. This project
models that pipeline in Dafny, from the bytes of a capture to the objects in the store, and proves what it
preserves.

## What is proved

1. **End to end** (`EndToEnd.dfy`, `Refinement.dfy`, `SharedPaths.dfy`, `TwinPieces.dfy`). For every list of raw
   files, every interleaving of any number of workers with the manager that ends the cycle, and every (vehicle,
   module, second) none of whose files failed: its records are together in one object *if and only if* the second is
   exclusive, that is, lies in one file, or in exactly two and at the edge of both, and files that show one minute
   in their names have the same records of it. Only seconds that files of one minute share and that are not
   exclusive are outside. Other files may fail at any point or share paths with each other. Objects that no
   second is named for stay as they were. Such runs exist. `LostGroups.dfy` has raw files, names and bytes, whose
   records are lost: a second in three files, and a second shared by two files of one minute.
2. **The protocol** (`Protocol.dfy` and the `Cycle*` files). Invariants over all reachable states: what the
   completion counter counts, in which single place each piece is, what every local file and object contains.
   From them: a zero counter means that queue, workers and mail are empty, so no message of one cycle is
   dispatched in another; some step is always enabled; every step decreases a measure; inputs of a merge are on
   disk when it runs.
   From cycle to cycle (`Chain.dfy`, `Requests.dfy`): no message crosses, and which request's records an object
   finally holds. `Raised.dfy` shows what a merge that raises does to the next cycle.
3. **Splitting and merging** (`PcapFormat.dfy`, `Partition.dfy`, `SplitSpec.dfy`, `Splitter.dfy`). The file
   format's round trips (draft-ietf-opsawg-pcap, sections 4 and 5), split as a stable partition, merge as
   concatenation of record lists, merge undoing split. The loops are methods proved against these functions.
4. **The second parser** (`Reader.dfy`). It agrees with the splitter's, filtering commutes with timing and
   numbering, offsets telescope, and world offsets share an origin exactly when a stated condition holds.
   `FloatTimeline.dfy` relates these exact times to the doubles the source computes.
5. **Names and seconds** (`Names.dfy`, `Uploader.dfy`, `Calendar.dfy`, `CivilTime.dfy`, `FloatSecond.dfy`,
   `TimeStamps.dfy`). The name parser undoes the renamer exactly when a stated condition holds, keys and object
   names are injective, paths do not alias, the double-precision second is exact for all 32-bit fields, and the
   label of a second is its Gregorian date and time.
6. **Formats written out.** Bytes, fields, path segments, letters, digits and filters are also described without
   the functions of the model: `Bytes.LittleEndianOfFour`, `PcapFormat.RecordIs`, `CivilTime.LabelIsTheTime`,
   `TimeStamps.GroupsAreByStamps`, `Names.ParseIs`, `Names.StampPathsAre`, `Uploader.MappingIs`,
   `Reader.FilterDrops`, `Reader.RawIs`.

## How the code is represented

- Objects that the source updates in place are classes with those fields: `Disk`, `BinaryFile`,
  `LocalPcapSplitter`, `PairBuckets`, `JobProgressTracker`, `ObjectStore`, `NormalizerManager`,
  `NormalizerModule`, `JobQueue`, `PcapReader`, `MultiPcapReader`. Their methods keep the source's loops and
  branches and are proved equal to functions on values.
- The concurrent cycle is a transition system over the same functions. `Worker.ActionIsSteps`,
  `Worker.FailureIsSteps`, `Manager.DispatchIsSteps` and `Manager.SweepIsStep` connect the two: what a method does
  between two points where another process could interfere is what the steps do.
- `phases` and `log` in the protocol state are history, used to state the invariants.
- A failed operation of a worker is the step `Abort`, which may leave the job's own paths in any state.
- A missing file and a name without a dot are error results, as they are exceptions in the source.

## Assumptions

- The mailbox delivers each sender's messages in the order sent, and pushing to a queue does not fail.
- A cycle is not cut short: the process is not asked to stop while draining and no merge or upload of the
  manager raises. After such an exit old jobs and messages may meet the next cycle
  (`src/app/normalizer/process/manager/manager.py:132` and `:175`), and `Raised.RaiseCanMixCycles` is a history
  in which the next cycle then reports success for a job nobody has taken. The methods of the manager do model
  the failure; the runs of the protocol do not.
- Capture seconds are shown in a zone with a fixed offset. In a zone with daylight saving two seconds can get
  the same label.
- The working root and the merge root are not inside one another, paths are already normalized, configured
  names contain no `/` where a path segment is meant, and directory and module names contain no braces (the
  output template is one prefix and one suffix around the label).
- Upper-casing and digits are ASCII.

Where comments in the code say more than the code does, the model follows the code. The splitter's header calls
a MID piece a complete second; that holds only for a second that no other file shares, which is the condition
of the main theorem. The splitter's remark that file names are per minute is not enforced either: the renaming
script writes seconds, several files of one minute share a working directory, and two of their pieces have one path
exactly when they are of the same second (`Pipeline.PiecePathsCollideIff`). An exclusive second of such files is
kept together exactly if both have the same records of it (`EndToEnd.SharedSecondGroupedIff`). In the reader
`caplen` is read and never used; the body is `packlen` bytes long.

## Model

| member | source | states |
|---|---|---|
| EndToEnd.SecondGroupedIff | src/app/normalizer/process/manager/manager.py:155-214 | For every list of raw files, every interleaving that ends the cycle and every (vehicle, module, second) none of whose files failed, that is exclusive or no two of whose files show one minute: its records from all raw files are the exact content of one object if and only if the second is in one file, or in exactly two and at the edge of both, and files of one minute have the same records of it, each equally often. |
| EndToEnd.SecondGroupedIffExclusive | src/app/normalizer/process/manager/manager.py:155-214 | When no two files of the second show one minute, the condition is that the second is exclusive. |
| EndToEnd.SharedSecondGroupedIff | src/app/normalizer/process/module/module.py:205-217 | A second at the edges of exactly two files of one minute, in every interleaving in which both succeed, is kept together if and only if both files have the same records of it, each equally often: the bytes alone decide. |
| EndToEnd.PipelineGroupsBySecond | src/app/normalizer/process/module/module.py:101-113 | The group of every exclusive second none of whose files failed, and that files of one minute record alike, is exactly the content of its object after the cycle, and every object no recorded second is named for is as before, whatever failed or collided. |
| EndToEnd.KeyUnsharedIffUnmixed | src/app/normalizer/process/module/module.py:213-217 | The pieces of a second have local paths of their own if and only if no two of its files show one minute in their names. |
| EndToEnd.SuccessIsPossible | src/app/normalizer/process/module/module.py:73-97 | Files that can all be placed and at least one worker: a run to the end without a failed job exists, so the theorems above are about something. |
| EndToEnd.NoFailureMeansAllReady | src/app/normalizer/process/manager/manager.py:137-153 | A cycle that counts no failure has finished every file's job successfully, so no name lacked a dot or named an unregistered module. |
| EndToEnd.KeyRecordsAreGroup | src/app/normalizer/process/module/module.py:227-231 | The records of all pieces with one pair key are the multiset of the raw files' own records of that vehicle, module and second. |
| EndToEnd.ExclusiveMatches | src/app/normalizer/process/module/module.py:164-177 | The condition on keys and pieces is the condition on raw files, both directions. |
| Refinement.GroupPreservedIffExclusive | src/app/normalizer/process/manager/manager.py:191-214 | For every plan of jobs, every interleaving that ends the cycle and every key none of whose jobs failed: its records are one object's content if and only if the key has a single piece, or exactly two and both HEAD or TAIL. Jobs of other keys may have failed. |
| Refinement.CycleRefinesGrouping | src/app/normalizer/process/manager/manager.py:168-169 | Every exclusive key whose jobs succeeded has one object, which holds exactly its records and is no other key's; objects of no piece are untouched, whatever failed. |
| Refinement.ObjectsHoldOneKey | src/app/normalizer/process/manager/manager.py:200-214 | In every reachable state, whatever has failed, the object of a piece is untouched or holds only records of that piece's key, none more often than the key has it. |
| SharedPaths.UnsharedPreservedIffExclusive | src/app/normalizer/process/module/module.py:205-217 | The same if and only if when other pieces of the plan share local paths and overwrite and remove one another's files: it holds for every key whose own pieces share none. |
| SharedPaths.UnnamedObjectKept | src/app/normalizer/process/manager/manager.py:155-169 | Objects no piece goes to are as before the cycle, shared paths or not. |
| TwinPieces.SharedEndsAreDoubled | src/app/normalizer/process/manager/manager.py:200-208 | Two HEAD/TAIL pieces of one key with one local path that no other piece has: in every interleaving in which both jobs succeed, their object holds one of the two merged with itself. |
| TwinPieces.SharedEndsPreservedIff | src/app/normalizer/process/manager/manager.py:200-208 | So their records are kept together if and only if both pieces have the same records equally often. |
| TwinPieces.StepTwin | src/app/normalizer/process/manager/manager.py:185-214 | Every step keeps, while neither job has failed: until one of the two is uploaded their path holds one of them, and a merge of the two holds one twice, on disk and in the store. |
| Renaming.StepSim | src/app/normalizer/process/manager/manager.py:185-214 | Every step in a plan with shared paths has a counterpart in the plan with these renamed that keeps phases, queue, mail, buckets and counters alike, and files and objects of unshared pieces equal. |
| Renaming.RunSim | src/app/normalizer/process/manager/manager.py:155-183 | So has every run. |
| Refinement.TwoEndsAreMerged | src/app/normalizer/process/manager/manager.py:200-208 | Every upload to the object of a key with exactly two end pieces is the merge of those two, in either order of arrival; neither is ever swept alone. |
| Chain.CyclesDoNotMix | src/app/normalizer/process/manager/manager.py:163-169 | By induction over any sequence of requests, whatever their plans: each cycle starts with an empty queue, idle workers and empty mail and keeps count of its jobs throughout, although only buckets and counters are reset; with private paths it keeps all invariants. |
| Chain.UnnamedObjectSurvives | src/app/normalizer/process/manager/manager.py:155-169 | Over any sequence of cycles, shared paths or not, an object survives every cycle that has no piece for it, whatever fails in them. |
| Chain.LastCycleDecides | src/app/normalizer/process/manager/manager.py:264-272 | If in the last cycle with pieces for an object the key is exclusive, succeeds and shares no paths, the object finally holds exactly that cycle's records of the key. |
| Chain.GroupSurvivesIff | src/app/normalizer/process/manager/manager.py:264-272 | Then the group an earlier cycle put into the object is still there if and only if the last such cycle brought the same records. |
| Chain.CyclesAreNotJoined | src/app/normalizer/process/manager/manager.py:161-169 | Records of one second that come in two cycles are never together in the object: the later cycle replaces the earlier one's. |
| Requests.ObjectSurvives | src/app/normalizer/process/manager/manager.py:155-169 | Over any sequence of requests, each a list of raw files, an object stays as it is until a request brings a second that goes to it. |
| Requests.LastRequestDecides | src/app/normalizer/process/manager/manager.py:155-169 | The last request with a second for an object decides: if the second is exclusive there, agrees within minutes and its files succeed, the object holds exactly that request's records. |
| Requests.RequestsAreNotJoined | src/app/normalizer/process/manager/manager.py:218-234 | A second whose TAIL comes with one request and whose HEAD with a later one, as at the boundary of two date folders: both go to one object, which finally holds the later request's records only, not those of both. |
| Raised.StaleDoneEndsCycle | src/app/normalizer/process/manager/manager.py:130-135 | One JobDone left over by a cycle that raised ends a next cycle of one job before any worker has taken it. |
| Raised.RaiseCanMixCycles | src/app/normalizer/process/manager/manager.py:174-183 | A history: a merge raises with a JobDone still in the mail, and the next cycle counts no failure while its job is still queued. |
| LostGroups.ThirdPieceIsLost | src/app/normalizer/process/manager/manager.py:264-272 | Three raw files of three minutes, each with one packet of the same second: the swept third piece replaces the merged two, so in every interleaving without a failure no object holds the three records. |
| LostGroups.ThirdPieceCanBeLost | src/process_state/pair_buckets.py:16-23 | A run of that cycle exists. |
| LostGroups.SharedPathCanLose | src/app/normalizer/process/module/module.py:205-217 | Two raw files of one minute that share a second at their edges: the list is valid and the second exclusive, yet there is a run in which both jobs succeed and the earlier file's record is lost, because both pieces have one local path. |
| LostGroups.SharedPathLoses | src/app/normalizer/process/module/module.py:205-217 | So does every run of these files in which both jobs succeed. |
| Collision.TwinsRun | src/app/normalizer/process/module/module.py:205-217 | For any two placed files of one minute whose packets all lie in one second a run in which both jobs succeed exists, and it keeps the records together if and only if both files have the same records equally often. |
| Collision.TwinsAgreeIff | src/app/normalizer/process/module/module.py:205-217 | The same for every run in which both succeed. |
| Collision.TwinsLose | src/app/normalizer/process/manager/manager.py:200-214 | Two pieces with one path: the later split's content is merged with itself. |
| CycleOutcome.ReachableStatesAreGood | src/app/normalizer/process/manager/manager.py:155-183 | Every state of every interleaving satisfies the invariants on jobs, counters, mail, places of pieces, local files and objects. |
| CycleOutcome.PiecesUploadedOnce | src/app/normalizer/process/manager/manager.py:200-214 | At the end each piece of a successful job is in exactly one upload; of a failed job no HEAD or TAIL piece is, a MID piece at most once. |
| CycleOutcome.MidsBeforePairs | src/app/normalizer/process/module/module.py:112-113 | While a HEAD or TAIL piece of a job is in the mail, a bucket, the manager's hands or uploaded, all MID pieces of that job are uploaded. |
| CycleOutcome.MidsAreNeverPosted | src/app/normalizer/process/module/module.py:160-162 | No MID piece is ever in the mail, in a bucket or in the manager's hands. |
| CycleOutcome.LastUpload | src/app/normalizer/process/manager/manager.py:208-208 | What an object holds is the content of the last upload to its name, and what it held before if there was none. |
| CyclePieces.PiecesInvKept | src/app/normalizer/process/manager/manager.py:185-214 | Every step of every process keeps: a handled piece is in exactly one of mail, bucket, manager's hands, upload; an unhandled one in none; a bucket holds exactly one end piece of its own key. |
| CyclePieces.MailedIsNotBucketed | src/process_state/pair_buckets.py:16-23 | A piece about to be dispatched is not the one waiting in its bucket, so a pair is two different pieces. |
| CyclePieces.TakenCount | src/process_state/pair_buckets.py:25-28 | Listing the remaining buckets counts each piece exactly as often as it was bucketed. |
| CycleContents.ContentsInvKept | src/app/normalizer/process/module/module.py:126-153 | Every step keeps: downloaded files and pieces not yet uploaded are on disk unchanged, the log holds only single pieces and merges of two ends of one key, the store is the replay of the log, at most one end piece per key is uploaded alone. |
| CycleContents.MergeInputsPresent | src/app/normalizer/process/manager/manager.py:203-207 | When a merge runs both inputs are on disk with the content their splits wrote. |
| CycleContents.WaitingPieceIsOnDisk | src/app/normalizer/process/manager/manager.py:266-272 | A piece in the mail, a bucket or the manager's hands is still on disk, unchanged, whoever has removed files meanwhile. |
| CycleContents.AbortDisk | src/app/normalizer/process/module/module.py:80-83 | A failed job that leaves its own paths in any state damages no other job's files and no merge output. |
| CycleCounts.JobsInvKept | src/process_state/job_progress.py:16-29 | Every step keeps the counting invariant: remaining counts open jobs plus undispatched JobDone messages, success and failure count the dispatched ones by kind, each job is in one hand. |
| CycleCounts.CounterZeroMeansQuiet | src/app/normalizer/process/manager/manager.py:171-183 | When the drain loop leaves through a zero counter the queue is empty, every worker idle, all mail dispatched, every job finished. |
| CycleCounts.CountersAddUp | src/process_state/job_progress.py:16-35 | Success, failure and remaining add up to the number of jobs in every reachable state, and remaining is never negative. |
| CycleCounts.NotifiedOutcomeIsRight | src/app/normalizer/process/manager/manager.py:137-153 | Once the counter is zero, no failure is counted (success is notified) exactly when every job succeeded. |
| CycleCounts.NoHang | src/app/normalizer/process/manager/manager.py:174-183 | With at least one worker some step is enabled in every state before the end. |
| CycleCounts.NobodyWaits | src/app/normalizer/process/module/module.py:73-97 | In every reachable state each worker with a job or with a job to take can take the next step; while the manager drains, the oldest message of any sender can be dispatched, and when all is quiet the buckets can be closed in any order: every interleaving is a run. |
| CycleCounts.TakenInOrder | src/app/normalizer/process/manager/manager.py:165-166 | In every run jobs are taken in the order of the listing: none is started before an earlier one. |
| CycleCounts.StepsDecrease | src/app/normalizer/process/module/module.py:73-97 | Every step of every process decreases one natural-number measure over jobs, worker progress, mail, buckets and manager. |
| CycleCounts.RunsAreBounded | src/app/normalizer/process/manager/manager.py:171-183 | No run is longer than the measure of its first state. |
| CycleCounts.StuckMeansEnded | src/app/normalizer/process/manager/manager.py:168-169 | A run that cannot go on has ended its cycle with nothing left in queue, hands, mail or buckets. |
| CycleCounts.CanSucceed | src/app/normalizer/process/module/module.py:79-97 | From every state without a failed job, if all jobs can be placed, a successful end is reachable. |
| Manager.NormalizerManager.MergePair | src/app/normalizer/process/manager/manager.py:200-214 | The object named by the first item becomes the merge of the inputs' contents, output and inputs leave the disk, nothing else changes; a failure leaves the store alone and of the disk changes only the output. |
| Manager.NormalizerManager.DispatchMessage | src/app/normalizer/process/manager/manager.py:185-196 | One message has exactly the effect of the counter or bucket function, with the merge when a pair is complete; when the merge raises, the pair has left its bucket, counters and objects are as before. |
| Manager.NormalizerManager.DrainWorkerMessages | src/app/normalizer/process/manager/manager.py:171-183 | Messages are dispatched in delivery order, none after the counter reaches zero, and the loop leaves only at zero, when no message is left, or with a merge that raised at a known message. |
| Manager.NormalizerManager.UploadUnpaired | src/app/normalizer/process/manager/manager.py:264-272 | Each bucket's first item is uploaded under its own object name and removed, in order, up to the first failure; the rest is untouched. |
| Manager.NormalizerManager.RunCycle | src/app/normalizer/process/manager/manager.py:155-169 | From any old buckets and counters: the jobs are queued in order; the state afterwards is the drain of the delivered messages from a clean start followed by the sweep of the buckets left, each listed once, or, per way of failing, exactly how far drain or sweep came. |
| Manager.DispatchIsSteps | src/app/normalizer/process/manager/manager.py:185-214 | The dispatch function is the protocol's Deliver step, followed by Merge, Ship and Clean when a pair is complete, and these are then enabled. |
| Manager.SweepIsStep | src/app/normalizer/process/manager/manager.py:266-272 | One turn of the sweep is the protocol's Sweep step. |
| Worker.NormalizerModule.ProcessFile | src/app/normalizer/process/module/module.py:101-113 | Success posts the HEAD and TAIL pieces after all MID pieces are uploaded; a failure of the download, the split or an upload posts no piece, touches only the job's own paths, and has uploaded a prefix of the MID pieces and nothing else. |
| Worker.NormalizerModule.Action | src/app/normalizer/process/module/module.py:73-97 | Whatever happens to the job, exactly one JobDone with the right flag is posted and it is the last message. |
| Worker.NormalizerModule.SplitPcap | src/app/normalizer/process/module/module.py:126-137 | After the source is removed the disk holds every piece of the job with the content of its second, and otherwise what it held; an exception leaves all paths but the job's own alone. |
| Worker.NormalizerModule.ShipPieces | src/app/normalizer/process/module/module.py:112-113 | All MID pieces are uploaded before any HEAD or TAIL piece is posted, and after a failed upload nothing is posted. |
| Worker.NormalizerModule.UploadProcessed | src/app/normalizer/process/module/module.py:139-153 | The MID pieces before the first failure are uploaded under their names and removed, others passed over; no other file or object changes. |
| Worker.NormalizerModule.SendUnprocessedToManager | src/app/normalizer/process/module/module.py:157-189 | One message per HEAD or TAIL piece, in order, with its own key, local path, merge output and object name; MID pieces are passed over. |
| Worker.OutcomeIsJob | src/app/normalizer/process/module/module.py:139-178 | The paths, keys and object names built from what split_once reports are those of the job's pieces: MID ones uploaded as the first, HEAD and TAIL ones posted as the others. |
| Worker.SplitOnceWritesPieces | src/app/normalizer/process/module/module.py:205-217 | Writing second by second under the output template leaves the same disk as writing the job's pieces in the worker's order. |
| Worker.ActionIsSteps | src/app/normalizer/process/module/module.py:73-113 | A worker left alone reaches, by protocol steps, the very disk, store and mail that a successful Action ensures. |
| Worker.FailureIsSteps | src/app/normalizer/process/module/module.py:80-97 | Every state that a failed Action may leave is reached by protocol steps: an Abort at once, or download, split, some uploads and an Abort. |
| ProcessState.PairBuckets.Put | src/process_state/pair_buckets.py:16-23 | New buckets and result for every key, with and without a waiting item. |
| ProcessState.PairBuckets.PopAllRemaining | src/process_state/pair_buckets.py:25-28 | Every bucket is listed exactly once with its whole content, and none is left. |
| ProcessState.PairingLaw | src/process_state/pair_buckets.py:16-23 | Over any sequence of puts and for each key: emitted pairs are the arrivals first with second, third with fourth, and so on; a bucket is left exactly when their number is odd and holds only the last arrival. |
| ProcessState.PutsAddUp | src/process_state/pair_buckets.py:16-28 | Puts are twice the emitted pairs plus the remaining buckets, so a sweep of first items loses nothing. |
| ProcessState.JobProgressTracker.BeginCycle | src/process_state/job_progress.py:16-19 | A cycle starts from its own total and zero counts whatever the counters were. |
| ProcessState.JobProgressTracker.MarkOneDone | src/process_state/job_progress.py:21-26 | One job fewer remains and exactly the counter of its outcome grows. |
| Splitter.LocalPcapSplitter.ReadPcapRecords | src/pcap/local_pcap_splitter.py:103-128 | The loop returns the first 24 bytes (all of a shorter file) and all whole records of the file, a cut-off header or payload ending them, or the missing-file error; PcapFormat.RecordFields says what their fields are. |
| Splitter.LocalPcapSplitter.WritePcap | src/pcap/local_pcap_splitter.py:130-140 | The path then holds the header and the records' bytes in order, whatever it held before; no other file changes. |
| Splitter.LocalPcapSplitter.GroupBySecond | src/pcap/local_pcap_splitter.py:35-38 | The keys are exactly the seconds that occur and each group is the records of its second in input order; for records as read and every correct rounding, keys and groups are those of the truncated double time stamps. |
| Splitter.LocalPcapSplitter.SplitOnce | src/pcap/local_pcap_splitter.py:27-80 | Every second's group is written to its path and reported with its position, in every error case nothing is written, and a file without records yields no piece; CivilTime.LabelIsTheTime says what date and time the label of a second is. |
| Splitter.LocalPcapSplitter.MergePcapFiles | src/pcap/local_pcap_splitter.py:82-99 | With an output that is no input, it holds the first header and the bodies of the inputs up to the first missing one, which is reported; a missing first file leaves it unopened. In every case no other file changes. |
| Splitter.LocalPcapSplitter.CopyBody | src/pcap/local_pcap_splitter.py:93-99 | The 65536-byte loop terminates and appends exactly the bytes behind the first 24, for any file size. |
| Splitter.ClassifiedAll | src/pcap/local_pcap_splitter.py:65-78 | Classifying second by second gives one HEAD, one TAIL if there are two seconds, and the MID pieces between in order. |
| Splitter.MergeOfPresent | src/pcap/local_pcap_splitter.py:87-99 | With all inputs present no file is reported missing and the output is the merge of their contents. |
| SplitSpec.SplitFilesAreGroups | src/pcap/local_pcap_splitter.py:53-63 | After a split the file of each second parses back to exactly the records of that second in input order and is a whole capture. |
| SplitSpec.SplitPositions | src/pcap/local_pcap_splitter.py:142-149 | The least second is HEAD, the greatest is TAIL exactly if it differs, a second is MID exactly if strictly between, and there is one piece per second. |
| SplitSpec.OtherPathKept | src/pcap/local_pcap_splitter.py:53-63 | A split changes no path that is not that of one of its seconds. |
| SplitSpec.PieceReadsBack | src/pcap/local_pcap_splitter.py:130-140 | Each piece has the source's file header and parses to its group. |
| SplitSpec.MergeConcatenatesRecords | src/pcap/local_pcap_splitter.py:82-99 | Parsing a merge gives the concatenation of the inputs' record lists under the first header; only the last input may end in a cut-off record. |
| SplitSpec.MergeUndoesSplit | src/pcap/local_pcap_splitter.py:53-99 | All pieces merged in second order parse to the stable sort of the source; if its seconds never decrease the merge is byte for byte the source's prefix of whole records. |
| SplitSpec.SavePathInjective | src/pcap/local_pcap_splitter.py:59-60 | Distinct seconds of a file are saved to distinct paths. |
| Partition.GroupsAreStableSort | src/pcap/local_pcap_splitter.py:34-45 | The groups in second order concatenate to a sequence ordered by second that keeps the order within each second. |
| Partition.StableSortUnique | src/pcap/local_pcap_splitter.py:43-43 | Those two conditions determine the sequence. |
| Partition.SortedInputUnchanged | src/pcap/local_pcap_splitter.py:43-53 | Input whose seconds never decrease comes out unchanged. |
| Partition.GroupedMultiset | src/pcap/local_pcap_splitter.py:36-38 | A group holds each record of its second as often as the input and no other record. |
| PcapFormat.ParseAfterWrite | src/pcap/local_pcap_splitter.py:111-140 | Parsing written well-formed records, followed by anything, gives them back and goes on behind them. |
| PcapFormat.WriteAfterParse | src/pcap/local_pcap_splitter.py:111-128 | Rewriting what was parsed from any bytes is a prefix of them and no whole record follows it. |
| PcapFormat.ParseIsMaximal | src/pcap/local_pcap_splitter.py:111-127 | Any whole records that begin the input are among those parsed. |
| PcapFormat.WrittenFileReadsBack | src/pcap/local_pcap_splitter.py:130-140 | A written file parses to its header and records when each payload has its decoded length. |
| PcapFormat.RewrittenFileIsWholeRecordPrefix | src/pcap/local_pcap_splitter.py:103-140 | Reading any file and writing it back keeps its longest prefix of header and whole records. |
| PcapFormat.SecondBound | src/pcap/headers/packet_header.py:17-26 | Decoded fields are 32-bit and the second is below 2^33. |
| Bytes.LittleEndianOfFour | src/pcap/local_pcap_splitter.py:119-124 | Four bytes a, b, c, d are the number a + 256 b + 65536 c + 16777216 d. |
| Bytes.LittleEndianDigits | src/pcap/headers/file_header.py:21-27 | For any number of bytes the first is the remainder by 256 and the others are the quotient; none is zero. |
| PcapFormat.DecodeIs | src/pcap/local_pcap_splitter.py:119-124 | The four fields are the 32-bit numbers at bytes 0, 4, 8 and 12 of the packet header, in the order seconds, microseconds, captured length, original length. |
| PcapFormat.RecordFields | src/pcap/local_pcap_splitter.py:111-128 | So are the fields of every record read from any file. |
| PcapFormat.RecordIs | src/pcap/local_pcap_splitter.py:111-127 | A record is read exactly if its 16 header bytes are there and as many more as the number at byte 8 of them says; it is those bytes, and reading goes on directly behind it. |
| PcapFormat.FileIs | src/pcap/local_pcap_splitter.py:107-108 | The file header is the first 24 bytes and the body what follows; a shorter file is all header. |
| FloatSecond.TimeStampSecondIsExact | src/pcap/headers/packet_header.py:28-30 | For all 32-bit fields and any round-to-nearest double arithmetic, truncating captime + caputime / 1e6 gives captime + caputime div 1000000. |
| FloatSecond.WholeDoubles | src/pcap/headers/packet_header.py:28-30 | 2^53 is a double and 2^53 + 1 is not: doubles have 53 significant bits. |
| FloatSecond.DoubleRange | src/pcap/headers/packet_header.py:28-30 | The least positive double is 2^-1074 and the greatest (2^53 - 1) 2^971. |
| TimeStamps.SecondIsTruncatedStamp | src/pcap/local_pcap_splitter.py:37-37 | For every record as read and every correct rounding, the second it is filed under is the integer part of its double time stamp. |
| TimeStamps.GroupsAreByStamps | src/pcap/local_pcap_splitter.py:35-38 | Grouping by the second is grouping by the truncated time stamp: every stamp has its key, and a key holds exactly the records whose stamp truncates to it, in order, and at least one. |
| Calendar.LabelInjective | src/pcap/local_pcap_splitter.py:54-59 | Distinct capture seconds get distinct labels in every fixed-offset zone. |
| Calendar.OrdinalOfYear | src/pcap/local_pcap_splitter.py:54-55 | The year, month and day computed for a day number have that day number. |
| Calendar.LabelFields | src/pcap/local_pcap_splitter.py:55-59 | The label has 14 characters and its parts are the four reported fields. |
| CivilTime.LabelIsTheTime | src/pcap/local_pcap_splitter.py:54-59 | For every second and fixed offset the digits of the label are a date of the Gregorian calendar and a time of day, and days since 1 January 1970 times 86400 plus the time of day is the second plus the offset. Days are counted by the closed formula 365 y + y/4 - y/100 + y/400 with written-out month lengths. |
| CivilTime.DateIsTheDay | src/pcap/local_pcap_splitter.py:54-55 | The computed date of a day number exists in the calendar and has that number in the closed formula. |
| Names.NameRoundTrip | src/pcap/pcap_filename_parser.py:17-38 | The parser undoes `{module}_{date}{time}.pcap`, the time with or without seconds, if and only if the module has no dot and does not contain the stamp suffix. |
| Names.ParseIs | src/pcap/pcap_filename_parser.py:23-30 | For every name with a dot: the part between the last two dots decides; date, hours and minutes are characters 0-8, 8-10 and 10-12 of what follows its last underscore, as far as they are there, the second is characters 12-14 if both are there, and the module is the part with every underscore-and-stamp deleted. |
| Names.ParseFails | src/pcap/pcap_filename_parser.py:23-23 | A name raises if and only if it has no dot. |
| Names.RepeatedStampIsLost | src/pcap/pcap_filename_parser.py:25-25 | A module ending in the file's own stamp is not recovered. |
| Names.SplitNameChangesModule | src/app/normalizer/process/module/module.py:205-217 | Parsing a split output name never yields the module it was built from (21 characters were added, a multiple of 15 is deleted). |
| Names.SourceIsNoSplitOutput | src/app/normalizer/process/module/module.py:134-135 | A source file never has the name of one of its pieces, so removing it deletes no piece. |
| Names.PairKeyInjective | src/app/normalizer/process/module/module.py:227-231 | Pair keys are equal if and only if vehicle, module and capture second are. |
| Names.ObjectsInjective | src/app/normalizer/process/module/module.py:219-225 | Object names of one kind are equal if and only if vehicle, module and second are, and a MID object never has the name of a HEAD/TAIL object. |
| Names.StampPathsAre | src/app/normalizer/process/module/module.py:219-244 | Object names, merge outputs and pair keys segment by segment: root, vehicle, lower-case sensor type of the upper-case module, module, the digits of date, hour and minute of the packets, and `module_split_label.pcap` for a MID object, `module_label.pcap` otherwise; a key is vehicle and `module_label`. |
| Names.LocalPathsAre | src/app/normalizer/process/module/module.py:193-217 | Downloads and pieces segment by segment: the same directories made of the file's own name, then that name or `module_split_label.pcap`. |
| Names.OutPathIsNotLocal | src/app/normalizer/process/module/module.py:233-244 | A merge output is never a source or a piece, so no merge writes its own input. |
| Names.ParsedModuleIsFree | src/pcap/pcap_filename_parser.py:23-30 | A parsed module has no dot, and no field of a file name has a slash. |
| Text.SplitJoin | src/app/normalizer/process/module/module.py:107-107 | A path splits back into the segments it was joined from. |
| Text.DeleteLength | src/pcap/pcap_filename_parser.py:25-25 | Replacing by nothing removes a multiple of the pattern's length, and nothing if zero. |
| Text.DeleteInside | src/pcap/pcap_filename_parser.py:25-25 | A pattern that also occurs before the end is removed there too, so the rest is shorter than the head. |
| Text.DeleteIs | src/pcap/pcap_filename_parser.py:25-25 | Without an occurrence nothing changes; otherwise the first occurrence goes and what follows it is treated alike. |
| Text.JoinSplit | scripts/upload_raw_to_s3.py:81-81 | Splitting at slashes loses nothing: joining gives the string back. |
| Text.CaseOfChar | scripts/upload_raw_to_s3.py:78-79 | Upper and lower case map the two alphabets to each other letter for letter and keep everything else. |
| Text.CaseByChar | scripts/upload_raw_to_s3.py:78-79 | Changing the case of a string changes it character by character. |
| Uploader.FirstSixDigitsFound | scripts/upload_raw_to_s3.py:73-76 | The time is the leftmost run of six digits, and the file is skipped exactly when there is none. |
| Uploader.MappingRoundTrip | scripts/upload_raw_to_s3.py:67-81 | From a mapped path with an eight-digit date the worker recovers the upper-cased vehicle, and the name parser module, date and time if and only if the module is dot-free and free of its stamp. |
| Uploader.MappingIs | scripts/upload_raw_to_s3.py:67-81 | A path is mapped if and only if it has four segments and six digits occur in the last one; the key is the prefix, the date folder, the upper-cased vehicle and the name made of the upper-cased module, the date and the leftmost six digits. |
| Pipeline.PlanIsLoose | src/app/normalizer/process/module/module.py:193-244 | The jobs made from any listed files meet every condition the protocol theorems ask of a plan, except private piece paths. |
| Pipeline.PlanIsGoodIff | src/app/normalizer/process/module/module.py:193-244 | They meet that one as well if and only if no two files of one minute have a second in common. |
| Pipeline.PathsPrivateIffSeparate | src/app/normalizer/process/module/module.py:193-217 | No two of all sources, pieces and merge outputs of a cycle that could meet share a path, if and only if no two files of one minute have a second in common. |
| Pipeline.PiecePathsCollideIff | src/app/normalizer/process/module/module.py:213-217 | Pieces of two files share a local path if and only if the files' names show the same minute of the same module and the pieces the same second. |
| Pipeline.PiecesCompared | src/app/normalizer/process/module/module.py:164-177 | Equal keys imply equal merge output and object name, so taking the first item's paths does not depend on arrival order; equal object names imply equal key and kind. |
| Pipeline.TemplatePath | src/app/normalizer/process/module/module.py:213-217 | Filling the output template with a label gives the path the job expects the piece at. |
| Pipeline.OrderMembers | src/app/normalizer/process/module/module.py:112-113 | The worker's order lists every second of the file exactly once, the inner ones first. |
| Pipeline.SplitStepPieces | src/app/normalizer/process/module/module.py:126-132 | The job's pieces are those split_once reports, in the worker's order, MID exactly when uploaded by the worker, each with the content of its second. |
| Reader.PcapReader.Read | src/pcap/reader/single.py:47-85 | The pool grows by exactly the packets the read function gives, an unknown link type raises, and only if a body would be parsed. |
| Reader.PcapReader.NextPacket | src/pcap/body/pcap_body_factory.py:39-66 | One header and body are consumed and returned, or the reader stops: at the end of the file, at length zero, at an empty body. |
| Reader.PcapReader.ReadHeader | src/pcap/headers/packet_header.py:17-26 | Four reads give the header at the position, short fields included, or none at the end of the file. |
| Reader.ParsersAgree | src/pcap/reader/single.py:54-83 | If captured and original lengths agree and are positive and the link type is known, the reader yields exactly the splitter's records in order, and one short packet more exactly when the last payload is cut off but not empty; a cut-off header yields none. |
| Reader.FilterCommutes | src/pcap/reader/single.py:73-81 | A filtered read is the unfiltered read less the packets for which the filter is true, numbered from 1: dropped packets still move the clock. |
| Reader.FilterDrops | src/pcap/reader/single.py:42-45 | No packet for which the filter function is true is kept, and the headers and bodies kept are in order exactly those read for which it is false. |
| Reader.RawIs | src/pcap/body/pcap_body_factory.py:44-52 | A body is as many bytes as the last header field says, or as are left, whatever the captured length; a field of zero or nothing left stops the reader; the next packet starts right behind. |
| Reader.BodyIs | src/pcap/body/pcap_body_factory.py:54-66 | A body is UDP if and only if it has a byte 23, 25 or 29, by link type, and that byte is 17; otherwise TCP. |
| Reader.LinkTypeIs | src/pcap/headers/file_header.py:27-27 | The link type is the 32-bit number at byte 20 of the file, and known exactly if it is 1, 113 or 276. |
| Reader.OffsetsTelescope | src/pcap/time_info.py:35-55 | In each file the offsets up to a packet add up to its accumulated offset, its time since the file's first packet. |
| Reader.MultiPcapReader.Read | src/pcap/reader/multi.py:22-31 | The origin is fixed by the first packet kept by the first read that kept any, and not changed afterwards. |
| Reader.WorldOffsetsIffOriginShared | src/pcap/reader/multi.py:22-31 | Over any sequence of reads all world offsets count from the shared origin if and only if, in the first file that yields a packet, the packet kept first has the capture time of the packet read first. |
| Reader.UnfilteredOriginShared | src/pcap/reader/multi.py:22-31 | Without filters every packet's world offset is its capture time minus that of the first packet of all files, empty files included. |
| FloatTimeline.DifferenceIsClose | src/pcap/time_info.py:42-49 | For all 32-bit fields the double difference of two double stamps is within 1.5 microseconds of the exact one, and equals it in whole microseconds when both packets were captured before 2038. |
| FloatTimeline.TimeInfoIsClose | src/pcap/time_info.py:35-55 | The same for every field of the time information, with or without previous, first and world reference. |
| FloatTimeline.ReadIsClose | src/pcap/reader/single.py:66-83 | The times the source computes in doubles over a read with any filter are, packet by packet, that close to the exact ones of Reader, dropped packets moving the clock. |

## Left out

- Redis polling, S3 clients, notifiers, configuration, process spawning, sleeps, logging and directory creation: plumbing without a property of its own; an upload or a download is atomic and may fail.
- JSON encoding of messages and the message registry: messages are values here, and an unexpected message type cannot occur.
- Selecting the files of a request (listing, vehicle and device filter, skipping of temporary files): a cycle is modelled for every list of files.
- Runs in which the drain loop is stopped or the manager raises are not followed further than Raised.RaiseCanMixCycles.
- Process death: a worker that dies between popping a job and reporting it leaves the counter above zero for good.
- Order of records in a merged object: pieces are merged in the order in which their messages arrive, so a group is exact as a multiset, not as a sequence.
- Order of the sweep: any order of the remaining keys; the source takes insertion order.
- Reader.OffsetsTelescope: is about exact microseconds; the source's double offsets are each within 1.5 microseconds of these (FloatTimeline.ReadIsClose), so their sum need not equal the accumulated double.
- Reader.WorldOffsetsIffOriginShared: is about exact microseconds, with the same bound to the doubles.
- Reader.UnfilteredOriginShared: is about exact microseconds, with the same bound to the doubles.
- EndToEnd.SecondGroupedIff: says nothing of a second that files of one minute share and that is not exclusive: more than two pieces, or a MID piece, then meet at one path or key, and which content ends up in the object depends on the interleaving as well.
- Chain.GroupSurvivesIff: asks that the key's own pieces share no path in the last cycle; Requests.LastRequestDecides covers shared ones as well.
- Field extraction from Ethernet, SLL, IP, UDP and TCP bodies, and registration of further body classes: only the bytes consumed, the class chosen and the stop condition matter to the reader.
- Locking of the packet pool: the pool is a sequence.
- Splitter.LocalPcapSplitter.MergePcapFiles: does not say what is written when the output is one of the inputs, since that depends on buffering; Names.OutPathIsNotLocal shows that the callers never do this.
- Manager.NormalizerManager.RunCycle: takes the messages in the order in which they are delivered as a parameter, the polling of an empty mailbox being a stutter, and ends when they run out before the counter is zero; workers taking jobs meanwhile are not part of it; it requires merge outputs apart from the mailed pieces, which Pipeline.PlanIsLoose proves of every plan.
- Worker.ActionIsSteps: is about a job whose steps all succeed; Worker.FailureIsSteps is about the others.
- Daylight saving.
