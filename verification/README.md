# A verified model of the app's storage engine and its Protocol Buffers codec

The iOS app carries two libraries whose correctness everything else rests on: LevelDB, an
embedded key-value store, and nanopb, a descriptor-driven encoder and decoder for the Protocol
Buffers wire format.  This project models the hard parts of both in Dafny and proves what they are
for.

`dafny verify dfyconfig.toml` checks all of it.

## LevelDB

A table, a memtable and a level are finite sets of entries (user key, sequence number, kind,
value).  Keys are integers: a key's rank under the user's comparator.

* **The data** (`Entries`, `Versions`, `VersionEdits`).  What it means to read a flat history at a
  sequence number, how the layered read finds the same answer, and what flushes, compactions and
  trivial moves do to a version.  A set of entries *covers* a history for the sequence numbers in a
  range if whatever is missing from it is invisible there; the two drop rules of compaction are
  shown to keep the cover, including the tombstone that is dropped because everything behind it is
  dropped as well.
* **The compaction loop** (`Compaction`), the **writer queue** (`Writers`, `WriteQueue`) and
  **making room for a write** (`WriteRoom`) are imperative, as in the source; they are tied to the
  actions of the state machine (`WritePath`, `WriteRoom`, `Guarantees.LoopEnablesCommit`).
* **The engine** (`Engine`) is a state machine.  One action is one stretch of code run with the
  mutex held, or one effect a thread has while it has released the mutex.  Writers, readers with
  pinned memtables and versions, snapshots, flushes (also those that interrupt a compaction),
  compactions, the MANIFEST, the logs, background errors, shutdown and crashes can interleave in
  every way the mutex allows.  `Invariant` says what holds at every mutex release; `WriterSteps`,
  `ReaderSteps`, `BackgroundSteps` and `InstallSteps`, over `Frames`, show that each action keeps it.
* **Crashes and recovery** (`Durability`, `Recovery`).  The process may die in any state, also in the
  middle of garbage collection, of writing a table, or of an earlier recovery, leaving half-written
  and orphaned tables and a new empty log behind.  Recovery is a sequence of actions of its own:
  replay the logs table by table, make the new log, commit the edit, open.  `Durability.Sound` says
  what a disk must hold for it; it holds of every reachable disk, whether the database is open or not.
* **Runs** (`Actions`, `Runs`, `Opening`) are sequences of all these actions from a new database on, and
  `Guarantees` draws the conclusions: stable snapshots, reads that answer from the moment they
  began, group commit in queue order, atomic batches, durable syncs, no published write lost from
  disk or from what is read across any number of crashes, file collection that never removes a
  needed file, and no stranded writer.  `Clients` tells it in terms of what callers did: the
  operation written last is read back, a snapshot shows what was published when it was taken.
  `Effects` says what sets the flags, what starts when and where tables go, and `Progress` that
  nothing ever gets stuck: from every reachable state of an open database every queued write can be
  brought to an end, and as long as nothing has failed so can all background work.
* **Files** (`FileName`, `ObsoleteFiles`, `ReplayLogs`).  Names of database files, their parser, the
  loop that deletes obsolete files by name, and the recovery code that finds and replays the logs;
  the last two are tied to the state machine's own notions: `ReplayLogs.OpenDatabase` shows that what
  the recovery code does is a run of the machine that ends with an open database.

## nanopb

* **Integers** (`Bits`, `Varint`, `ZigZag`).  Words are natural numbers with bitwise operators
  defined digit by digit.  `Varint` gives the exact set of 64-bit numbers whose encoding the 32-bit
  decoder accepts; `ZigZag` shows the complement form used by nanopb equal to the xor form used by
  the Objective-C runtime.
* **Descriptors and messages** (`Descriptors`), **what the encoder writes** (`Encoding`) and **what
  the decoder makes of any byte string** (`Decoding`), as functions.
* **The code** (`OutputStream`, `Encoder`, `Cursor`, `SeenBits`, `InputStream`, `Decoder`,
  `Pointers`).  Streams are classes over byte arrays; the two-pass submessage encoder, the nested
  substreams, the wrapping field cursor, the fixed-count tracker and the words of required-field
  bits are written out and proved to compute those functions.
* **The wire format in plain numbers** (`WireForm`), apart from the constants encoder and decoder
  share: tags, bytes of every kind of value, presence, skipping, what becomes of input no encoder of
  this kind writes.
* **What it is for** (`Scalars`, `Merging`, `ReadBack`, `Combining`, `Concatenation`,
  `RequiredFields`, `RoundTrips`, `Occupied`).  One theorem says that decoding an encoded message,
  by any compatible reader and into any struct, is exactly merging it.  Round trip, skipping of unknown
  fields, concatenation and canonical encoding follow, and what an occupied struct keeps at every depth.

Two properties turned out to hold under a condition only, and are stated with it.  A string that
fills its buffer encodes but does not decode, since the decoder wants room for the terminator
(`RoundTrips.FullStringIsLost`): the round trip holds exactly when every string sent is shorter than
its buffer (`RoundTrips.RoundTripTheorem`).  The scan for missing tables at recovery looks at file
numbers and not at file types, so a log can stand in for an absent table
(`ReplayLogs.WrongTypeStandsIn`): it finds exactly the absent tables if and only if no file of another
type carries an absent table's number (`ReplayLogs.ScanIsExact`).

Where the code and a comment differ, the model follows the code: the comment above `ParseFileName`
does not list names ending in `.dbtmp`, which the parser accepts.

## Model

| member | source | states |
|---|---|---|
| Entries.CoverRead | sopep_app-main/ios/Pods/leveldb-library/db/db_impl.cc:929-963 | if every history entry missing from a set of entries is hidden by a newer one, or is a tombstone with nothing older left in the set, then reads at the covered sequence numbers agree with the history |
| Entries.ReadIgnoresNewer | sopep_app-main/ios/Pods/leveldb-library/db/db_impl.cc:1104-1110 | entries newer than the sequence number of a read do not change its answer |
| Versions.Level0GetIsNewest | sopep_app-main/ios/Pods/leveldb-library/db/db_impl.cc:1126-1134 | searching level-0 files from the newest number down finds the newest entry of the key they hold at or below the snapshot |
| Versions.GetRefinesFlatRead | sopep_app-main/ios/Pods/leveldb-library/db/db_impl.cc:1104-1135 | if, per key, shallower layers are newer, the first hit of memtable, immutable memtable, level 0 and deeper levels, tombstones included, is the newest operation on the key at or below the snapshot over all layers together |
| VersionEdits.FlushKeepsOrder | sopep_app-main/ios/Pods/leveldb-library/db/db_impl.cc:517-526 | a flushed memtable placed at a level no shallower level overlaps keeps shallower-is-newer |
| VersionEdits.CompactionKeepsOrder | sopep_app-main/ios/Pods/leveldb-library/db/db_impl.cc:860-876 | replacing a compaction's inputs by its outputs one level down keeps shallower-is-newer |
| VersionEdits.DroppedTombstoneIsBare | sopep_app-main/ios/Pods/leveldb-library/db/db_impl.cc:946-960 | behind a tombstone dropped at its base level nothing older of its key remains anywhere in the new version |
| VersionEdits.CompactionKeepsCover | sopep_app-main/ios/Pods/leveldb-library/db/db_impl.cc:929-963 | installing a compaction's result leaves every read at or above its smallest snapshot with the same history |
| VersionEdits.MoveKeepsOrder | sopep_app-main/ios/Pods/leveldb-library/db/db_impl.cc:718-727 | a trivial move keeps shallower-is-newer and the contents |
| Compaction.CompactionState.DoCompactionWork | sopep_app-main/ios/Pods/leveldb-library/db/db_impl.cc:906-1009 | on success the output files are non-empty, concatenate to exactly what the drop rules retain and record their first and last key; no file was full before its last entry, every file but the last is full or ends just before a position where a stop is due, no file goes on over such a position, and each was opened and finished without an error; on any failure, a shutdown included, they hold a prefix of what is retained; it succeeds if every file operation does and nobody shuts down |
| Compaction.CompactionState.HandleEntry | sopep_app-main/ios/Pods/leveldb-library/db/db_impl.cc:920-996 | one turn of the loop moves the entry to the end of the output or drops it, as the rules say, and updates the per-key memory |
| Compaction.CompactionState.Emit | sopep_app-main/ios/Pods/leveldb-library/db/db_impl.cc:974-996 | a kept entry goes to the end of the open file, a new file being opened first if there is none, and the file is closed exactly if it is full then |
| Compaction.AllCut | sopep_app-main/ios/Pods/leveldb-library/db/db_impl.cc:921-996 | in the fold that specifies the loop, no file is full before its last entry, every file but the last is full or ends where a stop is due, and no file goes on over a stop |
| Compaction.CompactionState.Append | sopep_app-main/ios/Pods/leveldb-library/db/db_impl.cc:976-986 | the entry goes to the end of the last file, whose recorded range is extended to it |
| Compaction.CompactionState.Add | sopep_app-main/ios/Pods/leveldb-library/db/db_impl.cc:982-986 | only the last output changes: its contents, its largest key and, for a first entry, its smallest key |
| Compaction.Decide | sopep_app-main/ios/Pods/leveldb-library/db/db_impl.cc:929-963 | the decision variables of one turn are those of the fold that specifies the loop |
| Compaction.RetainIsRetained | sopep_app-main/ios/Pods/leveldb-library/db/db_impl.cc:929-963 | on sorted, parseable input the loop keeps exactly the entries that are neither hidden at or below the smallest snapshot nor base-level tombstones there |
| Compaction.RetainIsExact | sopep_app-main/ios/Pods/leveldb-library/db/db_impl.cc:929-963 | every entry above the smallest snapshot survives, and at most one entry per key at or below it |
| Compaction.RetainIsIdempotent | sopep_app-main/ios/Pods/leveldb-library/db/db_impl.cc:929-963 | a second pass with the same predicates drops nothing |
| Compaction.CorruptKeysSurvive | sopep_app-main/ios/Pods/leveldb-library/db/db_impl.cc:931-935 | keys that do not parse are never dropped, and what follows them is decided as at the start |
| Compaction.FilesHoldRetained | sopep_app-main/ios/Pods/leveldb-library/db/db_impl.cc:860-876 | the finished files, taken as sets of entries, are a result the version edit accepts |
| Writers.GroupIsBounded | sopep_app-main/ios/Pods/leveldb-library/db/db_impl.cc:1267-1292 | the summed batches of a group are at most 131072 bytes more than a first batch of up to 131072, and at most 1048576 bytes, or the first batch alone, otherwise |
| Writers.GroupIsLongest | sopep_app-main/ios/Pods/leveldb-library/db/db_impl.cc:1267-1300 | a group ends only with the queue, or before a writer whose sync it could not honour or whose batch would exceed that limit |
| Writers.NoSyncRidesWithoutSync | sopep_app-main/ios/Pods/leveldb-library/db/db_impl.cc:1282-1285 | a group led by a writer without sync has no member with sync |
| WriteQueue.Queue.BuildBatchGroup | sopep_app-main/ios/Pods/leveldb-library/db/db_impl.cc:1260-1306 | the group is the longest admissible prefix of the queue, its operations are the members' in queue order, and the shared batch is empty or holds the whole group |
| WriteQueue.Queue.Dismiss | sopep_app-main/ios/Pods/leveldb-library/db/db_impl.cc:1239-1248 | exactly the group leaves the queue; every member but the leader, and nobody else, is marked done with the leader's status; the shared batch is cleared |
| WriteQueue.Queue.Join | sopep_app-main/ios/Pods/leveldb-library/db/db_impl.cc:1185-1192 | a writer joins at the end of the queue |
| WriteRoom.Room.MakeRoomForWrite | sopep_app-main/ios/Pods/leveldb-library/db/db_impl.cc:1310-1370 | one call sleeps at most once and switches memtables at most once; when it must sleep, must wait, must fail or may go on at once; no memtable is replaced before it has been flushed; it takes the state machine along a path of one step for each pause, in which only others move, and one Switch for each switch, and the room stays the machine's |
| WriteRoom.SwitchTracks | sopep_app-main/ios/Pods/leveldb-library/db/db_impl.cc:1345-1366 | the switch of memtable and log is the state machine's |
| WriteRoom.PauseTracks | sopep_app-main/ios/Pods/leveldb-library/db/db_impl.cc:1325-1345 | a pause brings the room from one state of the machine to the next |
| WriteRoom.InterludesFit | sopep_app-main/ios/Pods/leveldb-library/db/db_impl.cc:1325-1345 | whatever others may do in the pauses of a call can happen to the machine |
| WritePath.Lead | sopep_app-main/ios/Pods/leveldb-library/db/db_impl.cc:1204-1214 | the group the queue's code builds is one the state machine may begin with, with the same operations |
| WritePath.Leave | sopep_app-main/ios/Pods/leveldb-library/db/db_impl.cc:1236-1248 | dismissing the group leaves the queue the state machine goes on with, and tells the members the recorded outcome |
| WritePath.OthersPause | sopep_app-main/ios/Pods/leveldb-library/db/db_impl.cc:1325-1345 | in every run, what the other threads do while the head of the queue waits amounts to one interlude, and it is still the head that waits |
| WriterSteps.EnqueueKeeps | sopep_app-main/ios/Pods/leveldb-library/db/db_impl.cc:1185-1192 | joining the queue keeps the invariant |
| WriterSteps.SwitchKeeps | sopep_app-main/ios/Pods/leveldb-library/db/db_impl.cc:1345-1366 | switching to a new log and memtable keeps the invariant: the old memtable becomes the immutable one and a job is scheduled |
| WriterSteps.BeginGroupKeeps | sopep_app-main/ios/Pods/leveldb-library/db/db_impl.cc:1204-1214 | taking a group and releasing the mutex keeps the invariant |
| WriterSteps.AppendLogKeeps | sopep_app-main/ios/Pods/leveldb-library/db/db_impl.cc:1215 | appending the group's record to the log keeps the invariant |
| WriterSteps.AppendLogFailsKeeps | sopep_app-main/ios/Pods/leveldb-library/db/db_impl.cc:1215-1225 | a failed append keeps the invariant |
| WriterSteps.SyncLogKeeps | sopep_app-main/ios/Pods/leveldb-library/db/db_impl.cc:1217-1222 | a log Sync keeps the invariant and makes the records before it durable |
| WriterSteps.SyncLogFailsKeeps | sopep_app-main/ios/Pods/leveldb-library/db/db_impl.cc:1217-1232 | a failed Sync keeps the invariant: what was logged may reappear after a crash, and later writes fail |
| WriterSteps.InsertKeeps | sopep_app-main/ios/Pods/leveldb-library/db/db_impl.cc:1223-1225 | inserting one operation of the group into the memtable keeps the invariant, concurrent readers included |
| WriterSteps.PublishKeeps | sopep_app-main/ios/Pods/leveldb-library/db/db_impl.cc:1236-1248 | publishing LastSequence and dismissing the group keeps the invariant |
| WriterSteps.FinishFailedKeeps | sopep_app-main/ios/Pods/leveldb-library/db/db_impl.cc:1227-1248 | a failed group uses up its sequence numbers and leaves without being applied |
| WriterSteps.LeaveAloneKeeps | sopep_app-main/ios/Pods/leveldb-library/db/db_impl.cc:1201-1204 | a writer that got no room, or had no batch, leaves alone |
| ReaderSteps.TakeSnapshotKeeps | sopep_app-main/ios/Pods/leveldb-library/db/db_impl.cc:1166-1169 | taking a snapshot while a compaction runs keeps it at or above that compaction's smallest snapshot |
| ReaderSteps.ReleaseSnapshotKeeps | sopep_app-main/ios/Pods/leveldb-library/db/db_impl.cc:1171-1174 | releasing a snapshot keeps the invariant |
| ReaderSteps.StartGetKeeps | sopep_app-main/ios/Pods/leveldb-library/db/db_impl.cc:1103-1117 | a Get pins memtables and version at a live snapshot or at LastSequence |
| ReaderSteps.FinishGetKeeps | sopep_app-main/ios/Pods/leveldb-library/db/db_impl.cc:1138-1144 | a finished Get drops its pins and may request a compaction |
| BackgroundSteps.GiveUpKeeps | sopep_app-main/ios/Pods/leveldb-library/db/db_impl.cc:669-686 | a scheduled job that finds nothing to do ends, and pending work is rescheduled |
| BackgroundSteps.StartFlushKeeps | sopep_app-main/ios/Pods/leveldb-library/db/db_impl.cc:497-505 | a flush reserves its file number before it releases the mutex, inside a compaction too |
| BackgroundSteps.FinishBuildKeeps | sopep_app-main/ios/Pods/leveldb-library/db/db_impl.cc:506-554 | the flushed table leaves pending_outputs_ before its edit is committed, and nothing can collect it in between |
| BackgroundSteps.StartCompactionKeeps | sopep_app-main/ios/Pods/leveldb-library/db/db_impl.cc:887-897 | a compaction fixes its smallest snapshot when it starts |
| BackgroundSteps.OpenOutputKeeps | sopep_app-main/ios/Pods/leveldb-library/db/db_impl.cc:786-809 | a compaction output is reserved before it is written |
| BackgroundSteps.CommitCompactionKeeps | sopep_app-main/ios/Pods/leveldb-library/db/db_impl.cc:860-876 | handing a finished compaction's edit over keeps the invariant |
| BackgroundSteps.AbortCompactionKeeps | sopep_app-main/ios/Pods/leveldb-library/db/db_impl.cc:769-784 | a failed compaction drops its outputs and records the error |
| BackgroundSteps.PersistKeeps | sopep_app-main/ios/Pods/leveldb-library/db/db_impl.cc:554 | the edit reaching the MANIFEST keeps the invariant, although memory does not know of it yet |
| InstallSteps.PlanSurvivesFlush | sopep_app-main/ios/Pods/leveldb-library/db/db_impl.cc:908-917 | a flush installed in the middle of a compaction leaves the compaction's plan valid |
| InstallSteps.CollectSpares | sopep_app-main/ios/Pods/leveldb-library/db/db_impl.cc:223-276 | collecting obsolete files spares every table in use or being written and every log recovery would replay |
| InstallSteps.InstallKeeps | sopep_app-main/ios/Pods/leveldb-library/db/db_impl.cc:554-566 | installing an edit, collecting garbage and ending the job keep the invariant |
| Frames.ScheduleKeeps | sopep_app-main/ios/Pods/leveldb-library/db/db_impl.cc:648-663 | ending a mutex-held region with MaybeScheduleCompaction leaves no work without a job |
| Durability.ReplayedRecords | sopep_app-main/ios/Pods/leveldb-library/db/db_impl.cc:323-360 | the logs from the manifest's number on, in order of number, hold exactly the immutable memtable, the memtable and what was logged but not applied, in ascending sequence order |
| Durability.CrashIsSound | sopep_app-main/ios/Pods/leveldb-library/db/db_impl.cc:317-323 | at every mutex release, an edit on the MANIFEST but not yet in memory included, the tables and logs on disk stand for the published history and what was logged beyond it |
| Durability.SparesKeepsSound | sopep_app-main/ios/Pods/leveldb-library/db/db_impl.cc:242-270 | half-written and orphaned tables, logs already deleted and a new empty log change nothing of that |
| Durability.StoredSurvives | sopep_app-main/ios/Pods/leveldb-library/db/db_impl.cc:317-323 | so every entry of that history is in the needed tables and logs, or a newer operation on its key is, or it was deleted and the key is gone |
| Recovery.AddChunksKeepsOrder | sopep_app-main/ios/Pods/leveldb-library/db/db_impl.cc:405-487 | the level-0 tables a replay makes, numbered as the records come, keep shallower-is-newer and hold exactly the replayed records |
| Recovery.MaxSequenceBounds | sopep_app-main/ios/Pods/leveldb-library/db/db_impl.cc:418-422 | the recovered LastSequence bounds every replayed sequence number |
| Recovery.CrashKeeps | sopep_app-main/ios/Pods/leveldb-library/db/db_impl.cc:280-369 | dying at any point, while open or at any step of a recovery, leaves a disk from which recovery can start |
| Recovery.BuildChunkKeeps | sopep_app-main/ios/Pods/leveldb-library/db/db_impl.cc:491-530 | a table written during replay, at a number an earlier abandoned recovery may have used, endangers nothing on disk |
| Recovery.MakeLogKeeps | sopep_app-main/ios/Pods/leveldb-library/db/db_impl.cc:1483-1496 | the new log made before the edit is committed does not disturb a later replay |
| Recovery.CommitOpenKeeps | sopep_app-main/ios/Pods/leveldb-library/db/db_impl.cc:1498-1502 | the edit of a finished replay, once on the MANIFEST, describes an engine that satisfies the whole invariant |
| Recovery.OpenKeeps | sopep_app-main/ios/Pods/leveldb-library/db/db_impl.cc:1503-1506 | after collecting garbage and scheduling work the open database satisfies the whole invariant |
| ReplayLogs.Opener.RecoverLogFile | sopep_app-main/ios/Pods/leveldb-library/db/db_impl.cc:405-487 | every record of a log ends up in exactly one table, in order; a table is written exactly when the memtable has outgrown the write buffer, or at the end of the log; max_sequence and save_manifest are exact; an error means a table could not be built |
| ReplayLogs.Opener.ReplayAll | sopep_app-main/ios/Pods/leveldb-library/db/db_impl.cc:350-366 | logs are replayed one after the other, a log that cannot be opened being an error or skipped as paranoid_checks says; file numbers stay above every log number, and LastSequence is raised to the largest sequence seen |
| ReplayLogs.FindLogs | sopep_app-main/ios/Pods/leveldb-library/db/db_impl.cc:334-342 | exactly the live numbers that no file name carries are reported missing, and exactly the needed logs are listed |
| ReplayLogs.WrongTypeStandsIn | sopep_app-main/ios/Pods/leveldb-library/db/db_impl.cc:334-338 | with only 000005.log in the directory, live table 5 is absent and nothing is reported missing |
| ReplayLogs.ScanIsExact | sopep_app-main/ios/Pods/leveldb-library/db/db_impl.cc:334-346 | the scan reports exactly the absent tables if and only if no file of another type carries an absent table's number |
| ReplayLogs.Sort | sopep_app-main/ios/Pods/leveldb-library/db/db_impl.cc:349-350 | the logs are put in ascending order, none lost or repeated |
| ReplayLogs.Recover | sopep_app-main/ios/Pods/leveldb-library/db/db_impl.cc:323-369 | missing files are reported exactly when a live number has no file; otherwise the needed logs are replayed in ascending order into numbered tables and LastSequence is raised; a directory that lists the logs once each gives a replay in the sense of the state machine |
| Opening.ReplayTakesTheSteps | sopep_app-main/ios/Pods/leveldb-library/db/db_impl.cc:350-366 | a replay goes on with its next table, or with the new log, as one step of the state machine |
| Opening.ReplayOpens | sopep_app-main/ios/Pods/leveldb-library/db/db_impl.cc:350-366 | any replay of a dead database's logs is a run of the state machine, one table after the other, the new log, the edit, and an open database with the replayed tables, the new log, the recovered LastSequence and the same history |
| ReplayLogs.OpenDatabase | sopep_app-main/ios/Pods/leveldb-library/db/db_impl.cc:1478-1506 | recovery from a directory that shows the disk, unless a table cannot be built, ends with an open database, and what its loops did is that run of the state machine |
| ReplayLogs.ShowsLists | sopep_app-main/ios/Pods/leveldb-library/db/db_impl.cc:334-342 | a directory that shows the disk lists each log once |
| ReplayLogs.RecoveryFindsItsFiles | sopep_app-main/ios/Pods/leveldb-library/db/db_impl.cc:334-346 | whenever the process dies, recovery finds every table of the MANIFEST and its listing of the logs is replayed as the state machine does it |
| Runs.StepKeeps | sopep_app-main/ios/Pods/leveldb-library/db/db_impl.cc:640-1370 | every action keeps the invariant, of an open database and of one that is being recovered |
| Runs.RunKeeps | sopep_app-main/ios/Pods/leveldb-library/db/db_impl.cc:640-1370 | the invariant holds in every state of every run, with crashes anywhere, recovery included |
| Guarantees.ReadNow | sopep_app-main/ios/Pods/leveldb-library/db/db_impl.cc:1104-1135 | a read at a live snapshot or at LastSequence answers from the published history |
| Guarantees.SnapshotIsStable | sopep_app-main/ios/Pods/leveldb-library/db/db_impl.cc:890-897 | in every interleaving, a live snapshot reads for every key what it read before |
| Guarantees.GetReadsItsBeginning | sopep_app-main/ios/Pods/leveldb-library/db/db_impl.cc:1103-1135 | a Get in progress answers from the history as it was when it began |
| Guarantees.PublishedSurvives | sopep_app-main/ios/Pods/leveldb-library/db/db_impl.cc:317-360 | across any number of crashes and abandoned recoveries, every published entry stays in the needed tables and logs, unless overwritten by a newer one there or deleted with its key gone; nothing foreign is stored; an open database holds it in the same sense and reads, for every key, the history it belongs to |
| Guarantees.AcknowledgedSurvives | sopep_app-main/ios/Pods/leveldb-library/db/db_impl.cc:1236-1255 | the same for every operation of a group that reported success; while no later operation on its key is published, a read answers with it |
| Clients.WriteIsReadBack | sopep_app-main/ios/Pods/leveldb-library/db/db_impl.cc:1204-1255 | an acknowledged operation that is the last on its key, counted in the order of the groups, of the members of a group and of the operations of a batch, is what a Get answers, its value or that there is none if it was a deletion, after any number of crashes, until another operation on the key is published |
| Clients.SnapshotSeesPublished | sopep_app-main/ios/Pods/leveldb-library/db/db_impl.cc:1166-1169 | a new snapshot joins the live ones, sees everything published when it was taken, and as long as it lives every key reads through it as the published history read at LastSequence then |
| Clients.SnapshotsLeaveByRelease | sopep_app-main/ios/Pods/leveldb-library/db/db_impl.cc:1166-1174 | releasing a snapshot takes away that one and no other, and nothing else an open database does takes any away |
| Clients.GetAnswersItsQuestion | sopep_app-main/ios/Pods/leveldb-library/db/db_impl.cc:1100-1145 | a Get asks for its own key at the snapshot it was given, or else at LastSequence, and until it is finished it answers from the history as it was when it started |
| Clients.WriterIsNotForgotten | sopep_app-main/ios/Pods/leveldb-library/db/db_impl.cc:1185-1255 | whoever joins the queue is, until the database dies, among those that have left it or those that wait, at the place it had when it came |
| Effects.ErrorMeansFailure | sopep_app-main/ios/Pods/leveldb-library/db/db_impl.cc:640-646 | while the database is open its error flag says exactly whether a flush, a commit, a compaction or the Sync of a group's record has failed |
| Effects.FailedGroupIsTold | sopep_app-main/ios/Pods/leveldb-library/db/db_impl.cc:1215-1248 | a group whose record could not be appended or synced leaves with that failure and unapplied; only the failed Sync makes the error stick |
| Effects.OpensClean | sopep_app-main/ios/Pods/leveldb-library/db/db_impl.cc:1478-1506 | a database opens without error, request or shutdown and with nothing in use, at the MANIFEST's version and LastSequence |
| Effects.StartsForAReason | sopep_app-main/ios/Pods/leveldb-library/db/db_impl.cc:648-716 | no memtable switch after an error, while another memtable waits or with twelve tables in level 0; a waiting memtable goes before every compaction; a request is never answered by a trivial move; the background thread gives up only on an error, a shutdown or nothing to compact |
| Effects.NothingStartsAnyMore | sopep_app-main/ios/Pods/leveldb-library/db/db_impl.cc:648-686 | an error or a shutdown is for good, and no flush, compaction, group or job begins after it |
| Effects.RequestIsAnsweredOnce | sopep_app-main/ios/Pods/leveldb-library/db/db_impl.cc:688-767 | a request waits until a compaction started for it is over, or there is nothing to compact, or it is taken back, and then it is gone |
| Effects.CompactsBelowOldestSnapshot | sopep_app-main/ios/Pods/leveldb-library/db/db_impl.cc:887-893 | the smallest snapshot of a compaction is the oldest live one, or LastSequence if there is none |
| Effects.TablesGoToTheirLevel | sopep_app-main/ios/Pods/leveldb-library/db/db_impl.cc:506-876 | a flush adds its table at the level chosen, a trivial move takes its input one level down, a compaction puts its outputs there in the inputs' place, and nothing else in the version changes |
| Effects.SevenLevels | sopep_app-main/ios/Pods/leveldb-library/db/dbformat.h:22-23 | in every state of every run all tables lie in levels 0 to 6 |
| Guarantees.NoWorkIsForgotten | sopep_app-main/ios/Pods/leveldb-library/db/db_impl.cc:648-663 | in no reachable state is there a memtable to flush, a request, four tables in level 0 or another level too big, and no job on the way |
| Progress.QueueCanEmpty | sopep_app-main/ios/Pods/leveldb-library/db/db_impl.cc:1185-1255 | from every reachable state of an open database some continuation empties the writer queue without new arrivals, and if nothing had failed every write in it succeeds |
| Progress.WorkCanBeDone | sopep_app-main/ios/Pods/leveldb-library/db/db_impl.cc:648-767 | from every reachable state in which nothing has failed some continuation brings the background thread to rest with nothing left to flush or compact, and the queue and the history untouched |
| Progress.MemtableCanBeFlushed | sopep_app-main/ios/Pods/leveldb-library/db/db_impl.cc:908-917 | a waiting memtable can be flushed in the middle of a compaction, which then goes on with the same job |
| Progress.CompactionCanFinish | sopep_app-main/ios/Pods/leveldb-library/db/db_impl.cc:878-1050 | a compaction can be finished from wherever it is, its inputs replaced by tables one level down |
| Progress.AnythingMayBeLeft | sopep_app-main/ios/Pods/leveldb-library/db/db_impl.cc:280-369 | a crash may leave any disk that keeps the MANIFEST, its tables and the logs it needs, a log made meanwhile being empty |
| Progress.AnyPlanCanStart | sopep_app-main/ios/Pods/leveldb-library/db/db_impl.cc:688-737 | a compaction may start on any inputs at two neighbouring levels that leave no older entry of their keys behind there |
| Guarantees.CrashIsSafe | sopep_app-main/ios/Pods/leveldb-library/db/db_impl.cc:323-366 | when the database is open again, after any number of crashes in recovery, reads see exactly the history published before the first crash plus what was logged and not applied, which is nothing if no group was in flight; LastSequence bounds it all |
| Opening.RecoveryIsPossible | sopep_app-main/ios/Pods/leveldb-library/db/db_impl.cc:1478-1506 | however the database died, some run of recovery opens it again with its history |
| Runs.NewIsSound | sopep_app-main/ios/Pods/leveldb-library/db/db_impl.cc:182-212 | the MANIFEST of a new database is one recovery can start from |
| Guarantees.ReplayIsInOrder | sopep_app-main/ios/Pods/leveldb-library/db/db_impl.cc:349-354 | in every state of every run, a replay goes through the records of the needed logs in sequence order and misses none |
| Guarantees.ImmLogIsKept | sopep_app-main/ios/Pods/leveldb-library/db/db_impl.cc:550-562 | the immutable memtable's log is not released before its table is committed |
| Guarantees.NoLiveFileIsMissing | sopep_app-main/ios/Pods/leveldb-library/db/db_impl.cc:232-276 | in no reachable state is a file missing that a version, a reader, the MANIFEST, a pending edit or a running compaction needs |
| Guarantees.SleepersAreWoken | sopep_app-main/ios/Pods/leveldb-library/db/db_impl.cc:1336-1344 | a writer waiting for the immutable memtable or for level 0 has a job coming |
| Guarantees.GroupCommit | sopep_app-main/ios/Pods/leveldb-library/db/db_impl.cc:1185-1256 | writers complete once each in queue order; groups take adjacent sequence ranges; the history is what successful groups applied |
| Guarantees.BatchesAreAtomic | sopep_app-main/ios/Pods/leveldb-library/db/db_impl.cc:1223-1236 | no snapshot or read splits a batch |
| Guarantees.SyncedIsDurable | sopep_app-main/ios/Pods/leveldb-library/db/db_impl.cc:1215-1222 | a sync write that returned success was in the log before a Sync of it |
| Guarantees.LoopEnablesCommit | sopep_app-main/ios/Pods/leveldb-library/db/db_impl.cc:1024-1029 | a successful run of the compaction loop is a result the machine may commit |
| ObsoleteFiles.Collector.DeleteObsoleteFiles | sopep_app-main/ios/Pods/leveldb-library/db/db_impl.cc:223-276 | after a background error nothing is deleted; otherwise a listed name stays exactly if it belongs to no file of the database or to one still needed, and live tables stay cached |
| ObsoleteFiles.RemainingShowsCollect | sopep_app-main/ios/Pods/leveldb-library/db/db_impl.cc:232-276 | deleting by name does to the directory what the state machine's collection does to the disk |
| ObsoleteFiles.DirectoryShows | sopep_app-main/ios/Pods/leveldb-library/db/filename.cc:20-60 | every disk of the state machine with file numbers in range is shown by the directory of its printed names |
| ObsoleteFiles.LogShows | sopep_app-main/ios/Pods/leveldb-library/db/db_impl.cc:1348-1359 | making a log adds to the directory what it adds to the disk |
| ObsoleteFiles.TableShows | sopep_app-main/ios/Pods/leveldb-library/db/db_impl.cc:491-513 | so does writing a table, over an orphan or not |
| FileName.ConsumeDecimalNumber | sopep_app-main/ios/Pods/leveldb-library/util/logging.cc:51-83 | takes the maximal run of digits, and fails exactly if there is none or its value overflows |
| FileName.ParseFileName | sopep_app-main/ios/Pods/leveldb-library/db/filename.cc:78-121 | succeeds exactly on names that mean a file of the database, with that file's number and type |
| FileName.NameIsUnambiguous | sopep_app-main/ios/Pods/leveldb-library/db/filename.cc:71-77 | a name means at most one number and type |
| FileName.PrintedNamesParse | sopep_app-main/ios/Pods/leveldb-library/db/filename.cc:20-60 | for every positive number, log, table, temp and manifest names mean the number and type they were printed for |
| FileName.PrintedNamesDiffer | sopep_app-main/ios/Pods/leveldb-library/db/filename.cc:20-60 | printed names are equal exactly if printer and number are, table names in both spellings included |
| Varint.EncodeVarintBytes | sopep_app-main/ios/Pods/nanopb/pb_encode.c:608-628 | writes the base 128 encoding into ten bytes at most |
| Varint.VarintFits | sopep_app-main/ios/Pods/nanopb/pb_encode.c:608-628 | a 64-bit number takes at most ten bytes |
| Varint.VarintRoundTrip | sopep_app-main/ios/Pods/nanopb/pb_decode.c:255-275 | decoding undoes encoding for every 64-bit number and leaves what follows |
| Varint.Varint32OfEncoded | sopep_app-main/ios/Pods/nanopb/pb_decode.c:187-247 | which encoded 64-bit numbers the 32-bit decoder accepts, exactly, each giving its low 32 bits |
| Varint.Varint32RoundTrip | sopep_app-main/ios/Pods/nanopb/pb_decode.c:187-247 | below 2^63 it accepts exactly the 32-bit numbers |
| Varint.Varint32Negative | sopep_app-main/ios/Pods/nanopb/pb_decode.c:221-229 | a sign-extended negative int32 gives its low 32 bits |
| Varint.Varint32Bound | sopep_app-main/ios/Pods/nanopb/pb_decode.c:187-247 | any accepted input gives a 32-bit number |
| Varint.Varint32TakesOddInputs | sopep_app-main/ios/Pods/nanopb/pb_decode.c:216-229 | an overlong zero is accepted, and so is a number that is no sign-extended int32 |
| Varint.SkipsEncoded | sopep_app-main/ios/Pods/nanopb/pb_decode.c:278-287 | skipping a varint passes over exactly its encoding |
| ZigZag.EncodersAgree | sopep_app-main/ios/Pods/Protobuf/objectivec/GPBUtilities_PackagePrivate.h:140-154 | the complement form and the xor form encode alike |
| ZigZag.DecodersAgree | sopep_app-main/ios/Pods/Protobuf/objectivec/GPBUtilities_PackagePrivate.h:126-138 | the complement form and the xor form decode alike |
| ZigZag.EncodesInterleaved | sopep_app-main/ios/Pods/nanopb/pb_encode.c:630-639 | 0, -1, 1, -2, ... become 0, 1, 2, 3, ... |
| ZigZag.SignedRoundTrip | sopep_app-main/ios/Pods/nanopb/pb_decode.c:1285-1297 | every signed number of the width survives |
| ZigZag.WordRoundTrip | sopep_app-main/ios/Pods/nanopb/pb_decode.c:1285-1297 | every word is the code of the number it decodes to |
| Cursor.FieldIter.constructor | sopep_app-main/ios/Pods/nanopb/pb_common.c:8-29 | a cursor starts at the first row |
| Cursor.FieldIter.Begin | sopep_app-main/ios/Pods/nanopb/pb_common.c:8-29 | back to the first row, with its offsets |
| Cursor.FieldIter.Next | sopep_app-main/ios/Pods/nanopb/pb_common.c:31-83 | on by one row or round to the first, data offset, size offset and required index staying the prefix sums of the position |
| Cursor.FieldIter.Find | sopep_app-main/ios/Pods/nanopb/pb_common.c:85-104 | ends; succeeds exactly if a non-extension row has the tag, stopping at the first such row from the old position on; otherwise ends where it began; in an empty table tag 0 finds the terminator |
| Cursor.FieldIter.CountRequired | sopep_app-main/ios/Pods/nanopb/pb_decode.c:1041-1055 | running to the end counts the required rows |
| OutputStream.OStream.Write | sopep_app-main/ios/Pods/nanopb/pb_encode.c:103-124 | all bytes are written, or none if they do not fit; a sizing stream only counts |
| OutputStream.OStream.Copy | sopep_app-main/ios/Pods/nanopb/pb_encode.c:74-84 | the bytes replace the buffer's from the stream's position on, and nothing else changes |
| OutputStream.OStream.WriteSVarint | sopep_app-main/ios/Pods/nanopb/pb_encode.c:630-639 | writes the zigzag word as a varint |
| OutputStream.OStream.WriteFixed | sopep_app-main/ios/Pods/nanopb/pb_encode.c:641-667 | writes the word lowest byte first |
| OutputStream.OStream.WriteString | sopep_app-main/ios/Pods/nanopb/pb_encode.c:709-715 | writes a length and the bytes |
| Encoder.EncodeInteger | sopep_app-main/ios/Pods/nanopb/pb_encode.c:769-833 | writes a bool or an integer field's specified bytes |
| Encoder.EncodeScalar | sopep_app-main/ios/Pods/nanopb/pb_encode.c:769-911 | writes a scalar's specified bytes, exactly when a byte array is within its capacity and they fit |
| Encoder.EncodePackedArray | sopep_app-main/ios/Pods/nanopb/pb_encode.c:162-205 | writes tag, size and values of a packed array, the size found without writing |
| Encoder.EncodeArray | sopep_app-main/ios/Pods/nanopb/pb_encode.c:144-236 | an array over its bound fails before writing; an empty one writes nothing |
| Encoder.EncodeField | sopep_app-main/ios/Pods/nanopb/pb_encode.c:341-426 | writes a field exactly when it is present under its presence rule |
| Encoder.EncodeSubmessage | sopep_app-main/ios/Pods/nanopb/pb_encode.c:717-765 | the counting pass and the writing pass agree, so the size-changed error cannot occur; the bytes are written exactly when all of them fit |
| Encoder.Encode | sopep_app-main/ios/Pods/nanopb/pb_encode.c:528-550 | writes exactly the specified encoding, exactly when the message passes the encoder's checks and bytes written plus size stay within the maximum |
| Encoder.GetEncodedSize | sopep_app-main/ios/Pods/nanopb/pb_encode.c:567-576 | succeeds exactly when encoding passes the checks, and gives the encoding's length |
| Encoding.EncToGrows | sopep_app-main/ios/Pods/nanopb/pb_encode.c:528-550 | each field's bytes lie within the whole |
| Encoding.LittleEndianRoundTrip | sopep_app-main/ios/Pods/nanopb/pb_decode.c:1299-1331 | fixed-width words survive |
| WireForm.ItemBegins | sopep_app-main/ios/Pods/nanopb/pb_encode.c:669-707 | the tag of a value is the varint of 8 times the field number plus 0 for bools and varint integers, 1 for fixed64, 2 for strings, bytes and submessages, 5 for fixed32 |
| WireForm.FieldBegins | sopep_app-main/ios/Pods/nanopb/pb_encode.c:144-236 | a packed array, which every array of numbers is, comes under 8 times the field number plus 2, with its length; any other field is its tagged values one after the other |
| WireForm.ValueBytes | sopep_app-main/ios/Pods/nanopb/pb_encode.c:583-911 | the bytes of every kind of value in plain numbers: sign extension to 64 bits, zigzag, lowest byte first, length before contents |
| WireForm.SentByPresence | sopep_app-main/ios/Pods/nanopb/pb_encode.c:240-426 | which fields are sent: required always, the others by flag, count or union, and in proto3 unless zero, empty or a submessage none of whose fields is sent |
| InputStream.IStream.ReadVarint32 | sopep_app-main/ios/Pods/nanopb/pb_decode.c:187-247 | computes the specified 32-bit decoding, end of stream told apart |
| InputStream.IStream.ReadVarint | sopep_app-main/ios/Pods/nanopb/pb_decode.c:255-275 | computes the specified 64-bit decoding |
| InputStream.IStream.ReadTag | sopep_app-main/ios/Pods/nanopb/pb_decode.c:298-319 | splits a tag; a zero tag and the end of the bytes end the message |
| InputStream.IStream.Skip | sopep_app-main/ios/Pods/nanopb/pb_decode.c:321-331 | skips a value by its wire type |
| InputStream.IStream.MakeStringSubstream | sopep_app-main/ios/Pods/nanopb/pb_decode.c:372-385 | the string becomes a stream of its own, the parent keeping exactly what follows it |
| InputStream.IStream.CloseStringSubstream | sopep_app-main/ios/Pods/nanopb/pb_decode.c:387-400 | the parent goes on after the string, whatever was left of it |
| InputStream.ReadScalar | sopep_app-main/ios/Pods/nanopb/pb_decode.c:1334-1523 | computes the specified decoding of a scalar, range checks included |
| Decoder.DecodeItem | sopep_app-main/ios/Pods/nanopb/pb_decode.c:406-483 | decodes one value into its slot: has flag, array bound, union arm |
| Decoder.DecodePackedField | sopep_app-main/ios/Pods/nanopb/pb_decode.c:420-449 | decodes a packed array until bytes or room run out, failing if bytes are left |
| Decoder.EnterField | sopep_app-main/ios/Pods/nanopb/pb_decode.c:1000-1030 | the fixed-count tracker and the required-field bits before a value |
| Decoder.CheckRequired | sopep_app-main/ios/Pods/nanopb/pb_decode.c:1057-1077 | comparing the words with all ones tests exactly whether each of the first 64 required fields was seen |
| Decoder.MarkSeen | sopep_app-main/ios/Pods/nanopb/pb_decode.c:1021-1026 | setting a bit records one more required field |
| Decoder.DecodeOne | sopep_app-main/ios/Pods/nanopb/pb_decode.c:948-1030 | one field is found by the wrapping cursor and decoded, or skipped |
| Decoder.DecodeFields | sopep_app-main/ios/Pods/nanopb/pb_decode.c:934-1082 | computes the specified decoding from whatever position the cursor was left in, and fails exactly when it does |
| SeenBits.SetBit | sopep_app-main/ios/Pods/nanopb/pb_decode.c:1021-1026 | or-ing in a shifted one sets that bit and no other |
| SeenBits.AllOnes | sopep_app-main/ios/Pods/nanopb/pb_decode.c:1057-1077 | a word without higher bits equals n ones exactly if its low n bits are set |
| RequiredFields.SuccessNeedsRequired | sopep_app-main/ios/Pods/nanopb/pb_decode.c:1041-1078 | a decode succeeds exactly if the loop did, the last fixed-count array was complete, and each of the first 64 required fields was read |
| Pointers.AllocateField | sopep_app-main/ios/Pods/nanopb/pb_decode.c:490-531 | the overflow test is exact |
| Pointers.ReadPackedPointer | sopep_app-main/ios/Pods/nanopb/pb_decode.c:595-661 | a growing packed array stays within what is allocated and below the largest count, and receives exactly the values of the string |
| WireForm.SkipsByWireType | sopep_app-main/ios/Pods/nanopb/pb_decode.c:321-331 | skipping passes a varint on wire type 0, eight bytes on 1, a string on 2, four bytes on 5, and fails on every other |
| WireForm.SkipsToTheEnd | sopep_app-main/ios/Pods/nanopb/pb_decode.c:278-287 | a skipped varint ends with its first byte below 128 |
| WireForm.NumbersTaken | sopep_app-main/ios/Pods/nanopb/pb_decode.c:1345-1428 | what becomes of any 64-bit varint, those no such encoder writes included, in a signed, unsigned or zigzag field of each size |
| WireForm.StringsTaken | sopep_app-main/ios/Pods/nanopb/pb_decode.c:1447-1570 | what becomes of any string of bytes in a bytes, string or fixed-length field; a string ends before its first NUL |
| WireForm.WordsTaken | sopep_app-main/ios/Pods/nanopb/pb_decode.c:1299-1331 | fixed-width words arrive lowest byte first |
| WireForm.PackedOrOneByOne | sopep_app-main/ios/Pods/nanopb/pb_decode.c:406-449 | an array of numbers is taken in alike whether it comes packed or value by value |
| WireForm.NothingRead | sopep_app-main/ios/Pods/nanopb/pb_decode.c:845-932 | the struct a reader starts from: initial values, flags down, arrays empty, no arm chosen; reading nothing fails exactly if a field is required |
| Scalars.ScalarReadsBack | sopep_app-main/ios/Pods/nanopb/pb_decode.c:1334-1570 | every encoded scalar decodes to itself, except a string that fills its buffer |
| Scalars.ValueIsSkipped | sopep_app-main/ios/Pods/nanopb/pb_decode.c:321-331 | skipping a value of any type consumes exactly its bytes |
| Scalars.TagReadsBack | sopep_app-main/ios/Pods/nanopb/pb_decode.c:298-319 | an encoded tag is read back |
| ReadBack.MessageReadsBack | sopep_app-main/ios/Pods/nanopb/pb_decode.c:934-1082 | decoding what was encoded, by any compatible reader into any struct, is merging it, success and failure included |
| Combining.MergedMessage | sopep_app-main/ios/Pods/nanopb/pb_decode.c:406-483 | merging succeeds exactly if arrays have room and strings fit, and combines slot by slot: last scalar wins, arrays append, submessages merge, the last union arm stays |
| Occupied.DecodedSlot | sopep_app-main/ios/Pods/nanopb/pb_decode.c:406-483 | each slot of an occupied struct a message was decoded into: a scalar sent is taken as it is, a submessage is decoded into the one already there or else into a fresh one, array items are appended and read as messages of their own, another arm of the union clears it, and what is not sent stays |
| Occupied.UnsentSlotsStay | sopep_app-main/ios/Pods/nanopb/pb_decode.c:1525-1547 | whatever the message does not send stays as it was at every depth, through required, singular and optional submessages and the arm of a union already chosen |
| RoundTrips.RoundTripTheorem | sopep_app-main/ios/Pods/nanopb/pb_encode.c:528-550 | decoding an encoded message succeeds exactly when every string sent is shorter than its buffer, and gives the message in normal form |
| RoundTrips.FullStringIsLost | sopep_app-main/ios/Pods/nanopb/pb_decode.c:1487-1523 | a one-byte string in a one-byte buffer: the encoder writes 0a 01 41, the decoder fails on it |
| RoundTrips.ProjectionTheorem | sopep_app-main/ios/Pods/nanopb/pb_decode.c:966-995 | another reader gets its projection of the message; fields it does not know are skipped at every depth |
| RoundTrips.MergeTheorem | sopep_app-main/ios/Pods/nanopb/pb_decode.c:1525-1547 | decoding on top of an existing struct combines the two |
| RoundTrips.ConcatenationTheorem | sopep_app-main/ios/Pods/nanopb/pb_decode.c:934-1030 | two encoded messages in a row decode to the second combined into the first |
| RoundTrips.SameBytesSameMessage | sopep_app-main/ios/Pods/nanopb/pb_encode.c:240-337 | two messages have the same bytes exactly when they have the same normal form |
| RoundTrips.UnsentIsDefault | sopep_app-main/ios/Pods/nanopb/pb_encode.c:240-337 | a proto3 value not sent as default is what a reader starts from, nested messages included |
| Concatenation.DecodeConcat | sopep_app-main/ios/Pods/nanopb/pb_decode.c:934-1030 | decoding a concatenation of whole fields is decoding the parts in turn into the same struct; without required fields the two agree in failure too |
| Concatenation.LoopConcat | sopep_app-main/ios/Pods/nanopb/pb_decode.c:946-1030 | after one part is used up the loop goes on with the next |

## Left out

- User keys are their ranks; comparators, file ranges and the binary search within a level are not modelled, and a level from 1 on is taken as the union of its files.
- Choosing what to compact (PickCompaction, CompactRange, size and seek scores) and the level a flushed memtable goes to (PickLevelForMemTableOutput) are left to the environment; the model requires that the inputs contain every older entry of their keys at the two levels, and that a base key occurs nowhere deeper.
- LogAndApply is one commit: an edit either reaches the MANIFEST whole or not at all, and an error it reports means that it did not.
- A failed log append leaves nothing behind in the log; torn records and a corrupted log are not modelled.
- reuse_logs, databases with a previous log number, and repair are not modelled.
- A crash is one of the process; what an operating system crash may take from unsynced files is not modelled. SyncedIsDurable says what was logged before a Sync.
- Runs start once NewDB has written the first MANIFEST.
- File numbers are not claimed to be distinct across file types during recovery.
- Corrupt internal keys appear in the compaction loop but not in the state machine.
- Compaction.CompactionState.DoCompactionWork: does not contain the flush that may interrupt the loop; the interleaving is part of the state machine.
- Compaction.RetainIsRetained: assumes a smallest snapshot below the largest sequence number, as the 56-bit sequence space provides.
- ReplayLogs.Recover: promises a replay in the sense of the state machine only for a directory that lists each log once and none with the previous log number; RecoveryFindsItsFiles shows that the directories of runs do.
- WriteRoom.Room.MakeRoomForWrite: what other threads do while the writer sleeps or waits is a list of interludes, so a call may also end as still waiting.
- Progress.QueueCanEmpty: says that some continuation serves every writer in the queue, and Progress.WorkCanBeDone that some continuation finishes the background work; which one happens is up to the scheduler, whose fairness is not modelled.
- NewIterator, GetProperty, statistics, logging, option clipping and DestroyDB are not modelled.
- Decoder.DecodeFields: the struct is a value that is passed in and returned, not memory with offsets; the cursor's offsets are proved separately.
- A string is what precedes the first NUL of its buffer; bytes behind it are not modelled.
- The contents of a fixed-count array that was never received are unspecified in the source; no items stands for that. Starting to receive one forgets its old items, all of which a successful decode overwrites.
- RoundTrips.RoundTripTheorem: is about encodings of less than four gigabytes, the largest length a 32-bit varint can give.
- RoundTrips.ConcatenationTheorem: excludes fixed-count arrays at the top level, which the decoder does not accept twice.
- Encoder.Encode: takes the encoding's length to fit 64 bits; wrap-around of size_t is not modelled.
- Callbacks, extensions, the old callback style and builds without 64-bit integers are not modelled.
- Pointers.ReadPackedPointer: covers packed arrays and the allocation test; other pointer fields and pb_release are not modelled.
- A bool whose memory holds neither 0 nor 1 is not modelled.
- The Objective-C Protocol Buffers runtime beyond its zigzag functions, SetCurrentFile, and the app's own code are not part of this model.
