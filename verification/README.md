# SWEGCA VRS2: verified model of the memory runtime

SWEGCA VRS2 keeps conversation memory in append-only stores, finds it again through on-disk hash
directories and a generational index, and settles and consolidates a graph of strengths over it. This
project models the eight parts of that runtime whose correctness does not follow from reading one function, and
proves what they promise:

* **Exact replay directory** (`LeveledTable`, `LevelWalk`, `Directory`, `Placement`, `ExactReplay`): open-addressed
  levels with double hashing, sealed at 7/10 load. A batch is staged, capsules are durable before slots, and a crash
  lets through any part of the published slots and counts. The directory refines a write-once map, and over any run
  with crashes it gives only what was put and never takes an answer back. Every outcome is determined by the disk
  and the environment: a put is rejected exactly for a contradiction or for want of room, and a call that crashed can
  be put again as long as there is room for what it misses once more.
* **Cue directory** (`CueHistory`, `CueShards`): posting chains under two-copy heads, in slots of the same leveled
  tables, refine a newest-first multimap.
* **Incremental adjacency** (`CsrCache`): extending a cached CSR gives the CSR built from scratch.
* **Local moves** (`FastRegions`): every accepted move raises a potential, and that bounds every run.
* **Settlement** (`FlatVrs`): the frontier algorithm equals full synchronous rounds; a round is a contraction.
* **Consolidation** (`RefineKernel`, `Consolidation`, `Evidence`, `Promotion`, `FineRegions`): parallel region phases
  equal the serial loop, and in every generation a promoted strength stands for evidence that is there now.
* **Durable ingress** (`NativeJournal`, `SessionCapture`, `Leases`, `ReadLease`): journal history across torn
  appends, cursor publication under retries, and the lease protocol that pins a reader's snapshot.
* **Generational index and origins** (`Vocabulary`, `CompactIndex`, `Provenance`, `Origins`): shared append-only
  storage seen by immutable generations, byte spans that invert back to the text they came from, and the check that
  a recorded span still holds its text.

Classes of the runtime that update their fields are classes here, loops that update variables are methods with
invariants, and each such method is proved against a specification function whose properties are the lemmas.
`Wrappers` holds the option type, `Encoding` bytes and `Sums` finite sums of reals. Arithmetic is over the reals; hash
functions, `tanh`, the rounding to float32, JSON and compression, the readers of transcript lines and the title rules
of documents are parameters, with the laws they must obey stated where they are used. No module assumes that a hash is
injective: colliding keys take the branches the code has for them. (`Origins.KeyTells`, `Origins.ShortIsToldApart` and
`Origins.AskTwice`, which say what a key covers and what a text's digest finds, are about a hash without collisions
and require one.) Crashes are parameters too: a `Fate`, `Stage` or `Landing` argument names the point at which the
environment stops a method, and contracts hold for every value of it.

Methods named for a whole run (`Serve`, `ServeCalmly`, `PutUntilDone`, `PutAll`, `PutAgain`, `Play`, `Follow`, `Pinned`,
`AskTwice`, `VerifyAll`, `Generations`) make arbitrary calls on one object in sequence. They return what the calls
answered and the states in between; their contracts say that each call was answered, and changed the state, as it must
from the state it met, and what then holds over every such run.

`dafny verify dfyconfig.toml` checks the whole project.

## Where the code and its documentation differ

* `put_many` compares digests of addresses. Two spellings of one address in one batch are both accepted; the second
  is not stored and later answers with an identity error. `ExactReplay.StoredRowAnswersIff` gives the exact condition.
* The comments of `put_many` say that a crash after a level is sealed leaves only the batch unindexed and that every
  chunk can be recovered by putting it again. Where the batch took the last room of its prefix, in the last level, that
  fails: the level stays sealed without the batch's slots and the same batch is then rejected with
  `exact_replay_directory_capacity_exceeded`. `ExactReplay.LastLevelIsLost` is such an input and
  `Placement.LastRoomIsLost` the whole family. `Placement.KeptExactly` and `Placement.StoredExactly` say exactly when
  a batch and a call are stored, `Placement.CrashTakesNoMore` what a crash can cost, and
  `ExactReplay.ExactReplayStore.PutUntilDone` when putting again succeeds. The cue directory seals the same way:
  `CueShards.CueShardDirectory.PutAgain`.
* A cue directory skips a posting whose identifier is the newest one already, also when the shard differs, so one
  experience must live in one shard. `CueHistory.PublicationIsVisibleIff` gives the exact condition.
* A crash between the slot writes of one batch can leave a slot behind an empty one (`Directory.CrashLeavesHole`). Its
  cue is then not found although its slot landed, and it appears once a put of some other cue fills the hole
  (`LeveledTable.HoleHides`). `LeveledTable.InsertChangesIff` says exactly when a put changes another key's answer;
  `CueShards.CueShardDirectory.PutRecords` promises unchanged answers for every cue that is not hidden, and
  `CueShards.CueShardDirectory.PutAgain` that an interrupted batch that is put again and added answers as if it had
  run once.
* `extended` falls back when a new edge joins two old nodes; `CsrCache.Extend` states exactly when.
* `rewrite` switches to the new generation before it checks its numbering: rows that are not numbered 1..n leave a
  store that cannot be opened, while the object that wrote it stays up with its old head and count.
  `NativeJournal.Journal.Rewrite` says so.
* The comments of the lease protocol promise that nothing is admitted under a live recall. That holds unless a scanner
  was killed while an unforced ingest request of its own was still waiting in the daemon: see
  `Leases.SnapshotIsPinned`, its converse `Leases.OrphanUnpins`, and `Leases.OrphanHappens`, a run that gets there.
* `masked` keeps one mask under the record count and the excluded kinds. After a truncation and an append of another
  kind at the same count it hides or shows the wrong rows: `CompactIndex.StaleMask`. `CompactIndex.Store.Masked` gives
  the exact condition.
* `verify` says where a record is in the file now. The index of a file's parts is kept under a key that leaves out the
  middle of a file of more than 8192 bytes, so after an edit there that keeps the length it answers for the earlier
  text: `Origins.EditedMiddle`. `Origins.Verifier.Verify`, `Origins.KeyTells` and `Origins.VerifyAll` say when it is
  right, and `Origins.AskTwice` exactly when it is not. In a file that is not UTF-8, spans count the bytes of
  replacement characters: `Origins.NotUtf8`.
* `append` raises when the rotation after it fails, for example on a full disk, although its rows are committed;
  `NativeJournal.Journal.Append` says so.
* `settle` reports a fixed point over the whole graph. Nodes outside the seeds that are never visited keep whatever
  they started with; `FlatVrs.Settle` states both cases.
* The docstring of `fine_regions` says that ids stay put for regions that did not change. A part that did not change
  still loses its id when an earlier part took it first; `FineRegions.FineLabels` states this as an if and only if,
  and `FineRegions.UnchangedKeepsLabels` covers the unchanged partition.

## Model

| member | source | states |
|---|---|---|
| `LeveledTable.ProbeIsPermutation` | src/swegca_vrs2/exact_replay.py:362-376 | the probe sequence of any key visits each of the 2^p slots exactly once |
| `LeveledTable.FullMeansFull` | src/swegca_vrs2/exact_replay.py:362-376 | a probe runs full exactly when every slot holds some other key |
| `LeveledTable.FoundStays` | src/swegca_vrs2/exact_replay.py:362-376 | a key found in a segment is found in the same slot after any further slots were filled |
| `LeveledTable.FillingFreeSlotFinds` | src/swegca_vrs2/exact_replay.py:362-391 | writing a key into the free slot its probe returned makes that very slot its probe's answer |
| `LeveledTable.ThresholdLeavesRoom` | src/swegca_vrs2/exact_replay.py:401-404 | the 7/10 threshold is positive and leaves at least one slot of every level unused |
| `LeveledTable.SeekIsStable` | src/swegca_vrs2/exact_replay.py:691-711 | a key a reader finds stays at its level and slot under any lawful growth or crash; the record there stays too by `Directory.OffsetIsStable` |
| `LeveledTable.ResealKeepsSeek` | src/swegca_vrs2/exact_replay.py:410-414 | sealing levels early or adding empty ones, as a rejected or interrupted batch does, changes no reader's answer |
| `LeveledTable.InsertIsFound` | src/swegca_vrs2/exact_replay.py:545-560 | a key written at the first level open to it is what a reader finds |
| `LeveledTable.InsertIsLawful` | src/swegca_vrs2/exact_replay.py:545-560 | that write keeps every earlier level sealed before a used one and only grows the chain |
| `LeveledTable.CleanNeverFull` | src/swegca_vrs2/exact_replay.py:362-376 | in a chain no crash touched, no probe ever runs full |
| `LeveledTable.InsertIsExact` | src/swegca_vrs2/exact_replay.py:545-560 | in such a chain a write keeps every stored key reachable and every other key's answer as it was |
| `LeveledTable.InsertChangesIff` | src/swegca_vrs2/exact_replay.py:545-560 | in any chain, crashed or not, a write changes another key's answer exactly when that key's walk stops at the very slot that is written and the key lies behind it |
| `LeveledTable.HoleHides` | src/swegca_vrs2/exact_replay.py:362-376 | a key behind a hole is not found, and is found once another key fills the hole |
| `LeveledTable.ResealedStaysClean` | src/swegca_vrs2/exact_replay.py:410-414 | sealing keeps every stored key reachable and every level within its load |
| `LevelWalk.NoRoomIff` | src/swegca_vrs2/exact_replay.py:528-562 | the level walk finds no room for a key exactly when every level is there and each is full or closed for the key |
| `LevelWalk.NoPlaceIff` | src/swegca_vrs2/exact_replay.py:528-562 | for a key no reader finds, that is exactly when the chain has no room: every level is closed, at its threshold or without a vacant slot |
| `LevelWalk.WalkRoom` | src/swegca_vrs2/exact_replay.py:528-560 | a placement costs exactly one key's room; a walk that places nothing, although it may seal or create levels, costs none |
| `LevelWalk.RefusedIff` | src/swegca_vrs2/exact_replay.py:528-562 | in any chain, crashed or not, a put finds its key there exactly when a reader does, and is refused exactly when no reader finds the key and the chain has no room |
| `LevelWalk.RoomlessIsClosed` | src/swegca_vrs2/exact_replay.py:401-414 | in a chain no crash touched, one without room has every level closed |
| `Directory.AnswersAreStable` | src/swegca_vrs2/exact_replay.py:691-711 | every settled answer, an identity error included, survives any lawful growth of the disk |
| `Directory.SealsOnlyKeepsLookups` | src/swegca_vrs2/exact_replay.py:410-414 | seals, empty levels and capsules nothing points at are invisible to every lookup |
| `Directory.ProbePending` | src/swegca_vrs2/exact_replay.py:378-391 | probing with pending slots is probing the segment the batch is about to leave |
| `Directory.OpenLevel` | src/swegca_vrs2/exact_replay.py:315-360 | opening or creating a level keeps disk and batch lawful and moves no key |
| `Directory.WriteState` | src/swegca_vrs2/exact_replay.py:406-414 | a seal is on disk before the batch goes on, other counts stay pending, and no key moves |
| `Directory.VisitLevel` | src/swegca_vrs2/exact_replay.py:545-560 | one level of the walk has the key, takes it while open, or is left sealed |
| `Directory.SelectSlot` | src/swegca_vrs2/exact_replay.py:528-562 | the walk ends where a reader would find the key, or at the free slot of the first level still open to it, or without room exactly when every level is full or closed for the key |
| `Directory.InsertBinds` | src/swegca_vrs2/exact_replay.py:545-604 | filling the chosen slot binds the key to the record, whatever crashes left on the disk |
| `Directory.InsertBindsOnly` | src/swegca_vrs2/exact_replay.py:545-604 | on an uncrashed disk it binds that key and no other |
| `Directory.PublishEverything` | src/swegca_vrs2/exact_replay.py:571-604 | an uninterrupted publication leaves exactly the disk the batch saw |
| `Directory.PublishedDiskIsLawful` | src/swegca_vrs2/exact_replay.py:571-604 | whatever subset of staged slots and counts a crash lets through, every chain is lawful and every earlier answer stands |
| `Directory.PublishIsLawful` | src/swegca_vrs2/exact_replay.py:571-604 | the same for one chain, with no published slot emptied or given to another record |
| `Directory.LostTailIsNothing` | src/swegca_vrs2/exact_replay.py:571-604 | losing capsules of an unfinished batch, with or without a torn one, hurts no reader |
| `Directory.FindItem` | src/swegca_vrs2/exact_replay.py:691-711 | reading a key level by level finds the offset its chain gives |
| `Directory.OffsetIsStable` | src/swegca_vrs2/exact_replay.py:691-711 | a key that leads to a record leads to it after any lawful growth of the disk |
| `Directory.CrashLeavesHole` | src/swegca_vrs2/exact_replay.py:571-604 | a crash between the slots of one batch can leave a used slot behind an empty one on the same probe path |
| `Directory.WalkFor` | src/swegca_vrs2/exact_replay.py:545-560 | the walk changes one chain by seals only and keeps the batch's view and its pending slots |
| `Directory.StageItem` | src/swegca_vrs2/exact_replay.py:515-588 | staging a row is one row of the batch on the disk the batch sees: rejected with exactly that error and seals only, or bound in the batch's view with all others as before |
| `Directory.PlaceItem` | src/swegca_vrs2/exact_replay.py:528-588 | placing an item is one put on the disk the batch sees: rejected exactly for another item under the key or for want of room, else the stored record or an appended one at a free slot, found from then on |
| `Directory.PublishedDiskIsCrash` | src/swegca_vrs2/exact_replay.py:590-603 | what a crash of a publication leaves is what the batch saw with only some slots and counts landed; every seal is there |
| `Directory.StagedDiskIsCrash` | src/swegca_vrs2/exact_replay.py:554-562 | so is what a crash of the staging leaves, with no slot landed |
| `Placement.RefusedExactly` | src/swegca_vrs2/exact_replay.py:549-574 | a put is refused for a conflict exactly when the key is bound to another item, and for capacity exactly when it is bound to nothing and its chain has no room |
| `Placement.PutCost` | src/swegca_vrs2/exact_replay.py:549-588 | a put of what is there costs no room, any other costs one key's room in its own chain and none elsewhere |
| `Placement.SlackStays` | src/swegca_vrs2/exact_replay.py:496-588 | while rows of a set are staged, the room minus the rows still missing never falls, and the room minus the keys without a slot never rises |
| `Placement.KeptNeedsRoom` | src/swegca_vrs2/exact_replay.py:496-588 | on any disk, a batch that is kept had room for every key of its own that no slot held |
| `Placement.RoomSuffices` | src/swegca_vrs2/exact_replay.py:496-588 | on any disk, crashed or not, a batch whose rows agree with each other and with every slot is kept if each chain has room for what is missing, and otherwise can only be rejected for capacity |
| `Placement.KeptExactly` | src/swegca_vrs2/exact_replay.py:496-588 | where no crash hides a key, a batch is kept if and only if it contradicts neither itself nor an answer and every chain has room for its missing keys |
| `Placement.AgreesWhen` | src/swegca_vrs2/exact_replay.py:564-574 | there, rows that contradict no answer agree with every slot |
| `Placement.StagingAgrees` | src/swegca_vrs2/exact_replay.py:514-588 | staging rows of a set that agrees with the disk keeps the whole set in agreement |
| `Placement.CrashKeepsRoom` | src/swegca_vrs2/exact_replay.py:554-604 | a crash leaves at least the room of what the batch saw |
| `Placement.CrashAgrees` | src/swegca_vrs2/exact_replay.py:554-604 | rows that agree with what a batch saw agree with whatever a crash leaves of it |
| `Placement.CallSuffices` | src/swegca_vrs2/exact_replay.py:483-494 | a call of several chunks whose rows agree with the disk is stored if there is room for all it misses, and otherwise can only be rejected for capacity |
| `Placement.CallNeedsRoom` | src/swegca_vrs2/exact_replay.py:483-494 | a call that is stored had room for every key of its own that no slot held |
| `Placement.StoredExactly` | src/swegca_vrs2/exact_replay.py:483-494 | where no crash hides a key, a call whose rows agree with the disk is stored if and only if there is room for all it misses |
| `Placement.CrashTakesNoMore` | src/swegca_vrs2/exact_replay.py:410-414 | however a call of any number of chunks is cut, it has taken no more room than it missed keys, and its rows agree with what is left as they did before: the exact sense in which it can be put again |
| `Placement.StageKeepsClean` | src/swegca_vrs2/exact_replay.py:496-604 | a kept batch leaves a disk no crash touched as clean as it was |
| `Placement.PutMovesOnly` | src/swegca_vrs2/exact_replay.py:549-588 | on such a disk a put changes the answer of its own key alone |
| `Placement.StagedIsStored` | src/swegca_vrs2/exact_replay.py:496-604 | a kept batch is a stored one: every row bound, all earlier answers kept and, on such a disk, nothing else moved |
| `Placement.LastRoomIsLost` | src/swegca_vrs2/exact_replay.py:554-562 | the failing family of "can be put again": every batch that takes the last room of a prefix and is cut before a slot of its own lands leaves the prefix closed, and is rejected for capacity ever after |
| `ExactReplay.RunIsWriteOnce` | src/swegca_vrs2/exact_replay.py:496-660 | after any run of stored chunks, added sources and rejected puts, each key answers with the first item ever put under it and all other keys with nothing |
| `ExactReplay.SourceIsAccepted` | src/swegca_vrs2/exact_replay.py:610-660 | what `put_source` added is a stored batch of one, so such runs cover both kinds of put |
| `ExactReplay.AnswersForGood` | src/swegca_vrs2/exact_replay.py:691-711 | over any run of puts, rejections and crashes, an identifier once visible never changes its assignment |
| `ExactReplay.AnswersWereGiven` | src/swegca_vrs2/exact_replay.py:545-604 | over any such run, an identifier is absent or bound exactly as some put bound it, interrupted or not |
| `ExactReplay.FirstConflict` | src/swegca_vrs2/exact_replay.py:465-494 | the check rejects a batch exactly when it gives one identity two bindings, at the first such row |
| `ExactReplay.DistinctRows` | src/swegca_vrs2/exact_replay.py:500-508 | repeated rows are dropped, no row is lost, and none is left twice |
| `ExactReplay.ChunksCompose` | src/swegca_vrs2/exact_replay.py:465-494 | a batch cut into chunks stores what one chunk of all its rows would |
| `ExactReplay.StoredRowAnswersIff` | src/swegca_vrs2/exact_replay.py:520-560 | a stored row answers with its own binding exactly when the first row of its key carries the same identity |
| `ExactReplay.SecondSpellingIsLost` | src/swegca_vrs2/exact_replay.py:520-560 | a concrete batch whose second spelling of one address is accepted and then not found |
| `ExactReplay.SourcePutInserts` | src/swegca_vrs2/exact_replay.py:610-660 | capsule, slot and level state of a source amount to one insertion, counted or not |
| `ExactReplay.SelectStored` | src/swegca_vrs2/exact_replay.py:615-636 | the source walk is the same walk, and finds no room exactly when every level is full or closed for the key |
| `ExactReplay.CalmOutcome` | src/swegca_vrs2/exact_replay.py:483-494 | without a crash, a call is stored exactly when all its chunks are kept one after the other, and else rejected with the error of the first that is not |
| `ExactReplay.StoreWrites` | src/swegca_vrs2/exact_replay.py:483-604 | on a disk no crash touched, a stored call gives every key the first of its rows where there was no answer before, and changes nothing else |
| `ExactReplay.DoneIsBound` | src/swegca_vrs2/exact_replay.py:465-660 | when a call of either kind returns without an error, all it gave is bound |
| `ExactReplay.ExactReplayStore.constructor` | src/swegca_vrs2/exact_replay.py:190-215 | an empty store answers nothing |
| `ExactReplay.ExactReplayStore.Get` | src/swegca_vrs2/exact_replay.py:691-762 | reading returns the bound record or shard, absence, or an identity error for a colliding key |
| `ExactReplay.ExactReplayStore.Commit` | src/swegca_vrs2/exact_replay.py:571-604 | chain by chain exactly the slots and counts that landed are written |
| `ExactReplay.ExactReplayStore.PutRows` | src/swegca_vrs2/exact_replay.py:496-604 | the outcome of a chunk is determined by the disk it finds and by its fate: crashed if the cut comes first, else rejected with the error of the first row that has no place or contradicts, else stored; a stored one leaves exactly the staged disk, a rejected one no trace for readers, a crashed one a crash image of what it had staged |
| `ExactReplay.ExactReplayStore.PutChunk` | src/swegca_vrs2/exact_replay.py:496-604 | the same for the records of one chunk with their source routes; a lineage split inside the chunk, and only that, is rejected before anything is read |
| `ExactReplay.ExactReplayStore.PutMany` | src/swegca_vrs2/exact_replay.py:465-604 | a call is refused before anything is written exactly when it contradicts itself, at the first such record; otherwise its chunks run in order to the first that is not stored, with exactly that outcome, and what is left is those before it and what that one left; a stored call binds every record and route, also over what a crash left |
| `ExactReplay.ExactReplayStore.PutSource` | src/swegca_vrs2/exact_replay.py:610-660 | a source is already there, added, refused for another shard, a collision or for capacity, exactly as the disk it finds says; added or there it answers with its shard and moves no other key; an interruption keeps earlier answers |
| `ExactReplay.ExactReplayStore.PublishSource` | src/swegca_vrs2/exact_replay.py:645-660 | wherever the crash falls between capsule, slot and level state, the disk stays lawful |
| `ExactReplay.ExactReplayStore.Serve` | src/swegca_vrs2/exact_replay.py:465-762 | any puts of both kinds, each run, rejected or crashed anywhere: every call is answered as it must be from the disk it found, everything the calls that returned gave is bound at the end, every answer was given by one of them and none is taken back or changed |
| `ExactReplay.ExactReplayStore.ServeCalmly` | src/swegca_vrs2/exact_replay.py:465-762 | any puts of both kinds that run to their end: each is answered as it must be, and the directory is the write-once map of the chunks of the stored calls and of the chunks before the refused one of the others, and nothing else |
| `ExactReplay.ExactReplayStore.PutUntilDone` | src/swegca_vrs2/exact_replay.py:410-414 | a call crashed any number of times and put again: a consistent one that contradicts nothing is stored or rejected for capacity, and it is stored if every prefix has room for its missing keys once for each try |
| `ExactReplay.LastLevelIsLost` | src/swegca_vrs2/exact_replay.py:554-562 | the failing input: one level, one record, a crash after the level is sealed and before the slot lands; putting the record again is rejected for capacity |
| `FastRegions.MoveGain` | src/swegca_vrs2/fast_regions.py:132-162 | for symmetric weights a move changes the potential by exactly twice the difference of the two scores |
| `FastRegions.PotentialRange` | src/swegca_vrs2/fast_regions.py:82-93 | over every labelling the potential lies between minus the mass and the mass |
| `FastRegions.TotalsAddUp` | src/swegca_vrs2/fast_regions.py:134 | the group totals add up to the mass of the graph |
| `FastRegions.GroupTotals` | src/swegca_vrs2/fast_regions.py:134 | the initial totals are the degree sums of the groups |
| `FastRegions.NeighborGroups` | src/swegca_vrs2/fast_regions.py:136-147 | the accumulated map holds exactly the groups of the neighbours, each with the node's whole weight into it |
| `FastRegions.BestGroup` | src/swegca_vrs2/fast_regions.py:150-156 | the winner beats the old group by more than the tolerance and no neighbouring group beats it by more |
| `FastRegions.MoveNode` | src/swegca_vrs2/fast_regions.py:136-161 | one visit keeps the totals equal to the degree sums, moves only that node, only for a gain above the tolerance, to a best neighbouring group |
| `FastRegions.Sequential` | src/swegca_vrs2/fast_regions.py:132-162 | a sweep raises the potential by more than twice the tolerance per reported move and relabels no other node; one that moves nothing leaves every node it visited at rest |
| `FastRegions.Wake` | src/swegca_vrs2/fast_regions.py:91-92 | the next active set is exactly the moved nodes and their neighbours |
| `FastRegions.LocalMoves` | src/swegca_vrs2/fast_regions.py:81-94 | the labelings, active sets and moves of a run are those of its sweeps; it has converged exactly when nobody is awake or a sweep moved nothing, and then every awake node is at rest; its moves are bounded by the range of the potential, so a large enough sweep cap is never reached |
| `FastRegions.MovesAreFew` | src/swegca_vrs2/fast_regions.py:58 | with the tolerance of the code no run on any graph makes more than 2^46 moves |
| `FlatVrs.SliceIsGroup` | src/swegca_vrs2/flat_vrs.py:76-81 | a node's slice of the stably sorted edge array is exactly its edges, in edge order |
| `FlatVrs.BuildViews` | src/swegca_vrs2/flat_vrs.py:62-100 | the derived arrays and both matrices are those of the edge list |
| `FlatVrs.GatherSlice` | src/swegca_vrs2/flat_vrs.py:141-150 | gathering a slice sums the contributions of the edges in it |
| `FlatVrs.GatherIsSignal` | src/swegca_vrs2/flat_vrs.py:141-150 | summing a node's grouped edges is summing over all edges into it |
| `FlatVrs.GatherSignal` | src/swegca_vrs2/flat_vrs.py:141-150 | the gathered value is the node's incoming signal |
| `FlatVrs.CsrMatrix` | src/swegca_vrs2/flat_vrs.py:84-100 | the sparse matrix adds up parallel edges and has no other entries |
| `FlatVrs.RowIsEdges` | src/swegca_vrs2/flat_vrs.py:176-193 | a row of the matrix product is the sum over the edges into the node |
| `FlatVrs.MatrixIsSignal` | src/swegca_vrs2/flat_vrs.py:176-193 | the matrix vehicle computes the same signal as the gather vehicle |
| `FlatVrs.PositiveMeansFed` | src/swegca_vrs2/flat_vrs.py:195-207 | a positive entry of the adjacency product marks exactly the nodes some moved node feeds |
| `FlatVrs.RoundValues` | src/swegca_vrs2/flat_vrs.py:176-193 | either vehicle gives every pending node the value of its update equation |
| `FlatVrs.WriteScores` | src/swegca_vrs2/flat_vrs.py:190-197 | the write is one round on the pending nodes and reports exactly the nodes that changed |
| `FlatVrs.WakeTargets` | src/swegca_vrs2/flat_vrs.py:195-207 | the next frontier is the moved nodes and every node they feed, by either vehicle |
| `FlatVrs.FrontierIsFull` | src/swegca_vrs2/flat_vrs.py:176-207 | when all waiting nodes are at rest, the frontier round is the full synchronous round |
| `FlatVrs.AsleepRest` | src/swegca_vrs2/flat_vrs.py:176-207 | a node that does not wake up is at rest, or was never visited and its equation has not changed since the start |
| `FlatVrs.StandingRound` | src/swegca_vrs2/flat_vrs.py:176-207 | the invariant between rounds, with the state equal to the iterated full round on a calm start |
| `FlatVrs.StandingIsReported` | src/swegca_vrs2/flat_vrs.py:207-217 | on every exit that invariant gives what the receipt claims |
| `FlatVrs.Settle` | src/swegca_vrs2/flat_vrs.py:153-217 | settling equals the full iteration round for round on a calm start, every node not reported pending satisfies its equation, and a reported fixed point is global |
| `FlatVrs.RoundContracts` | src/swegca_vrs2/flat_vrs.py:82-84 | a full round brings any two score vectors to within 0.84 of their distance |
| `FlatVrs.RoundsConverge` | src/swegca_vrs2/flat_vrs.py:185-193 | after n rounds the error is at most 0.84^n times the first one |
| `FlatVrs.FixedPointIsUnique` | src/swegca_vrs2/flat_vrs.py:185-193 | a graph has at most one fixed point, whatever the starting scores |
| `FlatVrs.RoundsDrawTogether` | src/swegca_vrs2/flat_vrs.py:185-193 | from any start, fixed point or not, all rounds after the n-th stay within 6.25 * 0.84^n times the first change |
| `FlatVrs.ToleranceIsMet` | src/swegca_vrs2/flat_vrs.py:185-193 | so for every tolerance there is a number of rounds after which no score ever moves by more |
| `FlatVrs.ScoresStayBounded` | src/swegca_vrs2/flat_vrs.py:185-193 | scores that start in [-1, 1] stay there |
| `CsrCache.GroupedFacts` | src/swegca_vrs2/csr_cache.py:28-34 | grouping yields each occurring pair once, strictly ordered, with the sum of its weights |
| `CsrCache.CsrIsUnique` | src/swegca_vrs2/csr_cache.py:4-19 | offsets, neighbours and weights of the CSR are determined by the edges |
| `CsrCache.FreshIsCsr` | src/swegca_vrs2/csr_cache.py:101-107 | the build from scratch is the CSR of the whole graph |
| `CsrCache.NewEntriesSum` | src/swegca_vrs2/csr_cache.py:60-66 | the grouped new entries of a pair sum its new edges in both directions |
| `CsrCache.MergedIsCsr` | src/swegca_vrs2/csr_cache.py:70-82 | appending the new entries to each old row gives the CSR of the longer edge list when no new edge joins two old nodes |
| `CsrCache.PairWeight` | src/swegca_vrs2/csr_cache.py:37-49 | the loop sums all parallel edges of the pair, both ways |
| `CsrCache.PlaceRow` | src/swegca_vrs2/csr_cache.py:70-82 | one row is copied and extended in place without disturbing the rows before it |
| `CsrCache.PlaceRows` | src/swegca_vrs2/csr_cache.py:70-82 | all rows end at their new offsets, old cells first |
| `CsrCache.SearchSorted` | src/swegca_vrs2/csr_cache.py:84-97 | the binary search returns the first position not below the column |
| `CsrCache.EditCell` | src/swegca_vrs2/csr_cache.py:84-97 | an edit finds its cell exactly when the pair is joined and resets that cell alone to the pair's sum |
| `CsrCache.ApplyEdits` | src/swegca_vrs2/csr_cache.py:84-97 | every edited pair is found, and after all edits every cell holds the current sum |
| `CsrCache.UneditedSum` | src/swegca_vrs2/csr_cache.py:84-97 | a pair no edit names keeps its weight when the edits cover all changed edges |
| `CsrCache.OrderBroken` | src/swegca_vrs2/csr_cache.py:66-69 | the order test answers whether some new entry joins two nodes of the prefix |
| `CsrCache.Extend` | src/swegca_vrs2/csr_cache.py:52-98 | the result equals the CSR built from scratch if and only if no new edge joins two old nodes; otherwise the cache is given up |
| `CueHistory.RecentIsNewestFirst` | src/swegca_vrs2/cue_shards.py:393-437 | the answer holds each published experience once, ordered by its last publication, newest first |
| `CueHistory.SkipsDoNotShow` | src/swegca_vrs2/cue_shards.py:300-340 | skipping a posting that repeats the newest experience changes no answer |
| `CueHistory.RetryDoesNotShow` | src/swegca_vrs2/cue_shards.py:265-391 | publishing a batch twice answers as publishing it once |
| `CueHistory.RetryAfterCrash` | src/swegca_vrs2/cue_shards.py:265-391 | from the old history or the published one, putting a batch answers as publishing it once; `CueShards.CueShardDirectory.PutAgain` is this for the files a crash leaves |
| `CueHistory.PublicationIsVisibleIff` | src/swegca_vrs2/cue_shards.py:300-340 | a publication becomes visible exactly unless the newest one names the same experience in another shard |
| `CueHistory.BatchIsOneByOne` | src/swegca_vrs2/cue_shards.py:265-391 | a batch leaves what its records leave when put one at a time |
| `CueHistory.HistoryStable` | src/swegca_vrs2/cue_shards.py:233-260 | a posting chain is unaffected by nodes appended later |
| `CueShards.WrittenIsReadable` | src/swegca_vrs2/cue_shards.py:187-260 | a slot whose new copy was torn or lost still reads as its old chain; one that landed reads as the new chain |
| `CueShards.WrittenCells` | src/swegca_vrs2/cue_shards.py:340-391 | after any pattern of landed and lost slot writes each slot heads its old or its new chain, and the slots are the old ones and those that landed |
| `CueShards.OfferAt` | src/swegca_vrs2/cue_shards.py:346-360 | one more posting for a slot: its chain is published one entry further, or the entry is refused, exactly when it is invalid and no repetition of the newest one |
| `CueShards.MisplacedExactly` | src/swegca_vrs2/cue_shards.py:280-333 | a cue of a batch is misplaced exactly when its key is another cue's (a collision), or nobody's and its prefix has no room (capacity) |
| `CueShards.ValidOffense` | src/swegca_vrs2/cue_shards.py:278-360 | a batch with valid entries is refused exactly as its cues are placed |
| `CueShards.SecondOffense` | src/swegca_vrs2/cue_shards.py:265-391 | on what an interrupted or finished put of a batch left, the same batch is refused only for capacity, only if it had been interrupted and the prefixes did not have room for it twice |
| `CueShards.CleanHidesNothing` | src/swegca_vrs2/cue_shards.py:393-437 | in a directory no crash touched, every cue that has a slot is found |
| `CueShards.SessionStep` | src/swegca_vrs2/cue_shards.py:278-360 | one more cue staged: what the batch gives every slot is what its offers publish, and every offered cue leads to its slot in the batch's view |
| `CueShards.AbandonedDisk` | src/swegca_vrs2/cue_shards.py:361-363 | a batch that stops before its slots leaves every cue's answer alone |
| `CueShards.CommitShows` | src/swegca_vrs2/cue_shards.py:364-385 | after a commit, whole or in part, each cue shows its history with or without the batch's entries; one whose slot an earlier crash had hidden may come back with the entries it had |
| `CueShards.CommitGives` | src/swegca_vrs2/cue_shards.py:364-385 | the slots a commit adds, found or hidden, head exactly the batch's entries for their cue |
| `CueShards.RetryShows` | src/swegca_vrs2/cue_shards.py:265-391 | what an interrupted put left, put again, answers as if the put had run once |
| `CueHistory.WalkChain` | src/swegca_vrs2/cue_shards.py:405-437 | following the links visits the whole chain newest first in exactly `count` steps and ends at offset zero |
| `CueShards.CueShardDirectory.constructor` | src/swegca_vrs2/cue_shards.py:60-98 | an empty directory has published nothing |
| `CueShards.CueShardDirectory.MatchesFor` | src/swegca_vrs2/cue_shards.py:393-437 | a lookup walks the levels and answers the distinct published experiences newest first, or reports a cue whose key another cue holds |
| `CueShards.CueShardDirectory.StageOffer` | src/swegca_vrs2/cue_shards.py:279-360 | a cue is placed over the levels as in the exact directory, then gets at most one node; it is refused exactly for its offense and then leaves seals only |
| `CueShards.CueShardDirectory.StageRecords` | src/swegca_vrs2/cue_shards.py:278-360 | a record publishes to each of its cues once, or the batch is refused exactly for its first offense, with seals only |
| `CueShards.CueShardDirectory.Commit` | src/swegca_vrs2/cue_shards.py:361-385 | whatever slots, copies and level states land, the directory is valid and every cue became what it should |
| `CueShards.CueShardDirectory.PutRecords` | src/swegca_vrs2/cue_shards.py:265-391 | a batch is refused exactly for its first offense and then unseen; otherwise every cue not hidden by an earlier crash gets its entries, all or, when interrupted, all or none, and what an interruption leaves is a crash image of the placed cues |
| `CueShards.CueShardDirectory.PutAgain` | src/swegca_vrs2/cue_shards.py:265-391 | a put cut short anywhere and then run again is refused for an offense of its own exactly as the first time, is otherwise refused only for capacity that the crash may have taken, and, added, answers as if it had run once for every cue no earlier crash had hidden |
| `CueShards.CueShardDirectory.PutAll` | src/swegca_vrs2/cue_shards.py:265-391 | any batches that run to their end, from a directory no crash touched: each is added or refused as it must be, and each cue holds exactly the entries of the batches that were added, in order |
| `CueShards.CueShardDirectory.PutOne` | src/swegca_vrs2/cue_shards.py:265-391 | one such batch: every cue gets exactly its entries if it is added, and nothing if not |
| `NativeJournal.UnpackPack` | src/swegca_vrs2/native_journal.py:130-135 | packed lengths and checksums read back |
| `NativeJournal.ParseFrame` | src/swegca_vrs2/native_journal.py:130-177 | a whole frame at the end of a file parses to its rows |
| `NativeJournal.ParseTorn` | src/swegca_vrs2/native_journal.py:137-177 | a frame cut at any byte before its end reads as a torn tail with no rows |
| `NativeJournal.AppendedFrame` | src/swegca_vrs2/native_journal.py:130-177 | a file with a frame or part of one at its end holds all of the frame's rows or none, with its valid end unchanged when torn |
| `NativeJournal.ReadFile` | src/swegca_vrs2/native_journal.py:137-177 | the moving valid end computes the parse, and repair cuts exactly the torn tail |
| `NativeJournal.CutParses` | src/swegca_vrs2/native_journal.py:165-177 | what repair leaves is a whole file with the same rows |
| `NativeJournal.RepairKeepsRows` | src/swegca_vrs2/native_journal.py:183-204 | repair of a recoverable generation keeps all rows and leaves a head later appends extend correctly |
| `NativeJournal.ScanFiles` | src/swegca_vrs2/native_journal.py:179-204 | a scan succeeds exactly on gapless numbering and readable files, and reports the last row and the count |
| `NativeJournal.AppendKeeps` | src/swegca_vrs2/native_journal.py:223-247 | an append cut at any byte leaves a recoverable generation with all or none of the batch |
| `NativeJournal.RotateKeeps` | src/swegca_vrs2/native_journal.py:249-257 | moving the head into a segment keeps every row, with or without the new head |
| `NativeJournal.BuildFile` | src/swegca_vrs2/native_journal.py:295-312 | the rewritten file holds exactly the rows, unless a frame would be too large |
| `NativeJournal.Select` | src/swegca_vrs2/native_journal.py:206-216 | stopping at the first row beyond the bound loses no later row |
| `NativeJournal.SelectRows` | src/swegca_vrs2/native_journal.py:206-216 | reading over all files gives exactly the rows in range, in order |
| `NativeJournal.Journal.constructor` | src/swegca_vrs2/native_journal.py:91-116 | a new journal has an empty history |
| `NativeJournal.Journal.Open` | src/swegca_vrs2/native_journal.py:91-127 | opening a sound store keeps its history and succeeds exactly when writable or not torn; a store whose rows are not numbered does not open |
| `NativeJournal.Journal.WriteFrame` | src/swegca_vrs2/native_journal.py:223-240 | a frame lands whole or is cut at some byte, interrupted exactly under a crashing fate, and the store stays sound either way |
| `NativeJournal.Journal.Append` | src/swegca_vrs2/native_journal.py:223-247 | the answer is determined by the state and the environment: an append adds its rows with the next numbers, fails without a change exactly when the journal is read-only, the frame too large or the write fails, or is interrupted with the rows committed exactly if the cut lies behind the frame; when the rotation after it fails it raises with the rows committed |
| `NativeJournal.Journal.Rotate` | src/swegca_vrs2/native_journal.py:249-257 | rotation, also interrupted, leaves the history alone and happens exactly for a writable non-empty head |
| `NativeJournal.Journal.Rewrite` | src/swegca_vrs2/native_journal.py:295-325 | the answer is determined likewise: a rewrite of numbered rows replaces the history, or is interrupted before or after the switch, or fails and leaves the old one; unnumbered rows leave a store that cannot be opened under an object that still has its old head |
| `NativeJournal.Journal.SwitchTo` | src/swegca_vrs2/native_journal.py:308-325 | once the manifest names the new file the history is its rows, and the scan that follows succeeds exactly when they are numbered; if not, the object keeps its old head and count |
| `NativeJournal.Journal.Rows` | src/swegca_vrs2/native_journal.py:206-216 | reading returns exactly the committed rows after one number and up to another |
| `NativeJournal.RunIsNumbered` | src/swegca_vrs2/native_journal.py:223-325 | a run whose steps are what the operations ensure has a history numbered 1..n at every point |
| `NativeJournal.RunOnlyAppends` | src/swegca_vrs2/native_journal.py:223-257 | without a rewrite in between, each history is a prefix of every later one |
| `NativeJournal.CommittedStays` | src/swegca_vrs2/native_journal.py:223-247 | a batch whose append returned is found whole and in its place until the journal is rewritten |
| `NativeJournal.Play` | src/swegca_vrs2/native_journal.py:91-325 | any calls on a journal, with failures, crashes at any byte and reopenings: each is answered as it must be in the state it met, only calls while the process is gone go unanswered; the history stays numbered, only grows between rewrites, and every committed batch is found whole and in place until a rewrite |
| `SessionCapture.ChunksAreTheText` | src/swegca_vrs2/session_capture.py:275-287 | the chunks of a text join back to it |
| `SessionCapture.IdsAreDistinct` | src/swegca_vrs2/session_capture.py:275-287 | two payloads of a transcript with the same request id are the same payload |
| `SessionCapture.LinesGrow` | src/swegca_vrs2/session_capture.py:345-370 | a transcript that grows keeps its complete lines |
| `SessionCapture.GrowthIsConsistent` | src/swegca_vrs2/session_capture.py:319-393 | growth keeps cursor and store consistent |
| `SessionCapture.StoredIsPayload` | src/swegca_vrs2/session_capture.py:319-393 | every payload of a line before the cursor is stored, under its own id, as it is |
| `SessionCapture.FinishedIsExact` | src/swegca_vrs2/session_capture.py:319-393 | once the cursor is at the last complete line, the store is exactly the payloads of the complete lines |
| `SessionCapture.IngestedFacts` | src/swegca_vrs2/session_capture.py:334-344 | ingest keeps what was stored, adds every payload of the batch and nothing else |
| `SessionCapture.PublishedIsConsistent` | src/swegca_vrs2/session_capture.py:334-356 | a stored batch covers the lines before its cursor, also when the batch was cut inside a line |
| `SessionCapture.SessionCapture.Publish` | src/swegca_vrs2/session_capture.py:334-356 | the cursor moves only after its batch is stored, whatever stage the crash hits |
| `SessionCapture.SessionCapture.QueueLine` | src/swegca_vrs2/session_capture.py:370-393 | a batch boundary inside a line publishes the cursor of the last whole line and loses no payload |
| `SessionCapture.SessionCapture.Scan` | src/swegca_vrs2/session_capture.py:319-393 | a scan goes to the last complete line, keeps what was stored and counts what it admitted; it is interrupted only if the environment stops it, fails only on a line that cannot be read, and is otherwise captured |
| `SessionCapture.FinishedStore` | src/swegca_vrs2/session_capture.py:345-393 | a cursor at the last complete line means the store is exactly the payloads of the complete lines |
| `SessionCapture.Follow` | src/swegca_vrs2/session_capture.py:289-393 | a growing transcript and any scans of it, stopped anywhere and tried again: nothing stored is lost, changed or foreign, and each scan that nothing stops ends with the store exactly the payloads of the complete lines, if they can be read |
| `Leases.MoveKeeps` | src/swegca_vrs2/session_capture.py:217-229 | no step under the lock, the reading and discarding of lease files included, loses a live lease or gets past it |
| `Leases.StepIsInvariant` | src/swegca_vrs2/loopback.py:780-884 | every step of scanners, daemon, consolidator and readers, renewals and the lease check outside the lock included, keeps the protocol invariant |
| `Leases.RunIsSound` | src/swegca_vrs2/loopback.py:780-884 | the invariant holds at every point of every interleaving |
| `Leases.StaysAnswered` | src/swegca_vrs2/loopback.py:644-649 | a status reply stays valid until its leases end or expire |
| `Leases.SnapshotIsPinned` | src/swegca_vrs2/loopback.py:866-874 | after a leased status reply, until the lease ends or expires, no unforced scan admits anything and no background consolidation commits |
| `Leases.OrphanUnpins` | src/swegca_vrs2/loopback.py:644-649 | the converse: with an orphaned unforced request in the daemon's hands, an admission right after the reply is possible |
| `Leases.OrphanHappens` | src/swegca_vrs2/session_capture.py:302-317 | a run that reaches this: a scanner is killed with its request in the daemon, a recall begins and is answered, and the request is admitted |
| `Leases.NoOrphans` | src/swegca_vrs2/session_capture.py:302-317 | there is no such request as long as no scanner dies while its own is being answered |
| `ReadLease.RecallActive` | src/swegca_vrs2/read_lease.py:72-89 | consolidation is deferred exactly when a lease is live, and exactly the expired ones are discarded |
| `RefineKernel.Refine` | src/swegca_vrs2/vrs_refine.py:86-130 | nodes no edge leads to keep their state, states that start in [-1, 1] stay there, and strengths end inside the clamp of their base |
| `RefineKernel.SourceKeepsState` | src/swegca_vrs2/vrs_refine.py:106-127 | a node no edge leads to has the state it came with, in every cycle and in the mean |
| `RefineKernel.StatesInUnit` | src/swegca_vrs2/vrs_refine.py:106-127 | with a squashing function into [-1, 1], states and their mean stay in [-1, 1] |
| `RefineKernel.RefinedInClamp` | src/swegca_vrs2/vrs_refine.py:104-125 | whatever states and strengths it started from, each strength ends between a quarter and four times its base |
| `RefineKernel.UnresolvedDecays` | src/swegca_vrs2/vrs_refine.py:117-125 | an edge with an unresolved endpoint only decays, cycle by cycle, down to its floor |
| `Consolidation.NodeLabel` | src/swegca_vrs2/vrs_refine.py:547-558 | the nodes of a normal region all bear its label |
| `Consolidation.PositionOf` | src/swegca_vrs2/vrs_refine.py:547-558 | every edge belongs to exactly one key |
| `Consolidation.ComputeIsFrozen` | src/swegca_vrs2/vrs_refine.py:640-650 | commits of other keys of the phase change nothing a key reads |
| `Consolidation.CommitOne` | src/swegca_vrs2/vrs_refine.py:652-675 | computing from the frozen inputs or from the current world commits the same |
| `Consolidation.RunPhase` | src/swegca_vrs2/vrs_refine.py:652-675 | a phase is all keys computed from the frozen world and then committed in order |
| `Consolidation.BothAreDone` | src/swegca_vrs2/vrs_refine.py:652-675 | the parallel phase and the serial loop both reach the one world that is determined by the set of keys |
| `Consolidation.PhaseIsSerial` | src/swegca_vrs2/vrs_refine.py:635-681 | parallel or serial, in any two orders, a phase gives the same strengths, states and region deltas |
| `Evidence.Build` | src/swegca_vrs2/vrs_evidence.py:219-272 | each hypothesis holds exactly the observations of live, resolved, signed, declared records in journal order, and each record its polarity, its hypothesis and its weight |
| `Evidence.OnlyEvidenceCounts` | src/swegca_vrs2/vrs_evidence.py:243-258 | pending, superseded, unsigned and undeclared records change no weight, whatever they say |
| `Evidence.ProposalWeightFacts` | src/swegca_vrs2/vrs_evidence.py:255-270 | the weight is in [0, 1] and positive exactly with support on the record's own side |
| `Evidence.WeightIsEvidence` | src/swegca_vrs2/vrs_evidence.py:52-62 | a record carries weight exactly when it is live, resolved, verified, declared and supported on its own side |
| `Promotion.BuildInputs` | src/swegca_vrs2/vrs_refine.py:473-536 | directs, unresolved marks, regions, endpoints, signs and bases of all nodes and edges are those of the evidence as it is now |
| `Promotion.EdgesFit` | src/swegca_vrs2/vrs_refine.py:503-523 | every edge leads from a record, to a cue exactly when it is a forward edge |
| `Promotion.UsageIsCapped` | src/swegca_vrs2/vrs_refine.py:497-504 | use alone never gives a base above its cap |
| `Promotion.WarmStart` | src/swegca_vrs2/vrs_refine.py:581-616 | strengths, states and fresh edges of the previous version carry over, every strength inside the clamp of its current base |
| `Promotion.Regions` | src/swegca_vrs2/vrs_refine.py:632 | the regions are the labels in use, each once, in order |
| `Promotion.CommitInClamp` | src/swegca_vrs2/vrs_refine.py:652-675 | a commit leaves every strength inside its clamp |
| `Promotion.PhaseInClamp` | src/swegca_vrs2/vrs_refine.py:652-675 | so does a whole phase |
| `Promotion.PhaseKeepsSource` | src/swegca_vrs2/vrs_refine.py:583-604 | a node no edge leads to keeps its state through a phase |
| `Promotion.PhaseInUnit` | src/swegca_vrs2/vrs_refine.py:652-675 | states in [-1, 1] stay there through a phase |
| `Promotion.RecordsStayCurrent` | src/swegca_vrs2/vrs_refine.py:593-604 | after a consolidation a record's state is its direct as the evidence gives it now |
| `Promotion.Consolidate` | src/swegca_vrs2/vrs_refine.py:561-690 | two phases run on the warm start of the previous version; afterwards every edge at the threshold has evidence now, every record's state is its current direct, and states stay in [-1, 1] |
| `Promotion.ClampIsEvidence` | src/swegca_vrs2/vrs_refine.py:484-523 | a strength within four times its base reaches the threshold only for a live, resolved, signed, declared record of weight at least 0.25; otherwise it stays at or below 0.8 |
| `Promotion.FilledLast` | src/swegca_vrs2/vrs_refine.py:605-616 | where a proposition edge is there twice, the later strength is the one kept for the next start |
| `Promotion.Generations` | src/swegca_vrs2/vrs_refine.py:561-700 | generation after generation, whatever evidence came, changed or went in between, all of this holds of each |
| `Promotion.ConsolidationIsSerial` | src/swegca_vrs2/vrs_refine.py:635-681 | the whole consolidation equals the serial loop over the regions in any order |
| `FineRegions.FirstFresh` | src/swegca_vrs2/vrs_refine.py:383-394 | fresh ids start just above every previous one |
| `FineRegions.Take` | src/swegca_vrs2/vrs_refine.py:396-406 | a part takes the most frequent unclaimed previous id of its nodes, or a fresh id if there is none |
| `FineRegions.LabelOne` | src/swegca_vrs2/vrs_refine.py:396-406 | labelling the next part keeps labels injective and gives an unchanged part its own id whenever that is still free |
| `FineRegions.FineLabels` | src/swegca_vrs2/vrs_refine.py:365-449 | two nodes share a fine label exactly when they are in the same part, the count is the number of labels, and an unchanged part keeps its id exactly when no earlier part took it |
| `FineRegions.UnchangedKeepsLabels` | src/swegca_vrs2/vrs_refine.py:373-379 | a partition that did not change keeps every label |
| `Vocabulary.SplitJoin` | src/swegca_vrs2/compact_index.py:101-150 | a block of newline-free cues decodes to the cues it was built from |
| `Vocabulary.DecodedAt` | src/swegca_vrs2/compact_index.py:120-154 | an id's block and position name its string |
| `Vocabulary.SearchSorted` | src/swegca_vrs2/compact_index.py:156-168 | the two searches bound exactly the entries of one hash |
| `Vocabulary.AddedIndexes` | src/swegca_vrs2/compact_index.py:170-186 | merging the new entries keeps the hash table sorted and complete |
| `Vocabulary.Vocab.constructor` | src/swegca_vrs2/compact_index.py:111-118 | a new vocabulary is empty |
| `Vocabulary.Vocab.StringOf` | src/swegca_vrs2/compact_index.py:153-154 | an id names its string, in a block or in the tail |
| `Vocabulary.Vocab.IdOf` | src/swegca_vrs2/compact_index.py:156-168 | a string's id is found below the limit, or there is none, whatever other strings share its hash |
| `Vocabulary.Vocab.Push` | src/swegca_vrs2/compact_index.py:170-186 | a string joins at the end, also when the tail becomes a block |
| `Vocabulary.Vocab.Add` | src/swegca_vrs2/compact_index.py:170-186 | new strings get the next ids in order and no earlier id changes |
| `Vocabulary.RunIsOk` | src/swegca_vrs2/compact_index.py:120-186 | what readers rely on holds between any two writes of the one writer |
| `Vocabulary.OnlyGrows` | src/swegca_vrs2/compact_index.py:120-186 | what an id names once it names for ever |
| `Vocabulary.ReadIsRight` | src/swegca_vrs2/compact_index.py:120-154 | a reader that fetches the tail before the blocks gets the right string for any id published before it began, in every interleaving |
| `Vocabulary.OtherOrderFails` | src/swegca_vrs2/compact_index.py:120-154 | a run in which fetching the blocks first loses a string to a flush in between |
| `CompactIndex.RowsOfPrefix` | src/swegca_vrs2/compact_index.py:247-257 | the rows of a prefix come first in a posting and the others lie beyond it |
| `CompactIndex.PostRow` | src/swegca_vrs2/compact_index.py:300-357 | postings stay the sorted inverse of the record-to-cue table when a row is added |
| `CompactIndex.UnpostRow` | src/swegca_vrs2/compact_index.py:359-383 | and when the last row is removed, with empty postings gone |
| `CompactIndex.RowsAgree` | src/swegca_vrs2/compact_index.py:517-526 | looking rows up by id and by string is the same |
| `CompactIndex.LookUp` | src/swegca_vrs2/compact_index.py:247-257 | the visible part of a posting is the answer for the cue's string in that generation |
| `CompactIndex.CodeCues` | src/swegca_vrs2/compact_index.py:300-357 | cues are coded to ids that name them, and no older id changes |
| `CompactIndex.PropositionsAreExact` | src/swegca_vrs2/compact_index.py:300-357 | a generation's propositions are the non-empty ones its records declare, each with exactly its records |
| `CompactIndex.NextGeneration` | src/swegca_vrs2/compact_index.py:300-357 | the generation derived by an append is the one computed from all its records, with its cue total, successors, propositions and outcome counts |
| `CompactIndex.OutcomesAreExact` | src/swegca_vrs2/compact_index.py:352-356 | a generation counts the outcomes of its records exactly |
| `CompactIndex.RefusalAgrees` | src/swegca_vrs2/compact_index.py:302-318 | an append is refused exactly for what the records say: the record is known, its predecessor is unknown or no fit, or the generation is not the head |
| `CompactIndex.Store.constructor` | src/swegca_vrs2/compact_index.py:193-210 | an empty store has no records |
| `CompactIndex.Store.Append` | src/swegca_vrs2/compact_index.py:300-357 | an append is refused without effect, or adds the record under its own cues and yields the generation that sees it; every generation seen before is seen still |
| `CompactIndex.Store.TruncateTo` | src/swegca_vrs2/compact_index.py:359-383 | truncation restores exactly the records before it while the vocabulary keeps their cues; every generation up to the count is seen still |
| `CompactIndex.Store.Masked` | src/swegca_vrs2/compact_index.py:545-565 | the masked view hides exactly the rows of the excluded kinds, if and only if the kept mask, when its key fits, agrees with the rows now there |
| `CompactIndex.Store.RowsForCue` | src/swegca_vrs2/compact_index.py:517-526 | a cue's rows are the visible records that carry the string |
| `CompactIndex.Store.RecallCandidates` | src/swegca_vrs2/compact_index.py:413-448 | recall on ids gives the records, matched cues and overlaps of the definition on strings, ranked |
| `CompactIndex.BuildCandidate` | src/swegca_vrs2/compact_index.py:425-448 | one candidate's matched cues and overlap are those of its strings |
| `CompactIndex.OverlapOfCounts` | src/swegca_vrs2/compact_index.py:430-440 | the ratio of counts is the size of the intersection over the size of the union |
| `CompactIndex.GatherMore` | src/swegca_vrs2/compact_index.py:413-448 | ranking one more record keeps the list complete and ordered |
| `CompactIndex.RankedIsUnique` | src/swegca_vrs2/compact_index.py:440-448 | ordering by overlap and then identifier leaves one possible list |
| `CompactIndex.GatheredIsUnique` | src/swegca_vrs2/compact_index.py:413-448 | so the definition determines the answer of a recall |
| `CompactIndex.MasksIntersect` | src/swegca_vrs2/compact_index.py:567-579 | a mask of a mask shows a row exactly when both do |
| `CompactIndex.MaskFiltersRecall` | src/swegca_vrs2/compact_index.py:590-608 | a masked view considers the records of the view it masks that the mask shows |
| `CompactIndex.MaskStrikesOut` | src/swegca_vrs2/compact_index.py:590-608 | the ranked answer on a masked view is the answer on the view it masks with the hidden records struck out, in the same order |
| `CompactIndex.Pinned` | src/swegca_vrs2/compact_index.py:247-448 | a reader's view answers rows and recall of the records of the start, before and after any appends and any truncations not below its count, and each of these changes is answered and changes the records as it must |
| `CompactIndex.Change1` | src/swegca_vrs2/compact_index.py:300-383 | one change by the writer does to records and generations what it must, and every generation up to its count is seen still |
| `CompactIndex.AppendAndUndo` | src/swegca_vrs2/compact_index.py:300-383 | an append, with the answer and the record it must give, that is truncated away leaves records and seen generations as they were |
| `CompactIndex.StaleMask` | src/swegca_vrs2/compact_index.py:555-565 | a mask kept across a truncation judges the row that took the place by the old kind |
| `Provenance.TwoReplacements` | src/swegca_vrs2/provenance.py:42-44 | the two replacements are one pass that turns CRLF and lone CR into LF |
| `Provenance.PatternsAreOneLine` | src/swegca_vrs2/provenance.py:28-29 | both split patterns consume one line break and look ahead within a line |
| `Provenance.SplitAlike` | src/swegca_vrs2/provenance.py:66-84 | without a lone CR, splitting the raw text and the normalised text gives the same parts |
| `Provenance.SplitLies` | src/swegca_vrs2/provenance.py:66-118 | the parts lie in the text one after the other with one consumed line break between them |
| `Provenance.LinesCountBreaks` | src/swegca_vrs2/provenance.py:66-118 | a part's first line is one more than the line breaks before it, leading blank lines included |
| `Provenance.CountsTell` | src/swegca_vrs2/provenance.py:66-84 | comparing the counts of CR and CRLF tells exactly whether there is a lone CR |
| `Provenance.PartsFast` | src/swegca_vrs2/provenance.py:66-84 | the fast path reports the parts of the normalised text with spans of the raw text |
| `Provenance.CutNormalizes` | src/swegca_vrs2/provenance.py:87-118 | the raw stretch between two mapped positions normalises to the text between them |
| `Provenance.Walk` | src/swegca_vrs2/provenance.py:87-110 | one walk maps every wanted normalised position to its byte offset |
| `Provenance.MapBoundaries` | src/swegca_vrs2/provenance.py:87-110 | the start and end of every part are mapped |
| `Provenance.PartsByWalk` | src/swegca_vrs2/provenance.py:87-118 | the walking path reports the same parts for any text |
| `Provenance.PartsWithSpans` | src/swegca_vrs2/provenance.py:66-84 | every part's span normalises and strips to its text, with right lines, in order |
| `Provenance.StripPiece` | src/swegca_vrs2/provenance.py:66-84 | the CR left dangling at the end of a piece does not survive stripping |
| `Provenance.FastIsIntact` | src/swegca_vrs2/provenance.py:66-84 | every span of the fast path reads back as its part's text |
| `Provenance.WalkIsIntact` | src/swegca_vrs2/provenance.py:87-118 | so does every span of the walking path |
| `Provenance.FastIsSeparated` | src/swegca_vrs2/provenance.py:66-84 | its spans are ordered and separated by the consumed line break alone |
| `Provenance.WalkIsSeparated` | src/swegca_vrs2/provenance.py:87-118 | the same for the walking path |
| `Provenance.PathsAgree` | src/swegca_vrs2/provenance.py:66-118 | wherever both apply, both paths give as many parts with the same texts and lines |
| `Origins.FindPart` | src/swegca_vrs2/provenance.py:142-162 | the first part that passes the test, or none does |
| `Origins.Judge` | src/swegca_vrs2/provenance.py:149-162 | a record no longer at its span is found elsewhere by digest, then by how it begins, else reported gone |
| `Origins.Verifier.Verify` | src/swegca_vrs2/provenance.py:127-162 | the verdict is what the file now says when the recorded bytes decide, when no index is kept, or when the kept one is of the version there is; else it is what that earlier version says |
| `Origins.DecodeCut` | src/swegca_vrs2/provenance.py:142-144 | bytes cut at character boundaries decode to those characters |
| `Origins.RightIsUnique` | src/swegca_vrs2/provenance.py:127-162 | a file says one thing only of a record |
| `Origins.KeyTells` | src/swegca_vrs2/provenance.py:168-174 | two versions share a key exactly when they are as long and differ at most outside their first and last 4096 bytes; up to 8192 bytes only when they are the same |
| `Origins.Verifier.PartsIndex` | src/swegca_vrs2/provenance.py:165-183 | the kept index under the key, or a new one of the file, for which the oldest makes room |
| `Origins.VerifyAll` | src/swegca_vrs2/provenance.py:127-183 | over any questions and any changes of the files, every verdict is what the file then says, as long as no two versions asked about share a key |
| `Origins.ShortIsToldApart` | src/swegca_vrs2/provenance.py:168-174 | versions of up to 8192 bytes never share a key |
| `Origins.MovedIsRight` | src/swegca_vrs2/provenance.py:146-149 | a verdict "moved" from a kept index is right exactly when it names the lines the record has in the file now |
| `Origins.StaleIsRightIff` | src/swegca_vrs2/provenance.py:146-162 | of a text that one of two versions has, the other version's index says the right thing if and only if the first part with that text has the same lines in both |
| `Origins.AskTwice` | src/swegca_vrs2/provenance.py:127-183 | two questions about versions that share a key: the second is answered right if and only if that is so, so asking for a text in which such versions differ gets a wrong answer |
| `Origins.EditedMiddle` | src/swegca_vrs2/provenance.py:146-183 | a file of 8193 bytes whose middle byte is edited between two questions: the second is answered "moved" for a text that is gone |
| `Origins.NotUtf8` | src/swegca_vrs2/provenance.py:66-84 | in a file that is not UTF-8 a span can end beyond the file, and the unchanged record is not found intact |
| `Origins.UnchangedIsIntact` | src/swegca_vrs2/provenance.py:142-149 | a record bound to any part of a UTF-8 file is intact as long as the file is unchanged |

## Left out

- Floating point: rounding, negative zero, summation order. All arithmetic is exact.
- Files, memory maps, fsync and operating system locks: only the durable order they induce is modelled. Slot and page
  writes are atomic, and a segment file is a value that methods replace.
- `_level_state` and `_state` of corrupt files: only states a crash can leave are modelled, not damaged bytes.
- Capsule layout and checksums of the exact directory, and byte encodings of cue slots and posting nodes: a torn capsule
  or copy is a constructor of its own. The frame layout of the journal is modelled byte by byte.
- Proposition routes of the exact directory: they repeat the source routes with a list as the value.
- LRU caches and put counters: they change no answer. The cache of `read_raw`, by modification time and size: a file
  is taken to be read as it is.
- `CueShards.CueShardDirectory.PutRecords`: the byte `key` of a new slot is written after its cue offset and its first
  copy, so a slot lands whole or not at all; a stored slot's new copy may also be torn. A crash while cues are still
  being staged leaves seals only and is not a fate of its own.
- `ExactReplay.ExactReplayStore.PutUntilDone`: on a disk where crashes hid keys the capacity condition is sufficient,
  and `Placement.CallNeedsRoom` necessary with slots in place of answers; where nothing is hidden they are one.
- `FastRegions.LocalMoves`: models the sequential phase of the local moves. The synchronous sweeps before it may lower
  the potential, and the canonical renumbering after it is a renaming; "converged" is not a local optimum, because the
  active set is not woken by changes of group totals alone.
- `FlatVrs.Settle`: evaluation and vehicle counters of the receipt.
- `FlatVrs.FixedPointIsUnique`: that a fixed point exists is not stated, because the reals of Dafny come without
  completeness; `FlatVrs.RoundsDrawTogether` gives the Cauchy sequence it would be the limit of.
- `RefineKernel.Refine`: stability and the evaluation count are not part of the result.
- `FineRegions.FineLabels`: the splitter itself is a parameter, and among equally frequent previous ids the code's sort
  leaves the choice open while the method takes the smallest.
- Portals, portal keys, memberships and their reverse index: reports computed from the strengths that no later step
  reads.
- `Promotion.Consolidate`: the propositions with their members come merged by alias and in order; the mirrored reverse
  edges, stability, portals, the version digest and the receipt are omitted.
- `Evidence.Build`: the accumulator's counts and its suspicion of a regime change are functions of a hypothesis's
  observations in journal order; how it discounts duplicates, age and producers is not modelled.
- `NativeJournal.Journal.Rewrite`: what calls on the object would do after it failed with unnumbered rows.
- Journal checkpoints, and segment names beyond the number they encode.
- `SessionCapture.SessionCapture.Scan`: the reading of a transcript line and the size of a request are parameters;
  recent users and session pairs carried in the cursor are omitted.
- `Leases.SnapshotIsPinned`: leases of owner directories other than the main one, the manual consolidate command, and
  anything after a lease expired.
- Snapshot digests and light episodes of the index; the normalisation of a cue is a parameter, and the
  terms of a record's text come normalised.
- `Vocabulary.Vocab.Add`: takes strings that are new and distinct, as its only caller passes them.
- `Provenance.PartsWithSpans`: takes the decoded text; byte positions are those of its UTF-8 encoding (section 3 of
  RFC 3629).
- `Origins.Verifier.Verify`: titles, digests, digits, white space and UTF-8 itself are parameters, and the code-ledger
  suffix is cut before the digest is asked for.
- Owner opening and eviction, request routing, ranking weights of projected and sharded recall, hooks, signatures, tools
  and the shell guard: wiring, formatting or one-branch claims.
