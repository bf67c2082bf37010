# Looplet's durability layer, modelled and proved in Dafny

Looplet saves a running agent so that a crash loses nothing and repeats nothing.  This project
models the parts of it where that is hardest to see from the code and proves, for every input,
every history and every interleaving, what they promise:

* **Incremental checkpoints** (`ChunkTree`, `Spool`, `StableSort`, `Slices`, `ListHistory`, `IncrementalRoot`,
  `RowTable`, `DiskBackedList`, `Documents`, `Records`, `RecordReader`, `RecordChecks`, `RecordTable`,
  `CheckpointDocuments`, `CheckpointReader`).  Lists on disk are saved as 32-ary trees of content-addressed nodes; a save
  patches the tree saved last with the rows that changed.  The patched root is always the root a
  build from scratch would give, a save fails only for what JSON cannot hold or when the hash collides, and
  a saved checkpoint reads back as its JSON normal form however much is saved after it.
* **Choosing what to resume** (`CheckpointFiles`, `CheckpointFields`, `ResumeSelection`, `ResumePolicy`,
  `ScanDamage`, `OverlookedCase`, `SavedCheckpoints`, `SavedCases`, `SampleTables`, `PendingDispatch`).  A directory scan reads only a few
  fields of each checkpoint; it is proved exactly when it concludes as a reader of everything would, and
  when it refuses, finds nothing and resumes.  A crash while tools run is never resumed as if they had
  not run.
* **Admission of model requests** (`Admission`, `TurnState`, `AdmissionProtocol`, `RequestRecovery`).  Requests
  are counted and marked pending before they are sent, over any number of crashes and resumes; the files of
  the protocol are whole checkpoints, and what recovery reads of them refuses while a request is open.
* **Nested requests** (`NestedRequests`).  Threads, the event loop and a canceller share one pending set.
* **Replay and compaction** (`Replay`, `ReplayContent`, `Compaction`, `CompactionContent`, `CompactionExact`,
  `CompactionFlow`, `CompactionWindow`, `CompactionCases`).
  Everything that was said is sent, in order and under its role.  The provider refuses a tool call without its answer; it is proved exactly when a compacted conversation
  can still be replayed, and exactly when its most recent messages are untouched.
* **Saved artifacts** (`ArtifactFiles`).  A half-written artifact never looks complete, and it is proved
  exactly whose files a reader finds behind a descriptor.

Code that changes things in place is a class or a method with a loop, proved against a function of
the old state; what the source promises is then proved about that function.  Protocols with several
actors are step systems with an invariant over every run.

## What the proofs rest on

* The hash is any function of a node.  It is never assumed injective: a collision is a refused save.
* A record's encoder loses nothing (`Codec.Lossless`), and the encoders handed to a checkpoint are
  pure and give values without lists on disk (`PlainEncoders`).
* `Ranked` says that no reference of a record table leads back to itself; every save keeps it
  (`Extends`), so every table that started empty has it (`SavesStayTidy`).  `EveryDocIsHeld` gives, for
  any document, a hash and such a table that holds it.
* Sort keys may be of any type; comparing them must be a weak order (`WeakOrder`).
* Every save, and every file replacement, is one atomic step; a transaction commits or rolls back whole.
* Turn discipline of recorded conversations (`Disciplined`): calls come from the model inside a turn,
  a result carries the turn of its call, turns do not interleave, and user messages and summaries
  carry no calls or results.  The recording code supplies it; the exact results do not need it.
* A run with an identity keeps its checkpoints in files whose names begin with it, as `key_for` names
  them (`OwnNames`); otherwise damage in them would pass for another run's.
* During a tool group the turn and call counters stay put and the clock does not go back, and what was
  saved before it counted less or stood at an earlier step (`GroupOf`).

* The host reads the decimal numerals Looplet writes as the numbers they stand for (`ReadsDigits`).

## What the proofs found

* `load_latest_for_resume` documents that without a selected identity every corrupt file blocks
  recovery.  A file does not when its resume fields name another identity: it is passed over before its
  records are verified (`CorruptBlocksIff`).  So the scan and a reader of everything conclude alike if
  and only if the scan refuses anyway or overlooks no such file (`ScansAgreeIff`);
  `CorruptFileBlocksNothing` is a directory in which recovery goes on beside a corrupt file.
* `Conversation.compact` documents that the most recent `keep_recent` messages stay verbatim.  They
  need not: when the window begins outside any turn and a later message in it opens one, the cut
  moves into the window (`CutMovesInIff`), and then the messages it passes are lost unless they are a
  single user message, which is carried over the cut, or everything before the cut is summaries
  already, or they repeat the very summary that is put in.  `KeepsWindowIff` is the exact condition,
  `WindowLost` and `WindowSurvives` are cases.
* Compaction can make a conversation unreplayable, also with shared and contiguous turns.  Whatever
  can be sent message by message stays replayable if and only if what is kept settles from the calls of
  the carried user message (`CompactedReplaysIffSettles`).  Where every result answers an open call
  (`ResultsPaired`) this is: every carried call is still open at the cut, and no answer to a call that
  was cut away arrives while another call is open (`CompactedReplaysIff`); and when no call is open at
  the cut, that the carried user message makes no call (`WholePairsReplayIff`).  Without that premise
  the condition is still sufficient (`SafeKeepsReplay`), but not necessary (`StrayAnswerCloses`).
  `UserCallsBreakReplay` and `HostCallsBreakReplay` are failing conversations; a pair that is cut
  apart need not break replay, because a lone answer is sent as text (`StraddlingCanReplay`).
* A saved artifact may show a component of an earlier, crashed write: only the descriptor is dropped
  before a new write, and only the presence of component files is checked.  The components are the
  publishing write's own, whatever was there before, if and only if its payload writes the file of
  each (`ComponentsAreOwn`); `StaleComponent` is a run.
* `cancel_pending` may return while a request is still in the pending set, because it waits for the
  first of the two writes of settling and takes no lock.  `EmptyOnReturn` is the exact condition,
  `ReturnsTooEarly` a run.
* In native form a recorded message that brings raw `tool_result` blocks of its own is passed on as it
  is; the input is then never properly paired.  `AcceptedIsPaired` says exactly when it is,
  `RawIsAccepted` is such an input.
* A checkpoint with an improper turn cursor is refused only when it has to be compared: a single one
  of its kind is resumed (`ImproperIsResumed`, `TwoImproperRefuse`).  `ScanIsFirstLatest` says exactly
  when a scan fails.
* An incremental checkpoint whose run identity is not a string may be written and never read back: the
  text of the identity in memory is compared with the text of the one that was stored.
  `IdentityReadsBack` is the exact condition, `TupleIdentityLost` a run whose identity is a tuple.
* Admission asks whether a pending marker is there, a resume whether it counts as something.  A marker that
  was found as null or empty lets the run be gone on with (`SavedReads`) and then denies every request
  (`InheritedBlocks`); no save writes such a marker (`SavedResumableIff`).
* When a cached payload does not match, `_put` has taken the entry out of the cache without lowering
  the byte counter; the save fails and resets it.  `Put` states the exact surplus (`Stale`); it takes a collision of
  the hash (`SurplusIffCollision`).

## Model

| member | source | states |
|---|---|---|
| ChunkTree.SequenceSetIsCanonical | src/looplet/_checkpoint_storage.py:107-139 | writing slot p of the canonical tree of n elements, p up to n, gives the canonical tree of the written sequence, also when the tree grows a level or a fresh right edge |
| ChunkTree.GroupUpIsNextLevel | src/looplet/_checkpoint_storage.py:183-187 | grouping one level of chunks by 32 gives the next level of the canonical tree |
| ChunkTree.HeightUnique | src/looplet/_checkpoint_storage.py:115-118 | the height the capacity loop finds is the height of the canonical tree, for every length |
| ChunkTree.ChunksSetOrAppend | src/looplet/_checkpoint_storage.py:126-136 | a slot write changes exactly one run of the list, at the quotient, and inside it the remainder |
| ChunkTree.ReplaceBuilt | src/looplet/_checkpoint_storage.py:123-139 | the recursive patch of a built tree is the built tree of the patched list |
| Spool.TotalIsSum | src/looplet/_storage.py:84-100 | the incremental total, once the live record is weighed, is the sum over the list |
| Spool.FlushKeeps | src/looplet/_storage.py:109-120 | writing back the live record changes no record, and a row gets a new revision exactly when its payload is another |
| Spool.GetIsRead | src/looplet/_storage.py:128-141 | reading gives the record at the index and leaves the list as it was |
| Spool.SetIsAssign | src/looplet/_storage.py:161-174 | assignment replaces one record of the plain list, and the new record is the live one |
| Spool.DeleteIsRemove | src/looplet/_storage.py:182-197 | deletion removes one record of the plain list and starts a new generation |
| Spool.InsertIsInsert | src/looplet/_storage.py:199-223 | insertion puts one record into the plain list and makes it the live one; inside the list it starts a new generation |
| StableSort.StableOrder | src/looplet/_storage.py:235-237 | the order is a permutation, sorted by key, with equal keys in their old order, also reversed |
| StableSort.StableIsUnique | src/looplet/_storage.py:235-237 | any stable sort of the same keys gives this order |
| ListHistory.SortedByKey | src/looplet/_storage.py:233-237 | the sorted list runs by key in the direction asked for, and records with equal keys keep their old order |
| ListHistory.RearrangeIsReorder | src/looplet/_storage.py:233-245 | sorting rearranges the plain list by the computed order and starts a new generation |
| ListHistory.StepRefinesPlainList | src/looplet/_storage.py:84-245 | every operation, with indices from either end, slices of any step, sorts and in-place edits of the live record, acts as on a plain list and keeps the weight total |
| ListHistory.FitsAfterStep | src/looplet/_storage.py:109-245 | no operation, slices included, makes an earlier cursor lie: a remembered row is unchanged or carries a later revision, or the generation is new |
| IncrementalRoot.ChangedAscending | src/looplet/_storage.py:259-265 | the positions handed out ascend without repeats below the stop |
| IncrementalRoot.DeltaCompletes | src/looplet/_storage.py:247-270 | overwriting the remembered prefix with the delta gives exactly the current first records, in ascending positions |
| IncrementalRoot.DeltaIsMinimal | src/looplet/_storage.py:256-265 | the delta tells about exactly the records that were added since or whose row has been written since |
| IncrementalRoot.SavedTwiceHandsOutNothing | src/looplet/_checkpoint_storage.py:148-170 | a save remembers where it stood: saved again at once, no record is handed out and the root is the one remembered |
| IncrementalRoot.ChangesFromNothing | src/looplet/_storage.py:256-258 | a stale cursor, or one past the stop, gets every record in order |
| IncrementalRoot.FastRootIsCanonical | src/looplet/_checkpoint_storage.py:141-171 | the incremental root, patched or rebuilt, is the canonical tree of the current records |
| IncrementalRoot.EveryRootIsScratchRoot | src/looplet/_checkpoint_storage.py:141-188 | after any history of edits, slice operations, sorts, saves and lost cursors the next incremental root is the root built from scratch |
| RowTable.NoRowUpdateCollides | src/looplet/_storage.py:188-194 | whatever rows an UPDATE has moved already, the next single row lands on a free key |
| RowTable.CloseGap | src/looplet/_storage.py:188-194 | the two negating updates after a delete are collision-free and close the gap |
| RowTable.OpenGap | src/looplet/_storage.py:206-212 | the two negating updates before an insert are collision-free and open the gap |
| RowTable.ParkRows | src/looplet/_storage.py:241-241 | parking every row below zero is collision-free and loses none |
| RowTable.PlaceRow | src/looplet/_storage.py:242-245 | placing one parked row after a sort never collides and puts the right row there |
| DiskBackedList.DiskBackedList.TotalWeight | src/looplet/_storage.py:95-100 | the total equals the sum of the weights of the records now in the list |
| DiskBackedList.DiskBackedList.FlushLive | src/looplet/_storage.py:109-120 | the whole new state is the flushed old one; the view is unchanged |
| DiskBackedList.DiskBackedList.GetItem | src/looplet/_storage.py:128-141 | the record at the index, or at the length plus the index when that is negative; refused before anything changes exactly when the index is outside the list |
| DiskBackedList.DiskBackedList.SetItem | src/looplet/_storage.py:160-174 | the record at the index, or at the length plus a negative index, is replaced and is the live one; refused exactly outside the list; the whole new state is the specified one |
| DiskBackedList.DiskBackedList.DelItem | src/looplet/_storage.py:181-197 | the record at the index, or at the length plus a negative index, is removed; refused exactly outside the list; rows stand at exactly the positions below the length |
| DiskBackedList.DiskBackedList.InsertItem | src/looplet/_storage.py:199-223 | the record goes in at the index, counted from the end when negative, at an end when that is outside the list, and is the live one; rows stand at exactly the positions below the length |
| DiskBackedList.DiskBackedList.Clear | src/looplet/_storage.py:225-231 | the view is empty and the generation new |
| DiskBackedList.DiskBackedList.Sort | src/looplet/_storage.py:233-245 | the view becomes its stable rearrangement by key, sorted in the direction asked for, the generation is new, and the whole new state is the specified one |
| DiskBackedList.DiskBackedList.ChangesSince | src/looplet/_storage.py:247-270 | the delta of the flushed list; a stop past the end is refused |
| DiskBackedList.DiskBackedList.Snapshot | src/looplet/_storage.py:282-297 | an independent list with the same records, generation and revision |
| Slices.PositionsInside | src/looplet/_storage.py:130-131 | every position a slice names is in the list, and they run strictly up or strictly down |
| Slices.PositionsAre | src/looplet/_storage.py:130-131 | which positions those are, told from the slice as written: ends count from the back when negative, a missing one leaves its side open, steps count from the first position inside the list |
| Slices.DeleteNext | src/looplet/_storage.py:178-181 | deleting from the highest position down always hits the element meant |
| Slices.AssignedAt | src/looplet/_storage.py:150-152 | after slice assignment each named position holds its value and nothing else changed |
| DiskBackedList.DiskBackedList.GetSlice | src/looplet/_storage.py:130-131 | the records at the positions of a slice, any step, in its order; step zero is refused; the new state is that of reading them one by one |
| DiskBackedList.DiskBackedList.DelSlice | src/looplet/_storage.py:178-181 | exactly the elements at the positions the slice names are gone from the view; the new state is that of deleting them from the highest down |
| DiskBackedList.DiskBackedList.SetSlice | src/looplet/_storage.py:145-159 | each position gets its value, or a contiguous slice is replaced by any values; a stepped slice that would change the length is refused; the new state is that of the single assignments, or deletions and insertions |
| Documents.BuildReadsAs | src/looplet/_checkpoint_storage.py:173-188 | chunk structure is invisible to a reader, and list elements that are lists stay elements |
| Documents.DocReadsAsNormal | src/looplet/_checkpoint_storage.py:190-217 | what a value is stored as reads back as its JSON normal form |
| Documents.SavedIff | src/looplet/_checkpoint_storage.py:190-217 | a value can be saved exactly when every part of it is a scalar, a container or a long enough list on disk, and every key one JSON can write |
| Documents.DictReadsFields | src/looplet/_checkpoint_storage.py:201-212 | a saved dict reads back with a field for each name its keys are written under, strings as they are and null, booleans and numbers as JSON writes them, holding the last entry of that name |
| RecordReader.HeldDecodes | src/looplet/_checkpoint_storage.py:305-339 | a document whose nodes are in the table decodes to its JSON, whatever else is there |
| RecordReader.DecodeStable | src/looplet/_checkpoint_storage.py:305-339 | what could be decoded decodes to the same after rows were added |
| RecordReader.ProjectionCommutes | src/looplet/_checkpoint_storage.py:325-338 | reading some fields is reading everything and keeping those fields |
| RecordReader.SoundIffDecodes | src/looplet/_checkpoint_storage.py:281-303 | verification accepts exactly what can be decoded |
| RecordChecks.ReadableIffRowsGood | src/looplet/_checkpoint_storage.py:252-303 | a digest is verified, and can be decoded, exactly when every row that can be reached from it is there, hashes to its key, is a record and has lists for chunks |
| RecordChecks.LoadsIff | src/looplet/_checkpoint_storage.py:341-358 | a part loads exactly when the root is a good object record with members named "checkpoint" and "summary" and no others, and the last of its name decodes to an object |
| RecordReader.VerifiedSet.Visit | src/looplet/_checkpoint_storage.py:282-296 | true exactly when the whole closure is present and well formed; every digest in the set is, also after a failure |
| RecordReader.VerifiedDecodes | src/looplet/_checkpoint_storage.py:281-303 | a digest verified under any root can be decoded |
| RecordReader.FreshRowKeepsRank | src/looplet/_checkpoint_storage.py:92-98 | writing a row whose references are there keeps every reference resolvable and free of cycles, whatever the hash |
| RecordTable.RecordTable.Put | src/looplet/_checkpoint_storage.py:79-105 | refused exactly when another payload lies under the digest; digest and rows are those of a put without cache; cached entries are rows, the one put is the newest, both bounds hold, and the byte counter is exact but for the surplus of a failed call |
| RecordTable.SurplusIffCollision | src/looplet/_checkpoint_storage.py:82-87 | the byte counter is left too high exactly when the hash collides on a cached payload |
| RecordTable.RecordTable.Evict | src/looplet/_checkpoint_storage.py:99-104 | the oldest entries go, as few as it takes to meet both bounds, and the byte counter is exact |
| RecordTable.PutExtends | src/looplet/_checkpoint_storage.py:92-98 | a put only adds rows and keeps the table readable to the end; it is refused only when a row does not match its key or the hash collides |
| RecordTable.RecordTable.Replace | src/looplet/_checkpoint_storage.py:123-137 | the patched path is stored and is the canonical subtree of the patched run |
| RecordTable.RecordTable.SequenceSet | src/looplet/_checkpoint_storage.py:107-139 | the returned digest is the canonical root of the written list, all of it stored |
| RecordTable.RecordTable.GroupLevels | src/looplet/_checkpoint_storage.py:183-188 | grouping the leaves until one chunk is left gives the canonical root, stored |
| RecordTable.RecordTable.CompleteLeaf | src/looplet/_checkpoint_storage.py:176-180 | the 32nd child completes a stored leaf |
| RecordTable.RecordTable.FinishList | src/looplet/_checkpoint_storage.py:181-188 | the last leaf and the levels above give the canonical root, also for an empty list |
| CheckpointDocuments.CheckpointDocuments.Encode | src/looplet/_checkpoint_storage.py:190-217 | the root of the value's document, stored whole, or a refusal; lists show what they showed |
| CheckpointDocuments.CheckpointDocuments.EncodeList | src/looplet/_checkpoint_storage.py:173-188 | the canonical root of the elements' documents |
| CheckpointDocuments.CheckpointDocuments.EncodeDict | src/looplet/_checkpoint_storage.py:201-212 | the root of the object document, scalar keys as strings, other keys refused |
| CheckpointDocuments.CheckpointDocuments.EncodeSequence | src/looplet/_checkpoint_storage.py:141-171 | the root is that of the captured prefix built from scratch, whichever branch ran; remembered are the root and the generation, revision and length it was taken at |
| CheckpointDocuments.CheckpointDocuments.PatchSequence | src/looplet/_checkpoint_storage.py:154-160 | patching change by change ends at the canonical root of the current records |
| CheckpointDocuments.CheckpointDocuments.RebuildSequence | src/looplet/_checkpoint_storage.py:161-164 | the rebuilt root is the canonical root of the current records |
| CheckpointDocuments.CheckpointDocuments.ReadChanges | src/looplet/_checkpoint_storage.py:149-153 | the delta completes the remembered records, and every other remembered cursor keeps fitting |
| CheckpointDocuments.CheckpointDocuments.Save | src/looplet/_checkpoint_storage.py:219-250 | a good save returns the root of the whole document, stored, and keeps every remembered cursor unless somebody else has committed; a value that can be saved fails only when a row does not match its key or the hash collides; a failed save leaves rows and cursors as they were |
| CheckpointDocuments.CheckpointDocuments.OtherCommits | src/looplet/_checkpoint_storage.py:236-242 | whatever rows another connection leaves, the store stays sound and the next save trusts no remembered root |
| CheckpointDocuments.FitsAtAfterStep | src/looplet/_storage.py:247-270 | whatever is done to a list between saves, slices included, every remembered cursor keeps fitting it |
| CheckpointDocuments.DeltaFor | src/looplet/_checkpoint_storage.py:149-161 | the delta for the saved cursor, or for none, in the form each branch needs |
| CheckpointReader.SavedLoads | src/looplet/_checkpoint_storage.py:341-358 | loading a saved document gives the JSON normal form of the chosen part, cut to the chosen fields |
| CheckpointReader.SavedStaysReadable | src/looplet/_checkpoint_storage.py:219-250 | in a table that started empty, a saved checkpoint and its summary load as what was saved, after any number of saves before and after it |
| CheckpointFiles.PayloadParses | src/looplet/checkpoint.py:291-381 | parsing a written payload gives the checkpoint back, exactly when its step is an integer |
| CheckpointFields.ParsesIff | src/looplet/checkpoint.py:321-364 | a payload is read exactly when every field that is there is of its kind, and the step is an integer, or marked with the turn state it needs |
| CheckpointFields.ParsedShows | src/looplet/checkpoint.py:369-381 | every part of the checkpoint that is read is its field, or what stands for a missing one |
| CheckpointFiles.ProjectedParse | src/looplet/checkpoint.py:321-381 | parsing the projected payload succeeds exactly when parsing the whole does, and gives its trimmed checkpoint |
| CheckpointFiles.TrimKeeps | src/looplet/checkpoint.py:607-660 | trimming keeps order key, run identity, terminal flag and summary |
| CheckpointFields.SameSummarySameChoice | src/looplet/checkpoint.py:607-629 | two checkpoints with the same stored summary have the same identity and order, have both ended or neither, and have both a turn state or neither |
| CheckpointFields.OrderIff | src/looplet/checkpoint.py:651-660 | a checkpoint can be ordered exactly when its turn state, if any, is an object with counters that are whole and not negative; a missing one counts as zero |
| CheckpointFields.VerdictIff | src/looplet/checkpoint.py:933-943 | a resume is refused for tool effects exactly when calls are recorded as pending, otherwise for a model request exactly when the turn state records one, and not otherwise |
| CheckpointFields.TruthyIff | src/looplet/checkpoint.py:933-939 | which recorded values count as nothing |
| ResumeSelection.ScanSeesWhole | src/looplet/checkpoint.py:423-461 | of an intact file the summary reader sees what the full reader sees |
| ResumeSelection.LoadLatestForResume | src/looplet/checkpoint.py:556-604 | the loop over the directory computes the specified choice with one shared verification set |
| ResumeSelection.ScanIsFirstLatest | src/looplet/checkpoint.py:566-597 | the scan fails exactly on damage it sees or on incomparable checkpoints, and otherwise picks the first latest of each kind |
| ResumeSelection.ResumesLatest | src/looplet/checkpoint.py:556-604 | refused exactly on damage the scan sees or on incomparable checkpoints; nothing exactly when it sees no checkpoint or the terminal one has no turn state; otherwise exactly the authoritative checkpoint: the latest terminal one, or the latest running one when none is terminal |
| ResumePolicy.LaterIsTotal | src/looplet/checkpoint.py:651-660 | of two orders that differ exactly one is later: the turns decide, then the requests, then the step, then the time |
| ResumePolicy.ForeignIff | src/looplet/checkpoint.py:589-594 | whose names excuse damage: an identity is selected, the name has the separator, and does not begin with that identity and the separator |
| ResumePolicy.OwnIsNotForeign | src/looplet/checkpoint.py:589-594 | what a run saves is never foreign to itself, and is to every run whose name it does not begin with |
| ResumePolicy.EndedHidesOthers | src/looplet/checkpoint.py:284-289 | what is resumed has ended, by its status, phase or reason, exactly when some checkpoint of the run has, and then it has a turn state |
| ScanDamage.BrokenIff | src/looplet/checkpoint.py:574-598 | the damage the scan sees: a corrupt file whose resume fields name no other identity and whose name is in no other run's namespace |
| ScanDamage.CorruptBlocksIff | src/looplet/checkpoint.py:556-598 | a corrupt file blocks every directory it lies in, if and only if it is neither passed over for its identity nor excused for its name |
| ScanDamage.ScansAgreeIff | src/looplet/checkpoint.py:566-604 | scanning resume fields concludes as reading everything does, if and only if it refuses anyway or overlooks no file that a full reader cannot read |
| OverlookedCase.CorruptFileBlocksNothing | src/looplet/checkpoint.py:556-604 | no identity is selected and a file is corrupt, yet recovery goes on beside it |
| PendingDispatch.PendingRefuses | src/looplet/checkpoint.py:698-741 | a pending checkpoint refuses to resume and names exactly the dispatched calls as unknown |
| PendingDispatch.PendingRecords | src/looplet/checkpoint.py:714-741 | it records every call as proposed and as it runs, in order, with its status, and is otherwise the captured run without a reason |
| PendingDispatch.StepsStay | src/looplet/async_loop.py:1996-1996 | every call that has saved its step is on disk under it |
| PendingDispatch.StepListedFirst | src/looplet/checkpoint.py:572-572 | the file of a step comes before its pending file in path order |
| SavedCheckpoints.DocumentReadsBack | src/looplet/checkpoint.py:423-449 | whatever identity text went into the summary: an incrementally saved checkpoint is never damaged and reads back as itself, exactly when its step is an integer and its run identity reads as that text |
| SavedCases.IdentityReadsBack | src/looplet/checkpoint.py:275-282 | for an identity in memory: exactly when it is null or its text is the text of what it is stored as |
| SavedCases.TupleIdentityLost | src/looplet/checkpoint.py:646-648 | a checkpoint of a run whose identity is a tuple is saved and never read back |
| SavedCheckpoints.ImproperIsResumed | src/looplet/checkpoint.py:585-587 | a lone checkpoint with an improper turn cursor is resumed |
| SavedCheckpoints.TwoImproperRefuse | src/looplet/checkpoint.py:585-598 | two of them are refused |
| PendingDispatch.CrashDuringGroup | src/looplet/async_loop.py:1796-1996 | at every crash point of a group resuming reads the pending checkpoint, which refuses to go on; after the last post-step save it reads that step, and tool effects no longer refuse it; files of other runs may lie beside |
| Admission.ResumedCap | src/looplet/assistant_turns.py:123-130 | a resume may keep or lower the saved cap; it is refused exactly when the configuration would raise it |
| Admission.AdmittedIff | src/looplet/assistant_turns.py:310-329 | after any run of an unmarked process a request is admitted exactly when every pending call is active and was admitted as safe to overlap, this one may overlap, and the token, the deadline and the cap allow it; it is denied for its context exactly when the first part fails, and then for the token before the deadline |
| Admission.AcknowledgedIff | src/looplet/assistant_turns.py:310-375 | after acknowledging a call, exactly that call is gone, and a request is admitted exactly when every other pending call may be joined and token, deadline and cap allow it |
| Admission.MarkerNames | src/looplet/assistant_turns.py:331-341 | the marker names exactly the pending calls, and is there exactly when there are any |
| Admission.AssistantTurns.Admit | src/looplet/assistant_turns.py:343-363 | admission counts the call, appends it with its turn, and marks it; denial changes nothing; after a failed save it alone is no longer served |
| Admission.AssistantTurns.GiveUp | src/looplet/assistant_turns.py:365-368 | the call alone is no longer served; what is pending and marked stays |
| Admission.GivenUpStaysMarked | src/looplet/assistant_turns.py:365-368 | a call that was given up stays pending and named in the saved marker through any later run, and every later request is denied, until it is acknowledged |
| Admission.FailedSaveIsGivenUp | src/looplet/assistant_turns.py:355-363 | a call whose own checkpoint could not be saved is counted, pending and given up |
| Admission.AssistantTurns.Settle | src/looplet/assistant_turns.py:370-375 | exactly the acknowledged call is gone from what is pending, served and safe, and the marker names exactly what is still pending |
| Admission.ReachableInv | src/looplet/assistant_turns.py:310-375 | in every reachable state safe calls are active, active calls pending, several pending calls all overlap-safe, and the marker says exactly what is pending |
| Admission.CapHolds | src/looplet/assistant_turns.py:324-329 | no run of admissions goes over the cap |
| Admission.AbandonedBlocks | src/looplet/assistant_turns.py:310-368 | one abandoned call blocks every later admission |
| Admission.InheritedBlocks | src/looplet/assistant_turns.py:310-317 | a marker left by an earlier process blocks every admission |
| TurnState.SavedReads | src/looplet/assistant_turns.py:194-231 | what a resume reads of a saved checkpoint: the counters and the ceiling of the process as its order and cap; refused for tool effects exactly when calls are pending, and otherwise for a model request exactly when the marker is there and counts as something |
| TurnState.SavedResumableIff | src/looplet/checkpoint.py:933-943 | a checkpoint that a process saves may be gone on from exactly when none of its requests is open, unless tool effects are unknown |
| TurnState.RestStays | src/looplet/assistant_turns.py:194-231 | nothing else of the checkpoint is touched by saving, nor of the turn state that was there |
| TurnState.MarkerNamesAll | src/looplet/assistant_turns.py:331-341 | the saved marker names every pending call by turn and number, in order |
| AdmissionProtocol.RunKeepsInv | src/looplet/assistant_turns.py:310-375 | the invariant of the crash and resume protocol holds after every run |
| AdmissionProtocol.SentOnlyWhenDurable | src/looplet/assistant_turns.py:638-690 | nothing is sent before a checkpoint on disk counts it and refuses to be gone on from, and at that moment every file a resume could select refuses |
| AdmissionProtocol.OpenRequestBlocksResume | src/looplet/checkpoint.py:936-943 | while a sent request is unacknowledged, the verdict of the file a resume selects is a refusal |
| RequestRecovery.CrashDuringRequest | src/looplet/checkpoint.py:556-604 | the files of any run on disk, none terminal: recovery resumes from a file none is later than, and while a sent request is unacknowledged its verdict is a refusal |
| AdmissionProtocol.ResumesIff | src/looplet/checkpoint.py:933-943 | a resume goes on from the selected file exactly when its verdict allows it and the configuration does not raise its cap; then it counts what the file counts, every request ever sent among it, all of them acknowledged, and nothing is pending |
| AdmissionProtocol.FinishedIsGone | src/looplet/assistant_turns.py:641-660 | a finished request is gone and no other, and what is saved from then on may be gone on from exactly when no other is open |
| AdmissionProtocol.RequestIsServed | src/looplet/assistant_turns.py:641-690 | a process with nothing open and below its cap can always have a request admitted, saved, sent and finished, counted once |
| AdmissionProtocol.FailedSaveStops | src/looplet/assistant_turns.py:355-363 | a request whose own save failed is never sent by its process and keeps every other from being admitted; when the save has landed after all, the file refuses |
| AdmissionProtocol.RunStarts | src/looplet/assistant_turns.py:96-110 | a run starts in an empty directory with nothing counted and nothing pending |
| AdmissionProtocol.SentWithinCap | src/looplet/assistant_turns.py:111-130 | over all crashes and resumes no request number is sent twice and at most the first cap are sent |
| NestedRequests.EveryInterleaving | src/looplet/async_loop.py:216-365 | no request is both started and aborted, none settles twice, and the pending set is exactly the joined requests not yet settled |
| NestedRequests.ClosedOnlyShrinks | src/looplet/async_loop.py:271-276 | after closing nobody joins, and who tries is refused |
| NestedRequests.AnswersSettle | src/looplet/async_loop.py:232-262 | who joins is pending; a plain or raised answer lets it settle at once, a response does not |
| NestedRequests.ReturnLeaves | src/looplet/async_loop.py:351-365 | on return everything waited for is completed, and only a request in the middle of settling may be left |
| NestedRequests.EmptyOnReturn | src/looplet/async_loop.py:226-230 | the pending set is empty on return exactly when no settling is in progress |
| NestedRequests.ReturnsTooEarly | src/looplet/async_loop.py:355-365 | a run in which the canceller returns with a request still pending |
| NestedRequests.ForwardHelps | src/looplet/async_loop.py:232-262 | every helpful step, generating with any outcome among them, brings a joined request closer to being settled |
| NestedRequests.NobodyHinders | src/looplet/async_loop.py:216-365 | no step of anybody takes a joined request further from being settled |
| NestedRequests.CanAlwaysSettle | src/looplet/async_loop.py:216-365 | from every reachable state every joined request can be settled, exactly once |
| NestedRequests.FairRunSettles | src/looplet/async_loop.py:216-365 | no run holds more than five steps helpful to a request, and until it is completed the next one is there to be taken or the lock to be released: every fair run settles it |
| Replay.ConversationMessages | src/looplet/backends.py:361-473 | the loops build the specified provider input, or refuse where it is refused |
| ReplayContent.EverythingIsSaid | src/looplet/backends.py:361-473 | an accepted input is the prompt, for every recorded message in order what its fields convey (an answer under its call id, a lone result and prior context as marked text, whatever the user, the model or the host said under its role), and the closing line; merging in native form changes neither a block nor who says it |
| ReplayContent.SendableIff | src/looplet/backends.py:417-440 | which messages can be sent at all: all but those replayed as they are that name a call badly or twice, or hold what the form cannot carry |
| Replay.AcceptedShape | src/looplet/backends.py:455-473 | an accepted input starts and ends with the user, and in native form roles alternate |
| Replay.AcceptedIsPaired | src/looplet/backends.py:361-454 | every call is answered exactly once before its identifier is reused, exactly when no raw tool results were replayed |
| Replay.RawIsAccepted | src/looplet/backends.py:417-450 | a native input with a raw answer to no call is accepted, and not paired |
| Replay.CallsConserved | src/looplet/backends.py:417-450 | the calls the provider sees are those recorded, all of them, in order |
| Replay.MergeKeeps | src/looplet/backends.py:457-472 | merging keeps every block in order and makes roles alternate |
| Compaction.Conversation.Compact | src/looplet/conversation.py:167-253 | the messages become the specified compaction |
| CompactionContent.CompactedIs | src/looplet/conversation.py:190-253 | the earlier summaries, one message with the summary text, a boundary of the user or the system as the conversation is typed, the last thing the user said unless it is there already, and from the cut on everything as it was |
| CompactionContent.CutIs | src/looplet/conversation.py:196-212 | where the cut is: before the first message of any turn the recent messages belong to when the model speaks, otherwise before the recent messages |
| Compaction.Conversation.CompactIfSmaller | src/looplet/compact.py:223-242 | a compaction that does not shorten is undone |
| Compaction.Conversation.Prune | src/looplet/compact.py:854-917 | exactly the specified tool payloads are cleared, and whether any was |
| CompactionContent.PrunedIs | src/looplet/compact.py:873-907 | a message is cleared exactly when it is a tool message with a payload, of a tool that may be cleared, with enough newer ones; then its text and the data of its result are the marker and all else is as it was |
| Compaction.Conversation.DefaultCompact | src/looplet/compact.py:970-1026 | the stages of the default service, the fallback only when neither did anything |
| CompactionContent.DefaultSummaryIs | src/looplet/compact.py:970-1026 | whenever a stage compacts, its summary is in what is left: the fallback's exactly when it was the fallback that compacted |
| Compaction.CutSplitsNoPair | src/looplet/conversation.py:196-212 | when calls are made in turns, and turns are shared and contiguous, no call before the cut has its answer after it |
| Compaction.NothingOpenAtCut | src/looplet/conversation.py:196-212 | under the same premises no call of a replayable conversation is open at the cut, and the kept part is replayable by itself |
| CompactionFlow.ReplayableIffSettles | src/looplet/backends.py:361-454 | an input can be built if and only if every message can be sent by itself and calls and answers settle: an answer closes an open call or comes when none is open, no open identifier is called again, nothing stays open |
| CompactionFlow.CompactedReplaysIffSettles | src/looplet/conversation.py:190-253 | for every conversation whose messages can be sent one by one: a compacted one is replayable if and only if what is kept settles from the calls of the carried user message |
| CompactionExact.SafeIffCompactsWell | src/looplet/conversation.py:190-253 | where every result answers an open call, that is the condition of the next row |
| CompactionExact.CompactedReplaysIff | src/looplet/conversation.py:190-253 | where every result answers an open call: a compacted conversation is replayable if and only if every call of the carried user message is open at the cut and no answer to a call cut away arrives while another is open |
| CompactionExact.SafeKeepsReplay | src/looplet/conversation.py:190-253 | that condition is sufficient for every replayable conversation, whatever its results answer |
| CompactionExact.WholePairsReplayIff | src/looplet/conversation.py:214-252 | where every result answers an open call and no call is open at the cut: replay is kept if and only if the carried user message makes no call |
| CompactionExact.TurnsReplayIff | src/looplet/conversation.py:196-252 | the same where every result answers an open call and calls are made in shared, contiguous turns |
| Compaction.CompactedKeepsDiscipline | src/looplet/conversation.py:190-253 | a compacted conversation still meets the turn discipline |
| Compaction.CompactedKeepsMemory | src/looplet/conversation.py:172-181 | earlier summaries stay in order, one is added, and the last thing the user said is kept |
| CompactionFlow.IfSmallerIff | src/looplet/compact.py:223-242 | a compaction is not undone exactly when there is a cut and more is replaced before it than the summary and the carried user message put back |
| CompactionFlow.DefaultCompactedIs | src/looplet/compact.py:970-1026 | which stage of the default service compacts, if any, told from the conversation it is given |
| CompactionFlow.DefaultReplaysIffSettles | src/looplet/compact.py:970-1026 | for every conversation whose messages can be sent: after the default service it is replayable if and only if the pruned conversation settles, from where that stage cuts it |
| CompactionFlow.DefaultCompactReplaysIff | src/looplet/compact.py:970-1026 | for a replayable conversation whose tool messages make no calls: it stays replayable if and only if no stage compacts it, or what that stage keeps settles from the carried calls; all told from the conversation before; it never grows |
| CompactionExact.DefaultCompactKeepsReplay | src/looplet/compact.py:970-1026 | whatever stages run, a conversation recorded in turns stays replayable and so recorded, and never grows |
| Compaction.ReplayableIsAccepted | src/looplet/backends.py:361-473 | replayable means that the provider input can be built |
| CompactionWindow.KeepsWindowIff | src/looplet/conversation.py:183-252 | exactly when the compacted conversation ends with the most recent messages, unchanged |
| CompactionWindow.NewSummaryIsNotRepeated | src/looplet/conversation.py:214-252 | for a summary that is not there yet: a moved cut keeps the window only by passing a single user message |
| CompactionWindow.CutMovesInIff | src/looplet/conversation.py:196-212 | exactly when the cut moves into the window of recent messages |
| CompactionWindow.WindowLost | src/looplet/conversation.py:183-252 | a conversation in which a recent message disappears |
| CompactionWindow.WindowSurvives | src/looplet/conversation.py:214-252 | one in which the cut moves in and the carried user message saves the window |
| CompactionCases.UserCallsBreakReplay | src/looplet/conversation.py:214-252 | a conversation with shared and contiguous turns that compaction makes unreplayable, because the carried user message makes a call |
| CompactionCases.HostCallsBreakReplay | src/looplet/conversation.py:196-212 | another, where only the host makes calls and the cut comes between them |
| CompactionCases.StraddlingCanReplay | src/looplet/backends.py:386-406 | one that stays replayable although the cut separates a call from its answer |
| CompactionCases.StrayAnswerCloses | src/looplet/backends.py:386-406 | one in which an answer to no open call closes the call carried without its answer |
| Compaction.PruneSparesRecent | src/looplet/compact.py:893-906 | exactly the configured number of results, or all when fewer, is spared |
| Compaction.ClearedAreOlder | src/looplet/compact.py:893-906 | what is cleared is older than what is spared |
| ArtifactFiles.PayloadWritten | src/looplet/artifact_compat.py:29-39 | while the payload is written the mark is set and no descriptor is there |
| ArtifactFiles.AttemptLeaves | src/looplet/artifact_compat.py:29-67 | a write that stopped early leaves the mark; one that ran through leaves its descriptor beside its payload |
| ArtifactFiles.ReaderSeesOneWrite | src/looplet/artifact_compat.py:106-165 | after any writes crashing anywhere, a found descriptor stands beside the payload of the write that published it, each file written or removed as that payload left it, and when that payload writes its components every declared component is its own |
| ArtifactFiles.ComponentsAreOwn | src/looplet/artifact_compat.py:29-67 | what a reader finds of the declared components is independent of the earlier content of the directory if and only if the payload writes the file of each |
| ArtifactFiles.StaleComponent | src/looplet/artifact_compat.py:29-67 | a run in which a declared component is that of an earlier, crashed write |
| ArtifactFiles.CompleteWriteIsFound | src/looplet/artifact_compat.py:42-67 | a write that runs through is found, also after failed ones |
| ArtifactFiles.ReadIff | src/looplet/artifact_compat.py:106-165 | a reader is given a descriptor exactly when no mark is set and it is there, of an allowed kind with allowed components whose files are there; an old directory is one with neither |
| ArtifactFiles.PublishesIff | src/looplet/artifact_compat.py:42-67 | a write publishes exactly what it declares, and can exactly when that is declared once each, allowed for its kind, and its files are there |

## Left out

- SQLite, pickle, JSON text, temporary files, fsync and paths: maps, abstract codecs and atomic steps.
- The circularity check by object identity, weak encoder tables and finalizers: values are finite trees, encoders are numbered.
- The check that the record database file was not replaced between saves.
- A captured sequence over an ordinary list: it is the list of its encoded values.
- The mutable mapping and the read-only sequence beside the disk-backed list.
- DiskBackedList.DiskBackedList.Sort: a key function that raises or edits records is not modelled.
- CheckpointDocuments.CheckpointDocuments.EncodeSequence: how many records an incremental save encodes is not counted; the delta it works on is minimal (`DeltaIsMinimal`).
- CheckpointFiles.ProjectedParse: numbers are compared as JSON texts in the stored summary, and the final check that the payload is JSON is not repeated, because it was just read as JSON.
- PendingDispatch.CrashDuringGroup: model requests made by tools inside the group move the counters and are excluded by `GroupOf`.
- AdmissionProtocol.RunKeepsInv: overlapping asynchronous saves of one key land in the order they were captured, because a save is one step.
- Admission.AssistantTurns.Admit: validation of a restored turn state beyond its counters, cap and marker, and the backend checks before admission, only refuse more and are not modelled.
- NestedRequests.EveryInterleaving: requests are values in a step system, because the threads that share them interleave; a response handed directly to `run` without joining first is not modelled.
- Compaction.Conversation.Prune: messages are values, so an update in place through another reference to the same message is not seen.
- Replay.ConversationMessages: block types are those the provider sees after `kind` and `data` are merged; how a tool result is rendered is a parameter.
- ArtifactFiles.ReaderSeesOneWrite: files are removed by name, so clearing old call and step files by pattern is the list of those removals; how evaluation saving derives its components from what lies in the directory, the per-call files listed in `manifest.jsonl` and the schema and producer fields of the descriptor are not modelled; one writer at a time.
- Rebuilding the session log, step counters and conversation when a checkpoint is resumed.
- `load` and `load_latest`, the inspection readers beside `load_latest_for_resume`.
- The body of the agent loop, hooks, streaming, provider adapters, other compaction services' session-log effects.
