# A verified model of the tycho node's collation core

This project models, in Dafny, the parts of the tycho TVM node whose correctness is least obvious, and proves what
they are relied on for: the message-group scheduler of the collator, the running queue statistics, the concurrent
tracker of referenced masterchain states, the internal queue protocol with its garbage collector, the queue diff and
archive formats, the size check of external messages, the refill of the anchors cache, the execution of message
groups and the signature weight check of block proofs.

`dafny verify dfyconfig.toml` checks all files.

## Components

| files | what they model |
|---|---|
| `messages`, `slots`, `filling`, `fill_schedule`, `fill_phases`, `message_group`, `messages_buffer`, `fill_runs`, `buffer_runs` | the messages buffer and the packing of account queues into slots |
| `cumulative_statistics` | per-diff message counts, their running total and the total from scratch |
| `min_ref_tracker` | reference counts of masterchain states under a read-write lock |
| `queue_key` | queue keys, their successor and half-open ranges |
| `queue_store`, `queue_protocol`, `queue_commits`, `queue_runs`, `queue_objects`, `queue_counterexamples` | the diff store, apply, commit, clear and garbage collection, whole runs of them, and two runs that end badly |
| `tl`, `queue_diff`, `queue_layout` | exact codecs and the TL form of queue diffs, and that form byte by byte |
| `archive` | archive reader and streaming verifier |
| `msg_storage_stat` | the limited walk over the cells of an external message |
| `anchors` | refilling the cache of mempool anchors |
| `execution` | groups of messages executed by account |
| `quorum` | total and signed validator weight |
| `wrappers` | optional values and results, machine words, facts about sequences and worklists |

### How the source is represented

- An object that the source updates in place is a class whose field holds its contents as a value. The loops work on
  that value and return the new one; the class method assigns it. Helper methods therefore take and return values
  where the source passes mutable references to fields.
- Ordered maps and sets are their ascending entries; hash maps are maps, and a loop over a hash map or a hash set picks
  its next key arbitrarily, so what is proved holds for every iteration order.
- Queue keys outside `queue_key` are numbers. `QueueKeys.RankOrder` shows that the rank of a key keeps the order of the
  (logical time, hash) pairs and names one key.
- Code outside the repository is a parameter with a stated contract: the transaction executor (`Execution.Lawful`), the
  file hash and the shard id rule (`QueueDiffs.Env`), the decoder of archive entry headers, the containment of an
  address in a shard, the signature check of the library.
- Locks are modelled by the points at which they are released: steps of the min-reference tracker and of the queue
  system are the sections that run under one lock. The garbage collector of the queue takes no such lock: what it reads
  from a snapshot and what it writes later are two steps, and any other step can fall between them.

### What turned out to be conditional

- Clearing the uncommitted zone may leave a gap between stored diffs when a later diff carries a lower last key than an
  earlier one, because the store deletes the interval of seqnos named by the tails above the commit pointer.
  `QueueCounterexamples.GapRun` is a run from the empty store that ends so. `QueueRuns.RunGapFreeIff` gives the exact
  condition for any run, with any keys and any sequence checks.
- The collector deletes by key what it deletes of the tails, and by the seqnos it has read what it deletes of the diff
  infos. When a clear and a new diff fall between its read and its write, it can take a diff above its bound and leave
  that diff's tail behind: `QueueCounterexamples.StaleRun` is such a run, with rising keys and every check on. With
  rising keys a run stays gap-free with tails and infos matched if and only if every batch of the collector still fits
  what is stored when it is written (`QueueRuns.RunSortedIff`), and it always does if bounds lie at or below the commit
  pointers and written diffs end above them (`QueueRuns.RunSorted`).
- `add_diff_stats` on a diff already held appends to the total a second time while overwriting the entry. The total
  drifts by exactly what was held, and the statistics stay right if and only if nothing was held while the total is kept
  and no account of the diff is already processed (`CumulativeStats.CumulativeStatistics.AddDiffStats`).
- `handle_processed_to_update` panics if and only if the total has less of some account than the new borders take away,
  which can happen only while the total is dirty. Otherwise the total keeps its distance from the sum of the kept diffs,
  and these are the unprocessed part of everything added if and only if no processed message returns
  (`CumulativeStats.CumulativeStatistics.HandleProcessedToUpdate`).
- `remove_messages_by_accounts` charges all removed messages to the internals counter. The counters stay exact if and
  only if no external message is removed (`MessagesBuffers.RemovalKeepsCounters`), also over whole runs of calls
  (`BufferRuns.CountersExactIff`).
- Chunks fed to the archive verifier can be cut anywhere if and only if the first non-empty chunk has four bytes or
  the input has no four bytes at all (`Archives.ChunkInvariance`).
- A shifted range visits exactly the keys asked for if and only if it does not end at the largest key, or starts there
  (`QueueKeys.ShiftIsExact`).
- The 8-bit merkle depth is exact below a limit of 255 and lets everything through at 255
  (`MsgStorageStats.MerkleLimit`).
- A reference counter is exact as long as fewer than 2^32 handles of one seqno exist, on both insertion paths
  (`MinRefTracker.AddKeepsIff`).

## Model

| member | source | states |
|---|---|---|
| `MessagesBuffers.MessagesBuffer.AddMessage` | collator/src/collator/messages_buffer.rs:52-102 | the message joins the end of its account's queue, the bracket lookup always succeeds although fills and removals never touch that index, an account that stood in the bracket of its queue's length still does, and the counters keep their distance to the contents |
| `MessagesBuffers.MessagesBuffer.RemoveMessagesByAccounts` | collator/src/collator/messages_buffer.rs:104-113 | exactly the listed queues go, the others keep their order, and both counters drift by exactly the number of removed externals |
| `MessagesBuffers.RemovalKeepsCounters` | collator/src/collator/messages_buffer.rs:104-113 | that drift is zero if and only if the removed accounts hold no external message |
| `MessagesBuffers.MessagesBuffer.FillMessageGroup` | collator/src/collator/messages_buffer.rs:116-375 | one fill. What moves: per account a prefix of its queue, nothing lost but expired externals; the collected keys are those of the moved internals. Where to: every account in one slot, no slot above the height, no more slots than asked for, ids in turn from the last one, counters and totals exact, the index exactly what the grown slots say. Who: no eligible account is left while there is room, and accounts in no slot are not overtaken in the order of the buffer. In which order: new slots before old ones, each new slot one account before any gets a second, then turn by turn; old slots in the order of the index, their own accounts in order before anyone joins. And nothing expired is left of an account, unless it entered a slot in this very fill |
| `MessagesBuffers.FillValues` | collator/src/collator/messages_buffer.rs:116-375 | the same on values, from any well-formed buffer and group |
| `FillPhases.Fill` | collator/src/collator/messages_buffer.rs:116-333 | both phases and the expiry sweep keep every invariant and schedule, number the slots opened and are work conserving |
| `FillPhases.Conserving` | collator/src/collator/messages_buffer.rs:143-326 | after both phases each buffered account that passes the check sits in a full slot, or all slots are full and there are enough of them |
| `FillPhases.FillExpires` | collator/src/collator/messages_buffer.rs:170-333 | after the sweep every buffered account has nothing expired left, unless it was grouped by this fill |
| `FillPhases.FillInTurn` | collator/src/collator/messages_buffer.rs:140-333 | an account in no slot moves something only if all before it in the buffer were grouped, fail the check, moved something too or have nothing left |
| `FillPhases.NewBeforeOld` | collator/src/collator/messages_buffer.rs:143-326 | somebody joins an old slot only if all slots asked for are open and the new ones full |
| `FillPhases.FillNewSlots` | collator/src/collator/messages_buffer.rs:143-231 | phase 1 ends with an empty worklist or with all slots there and the new ones full; ids are handed out in turn and the id of a slot nobody could use is lost; while slots are missing each new one has one account; it terminates by worklist, missing slots and queue of unfilled slots |
| `FillPhases.Phase1Step` | collator/src/collator/messages_buffer.rs:153-230 | one round keeps the invariants and makes that measure smaller |
| `FillPhases.VisitSlot` | collator/src/collator/messages_buffer.rs:154-215 | a visited slot gets one account and is queued again unless full, or it is taken back and the worklist is empty; nothing else changes |
| `FillPhases.NextSlot` | collator/src/collator/messages_buffer.rs:217-229 | the next slot is a new one while some are missing, then a waiting one, else phase 1 is over |
| `Schedules.LevelTurn` | collator/src/collator/messages_buffer.rs:162-229 | as long as nothing is expired, a slot that takes its turn and goes to the end of the queue keeps all waiting slots within one account of each other |
| `FillPhases.TakeOthers` | collator/src/collator/messages_buffer.rs:170-206 | accounts in no slot feed the slot until it is used or full, or none is left |
| `FillPhases.TakeFirst` | collator/src/collator/messages_buffer.rs:171-197 | an account is passed over or its messages move, and every invariant is kept |
| `FillPhases.FillListedSlots` | collator/src/collator/messages_buffer.rs:233-326 | phase 2 finishes every slot the index lists below the limit; whoever joins a slot finds every slot listed before it full; new slots are not touched |
| `FillPhases.FillSlot` | collator/src/collator/messages_buffer.rs:245-324 | a listed slot ends full, or its accounts are drained and the worklist is empty; its own accounts give in their order, and all of them before anyone joins |
| `FillPhases.TopUp` | collator/src/collator/messages_buffer.rs:258-284 | the slot's own accounts are drained or the slot is full |
| `FillPhases.DropExpired` | collator/src/collator/messages_buffer.rs:328-333 | nothing expired is left of any account of the worklist; no slot is touched and every invariant is kept |
| `FillPhases.MoveAccountMessagesToSlot` | collator/src/collator/messages_buffer.rs:377-498 | a prefix of the queue leaves, its unexpired part enters the slot and the group, and counters, updates and keys follow |
| `FillPhases.PopMessages` | collator/src/collator/messages_buffer.rs:415-446 | the pop loop takes as much as fits, counts it and drops only what the filter skips |
| `Messages.KeptExactly` | collator/src/collator/messages_buffer.rs:547-580 | the filter by its own words: an external older than the threshold goes, everything else stays |
| `Messages.ByAccountMembers` | collator/src/collator/messages_buffer.rs:71 | a queue holds what is addressed to its account, and the zero account also what has no standard address |
| `Messages.IntKeysAt` | collator/src/collator/messages_buffer.rs:431-444 | one collected key for each internal, at its place among the internals |
| `Filling.MoveKeeps` | collator/src/collator/messages_buffer.rs:377-498 | a move that fits keeps flow, packing, tracking, limits and balance |
| `Filling.SkipKeeps` | collator/src/collator/messages_buffer.rs:500-519 | dropping expired messages keeps them too |
| `Filling.MoveDone` | collator/src/collator/messages_buffer.rs:405-446 | after a move the account is drained or its slot is full |
| `Slots.PackedOnce` | collator/src/collator/messages_buffer.rs:448-495 | a grouped account is listed in one slot only |
| `MessagesBuffers.FinishGroup` | collator/src/collator/messages_buffer.rs:339-375 | the group after a fill satisfies the group invariant again, and its index is exactly what the slots that grew say |
| `MessagesBuffers.FinishBuffer` | collator/src/collator/messages_buffer.rs:335-337 | drained accounts leave the buffer |
| `MessagesBuffers.SelectedInOrder` | collator/src/collator/messages_buffer.rs:104-113 | what stays keeps its order |
| `MessageGroups.ApplyIndexUpdates` | collator/src/collator/messages_buffer.rs:339-369 | the exact contents and order of every bucket: changed slots join the end of the bucket of their new size and all but the first of those that left a size leave its bucket; so every slot is listed under its current size, every listed id exists, and the totals are the sums over slots |
| `MessageGroups.FollowsIs` | collator/src/collator/messages_buffer.rs:339-369 | the same said by the slots before and after alone |
| `MessageGroups.MessageGroup.CheckIsFilled` | collator/src/collator/messages_buffer.rs:694-713 | true implies enough slots, none below the height |
| `MessageGroups.MessageGroup.Add` | collator/src/collator/messages_buffer.rs:715-744 | merging a group on other accounts numbers its slots in turn after the last id, lists each under its size and no other, keeps all messages and the group invariant |
| `MessageGroups.MergeGroups` | collator/src/collator/messages_buffer.rs:715-744 | the same on values |
| `FillRuns.CutKeeps` | collator/src/collator/messages_buffer.rs:377-519 | a fill delivers nothing expired and loses nothing that a stricter filter keeps |
| `FillRuns.RunInOrder` | collator/src/collator/messages_buffer.rs:377-519 | over any run of additions, fills and removals of one account what the strictest filter keeps leaves the queue once, in the order added |
| `FillRuns.RunWithoutExpiry` | collator/src/collator/messages_buffer.rs:377-519 | without expiry, what left followed by what is queued is everything ever added, in order, and without removals all that left was delivered |
| `BufferRuns.Perform` | collator/src/collator/messages_buffer.rs:52-375 | one call on a buffer object and the group it fills is a step of a run of calls, and the group gains exactly the messages moved |
| `BufferRuns.PerformAll` | collator/src/collator/messages_buffer.rs:52-375 | so is any sequence of additions, fills and removals with one slot height, and both counters end off by exactly the externals removed on the way |
| `BufferRuns.CountersExactIff` | collator/src/collator/messages_buffer.rs:52-375 | counters that start exact are exact after such a sequence if and only if no removed queue held an external message |
| `BufferRuns.CallsLead` | collator/src/collator/messages_buffer.rs:52-375 | for each account such a run of calls is a run of its events |
| `BufferRuns.EventsTell` | collator/src/collator/messages_buffer.rs:52-375 | these events add what was added for the account and deliver what the fills moved of it |
| `BufferRuns.CallsInOrder` | collator/src/collator/messages_buffer.rs:52-375 | over any sequence of calls each account's messages leave its queue in the order of the additions, but for expired ones |
| `CumulativeStats.CumulativeStatistics.constructor` | collator/src/collator/types.rs:1298-1310 | an empty total is valid for any borders |
| `CumulativeStats.CumulativeStatistics.Apply` | collator/src/collator/types.rs:1384-1416 | loading one diff keeps the kept diffs equal to everything added without the processed accounts |
| `CumulativeStats.Weed` | collator/src/collator/types.rs:1391-1406 | exactly the accounts of destinations that have processed the diff are dropped |
| `CumulativeStats.CumulativeStatistics.AddDiffStats` | collator/src/collator/types.rs:1436-1455 | a diff joins the kept diffs and the total, for any key and any borders: the total drifts by exactly what was held under its key, and the object stays valid if and only if nothing was held while the total is kept and nothing of the diff is processed |
| `CumulativeStats.AddPart` | collator/src/collator/types.rs:1443-1453 | one partition's part joins the total and the diffs |
| `CumulativeStats.TotalAfterPut` | collator/src/collator/types.rs:1418-1432 | overwriting an entry exchanges its counts in the sum |
| `CumulativeStats.SummedAfterPut` | collator/src/collator/types.rs:1436-1455 | the total stays the sum if and only if nothing was held |
| `CumulativeStats.WeededAfterPut` | collator/src/collator/types.rs:1436-1455 | the kept diffs stay weeded if and only if no account of the new diff is already processed |
| `CumulativeStats.CumulativeStatistics.HandleProcessedToUpdate` | collator/src/collator/types.rs:1458-1504 | for any total: the call panics if and only if the total runs short; else exactly the destination's accounts at or below the new borders leave diffs and total, no empty diff stays below a border, the total keeps its distance from the sum, and the object stays valid if and only if nothing processed returns |
| `CumulativeStats.WeededAfterUpdate` | collator/src/collator/types.rs:1458-1504 | new borders keep the diffs weeded if and only if nothing processed returns |
| `CumulativeStats.RisingReturnsNothing` | collator/src/collator/types.rs:1501-1503 | nothing returns when the borders do not fall |
| `CumulativeStats.DrainAll` | collator/src/collator/types.rs:1463-1498 | in any iteration order: it succeeds if and only if the total has room for all that leaves, and then exactly the destination's accounts in diffs at or below the borders leave, from the diffs and from the total |
| `CumulativeStats.DrainReached` | collator/src/collator/types.rs:1471-1490 | the ascending loop that stops at the border drains every diff up to it, or finds the total short |
| `CumulativeStats.DropAccount` | collator/src/collator/types.rs:1474-1483 | one account's count leaves a diff and the total together, or the total is short |
| `CumulativeStats.TotalCovers` | collator/src/internal_queue/types.rs:369-379 | a total that is the sum over the diffs has room for whatever any borders take away, so no decrement misses its account or underflows |
| `CumulativeStats.Decrement` | collator/src/internal_queue/types.rs:369-379 | a count is taken off if and only if the account has as much; an account that reaches zero leaves the map |
| `CumulativeStats.RemoveDrained` | collator/src/collator/types.rs:1491-1494 | forgetting drained diffs changes no sum |
| `CumulativeStats.CumulativeStatistics.EnsureFinalized` | collator/src/collator/types.rs:1530-1534 | a dirty total is rebuilt, a clean one kept |
| `CumulativeStats.Recalculated` | collator/src/collator/types.rs:1537-1565 | the total from scratch is the sum over all kept diffs |
| `CumulativeStats.Append` | collator/src/collator/types.rs:1600-1607 | counts are added account by account |
| `CumulativeStats.CumulativeStatistics.Result` | collator/src/collator/types.rs:1508-1511 | the total is, for each account, the sum over all diffs ever added of the counts whose destination border is below the diff |
| `CumulativeStats.TotalIsExpected` | collator/src/collator/types.rs:1384-1565 | summing the kept diffs is summing the unprocessed part of all diffs ever added |
| `CumulativeStats.AtTheBorder` | collator/src/collator/types.rs:1391-1406 | a diff counts for nothing once a destination of the account has come up to its key, and in full while all of them are lower |
| `CumulativeStats.LoadBothWays` | collator/src/collator/types.rs:1312-1416 | weeding while loading, and loading raw and updating every shard in any order, give the same totals |
| `CumulativeStats.PerformAll` | collator/src/collator/types.rs:1384-1565 | after any list of loads, new diffs, new borders and finalizations that keep to `Regular`, the total kept along the way is the total built from nothing, and both are the unprocessed part of everything added |
| `CumulativeStats.Perform` | collator/src/collator/types.rs:1384-1534 | such a request never panics and leaves a valid object |
| `CumulativeStats.FreshIsRegular` | collator/src/collator/types.rs:1436-1455 | a new diff under a fresh key keeps to it |
| `MinRefTracker.StateIds.FetchAdd` | block-util/src/state/min_ref_mc_state.rs:67-76 | the section under the read lock is the two steps of the interleaving: it adds one held handle if the entry is there and else leaves the counters for the slow path, and keeps the invariant |
| `MinRefTracker.StateIds.Enter` | block-util/src/state/min_ref_mc_state.rs:78-100 | the section under the write lock is one step: it always adds one held handle and keeps minimum and invariant |
| `MinRefTracker.StateIds.FetchSub` | block-util/src/state/min_ref_mc_state.rs:102-112 | the section under the read lock takes one held handle off and asks for the slow path exactly when none is left |
| `MinRefTracker.StateIds.Leave` | block-util/src/state/min_ref_mc_state.rs:115-127 | the section under the write lock is one step: the entry is gone exactly when no handle is held, and the minimum is right again |
| `MinRefTracker.NextInv` | block-util/src/state/min_ref_mc_state.rs:67-139 | every step of every interleaving keeps counters equal to live handles, zero entries pending removal and the minimum exact |
| `MinRefTracker.RunInv` | block-util/src/state/min_ref_mc_state.rs:67-139 | so does every state of every run |
| `MinRefTracker.SeqnoIsSafe` | block-util/src/state/min_ref_mc_state.rs:21-23 | the reported minimum never exceeds the seqno of a live handle |
| `MinRefTracker.SeqnoIsExact` | block-util/src/state/min_ref_mc_state.rs:21-23 | at rest it is the least live seqno, and none if there is no handle |
| `MinRefTracker.DeadEntriesLeave` | block-util/src/state/min_ref_mc_state.rs:102-127 | an entry without handles has a pending remover |
| `MinRefTracker.AddKeepsIff` | block-util/src/state/min_ref_mc_state.rs:67-100 | on the fast and on the slow path the counters stay right if and only if none wraps |
| `QueueKeys.RankOrder` | block-util/src/queue/proto.rs:159-165 | the derived order of keys is the order of the numbers they stand for |
| `QueueKeys.NextValue` | block-util/src/queue/proto.rs:195-225 | the byte-carry loop gives the key of the next rank, and the largest key stays |
| `QueueKeys.IncInPlace` | block-util/src/queue/proto.rs:210-219 | the loop adds one to the big-endian number |
| `QueueKeys.NextIsImmediate` | block-util/src/queue/proto.rs:195-225 | no key lies strictly between a key and its successor |
| `QueueKeys.ShiftRanges` | collator/src/queue_adapter.rs:113-116 | both ends of every range move to their successors |
| `QueueKeys.ShiftPointwise` | collator/src/queue_adapter.rs:78-82 | a shifted half-open scan excludes `from` and includes `to`, except for the largest key |
| `QueueKeys.ShiftIsExact` | collator/src/queue_adapter.rs:303-312 | the scan is exact if and only if the range does not end at the largest key or starts there |
| `QueueStore.LastApplied` | storage/src/store/internal_queue/snapshot.rs:37-66 | the greatest stored seqno of a shard |
| `QueueStore.CollectSeqnos` | storage/src/store/internal_queue/transaction.rs:294-361 | least and greatest seqno named by the tails of a key range |
| `QueueStore.Erase` | storage/src/store/internal_queue/transaction.rs:214-247 | the batch takes the tails of the range and the diff infos of the span read, from whatever is stored by then |
| `QueueStore.FreshSpanDeletes` | storage/src/store/internal_queue/transaction.rs:153-247 | with a span read from the same store this is a deletion |
| `QueueStore.EraseContiguousIff` | storage/src/store/internal_queue/transaction.rs:153-247 | writing a span read from any store keeps a gap-free shard gap-free if and only if it reaches one end of what is stored |
| `QueueStore.Delete` | storage/src/store/internal_queue/transaction.rs:153-260 | a diff goes exactly when it lies between two named seqnos, unless only seqno zero is named |
| `QueueStore.DeleteContiguousIff` | storage/src/store/internal_queue/transaction.rs:153-260 | a gap-free shard stays gap-free if and only if what the key range names reaches one end of what is stored |
| `QueueStore.GoesByKey` | storage/src/store/internal_queue/transaction.rs:153-260 | with rising keys a delete takes exactly the diffs whose last key is in the range |
| `QueueProtocol.Apply` | collator/src/internal_queue/queue.rs:179-262 | a diff is written exactly when it is new, follows the visible latest diff and lies above the commit pointer, and then stored with its hash, last key, processed keys and tail; it is known exactly when it is stored with the same hash or not above the latest; it fails exactly when another hash is stored, it leaves a gap, or its first message is not above what is committed |
| `QueueProtocol.ApplyOutcome` | collator/src/internal_queue/queue.rs:194-262 | which diffs fail, and that only a written diff changes the store |
| `QueueProtocol.ApplyTwice` | collator/src/internal_queue/queue.rs:179-262 | applying again changes nothing and only repeats a failure |
| `QueueProtocol.ApplyContiguous` | collator/src/internal_queue/queue.rs:215-242 | with the check over both zones no apply leaves a gap |
| `QueueProtocol.WriteContiguousIff` | collator/src/internal_queue/queue.rs:258-259 | whatever the check, a written diff leaves no gap if and only if its seqno adjoins what is stored |
| `QueueProtocol.CheckedAdjoins` | collator/src/internal_queue/queue.rs:215-242 | the check over both zones lets only such diffs through |
| `QueueProtocol.Clear` | collator/src/internal_queue/queue.rs:354-362 | with any keys: exactly the tails above the commit pointer of each shard that has one go, or all tails of the top shards if nothing was ever committed, and exactly the diffs that these tails enclose; a call without partitions changes nothing |
| `QueueProtocol.ClearShards` | storage/src/store/internal_queue/transaction.rs:111-151 | the same for the list of ranges |
| `QueueProtocol.ClearByKey` | storage/src/store/internal_queue/transaction.rs:111-151 | with rising keys exactly the diffs above the commit pointer of their shard go |
| `QueueProtocol.ClearContiguousIff` | storage/src/store/internal_queue/transaction.rs:111-151 | clearing leaves a gap-free shard gap-free if and only if what it names of the shard reaches one end |
| `QueueCommits.Commit` | collator/src/internal_queue/queue.rs:264-343 | a commit happens, is skipped or fails exactly under the stated conditions; skipped and failed ones change nothing |
| `QueueCommits.Gather` | collator/src/internal_queue/queue.rs:294-339 | it succeeds if and only if no changed block lacks its diff and no shard comes twice; each bound is the least processed key named for its shard |
| `QueueCommits.LowerBounds` | collator/src/internal_queue/queue.rs:323-338 | a bound is lowered only to a strictly smaller key |
| `QueueCommits.CommitMessages` | storage/src/store/internal_queue/transaction.rs:67-103 | a pointer moves only to a strictly greater key |
| `QueueCommits.PointersNeverFall` | storage/src/store/internal_queue/transaction.rs:84-99 | no commit lowers a pointer |
| `QueueCommits.CommittedIsVisible` | storage/src/store/internal_queue/transaction.rs:67-103 | what a commit covers lies in the committed zone and not in the other one, if and only if it has a key or its shard had a pointer |
| `QueueObjects.QueueImpl.ApplyDiff` | collator/src/internal_queue/queue.rs:179-262 | the object's store takes the apply step, with the outcomes of `QueueProtocol.Apply` |
| `QueueObjects.QueueImpl.CommitDiff` | collator/src/internal_queue/queue.rs:264-352 | the store takes the commit step, and the bound of each shard it names is overwritten in each given partition, nothing else |
| `QueueObjects.HandOver` | collator/src/internal_queue/gc.rs:57-69 | exactly the committed shards' bounds change in the given partitions |
| `QueueObjects.QueueImpl.ClearUncommitted` | collator/src/internal_queue/queue.rs:354-362 | the store is cleared as by `QueueProtocol.Clear` |
| `QueueObjects.QueueImpl.GcTask` | collator/src/internal_queue/gc.rs:78-123 | for any store and any order of the spots: each watermark ends as the higher one of what it was and its bound, exactly the tails at or below a bound its watermark had not reached are gone, and a diff info is gone exactly when some passed spot's tails name seqnos on both sides of it at its turn; with rising keys these are exactly the diffs at or below a passed bound and no gap appears |
| `QueueObjects.TraceTells` | collator/src/internal_queue/gc.rs:86-123 | which diff infos a collection takes, spot by spot |
| `QueueObjects.Perform` | collator/src/internal_queue/queue.rs:179-362 | one call on the object is a sequence of steps of the system that begins with that call: a commit is followed by the publication of its bounds, a collection by its reads and writes |
| `QueueObjects.PublishAll` | collator/src/internal_queue/queue.rs:345-349 | publishing the bounds of a commit one by one, in any order, ends where one sweep over them ends |
| `QueueObjects.PerformAll` | collator/src/internal_queue/queue.rs:179-362 | any calls on a new object form a run with these very calls, so what holds in every state of every run holds between calls |
| `QueueRuns.BoundsAreLeast` | collator/src/internal_queue/queue.rs:323-349 | in any run every published bound was the least processed key named by the changed top blocks of an earlier commit |
| `QueueRuns.RunRises` | collator/src/internal_queue/gc.rs:86-123 | in any run a watermark changes only to a strictly greater key |
| `QueueRuns.RunPublished` | collator/src/internal_queue/gc.rs:57-123 | in any run all bounds in use and all watermarks are published bounds |
| `QueueRuns.RunPointersRise` | collator/src/internal_queue/queue.rs:341-342 | in any run no commit pointer falls |
| `QueueRuns.WrittenInSequence` | collator/src/internal_queue/queue.rs:215-242 | with the check over both zones what is written follows the latest diff of its shard |
| `QueueRuns.StoredDiffsStay` | collator/src/internal_queue/queue.rs:194-213 | a stored diff is never rewritten by any step, so a seqno keeps one hash |
| `QueueRuns.RepeatChangesNothing` | collator/src/internal_queue/queue.rs:194-231 | applying a diff stored with its hash, or not above the visible latest one, leaves the whole system unchanged |
| `QueueRuns.ReapplyInRun` | collator/src/internal_queue/queue.rs:194-213 | in any run a stored diff can be applied again at any later time, under any check, without any effect, and so can another hash for its seqno |
| `QueueRuns.WrittenAbovePointer` | collator/src/internal_queue/queue.rs:244-259 | in any run what is written is new and lies above the shard's commit pointer |
| `QueueRuns.NextGapFreeIff` | collator/src/internal_queue/queue.rs:179-362 | any step leaves no gap if and only if a written diff adjoins what is stored and a deletion, also one read from an older store, reaches one end of it |
| `QueueRuns.RunGapFreeIff` | collator/src/internal_queue/queue.rs:179-362 | any run from the empty store, with any checks and keys, is free of gaps if and only if all its steps are of that kind |
| `QueueRuns.NextSortedIff` | storage/src/store/internal_queue/transaction.rs:153-263 | a step whose written diff carries a rising key keeps the store gap-free and tails and infos matched if and only if what the collector writes still fits what is stored; repeated, late and refused diffs may carry any key |
| `QueueRuns.RunSortedIff` | storage/src/store/internal_queue/transaction.rs:153-263 | the same for any run from the empty store |
| `QueueRuns.NextHolds` | storage/src/store/internal_queue/transaction.rs:111-151 | a plan up to a committed bound survives every step between the collector's read and its write |
| `QueueRuns.RunSorted` | collator/src/internal_queue/queue.rs:179-362 | every run from the empty store with rising keys, committed bounds and diffs that end above the commit pointer keeps seqnos without gaps and tails and infos matched, whatever falls between the collector's read and its write |
| `QueueCounterexamples.GapRun` | storage/src/store/internal_queue/transaction.rs:111-151 | a run from the empty store in which an empty diff with a low last key is accepted and the next clear leaves a gap |
| `QueueCounterexamples.StaleRun` | collator/src/internal_queue/gc.rs:101-112 | a run from the empty store, with rising keys, in which the collector takes a diff above its bound because a clear and an apply came between its read and its write |
| `TlCodecs.UintExact` | block-util/src/queue/proto.rs:90-93 | little-endian integers are read exactly from their written form |
| `TlCodecs.ReadListLoop` | block-util/src/queue/proto.rs:388-412 | the reading loop is the recursive reader, with the same errors in the same order |
| `TlCodecs.WriteListLoop` | block-util/src/queue/proto.rs:379-386 | the writing loop appends the written list to the packet |
| `TlCodecs.ListExact` | block-util/src/queue/proto.rs:365-491 | a list is accepted exactly when its bytes are the written form of a well-formed ascending list within the limit |
| `QueueDiffs.ShardExact` | block-util/src/tl.rs:25-48 | shard ids are read exactly from their written form |
| `QueueDiffs.KeyExact` | block-util/src/queue/proto.rs:159-165 | so are queue keys |
| `QueueDiffs.AddrExact` | block-util/src/queue/proto.rs:332-359 | so are router addresses, with an 8-bit workchain |
| `QueueDiffs.ShardsExact` | block-util/src/queue/proto.rs:365-413 | so is the map of processed keys |
| `QueueDiffs.PartitionsExact` | block-util/src/queue/proto.rs:415-491 | so are the router partitions |
| `QueueDiffs.MessagesExact` | block-util/src/queue/proto.rs:553-602 | so is the list of message hashes, ascending from above zero |
| `QueueDiffs.DiffExact` | block-util/src/queue/proto.rs:56-120 | a diff is accepted exactly from its own written form and stamped with the hash of exactly those bytes |
| `QueueDiffs.DiffComplete` | block-util/src/queue/proto.rs:70-120 | reading what was written gives the diff and the rest |
| `QueueDiffs.DiffSound` | block-util/src/queue/proto.rs:90-120 | accepted bytes are the written form of the value |
| `QueueLayout.DiffLayout` | block-util/src/queue/proto.rs:70-87 | the written form is the ten fields in the order of the struct, each in its bytes |
| `QueueLayout.LittleEndianAt` | block-util/src/queue/proto.rs:74-86 | byte i of an integer is its i-th digit to the base 256 |
| `QueueLayout.DiffOkIs` | block-util/src/queue/proto.rs:90-120 | a diff is well-formed exactly when its lists are within their limits and ascend pairwise, its numbers fit and its greatest key is not below its least |
| `QueueLayout.DiffReadsBytes` | block-util/src/queue/proto.rs:90-120 | reading accepts exactly these bytes of a well-formed diff and gives its fields and the hash of the bytes |
| `QueueLayout.OtherConstructor` | block-util/src/queue/proto.rs:93-96 | another constructor id is refused as unknown, and nothing else is |
| `QueueDiffs.MaxSizeHint` | block-util/src/queue/proto.rs:59-68 | the size hint is the written length |
| `QueueDiffs.RouterSizeHint` | block-util/src/queue/proto.rs:422-428 | so is the one of the router partitions |
| `QueueDiffs.DiffsExact` | block-util/src/queue/proto.rs:493-551 | a diff list is accepted exactly from its own written form |
| `QueueLayout.DiffListReadsBytes` | block-util/src/queue/proto.rs:493-551 | the same byte by byte: the number of diffs, then each diff, each naming the hash of the next and its seqno one lower |
| `QueueDiffs.DiffsChained` | block-util/src/queue/proto.rs:538-545 | each diff names the hash of the next one's bytes |
| `QueueDiffs.DiffsDescend` | block-util/src/queue/proto.rs:538-545 | seqnos descend strictly |
| `QueueDiffs.OrdersAgree` | block-util/src/queue/proto.rs:109-111 | the comparisons used are the derived ones |
| `Archives.ArchiveVerifier.WriteVerify` | block-util/src/archive/reader.rs:82-140 | the loop terminates, through zero-length entries too, and ends in the state or error of the specification |
| `Archives.FeedConcat` | block-util/src/archive/reader.rs:82-140 | feeding two parts is feeding their concatenation |
| `Archives.ChunkInvariance` | block-util/src/archive/reader.rs:82-140 | chunking does not matter if and only if no chunk cuts the prefix or there is no whole prefix |
| `Archives.ArchiveReader.Next` | block-util/src/archive/reader.rs:29-57 | one entry is read, refused or absent |
| `Archives.ReadAll` | block-util/src/archive/reader.rs:13-57 | iterating the reader is the recursive reader |
| `Archives.VerifierMatchesReader` | block-util/src/archive/reader.rs:29-149 | the verifier accepts if and only if the reader reads every byte and the last entry is not empty |
| `Archives.Parsed` | block-util/src/archive/reader.rs:13-57 | any bytes are some whole entries and an end that holds none |
| `Archives.ArchiveIs` | block-util/src/archive/reader.rs:13-140 | what reader and verifier make of entries and an end: the reader ignores fewer than eight bytes, reports a cut entry and a bad header apart; the verifier waits for what is missing and reports only a bad header |
| `Archives.WrongPrefix` | block-util/src/archive/reader.rs:12-98 | without the four prefix bytes nothing is read; the verifier tells a cut prefix from a wrong one |
| `Archives.FinalCheckIs` | block-util/src/archive/reader.rs:142-149 | the final check passes exactly after a whole last entry that is not empty, or without any entry |
| `MsgStorageStats.MsgStorageStat.AddCell` | block-util/src/message/ext_msg_repr.rs:219-245 | the memoised visit adds exactly the cells not seen before, or fails exactly when a limit is exceeded |
| `MsgStorageStats.MsgStorageStat.AddRefs` | block-util/src/message/ext_msg_repr.rs:194-217 | the same for a list of references |
| `MsgStorageStats.MsgStorageStat.AddBelow` | block-util/src/message/ext_msg_repr.rs:231-243 | a counted cell fits with all below it exactly when its references fit and it is not too deep |
| `MsgStorageStats.LeavesByData` | block-util/src/message/ext_msg_repr.rs:219-222 | leaves are one cell exactly when they hold the same data |
| `MsgStorageStats.CheckSlice` | block-util/src/message/ext_msg_repr.rs:175-192 | true if and only if there are no references, or cells, bits and merkle depth are within the limits |
| `MsgStorageStats.OrderDoesNotMatter` | block-util/src/message/ext_msg_repr.rs:175-217 | neither order nor sharing of references changes the verdict |
| `MsgStorageStats.MerkleLimit` | block-util/src/message/ext_msg_repr.rs:219-245 | the 8-bit depth judges exactly below 255 |
| `MsgStorageStats.DepthSaturates` | block-util/src/message/ext_msg_repr.rs:219-245 | the counted depth is the exact one cut at 255 |
| `MsgStorageStats.DepthIs` | block-util/src/message/ext_msg_repr.rs:219-245 | the nesting of a cell is the largest number of Merkle cells on a path of references from it |
| `MsgStorageStats.ReachIs` | block-util/src/message/ext_msg_repr.rs:194-245 | the cells counted are those some path of references ends at |
| `Anchors.FindStart` | collator/src/collator/mod.rs:1155-1173 | where the anchors from `processed_to` on start in the cache |
| `Anchors.Trim` | collator/src/collator/mod.rs:1175-1205 | the loop that removes while walking keeps exactly the anchors up to the chain time and counts them |
| `Anchors.ImportAfter` | collator/src/collator/mod.rs:1250-1292 | the import loop adds exactly the following anchors with externals up to the first that reaches the chain time |
| `Anchors.ImportCold` | collator/src/collator/mod.rs:1221-1296 | an import from nothing gives exactly the range |
| `Anchors.Warm` | collator/src/collator/mod.rs:1207-1296 | an import from a cache that holds `processed_to` gives the same range |
| `Anchors.Refill` | collator/src/collator/mod.rs:1133-1297 | it succeeds if and only if the mempool has the range; then the cache is, in order, the anchors before `processed_to` if it was cached and the anchors of the range with messages of the shard left, counted from the offset in the first one; the last anchor is the range's with the number of such messages, and the pending flag says whether there is any |
| `Anchors.CountIs` | collator/src/mempool/mod.rs:112-118 | an anchor's count is the number of the shard's messages from the offset on |
| `Anchors.RefillBothWays` | collator/src/collator/mod.rs:1133-1297 | warm and cold refills succeed together and agree, but for older anchors in front and a first one whose externals are used up |
| `Anchors.AnchorsCache.ImportInitAnchors` | collator/src/collator/mod.rs:1133-1297 | the object's contents become the refilled cache, said the same way |
| `Anchors.KeptIsFilter` | collator/src/collator/types.rs:1132-1138 | what a gap-free cache keeps is the mempool's anchors with externals up to the last one kept |
| `Execution.ExecuteMessages` | collator/src/collator/execution_manager.rs:267-300 | message by message: a skipped one changes nothing, an executed one moves state, lists and least time of the account as its transaction says, a refused one leaves the state; the run breaks exactly at the first fatal message |
| `Execution.RunIsTraced` | collator/src/collator/types.rs:735-778 | the recursive run is such a trace, and it is none exactly when some message is fatal |
| `Execution.RunIsOk` | collator/src/collator/types.rs:735-778 | an account's transactions come in strict logical time order, none before the group's least time, none overwrites another, and exactly they are recorded |
| `Execution.EveryMessageAnswered` | collator/src/collator/execution_manager.rs:277-299 | every message is executed or refused once, or skipped exactly when it is external and the account was empty before the group |
| `Execution.SaveSubgroup` | collator/src/collator/execution_manager.rs:223-261 | the least time becomes the greatest next time, the errors are the refused messages, and the work units are the sum of the transactions' costs, at most what 64 bits hold |
| `Execution.RunAll` | collator/src/collator/execution_manager.rs:112-129 | every account runs from the state before the group |
| `Execution.RunGroup` | collator/src/collator/execution_manager.rs:91-144 | cache, least time and totals are what the runs determine, in whatever order accounts are saved |
| `Execution.GroupIsTraced` | collator/src/collator/execution_manager.rs:91-144 | each account of the group ends where a trace from its cached or stored state ends, and no other account changes |
| `Execution.ShareWork` | collator/src/collator/execution_manager.rs:146-154 | the work units are divided by the number of subgroups, rounded up, and are zero for an empty group |
| `Execution.SameForEveryOrder` | collator/src/collator/execution_manager.rs:112-144 | two orders of the accounts end in the same manager and totals |
| `Execution.GroupBounds` | collator/src/collator/execution_manager.rs:112-144 | all transactions of a group lie between the least time before it and after it |
| `Execution.LaterGroupsStartLater` | collator/src/collator/execution_manager.rs:112-144 | over any run a later group's transactions start at or after every next time of earlier groups |
| `Execution.TransactionsStay` | collator/src/collator/types.rs:753-778 | over any run no recorded transaction is lost or overwritten |
| `Execution.ExecutionManager.ExecuteGroup` | collator/src/collator/execution_manager.rs:91-154 | the object's manager takes the group step, account by account as traced, and the work units are shared among subgroups |
| `Quorum.CountValues` | block-util/src/block/block_proof_stuff.rs:256-272 | the counting loop passes exactly for the expected number of readable values |
| `Quorum.TotalWeight` | block-util/src/block/block_proof_stuff.rs:277-283 | the checked sum is the exact one or refuses |
| `Quorum.TotalIsWeight` | block-util/src/block/block_proof_stuff.rs:277-283 | the total is the weight of all validators together |
| `Quorum.WeightOfOne` | block-util/src/block/block_proof_stuff.rs:276-283 | the weight of one validator is its own |
| `Quorum.CheckSignatures` | block-util/src/block/block_proof_stuff.rs:242-310 | accepts exactly when claims match, nothing overflows and more than two thirds of the weight signed |
| `Quorum.QuorumIntersection` | block-util/src/block/block_proof_stuff.rs:276-307 | the common signers of two accepted proofs weigh more than a third |
| `Quorum.HonestSignerInBoth` | block-util/src/block/block_proof_stuff.rs:276-307 | if the faulty validators weigh at most a third, another validator signed both |
| `Quorum.ChecksAreExact` | block-util/src/block/block_proof_stuff.rs:298-307 | if three times the total fits 64 bits the overflow checks refuse nothing |

## Left out

- Storage on RocksDB, async dispatch, channels, metrics, network, CLI and control server: input, output and foreign code.
- MessagesBuffers.MessagesBuffer.FillMessageGroup: the operation counter and work units of a fill are not modelled; slot
  ids are unbounded numbers; listed slots that are picked up must not exceed the height already, as the source subtracts
  there. That new slots stay within one account of each other is stated for buffers without expired messages: a slot
  whose turn falls on an account with nothing but expired messages gets none.
- MessageGroups.MessageGroup.CheckIsFilled: a false answer says nothing about the slots, because empty and stale buckets
  may remain in the index.
- MessageGroups.MessageGroup.Add: the source panics on a shared account, so accounts must be disjoint.
- CumulativeStats.CumulativeStatistics.HandleProcessedToUpdate: a decrement below zero counts as a panic, as it is where
  overflow checks are on; a release build without them wraps. After a panic nothing is said of the object.
- CumulativeStats.CumulativeStatistics.Result: the remaining statistics, which readers reduce elsewhere, and the
  aggregate over partitions are not modelled, nor the flag stored beside a destination's borders; counts are unbounded
  and never zero.
- The ranges loaded into the statistics: only what is loaded matters here.
- QueueStore.Delete: messages, per-account statistics and compaction are not modelled; seqnos are unbounded, so the
  largest 32-bit one is not special. In runs only the collector's read and write are apart: an apply, a commit or a clear
  is one step, although the collector's write could fall inside it, as it takes no lock.
- QueueObjects.QueueImpl.GcTask: a failing deletion is a step of the system in `QueueRuns.Next` but not of this method.
- QueueDiffs.DiffExact: the constructor id, the file hash and the shard id rule are parameters.
- The queue state file around a diff list, and its message chunks: only easy members.
- Archives.ArchiveVerifier.WriteVerify: the header decoder is a parameter.
- MsgStorageStats.CheckSlice: cells are told apart by data, references and type, that is, representation hashes do not
  collide.
- Anchors.Refill: the list of anchor sources and the count above the last imported time are not modelled; after a
  failure nothing is said of the cache.
- Skipping an import when the mempool may be paused: a single comparison.
- Execution.RunGroup: times and the list of executed items are not modelled;
  after a fatal error nothing is said of the manager, which the source leaves half updated. Tick-tock transactions are
  not part of the run.
- Quorum.CheckSignatures: the library is taken to return the summed weight of distinct signers.
- Merging of public library changes, printing and parsing of token amounts, shard height lookup: not part of this model.
