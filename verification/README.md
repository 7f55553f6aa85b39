# QuicFS, verified

QuicFS is a remote file system whose client acknowledges a write before the server has it. The
client queues each write, sends snapshots of the queue, keeps the chunks until the server has
acked them, and replays them after a reconnect. This project is a Dafny model of that protocol and
of the parts around it, with proofs of what they promise over every input and every run.

`dafny verify dfyconfig.toml` checks everything.

## How the model is built

* `FileModel`: file contents under POSIX `write()`, and what a list of positioned writes means: for
  each position the last covering run's byte, and the furthest end.
* `Coalescing`: the stable sort by offset and the merge loop that make a snapshot.
* `Buffers`: the write buffer as a class with its byte accounting, caps and advice.
* `HandleProtocol`, `WriteThrough`, `AppendOnce`, `HandleRuns`, `AppendWhole`: one open handle as a
  state machine with two actors (FUSE thread and background task), a send guard, a sticky error and
  one server file. `accepted` lists every write ever acknowledged to the application, `fates` what
  became of those no longer queued; the queue is always the tail of `accepted`.
* `HandleIds`, `Mount`, `MountRuns`, `MountTheorems`, `MountErrors`, `MountHistory`,
  `MountWitnesses`: the whole client: any number of handles, one write buffer, reconnects at any
  moment, generations, sessions and their handle tables. Each run of it, seen from one handle, is a
  run of the single-handle machine. The promises are proved of every run from a fresh mount.
* `WriteRpc`, `WriteLock`, `WriteSerial`: a Write RPC end to end, the lock stripes, and any number of
  Write RPCs interleaved under them.
* `ReadRpc`, `DirPaging`: the read and directory loops, both ends.
* `InodeTable`, `MetaCache`, `StatCache`, `TrustFiles`, `PathNormal`: tables and text forms against
  something simpler.

`ensure_live`, `flush_one`, `flush_handle_drain`, the FUSE callbacks and the background loop are
steps of a machine and not methods, because what matters about them is how they interleave. The
write buffer, the handle table, the cache, the inode table and the loops are imperative, as in the
source.

The parts share their definitions. The machines change a queue by the functions the write buffer's
methods are proved against, a flight is the snapshot `BeginFlush` returns, and a failed send leaves
part of one run behind, which is what `RpcIsOneWrite` proves of a Write RPC.

## What is assumed of a run

* Opening a file and `register_open`'s stamp are one step; so are installing a connection and
  bumping the generation. A reopen is three steps: the reply, the stamp, and the look at the queue.
* The background task's drop and its sticky mark are two steps, as the source takes two locks.
* A Write RPC is two steps: the server looks the handle up, and the bytes land. A handle may be
  released, and its path opened again, in between.
* A release may or may not reach the server; if it does not, the server keeps the handle.
* Session epochs differ (they are random 32-bit numbers) and two handles open at once name
  different files.
* A failed Write RPC has applied a prefix of its bytes, and applies nothing later.
* Which handle is old enough to drop, when connections break and how long reads are, is arbitrary.
* `usize` and `u64` counters do not overflow, except where the source saturates.

## Where the code falls short of its documentation

* The sort by offset keeps the last writer's bytes exactly when the chunks are order-safe
  (`FlushIsExact`), and an ack is harmless exactly when they are so where the rest of the queue does
  not cover them (`AckIsExact`, over every run `RefinementBreaksIff`). `OverlapWitness` shows two
  writes for which it is not, `SortedFlushWitness` the run that ends in an Ok.
* Between the background task's drop and its mark a `close()` can be answered Ok although a write is
  gone; `DropBeforeMarkWitness` gives the run.
* On an O_APPEND handle an ack by count can remove an append that its flush never sent, and nobody is
  told: exactly when something is queued, chunks have been removed since the flush began and others
  pushed (`AckLosesIff`, over every run `LossIff`). `AppendAckByCountWitness` gives the run.
  `OkReplyMeansAcked` says that this and the window above are the only ways an Ok can be wrong.
* An append can land twice: exactly when a flush begins while the other actor's still covers queued
  chunks (`SentOnceIff`). `AppendTwiceWitness` gives the run. Neither happens to positioned handles,
  nor while no reopen drops the queue under a background flush (`QuietHandlesLoseNothing`,
  `UndisturbedAppendsAreInOrder`).
* The bytes of a released handle's flush can land in the file of the next handle on its path
  (`ReleasedFlushWitness`). It matters exactly when a byte the queue does not overwrite changes
  (`ForeignBytesMatterIff`), and never happens if no such flush was under way when the path was
  opened (`CleanOpensStayAlone`).
* A rename over a known path leaves the overwritten inode number naming that path
  (`StaleAreTheOverwritten`, `RenameOverWitness`).
* A read of no bytes and a write of no bytes get no frame and hence no answer (`ReadRpc.Read`,
  `NoDataNoFrames`).

## Model

| member | source | states |
|---|---|---|
| FileModel.WriteAtDenotes | server/src/ops/data.rs:353-366 | length and every byte of a file after a positioned write, holes zero-filled, an empty write changing nothing |
| FileModel.ApplyAllDenotes | server/src/ops/data.rs:353-366 | after any list of writes each byte is the last covering write's, else the old byte, else zero |
| FileModel.Absorbs | server/src/ops/data.rs:353-366 | a write to positions that later writes cover anyway leaves no trace |
| FileModel.AbsorbedIff | server/src/ops/data.rs:353-366 | a write under later writes leaves no trace if and only if each byte they do not overwrite is there already |
| FileModel.NothingAddedIff | server/src/ops/data.rs:353-366 | leaving a list of writes out changes nothing if and only if every byte of it is there already |
| Coalescing.SortPermutes | client/src/writebuf.rs:118-123 | the sorted chunks are sorted and the same multiset |
| Coalescing.SortIsStable | client/src/writebuf.rs:118-123 | chunks of equal offset keep their arrival order |
| Coalescing.SortedWinner | client/src/writebuf.rs:118-123 | at each position the sorted list shows the covering chunk of highest offset, the latest of equals |
| Coalescing.CoalesceLoop | client/src/writebuf.rs:124-136 | the merge loop computes the specified merge of its input |
| Coalescing.SnapshotMeansSortedChunks | client/src/writebuf.rs:118-136 | merged runs in order do to every file what the sorted chunks do, with as many bytes, offsets nondecreasing, and no two neighbours contiguous |
| Coalescing.SnapshotCovers | client/src/writebuf.rs:118-136 | a snapshot covers exactly the positions its chunks cover |
| Coalescing.SnapshotData | client/src/writebuf.rs:118-136 | a snapshot's bytes in sending order are the sorted chunks' bytes, none lost or repeated |
| Coalescing.FlushIsExact | client/src/writebuf.rs:105-136 | a complete flush equals the writes in arrival order if and only if the chunks are order-safe, on any file |
| Coalescing.AckIsExact | client/src/writebuf.rs:118-152 | with the snapshot of some chunks in the file, the chunks after them alone leave what both would leave, if and only if the first are order-safe where the later ones do not cover them |
| Coalescing.AscendingIsSafe | client/src/writebuf.rs:118-136 | overlapping chunks arriving in nondecreasing offset order are order-safe |
| Coalescing.OverlapWitness | client/src/writebuf.rs:123 | (2,"BB") then (0,"AAAA"): the flush keeps the older bytes 2 and 3 |
| Buffers.WriteBuffer.constructor | client/src/writebuf.rs:55-67 | an empty buffer with the hard cap at twice the soft one, saturating |
| Buffers.WriteBuffer.Push | client/src/writebuf.rs:72-98 | refused at the hard cap with nothing changed; otherwise queued last, and the advice names this handle, a largest one or none; the total stays the sum of all queued bytes |
| Buffers.PushQueuesLast | client/src/writebuf.rs:72-98 | refused exactly when the hard cap would be exceeded, and then nothing changes; otherwise the chunk is queued last and no other queue changes |
| Buffers.WriteBuffer.MaxByBytes | client/src/writebuf.rs:88-96 | the handle found holds at least as many bytes as every other |
| Buffers.WriteBuffer.BeginFlush | client/src/writebuf.rs:107-138 | a snapshot of every queued chunk and its count, nothing removed, guard set; none if empty or the guard is held |
| Buffers.WriteBuffer.AckFlush | client/src/writebuf.rs:142-152 | the first chunks go, the rest stay in order, the guard is free, and the saturating subtraction is exact |
| Buffers.WriteBuffer.FailFlush | client/src/writebuf.rs:156-160 | only the guard changes |
| Buffers.WriteBuffer.DropHandle | client/src/writebuf.rs:165-173 | the handle's chunks go, and the bytes freed are theirs |
| Buffers.WriteBuffer.OlderThan | client/src/writebuf.rs:181-193 | exactly the handles holding some chunk that old, each once, though only first chunks are looked at |
| Buffers.WriteBuffer.HasBuffered | client/src/writebuf.rs:201-206 | true exactly when chunks are queued |
| Buffers.AckRemovesExactlyTheSnapshot | client/src/writebuf.rs:107-152 | over any calls on any handles between a flush's beginning and its ack that neither drop nor ack this one, the ack removes exactly what the flush saw and keeps every push since in order |
| Buffers.AdviceRestoresCaps | client/src/fuse_ops.rs:1106-1122 | one write with its advised flush brings all handles and the total below the soft caps |
| Buffers.SoftLimitsRestoreThemselves | client/src/fuse_ops.rs:1106-1122 | over every session of advised flushes the soft caps hold after each write and no write up to the soft cap is refused |
| HandleProtocol.DroppedBytes | client/src/mount.rs:125-127 | the source's test `dropped > 0` is "some dropped chunk has bytes" |
| HandleProtocol.ConservedStep | client/src/writebuf.rs:72-173 | every step of both actors keeps the queue the exact tail of the accepted writes |
| HandleProtocol.RolesStep | client/src/writebuf.rs:107-160 | on positioned handles, and on O_APPEND handles no reopen has dropped under a background flush, the send guard works: at most one flight, its chunks still head the queue, the guard never stays set |
| HandleProtocol.BoundsStep | client/src/writebuf.rs:107-160 | on every handle, whatever was dropped, each flight stands for chunks that were queued when it began, and two flights for two batches |
| HandleProtocol.LoudStep | client/src/fuse_ops.rs:261-276 | every step keeps each dropped chunk with bytes reported, pending or about to be marked |
| HandleProtocol.NoneLostStep | client/src/writebuf.rs:142-152 | on positioned handles, and appends not dropped under a flush, no ack removes a chunk it did not send |
| HandleProtocol.AckLosesIff | client/src/writebuf.rs:142-152 | in any state of any handle an ack removes a chunk its flush never sent if and only if something is queued, chunks have been removed since the flush began, and others pushed |
| WriteThrough.FlightStaysUnderQueue | client/src/fuse_ops.rs:329-343 | whatever part of a flight reaches the file is under what the queue will write |
| WriteThrough.SentPrefixIsIdle | client/src/writebuf.rs:142-152 | once their snapshot is in the file, the first chunks of a queue add nothing and may be removed, if and only if they are order-safe where the rest of the queue does not cover them |
| WriteThrough.AckKeepsIff | client/src/writebuf.rs:142-152 | an ack keeps file overlaid with queue equal to original overlaid with all accepted writes if and only if it does not reorder in that sense |
| WriteThrough.WritesThroughStep | client/src/fuse_ops.rs:284-375 | every step of both actors keeps: file overlaid with queue equals original overlaid with all accepted writes, if nothing with bytes was dropped, no ack reordered and nobody else wrote to the file |
| WriteThrough.CoveredPartIsAbsorbed | client/src/fuse_ops.rs:358-371 | part of a batch, cut anywhere, is absorbed by any later runs covering it |
| WriteThrough.ReplayIsAbsorbed | client/src/fuse_ops.rs:358-371 | after any part of a batch, sending a later snapshot that still holds its chunks gives the file that snapshot alone gives, with no overlap condition |
| AppendOnce.AppendsLoggedStep | client/src/fuse_ops.rs:344-357 | on every O_APPEND handle every step keeps: the file is the original plus what landed, each batch's share is a prefix of its bytes, all of it where acked, and a batch not in flight covers nothing queued |
| AppendOnce.DisjointStep | client/src/fuse_ops.rs:344-357 | on every O_APPEND handle the one step that puts a chunk in a second batch is beginning a flush while the other actor's still covers queued chunks |
| AppendOnce.InBatchOrderStep | client/src/fuse_ops.rs:300-343 | while no reopen drops the queue under a background flush, batches land one after the other |
| AppendOnce.BatchBytesStep | client/src/writebuf.rs:118-136 | every step keeps: a batch's bytes are its chunks' bytes in stable offset order |
| HandleRuns.InvStep | client/src/fuse_ops.rs:284-375 | the whole invariant of one handle is kept by every step |
| HandleRuns.OkReplyIsExact | client/src/fuse_ops.rs:183-189 | an Ok from `flush_reply` means everything since the last error reply is acked, if and only if no mark of such a chunk is outstanding and none was removed by the ack of a flush that never sent it |
| HandleRuns.LostStep | client/src/writebuf.rs:142-152 | a step loses a chunk if and only if it is the ack of a flush begun before the chunk was accepted, and removes it |
| HandleRuns.BreaksIff | client/src/fuse_ops.rs:284-375 | from a state in which those conditions hold, exactly three kinds of step end the equality: an ack that reorders visibly, a drop of bytes not in the file, another handle's bytes landing visibly |
| HandleRuns.QueueAscendsStep | client/src/writebuf.rs:118-123 | if writes start no lower than the queued chunks they overlap, no ack reorders |
| AppendWhole.BatchesHoldAll | client/src/writebuf.rs:107-138 | batches in sequence that leave out no chunk with bytes hold every accepted byte |
| AppendWhole.AllAckedAppendedOnce | client/src/fuse_ops.rs:329-343 | with every chunk that has bytes acked and none in two batches, each batch landed whole, and the file is the original and every accepted byte once |
| AppendWhole.OkMeansAppended | client/src/fuse_ops.rs:183-189 | so it is after an Ok on an O_APPEND handle that no reopen disturbed, with no error reported and no mark pending |
| HandleIds.IdsNeverRepeat | server/src/handles.rs:53-94 | over every run of a session's inserts and removals no id is handed out twice |
| HandleIds.OtherSessionMisses | server/src/handles.rs:53-85 | an id of one session is not in the table of a session with another epoch |
| HandleIds.NeighboursApartIff | server/src/handles.rs:53-62 | neighbouring epochs' ids stay apart if and only if the lower one issued at most 2^32 |
| HandleIds.HandleTable.constructor | server/src/handles.rs:53-62 | an empty table whose counter starts in its own epoch |
| HandleIds.HandleTable.TryInsert | server/src/handles.rs:68-85 | refused exactly at capacity with nothing changed; otherwise a fresh id that now stands for the file |
| HandleIds.HandleTable.Remove | server/src/handles.rs:89-94 | gives the entry back and forgets the id, keeping the counter |
| HandleIds.HandleTable.Get | server/src/handles.rs:98-128 | a hit is an id this session issued and still holds |
| Mount.OnlyIssuerKnows | server/src/ops/data.rs:105-118 | only the session that issued a handle finds it, and finds the file and mode it was opened with |
| Mount.WorldOkStep | client/src/fuse_ops.rs:220-276 | every step of the client keeps handles, stamps, sessions and actors consistent, whether or not the server hears of a release |
| MountRuns.LandingTouchesOwnFile | server/src/ops/data.rs:105-170 | a Write changes its own handle's file, and another open handle's only if its own has been released |
| MountRuns.StepProjects | client/src/mount.rs:111-155 | each step of the whole client is, for every open handle, one step of its protocol, a released handle's bytes landing in its file, or nothing |
| MountRuns.RunIsGood | client/src/fuse_ops.rs:284-375 | in every run from a fresh mount all invariants hold of all open handles at once |
| MountTheorems.WriteBackRefinesWriteThrough | client/src/fuse_ops.rs:284-375 | in every run, on every positioned handle with nothing dropped, no ack that reordered and no released handle's bytes in its file, the queue over the server file equals all accepted writes over the original; drained means equal files |
| MountTheorems.RefinementBreaksIff | client/src/fuse_ops.rs:284-375 | in every run, from such a state of a positioned handle, the next step keeps that equality if and only if it is not an ack that reorders visibly, not a drop of bytes that are not in the file, and not a released handle's bytes landing where the queue leaves them visible |
| MountTheorems.OrderedIff | client/src/writebuf.rs:118-152 | in every run "no ack reordered" holds of a positioned handle if and only if no ack of its flushes removed chunks that were not order-safe where the rest of the queue left them uncovered |
| MountTheorems.LostIff | client/src/writebuf.rs:142-152 | in every run a chunk has been removed by the ack of a flush that never sent it if and only if some step was the ack of a flush begun before it was accepted that removed it |
| MountTheorems.LossIff | client/src/writebuf.rs:142-152 | in every run a handle has lost a chunk so if and only if some flush of it was acked with something queued, after chunks had been removed and others pushed since it began |
| MountTheorems.NoSilentLoss | client/src/mount.rs:117-134 | in every run, on every handle, each accepted chunk is queued, acked by a flush that sent it, or dropped and, with bytes, reported, pending or next to be marked; if and only if no such ack removed it |
| MountTheorems.QuietHandlesLoseNothing | client/src/writebuf.rs:142-152 | in every run no such ack happens to a positioned handle, or to an O_APPEND handle no reopen has dropped under a background flush |
| MountTheorems.OkReplyMeansAcked | client/src/fuse_ops.rs:1141-1154 | in every run, on every handle, an Ok reply means all bytes since the last error reply are acked, if and only if no mark is pending and no such ack removed one of them |
| MountTheorems.OkReplyMeansWrittenThrough | client/src/fuse_ops.rs:1141-1154 | in every run, Ok on a positioned handle with no earlier error, no mark pending, no ack that reordered and no released handle's bytes in its file means the server file is the original with every accepted write applied in order |
| MountTheorems.SentOnceIff | client/src/fuse_ops.rs:344-357 | in every run no chunk of an O_APPEND handle is in two batches if and only if no flush of it began while the other actor's still covered queued chunks |
| MountTheorems.AppendsLandAtMostOnce | client/src/fuse_ops.rs:344-357 | in every run an O_APPEND handle's file is the original plus what landed in landing order, each batch's share a prefix of its chunks' bytes, acked batches whole, and each chunk is sent at most once under exactly the condition above |
| MountTheorems.UndisturbedAppendsAreInOrder | client/src/fuse_ops.rs:261-270 | in every run, while no reopen drops the queue under a background flush, each chunk is sent at most once and batches land one after the other |
| MountTheorems.OkReplyMeansAppended | client/src/fuse_ops.rs:1141-1154 | in every run, Ok on an O_APPEND handle with no earlier error, no mark pending, no queue dropped under a background flush and no released handle's bytes in its file means the server file is the original and every accepted byte exactly once, batch after batch in stable offset order; with ascending offsets, the original followed by every write in order |
| MountTheorems.CurrentStampIsFresh | client/src/fuse_ops.rs:228-260 | in every run a handle stamped with the current generation was issued by the current connection |
| MountTheorems.LookupsFindTheIssuer | server/src/ops/data.rs:105-118 | in every run a Write RPC finds its handle only over the connection that issued it, and finds what the client opened |
| MountTheorems.WritesReachOwnFileOnly | server/src/ops/data.rs:129-170 | in every run a step that changes a file lands bytes of a Write RPC whose handle was opened on that file |
| MountTheorems.ForeignBytesMatterIff | client/src/fuse_ops.rs:1158-1200 | in every run, when a released handle's bytes first reach the file of a positioned handle, write-back stays equal to write-through if and only if each byte the queue does not overwrite is there already |
| MountTheorems.CleanOpensStayAlone | client/src/fuse_ops.rs:1158-1200 | in every run a handle opened while no flush of a released handle was under way on its path never gets another handle's bytes in its file |
| MountTheorems.AscendingWritesAreOrdered | client/src/writebuf.rs:118-123 | in every run in which a handle's writes start no lower than the queued chunks they overlap, no ack of it reordered |
| MountTheorems.AscendingOkMeansWrittenThrough | client/src/fuse_ops.rs:1141-1154 | the same promise with its conditions put as ones on the application's writes and on the moment of opening |
| MountErrors.StickyStep | client/src/fuse_ops.rs:329-375 | of all steps of one handle exactly these set its sticky error: a refused write, a failed send of the FUSE thread on O_APPEND, a reopen dropping bytes, the background task's mark; a failed send on a positioned handle does not |
| MountErrors.StickyIff | client/src/fuse_ops.rs:329-375 | in every run a handle's sticky error is set if and only if one of those four came since its last answer |
| MountErrors.OwingIff | client/src/mount.rs:117-134 | in every run the background task has a mark to set if and only if since its last mark of the handle one of its O_APPEND sends failed or it dropped bytes for their age |
| MountErrors.RetriedSendsAreNotErrors | client/src/fuse_ops.rs:358-371 | in every run, with no error set or owed at some moment and no write refused and no bytes dropped for age since, a positioned handle's close() that saw the queue empty is answered Ok, whatever sends failed in between |
| MountErrors.UndroppedCloseIsOk | client/src/fuse_ops.rs:358-371 | the same from the opening of the handle on |
| MountErrors.EveryAnswer | client/src/fuse_ops.rs:1141-1154 | in every run an answer is the errno of the drain that gave up; or, the queue seen empty, EIO if and only if one of the four causes came since the last answer; and the error is then taken, so it is reported once |
| MountHistory.LedgerIsHistory | client/src/fuse_ops.rs:1092-1134 | in every run `accepted` is exactly the writes taken on the handle, in order; `reported` how many came before its last error answer; and the disturbed and intruded marks are exactly those events of the run |
| MountHistory.HandleIsAsOpened | client/src/fuse_ops.rs:444-462 | in every run an open handle stands for the path and mode of the step that opened it, across reopens, and its base is the file of that moment |
| MountHistory.FateIff | client/src/writebuf.rs:142-173 | in every run a write counts as dropped if and only if a step threw the queue away with it inside, and as acked if and only if a step was the ack of a flush that had sent it and removed it |
| MountHistory.FlushesUseLiveHandles | client/src/fuse_ops.rs:220-260 | in every run an actor flushes only after `ensure_live`, with a server handle issued by the connection current at that moment or a later one |
| MountHistory.ReleaseForgets | client/src/fuse_ops.rs:1180-1200 | a release the server hears of makes it forget that handle and no other |
| MountWitnesses.DropBeforeMarkWitness | client/src/mount.rs:125-127 | a run in which close() is answered Ok between the drop and the mark |
| MountWitnesses.AppendAckByCountWitness | client/src/writebuf.rs:142-152 | a run in which an append is removed by an older flush's ack and close() is answered Ok |
| MountWitnesses.AppendTwiceWitness | client/src/fuse_ops.rs:344-346 | a run in which an append lands twice |
| MountWitnesses.ReleasedFlushWitness | client/src/fuse_ops.rs:1158-1200 | a run in which a released handle's bytes land in the file of the next handle, whose close() is answered Ok with every write acked and the file not as written |
| MountWitnesses.SortedFlushWitness | client/src/writebuf.rs:123 | a run in which two overlapping writes, the later starting lower, are flushed together, close() is answered Ok with both acked, and the file is not as written |
| MountWitnesses.RetriedSendWitness | client/src/fuse_ops.rs:358-371 | a run in which a send fails, the chunk stays queued with no error set, is sent again and acked, and close() is answered Ok with the file as written |
| WriteRpc.SendFrames | client/src/conn.rs:584-607 | for every data and chunk size the frames are consecutive nonempty pieces that add up to the data, and exactly the last is marked done |
| WriteRpc.HandleWrite | server/src/ops/data.rs:129-177 | the server loop applies whole frames and possibly part of one, as many bytes as the disk took; answers an error exactly when the disk failed before a frame marked done, Ok exactly after one, and counts what it wrote |
| WriteRpc.StoreJoins | server/src/ops/data.rs:353-366 | two writes that touch are one write, at an offset or appended |
| WriteRpc.FramesAreOneWrite | server/src/ops/data.rs:129-170 | any applied frames amount to one write of a prefix of the data |
| WriteRpc.PartIsOneWrite | server/src/ops/data.rs:129-170 | so does a frame cut short |
| WriteRpc.RpcIsOneWrite | client/src/conn.rs:582-613 | whatever arrives and whatever fails, the file ends as one write of a prefix; Ok means all of it and its length |
| WriteRpc.NoDataNoFrames | client/src/conn.rs:591-607 | there is a frame if and only if there is data |
| WriteLock.SharedStripeIff | server/src/writelock.rs:36-43 | two inodes of a device share a stripe if and only if they agree modulo 1024 |
| WriteLock.SharedLockIff | server/src/writelock.rs:36-43 | so the locks of two inode keys of one device are the same if and only if the inodes agree in their last ten bits |
| WriteSerial.WritesAreSerializable | server/src/ops/data.rs:121-170 | in every interleaving of Write RPCs every file is what running them one after another in lock order gives, a failed one counting as what it applied |
| WriteSerial.AppliedIsOneWrite | server/src/ops/data.rs:129-170 | what an RPC applied, cut anywhere, is one write of a prefix of its data |
| WriteSerial.MoveApplies | server/src/ops/data.rs:121-170 | what each step of an RPC applies, to the byte, when it takes and frees its lock, and that it changes no other |
| WriteSerial.WritesLandWhole | server/src/writelock.rs:36-43 | under the source's stripes every file is, at every moment, the result of client writes carried out whole and in lock order |
| ReadRpc.Stream | server/src/ops/data.rs:46-85 | the read loop ends, sends consecutive pieces, each holding the file's bytes at its offset, flags exactly the last, and they add up to the requested bytes up to end of file unless the disk fails |
| ReadRpc.HandleRead | server/src/ops/data.rs:28-89 | too long a request and an unknown handle get one error frame; otherwise the stream above |
| ReadRpc.Collect | client/src/conn.rs:565-575 | succeeds exactly when a flagged frame comes before any error, with everything joined |
| ReadRpc.Read | client/src/conn.rs:549-575 | byte i of an answer is byte offset + i of the file, and there are as many as were asked for and are there, under every short-read behaviour; an answer comes for 1 byte to 16 MiB unless the disk fails |
| DirPaging.HandleReadDir | server/src/ops/meta.rs:213-245 | the page is the up to 256 entries after the cursor, the cursor moves past them, and a short page says it is the last |
| DirPaging.ReadDir | client/src/conn.rs:385-406 | the client loop ends and returns the listing exactly, in one request for each full page and one more |
| InodeTable.Table.constructor | client/src/fuse_ops.rs:85-95 | the root has number 1 and the next is 2 |
| InodeTable.Table.GetOrAlloc | client/src/fuse_ops.rs:101-110 | a known path keeps its number, a new one gets one not in use, and nothing else changes |
| InodeTable.Table.PathOf | client/src/fuse_ops.rs:112-114 | a path's own number leads back to the path |
| InodeTable.Table.RemovePath | client/src/fuse_ops.rs:117-121 | path and number both go, and nothing else changes |
| InodeTable.Table.RenameIno | client/src/fuse_ops.rs:124-129 | the new path gets the very number of the old one, that number names it, the old path is gone, and nothing else changes |
| InodeTable.RunIsCoherent | client/src/fuse_ops.rs:85-129 | in every run paths have different numbers and each number leads back to its path |
| InodeTable.NumbersAreNeverReissued | client/src/fuse_ops.rs:101-110 | in every run a newly given number was never in use before |
| InodeTable.EntriesAreDistinct | client/src/fuse_ops.rs:470-476 | two entries get the same path only if they are the same name in the same directory |
| InodeTable.CallsDo | client/src/fuse_ops.rs:850-965 | a successful lookup gives the entry a number, an unlink takes it away, a rename keeps it |
| InodeTable.CallsStayUnder | client/src/fuse_ops.rs:470-476 | every path a callback names is the root or reached from it by going down entries, and every entry it looks up, removes or renames is strictly under it |
| InodeTable.CallsSpareRoot | client/src/fuse_ops.rs:470-476 | so no callback removes, renames or overwrites the root |
| InodeTable.RootKeepsItsNumber | client/src/fuse_ops.rs:85-129 | in every session of callbacks the root keeps number 1 |
| InodeTable.StaleAreTheOverwritten | client/src/fuse_ops.rs:124-129 | in every run the numbers naming a path not theirs are exactly those of overwritten rename targets |
| InodeTable.BijectiveIffNothingOverwritten | client/src/fuse_ops.rs:918-965 | the two maps are inverse if and only if no rename went over another known path |
| InodeTable.RenameOverWitness | client/src/fuse_ops.rs:124-129 | look up a and b, rename a over b: b's old number still names b |
| MetaCache.CurrentIffStands | client/src/cache.rs:52-105 | the entry an unbounded cache would answer from is the latest insert of the path with no later clear and no later invalidation of the path or of a path whose parent it is |
| MetaCache.InvalidationVoids | client/src/cache.rs:94-100 | after an invalidation nothing is known of the path and of its parent, and as much as before of every other path |
| MetaCache.OthersIff | client/src/cache.rs:52-91 | the paths counted against an entry are exactly those used since it was last used |
| MetaCache.PutAgrees | client/src/cache.rs:72-91 | inserting and promoting keep the cache in agreement with its history, eviction included |
| MetaCache.InvalidateAgrees | client/src/cache.rs:94-100 | so does invalidating a path and its parent |
| MetaCache.MissAgrees | client/src/cache.rs:52-65 | so does removing an expired entry |
| MetaCache.PushedOut | client/src/cache.rs:72-91 | an evicted entry has been unused while as many other paths were used as the cache holds |
| MetaCache.Cache.constructor | client/src/cache.rs:40-48 | empty, with the configured capacity or 8192 for none |
| MetaCache.Cache.Get | client/src/cache.rs:52-69 | a hit is exactly the latest insert that stands and is younger than its lifetime; a miss means none, an expired one, or one pushed out |
| MetaCache.Cache.Insert | client/src/cache.rs:72-85 | the entry is recorded with the lifetime of its kind |
| MetaCache.Cache.InsertNegative | client/src/cache.rs:88-91 | a negative entry with its own lifetime |
| MetaCache.Cache.Invalidate | client/src/cache.rs:94-100 | the path and its parent are forgotten and nothing else is |
| MetaCache.Cache.Clear | client/src/cache.rs:103-105 | nothing is known of any path |
| StatCache.Stats.constructor | client/src/fuse_ops.rs:426-431 | starts from the generation at mount time |
| StatCache.Stats.CheckReconnect | client/src/fuse_ops.rs:587-599 | the cache is emptied exactly when the generation has moved |
| StatCache.Stats.CacheStat | client/src/fuse_ops.rs:605-611 | caches under the directory or file lifetime |
| StatCache.Stats.CacheNegative | client/src/fuse_ops.rs:613-615 | caches that the path does not exist |
| StatCache.Stats.InvalidateCache | client/src/fuse_ops.rs:617-619 | forgets the path and its parent |
| StatCache.Stats.GetStat | client/src/fuse_ops.rs:621-662 | an answer from the cache was inserted when the generation had reached the value seen on entry, stands and is not expired; any other is the server's, by kind of reply; attributes are then what the cache knows unless the flush before failed, absence always |
| TrustFiles.Load | common/src/trust.rs:91-111 | the loading loop |
| TrustFiles.LastLineWins | common/src/trust.rs:91-111 | a loaded table holds exactly the entries of the lines that are the last to name their key |
| TrustFiles.Save | common/src/trust.rs:125-140 | the saving loop over any order of the entries |
| TrustFiles.FileReadsBack | common/src/trust.rs:91-140 | a file of a header that is no entry and lines that each read back loads as the saved table |
| TrustFiles.KnownHostsRoundTrip | common/src/trust.rs:91-140 | loading a saved known_hosts gives the same table if and only if hosts are words not starting with '#' and fingerprints are words |
| TrustFiles.AuthorizedKeysRoundTrip | common/src/trust.rs:159-224 | loading a saved authorized_keys gives the same table if and only if fingerprints are words not starting with '#' and comments are trimmed and on one line |
| TrustFiles.KnownHosts.Insert | common/src/trust.rs:119-140 | pins one host and leaves the others; the file then saved loads as exactly this table if and only if the new pin and the others have the form it can hold |
| TrustFiles.KnownHosts.Reload | common/src/trust.rs:91-140 | save then load leaves the pins unchanged if and only if they have the form the file can hold |
| TrustFiles.AuthorizedKeys.Authorize | common/src/trust.rs:197-201 | adds the key, and what is saved loads as the new table under exactly the round-trip condition |
| PathNormal.JoinSplit | server/src/sanitize.rs:43-57 | joining what was split at '/' gives the path back |
| PathNormal.SplitJoin | server/src/sanitize.rs:43-57 | splitting what was joined gives the components back |
| PathNormal.RespellingKeeps | server/src/sanitize.rs:43-57 | extra slashes and "." in front, between and behind leave the significant components alone |
| PathNormal.TrimSlashes | server/src/sanitize.rs:43 | stripping leading slashes changes nothing significant |
| PathNormal.Components | server/src/sanitize.rs:44-57 | the loop keeps exactly the significant components or reports the first bad one |
| PathNormal.Walk | server/src/sanitize.rs:75-111 | accepts exactly when no proper prefix, from the first component on, is a link and the whole does not lead outside |
| PathNormal.Resolve | server/src/sanitize.rs:31-114 | what is accepted is normal, has no link among its proper prefixes and does not lead outside; every such path of at most 4096 bytes is accepted; and each refusal comes exactly for its reason, in order |
| PathNormal.AcceptedIffAcceptable | server/src/sanitize.rs:31-114 | accepted if and only if at most 4096 bytes, at most 128 plain components of at most 255 bytes, and confined; the answer is those components |
| PathNormal.AcceptsExactly | server/src/sanitize.rs:31-114 | the same in numbers and bytes: at most 128 components of 1 to 255 bytes, none "." or "..", no slash, no zero byte |
| PathNormal.RefusesInOrder | server/src/sanitize.rs:31-72 | too long first, then a zero byte, then the first bad component, then the depth |
| PathNormal.RespellingsAgree | server/src/sanitize.rs:31-114 | spellings within the limit with the same significant components get the same answer |
| PathNormal.ResolvingAgain | server/src/sanitize.rs:31-114 | the accepted components joined by '/' resolve to themselves |

## Left out

- QUIC, TLS, certificates, fingerprints and MessagePack: library formats and cryptography; frames are datatypes.
- `openat2`, the `*at` calls, fsync, statfs and canonicalisation: kernel behaviour; two given answers stand for links.
- Crash durability of the server and its page cache: outside the state the code keeps.
- Several handles or clients writing one file through their own buffers: the code promises no order between them.
- Contents after a file is renamed while open and reopened by its old name: the open-file entry keeps the old path.
- Truncation, `setattr` and the fence before a truncating open: they order flushes before another RPC and add no protocol state.
- The unmount-time flush as a third flusher: it runs after the FUSE thread has stopped.
- What is left in the queue at `release()`: the kernel ignores its result, so the promises are about the time before it.
- The retry count of `flush_one` and the 500 rounds of `flush_handle_drain`: any number of attempts is allowed.
- `path_hash_key`: the fallback inode key; serializability is proved for every function from key to lock.
- Plain lookups (`get`, `contains`, `is_empty`), `normalize_root`, errno and status mappings, CLI, configuration, signals and mount lifecycle: easy members or I/O.
- `Path::parent` in the cache: a parameter, every law holds for any such function.
- The byte order of `BTreeMap` in the trust files: every order of the entries is covered.
- HandleProtocol.RolesStep: the guard facts are for positioned handles and for O_APPEND handles no reopen has dropped under a background flush, because the code gives them up otherwise; `BoundsStep` is what holds of all.
- MountTheorems.WriteBackRefinesWriteThrough: its conditions are sufficient over a whole run, because a later write may cover a difference again; `RefinementBreaksIff` is exact for the step that first makes one.
- The text of the trust files' header lines: any one-line comment.
