# gcsfuse: buffered reads, streaming writes, block pools and the inode index

A Dafny model of the stateful core of gcsfuse, with proofs that hold for every input and
every interleaving of the model's steps.

* **Buffered reader** (`internal/bufferedread`). A queue of reference-counted blocks is
  filled by download tasks. `ReadAt` hands out slices that alias block memory, and a later
  callback gives the references back. `ReaderState` is the state machine of reader, tasks and
  callbacks; `ReaderProofs` shows that every step is free of panics and keeps the invariant;
  `ReaderRuns` draws the consequences for whole traces; `ReaderDemand` is what a read asks of the
  pool; `BufferedReaders` is the reader as a class, whose methods work on its fields and whose
  ghost trace ties them to the machine.
* **Streaming writer** (`internal/bufferedwrites`). A producer fills blocks and one uploader
  goroutine copies them to the GCS writer. `UploadPipeline`, `UploadProofs` and `UploadRuns`
  are the interleaving of the two, `UploadCuts` is when an append runs out of memory half way,
  `StreamFile` is what callers see compared with plain `pwrite` and `ftruncate`, and
  `BufferedWriteHandlers` is the handler as a class.
* **Blocks and pools** (`internal/block`). `Blocks` and `BlockPools` give each operation as a
  function on values, `MemoryBlocks` and `GenBlockPools` do it in place, and `SharedPools` is
  any number of pools on one semaphore.
* **Inode index** (`internal/fs/fs.go`). `InodeIndex` is the table of inodes with its four name
  indexes and the critical sections that change them; `InodeRuns` is what holds after any sequence
  of these; `FileSystems` has the lookups, which drop the lock and let other threads in.
* **Queue and flag tree.** `Queues` is the linked list of `common/queue.go`; `FlagTree` is the
  nesting of dotted flag names in `cfg/optimize.go`.

An invariant `Inv` is proved inductive over events, and `Execute`, defined on every feasible
trace, carries it as its postcondition. `Guard` is what the code itself checks or waits for
before a step, and `Safe` is what would otherwise panic or fail an internal check; that `Guard`
implies `Safe` in every reachable state is a theorem about the reader, the upload pipeline and the
pools. In the inode index `Guard` is what the code has compared under the lock.

What may go wrong outside a call (a cancelled wait, a failed download or upload, no memory, no
permit) is a parameter `Faults`. Every error a call can return is tied to one of them or to the
state before the call, and with none of them the result is exact.

Where the code does not do what its comments or names suggest, the model follows the code, shows
an input and gives the exact condition:

* A write at a truncation offset that the file has since outgrown is accepted and appended at
  the end: `StreamFile.WriteIsPwrite`, `StreamFile.StaleWriteBreaksFile`.
* A read that falls back after it took references returns no callback for them. They are
  counted as `leaked`, and a block's reference count is exactly `inflight + leaked`. A read leaks
  only if it crosses a block boundary (`ReadAt`), and every such read can
  (`ReaderRuns.CrossingReadCanLeak`). A leak is for good: the evicted block never returns to the
  pool, and the queue has that much less room (`ReaderRuns.LeakIsForever`,
  `ReaderRuns.LeakShrinksQueue`).
* A read keeps a reference to every block it passes, so one that spans more blocks than the pool may
  have cannot succeed. With nothing failing, a read succeeds if and only if the blocks it touches and
  those referenced already, counted once, fit the pool (`ReadAt`, `ReaderDemand.FitsUnreferenced`).
* After a read that leaves nothing queued, the next sequential read counts as a random seek, and
  after any other it does not (`ReadAt`).
* `CheckInvariants` asserts that `randomSeekCount` is at most the threshold. One more is reached
  (`BufferedReaders.SeekPastThreshold`), exactly when `HandleRandomRead` says, and then the queue
  is empty.
* With a negative threshold, which the source does not refuse, the reset to sequential reading can
  hit a queue that is not empty. What is queued is then no longer a contiguous window
  (`ReaderRuns.ResetUnderQueueBreaksWindow`); such a jump under a queue is the only step that breaks
  it (`ReaderProofs.StepKeepsWindow`, `ReaderRuns.WindowStays`). References, counts and the bytes
  `ReadAt` returns do not depend on the window and hold at any threshold.
* `Flush` looks at the upload error before it waits for the uploads and not after, so unless the
  finalizing call fails it can succeed although bytes are missing: always possible if something
  is pending at the check and never otherwise (`UploadRuns.FlushIsComplete`).
* A write at offset -1 is accepted as long as nothing was truncated, since that is where the size of
  the last truncate starts out; of the other offsets exactly the end of the file is accepted then
  (`StreamFile.AppendsInOrder`), and in general that of the last truncate too
  (`StreamFile.AcceptedOffsets`).
* A write that runs out of memory can leave a part of its data appended. This takes a write that
  reaches past what is spare while the pool may still map a block, and every such write can be cut
  short (`Write`, `UploadCuts.AppendCanBeCut`). A retry is accepted and appends that part again
  (`StreamFile.RetryRepeatsPart`), and `Flush` then succeeds with an object longer than
  `WriteFileInfo` reports.
* A block that cannot be mapped after its permit was taken keeps the permit
  (`SharedPools.PermitsAreHeld`, `SharedPools.FailedMappingLosesPermit`), and closing a pool whose
  blocks are still out can let others exceed the global limit (`SharedPools.OverrunIsPossible`,
  `SharedPools.ClosedTooEarly`).
* `Generation.Compare` takes a smaller size for equal (`FileSystems.SameGeneration`).
* With another thread in between, a lookup can return an inode that it minted itself and that has
  since been replaced in the index (`FileSystems.InterruptedLookupCanReturnUnindexed`) or even
  destroyed (`FileSystems.InterruptedLookupCanReturnDestroyed`). Such an inode and nil are the only
  other results it can have (`LookUpObject`).
* "Every local file is indexed" (internal/fs/fs.go:482-483) fails: entries are deleted by name,
  whoever holds them, so a flush of one inode takes the entry of another
  (`InodeRuns.FlushTakesAnothersEntry`). `InodeRuns.IndexedIffGiven` gives the exact steps that give
  and take entries, in every index.
* "Every implicit directory is indexed" (internal/fs/fs.go:459-460) holds of those not unlinked
  (`InodeIndex.StepKeepsInv`) and fails for one that was unlinked and then replaced
  (`InodeRuns.ReplacedDirIsUnindexed`).

## Model

| member | source | states |
|---|---|---|
| `BufferedReaders.BufferedReader.ReadAt` | internal/bufferedread/buffered_reader.go:276-395 | From any reachable state and at any threshold the returned slices concatenate to the object's bytes from `offset` on, also on the wait-failed and download-failed exits; with no error the size is the smaller of the buffer and what is left of the object; each further slice starts the next block; end of file exactly past the end; every earlier reference stays valid and untouched; the window stays contiguous unless the call resets under a queue; references are leaked only by a fallback of a read that crosses a block boundary, exactly those of `lost`, one for each block before the refused one; a fallback not due to random seeks has a pool with nothing free that could not map memory or, given a reservation, has references out; and when the count of random seeks ends past the threshold; what each error comes from, and with nothing failing outside: it succeeds if and only if it does not pass the threshold and the blocks it touches and those referenced already fit the pool; whether the next sequential read is then a random seek |
| `BufferedReaders.BufferedReader.ReadBlocks` | internal/bufferedread/buffered_reader.go:318-394 | The loop ends: each round gets at least one byte or an error; what is gathered always reads as the object; references taken are those of the slices, or on a fallback exactly those become leaked; why the fallback occurred; success means that the read fits the pool, and a refusal with memory and permits to be had that it does not |
| `BufferedReaders.BufferedReader.Round` | internal/bufferedread/buffered_reader.go:318-389 | One round, from the wait on: at least one byte more, or an error with its cause; when it prefetches; what the rest of the read asks of the pool is unchanged |
| `BufferedReaders.BufferedReader.Gather` | internal/bufferedread/buffered_reader.go:356-389 | One round extends what is gathered by at least one byte without a gap; the head is dropped exactly if its block is used up before the end of the object, and the queue refilled then unless this read has prefetched; the rest of the read asks the same of the pool |
| `BufferedReaders.BufferedReader.TakeSlice` | internal/bufferedread/buffered_reader.go:356-372 | What is gathered grows by at least one byte without a gap, and the head may then be dropped |
| `BufferedReaders.BufferedReader.ServeHead` | internal/bufferedread/buffered_reader.go:356-372 | The slice of the head is never out of bounds and holds exactly the object's bytes at the read offset |
| `BufferedReaders.BufferedReader.GiveUp` | internal/bufferedread/buffered_reader.go:323-328 | The mid-read fallback leaks exactly the references of the slices gathered so far, one for each block the read has passed |
| `BufferedReaders.BufferedReader.AwaitHead` | internal/bufferedread/buffered_reader.go:321-354 | On success the block covering the offset heads the queue and is downloaded; a wait fails only if it may be cancelled, a download only if downloads may fail or one had; a failed block is off the queue and the last one in the free list; a fallback comes with its cause |
| `BufferedReaders.BufferedReader.CoverOffset` | internal/bufferedread/buffered_reader.go:321-333 | Queue preparation or a fresh start leaves the covering block at the head, or the queue is empty and the refusal has its cause; in a contiguous window it starts afresh exactly if the offset lies outside; what the read asks of the pool is unchanged |
| `BufferedReaders.BufferedReader.PopConsumed` | internal/bufferedread/buffered_reader.go:376-388 | Dropping a consumed head moves the window on by one block and refills the queue once in a read, as far as the pool has blocks |
| `BufferedReaders.BufferedReader.PopFailed` | internal/bufferedread/buffered_reader.go:340-354 | A head whose download failed has no references, so releasing it directly equals releasing or evicting it |
| `BufferedReaders.BufferedReader.PrepareQueueForOffset` | internal/bufferedread/buffered_reader.go:236-252 | What is left is headed by the block that covers the offset, or nothing is; of a contiguous window it drops exactly the entries in front of that block, all if none covers the offset |
| `BufferedReaders.BufferedReader.IsRandomSeek` | internal/bufferedread/buffered_reader.go:216-228 | In a contiguous window the comparison of byte positions is the same as the block index lying outside it |
| `BufferedReaders.BufferedReader.HandleRandomRead` | internal/bufferedread/buffered_reader.go:171-212 | At any threshold: falls back if and only if the read is not sequential and the count is past the threshold or at it on a random seek, and for a threshold of 0 or more this is when the count ends past it; what each case does to count and queue; a queue that is left covers the offset; all references are kept, and the window too unless it resets under a queue |
| `BufferedReaders.SeekPastThreshold` | internal/bufferedread/buffered_reader.go:594-617 | A reader and a read after which the count is one more than the threshold, against the check in the source |
| `BufferedReaders.FirstRead` | internal/bufferedread/buffered_reader.go:276-395 | If nothing fails, the first bytes of any object are read from a new reader, exactly if they lie in no more blocks than the pool may have |
| `BufferedReaders.BufferedReader.ResetBufferedReaderState` | internal/bufferedread/buffered_reader.go:621-626 | Restarting keeps all references whatever is queued, and a contiguous window if nothing is |
| `BufferedReaders.BufferedReader.Prefetch` | internal/bufferedread/buffered_reader.go:419-461 | Appends the wanted blocks in order and doubles the next cycle up to the limit, or fewer if a pool with nothing free refuses one; the head stays where it was |
| `BufferedReaders.BufferedReader.FreshStart` | internal/bufferedread/buffered_reader.go:466-485 | The covering block becomes the head, and behind it the whole first batch is scheduled or all the pool has; it is refused only by a pool with nothing free, when memory cannot be mapped, given a reservation while references are out, and if permits are to be had only with every block referenced |
| `BufferedReaders.BufferedReader.ScheduleNextBlock` | internal/bufferedread/buffered_reader.go:489-506 | Appends one entry and advances the index, or changes nothing, which happens only with no free block |
| `BufferedReaders.BufferedReader.ScheduleGranted` | internal/bufferedread/buffered_reader.go:510-533 | The granted block is blank, gets its start offset without error and becomes its task's |
| `BufferedReaders.BufferedReader.DropHead` | internal/bufferedread/block_queue_entry.go:39-51 | Cancel, wait, pop and release: the block leaves the queue only after its task has notified |
| `BufferedReaders.BufferedReader.DrainQueue` | internal/bufferedread/buffered_reader.go:191-197 | Empties the queue and keeps every outstanding reference untouched |
| `BufferedReaders.BufferedReader.PopAndRelease` | internal/bufferedread/buffered_reader.go:581-590 | A popped block is released only without references and otherwise marked evicted |
| `BufferedReaders.BufferedReader.Callback` | internal/bufferedread/buffered_reader.go:401-414 | Gives back exactly the references of the response; every other reference still reads the same |
| `BufferedReaders.BufferedReader.Destroy` | internal/bufferedread/buffered_reader.go:536-552 | After the drain nothing is queued, no task runs, and every outstanding reference is untouched, so that callbacks may still run |
| `BufferedReaders.BufferedReader.GiveUpPool` | internal/bufferedread/buffered_reader.go:554-573 | Clearing leaves only blocks that still have references; once every callback has run and nothing was leaked no block is left, and no permit save those lost to failed mappings |
| `BufferedReaders.BufferedReader.ExecuteTask` | internal/bufferedread/download_task.go:54-106 | A task changes no block but its own, ends with that one notified, and disturbs no reference; unless a download may fail the block is downloaded |
| `BufferedReaders.BufferedReader.AwaitReady` | internal/block/prefetch_block.go:194-212 | A wait that may not be cancelled ends with the block's outcome known; other references are kept, and no queued block fails unless downloads may |
| `BufferedReaders.BufferedReader.constructor` | internal/bufferedread/buffered_reader.go:128-162 | A new reader is the initial state of the machine, for any threshold; of first reads only one at the start is no random seek |
| `BufferedReaders.DataStays` | internal/bufferedread/buffered_reader.go:356-372 | Slices whose references are kept read the same bytes later |
| `BufferedReaders.WindowEnd` | internal/bufferedread/buffered_reader.go:216-228 | The byte range of the queue is the range of its block indexes |
| `ReaderProofs.GuardIsSafe` | internal/block/prefetch_block.go:178-236 | In every reachable state `SetAbsStartOff`, `NotifyReady`, `DecRef`, the copy into a block and `Release` cannot fail or panic |
| `ReaderProofs.StepKeepsInv` | internal/bufferedread/buffered_reader.go:594-617 | Every step keeps: one place per block, exact counts, one owner while downloading, bytes equal to the object's from a block boundary on, the next block to prefetch inside the object |
| `ReaderProofs.StepKeepsWindow` | internal/bufferedread/buffered_reader.go:214-252 | A step keeps the queue a contiguous window if and only if it is not a restart elsewhere under a queue |
| `ReaderProofs.ScheduleKeepsInv` | internal/bufferedread/buffered_reader.go:489-533 | Reusing a free block for the next index keeps the invariant |
| `ReaderProofs.DiscardKeepsInv` | internal/bufferedread/buffered_reader.go:581-590 | Releasing or evicting the head keeps the invariant |
| `ReaderProofs.CallbackKeepsInv` | internal/bufferedread/buffered_reader.go:401-414 | Dropping a reference, and releasing an evicted block with the last one, keeps the invariant |
| `ReaderProofs.DownloadKeepsInv` | internal/bufferedread/download_task.go:76-105 | Copying more bytes keeps a block a prefix of its range of the object |
| `ReaderRuns.Execute` | internal/bufferedread/buffered_reader.go:594-617 | The invariant holds after every interleaving of reads, callbacks, drains and downloads |
| `ReaderRuns.ReferencedBytesStay` | internal/bufferedread/buffered_reader.go:341-372 | Zero-copy safety over whole traces: as long as a reference is out, its block is not free, not written, and holds the object's bytes it held when handed out |
| `ReaderRuns.ReferenceIsSettled` | internal/block/prefetch_block.go:226-236 | A referenced block is downloaded, complete, out of the free list and of every task, and its count is at least its outstanding references |
| `ReaderRuns.StepKeepsSettled` | internal/block/prefetch_block.go:194-224 | Once notified, a block's bytes and outcome do not change until it is reused |
| `ReaderRuns.BlocksAccounted` | internal/block/block_pool.go:168-174 | Every block is free, queued or evicted with references, in exactly one of these ways; they add up to the total, at most the limit |
| `ReaderRuns.AllReturned` | internal/bufferedread/buffered_reader.go:401-414 | With nothing queued and no reference left every block is back in the pool |
| `ReaderRuns.FallbackNeedsReferences` | internal/bufferedread/buffered_reader.go:466-485 | With one block reserved and memory available, a fresh start is refused only while a reference is out |
| `ReaderDemand.FitsUnreferenced` | internal/bufferedread/buffered_reader.go:356-388 | With no reference out, a read fits exactly if it touches no more blocks than the pool may have |
| `ReaderDemand.TakeRefDemand` | internal/bufferedread/buffered_reader.go:356-372 | Serving the head raises the referenced blocks by exactly what it lowers the rest of the read's demand by |
| `ReaderDemand.ScheduleDemand` | internal/bufferedread/buffered_reader.go:489-506 | Blocks scheduled behind the queue change no read's demand |
| `ReaderDemand.ExhaustedIsPinned` | internal/block/block_pool.go:127-165 | A pool at its limit with nothing free or queued has every block referenced |
| `ReaderRuns.CrossingReadCanLeak` | internal/bufferedread/buffered_reader.go:323-328 | The converse of what ReadAt promises: for every read that crosses a block boundary there is a run in which it is refused a fresh start at the next block, for want of memory or, with at most one block reserved, of a permit, and after which no callback is outstanding and yet its block stays referenced |
| `ReaderRuns.LeakIsForever` | internal/bufferedread/buffered_reader.go:323-328 | Over any run a leaked reference stays leaked, and an evicted block that has one stays evicted |
| `ReaderRuns.StuckBlocksAreLost` | internal/bufferedread/buffered_reader.go:581-590 | Such blocks are neither free nor in a task, and queue, free list and they together stay within the limit |
| `ReaderRuns.LeakShrinksQueue` | internal/bufferedread/buffered_reader.go:489-506 | At any later time the queue holds at most the limit less the blocks stuck before |
| `ReaderRuns.ResetUnderQueueBreaksWindow` | internal/bufferedread/buffered_reader.go:171-212 | For every object that is not empty, a run that ends with the reset of a sequential read while a block is queued, after which the window is not contiguous |
| `ReaderRuns.WindowStays` | internal/bufferedread/buffered_reader.go:214-252 | In any run without such a restart what is queued is always a contiguous window |
| `StreamFile.WriteIsPwrite` | internal/bufferedwrites/buffered_write_handler.go:132-153 | An accepted write is a `pwrite` if and only if it is empty or not at an outgrown truncation offset |
| `StreamFile.TruncateIsFtruncate` | internal/bufferedwrites/buffered_write_handler.go:265-272 | An accepted truncate is an `ftruncate`, also when it takes back an earlier one |
| `StreamFile.FillUpKeepsFile` | internal/bufferedwrites/buffered_write_handler.go:286-306 | Writing out the lazy zeros does not change the file |
| `StreamFile.FileSizeIsLength` | internal/bufferedwrites/buffered_write_handler.go:274-279 | The reported size is the length of the file |
| `StreamFile.SessionRefinesFile` | internal/bufferedwrites/buffered_write_handler.go:132-306 | After any session of writes, truncates, syncs and flushes without a stale write the handler stands for the file that `pwrite` and `ftruncate` give, refused calls changing nothing |
| `StreamFile.AppendsInOrder` | internal/bufferedwrites/buffered_write_handler.go:127-142 | In a session without a truncate, no accepted write is stale and the one offset in order is the end of the file |
| `StreamFile.AcceptedOffsets` | internal/bufferedwrites/buffered_write_handler.go:127-142 | After any session the offsets in order are the size written and that of the last accepted truncate |
| `StreamFile.StaleWriteBreaksFile` | internal/bufferedwrites/buffered_write_handler.go:138-152 | A concrete accepted write that is not a `pwrite` |
| `StreamFile.RetryRepeatsPart` | internal/bufferedwrites/buffered_write_handler.go:155-186 | After a write got only a part of its data in, the same write is accepted again, appends that part twice, and the bytes exceed the reported size by it |
| `BufferedWriteHandlers.BufferedWriteHandler.Write` | internal/bufferedwrites/buffered_write_handler.go:132-153 | When it is refused and that the file is then unchanged; otherwise it acts as `StreamFile` says, a `pwrite` under the exact condition; out of memory leaves a proper part of the data appended, or at most some of the lazy zeros, and anything at all only if the append reaches past what is spare and the pool may map a block; the call joins the history; with nothing failing it is refused exactly after an upload error or out of order; as long as nothing was truncated, in order is exactly the end of the reference file |
| `BufferedWriteHandlers.BufferedWriteHandler.FileIsReference` | internal/bufferedwrites/buffered_write_handler.go:132-306 | In every valid state of the handler, as long as no append was cut short and no accepted write was stale, its file is what `pwrite` and `ftruncate` make of the calls so far |
| `BufferedWriteHandlers.BufferedWriteHandler.AppendBuffer` | internal/bufferedwrites/buffered_write_handler.go:155-186 | Splitting data over blocks appends exactly that data to the stream, or a proper prefix on error |
| `BufferedWriteHandlers.BufferedWriteHandler.WriteDataForTruncatedSize` | internal/bufferedwrites/buffered_write_handler.go:286-306 | Writing zeros in chunks appends exactly the missing zeros |
| `BufferedWriteHandlers.BufferedWriteHandler.Truncate` | internal/bufferedwrites/buffered_write_handler.go:265-272 | Refused below the size written; otherwise an `ftruncate` of the file |
| `BufferedWriteHandlers.BufferedWriteHandler.WriteFileInfo` | internal/bufferedwrites/buffered_write_handler.go:274-279 | The size is the length of the file as long as no append was cut short, and then that of the reference file |
| `BufferedWriteHandlers.BufferedWriteHandler.Sync` | internal/bufferedwrites/buffered_write_handler.go:188-223 | The file is unchanged and the answer exact: in a zonal bucket a failed flush of pending writes, then a size other than the one written, and everywhere an upload error; with no upload failing it succeeds unless a zonal flush fails or an append was cut short; on success all appended bytes are uploaded, no block is left and the handler holds its reserved permit and those lost to failed mappings |
| `BufferedWriteHandlers.BufferedWriteHandler.Flush` | internal/bufferedwrites/buffered_write_handler.go:226-259 | On success with no upload error, what is in GCS is exactly the file, and the reference file of all calls so far, lazy zeros included; if an append was cut short it is longer than the reported size by just those bytes; no block and no permit is left save those lost; with nothing pending before the call, success means complete; every success is a run that `UploadRuns.FlushIsComplete` speaks of; with nothing failing it succeeds exactly if no upload had failed and the upload can be finalized |
| `BufferedWriteHandlers.UploadPieces` | internal/bufferedwrites/buffered_write_handler.go:132-259 | If nothing fails, writing any pieces one after the other and flushing makes the object what was there followed by the pieces |
| `BufferedWriteHandlers.BufferedWriteHandler.Get` | internal/block/block_pool.go:100-121 | The wait for a block ends, with an empty block or, only if memory may run out, a mapping failure |
| `BufferedWriteHandlers.BufferedWriteHandler.Upload` | internal/bufferedwrites/upload_handler.go:88-101 | The send never blocks and keeps the pipeline's invariant |
| `BufferedWriteHandlers.BufferedWriteHandler.UploadBlock` | internal/bufferedwrites/upload_handler.go:147-177 | Copies the block's bytes or records the error; after an error it adds nothing |
| `BufferedWriteHandlers.BufferedWriteHandler.AwaitBlocksUpload` | internal/bufferedwrites/upload_handler.go:240-242 | The wait ends with the wait group at zero |
| `BufferedWriteHandlers.BufferedWriteHandler.ClearFreeBlocks` | internal/block/block_pool.go:181-204 | Unmaps exactly the free blocks and gives back exactly the permits no longer held, with the reservation if told to |
| `BufferedWriteHandlers.DrainedPoolGivesBack` | internal/block/block_pool.go:181-204 | Among any pools on the semaphore, clearing the pool of a drained handler leaves it one permit and closing it none, save those lost |
| `BufferedWriteHandlers.BufferedWriteHandler.constructor` | internal/bufferedwrites/buffered_write_handler.go:103-130 | A new handler stands for the existing object, or the empty file, and has not been truncated |
| `UploadProofs.GuardIsSafe` | internal/bufferedwrites/upload_handler.go:88-140 | In every reachable state the send has room, `Release` cannot panic, the wait group stays positive and a fill fits |
| `UploadProofs.NeverWedged` | internal/block/block_pool.go:100-121 | If no block can be reused or mapped, one is on its way through the uploader and the uploader can take a step |
| `UploadProofs.StepKeepsInv` | internal/bufferedwrites/upload_handler.go:131-177 | Every producer and uploader step keeps: one place per block, exact counts, and the stream equal to what is uploaded plus what is pending in order |
| `UploadProofs.CopyKeepsInv` | internal/bufferedwrites/upload_handler.go:147-177 | Copying the oldest pending block moves its bytes to the end of the upload |
| `UploadProofs.GrantedIsAlone` | internal/block/block_pool.go:100-121 | A block granted for filling is nowhere else in the pipeline |
| `UploadRuns.Execute` | internal/bufferedwrites/upload_handler.go:88-177 | The invariant holds after every interleaving of producer and uploader |
| `UploadRuns.WriterIsPrefix` | internal/bufferedwrites/upload_handler.go:147-177 | What the GCS writer has is a prefix of what was appended |
| `UploadRuns.DrainedIsComplete` | internal/bufferedwrites/upload_handler.go:240-242 | With no error and the wait over, only the block being filled is not uploaded |
| `UploadRuns.DrainedIsFree` | internal/bufferedwrites/buffered_write_handler.go:188-223 | With the wait over and nothing being filled every block is in the pool |
| `UploadRuns.ErrorIsSticky` | internal/bufferedwrites/upload_handler.go:147-177 | Over any run bytes are only added at the end, and after an error none are |
| `UploadRuns.FlushIsComplete` | internal/bufferedwrites/buffered_write_handler.go:226-259 | Every flush that passes its check for errors ends with all bytes uploaded, if and only if nothing was pending at the check: no byte appended but not uploaded and no zeros to add |
| `UploadRuns.FlushCanMissBytes` | internal/bufferedwrites/buffered_write_handler.go:226-259 | For any first write of up to one block, a run that gets through Flush with nothing uploaded |
| `UploadCuts.AppendCanBeCut` | internal/bufferedwrites/buffered_write_handler.go:155-186 | From any reachable state, for every append that reaches past what is spare while the pool may map a block, a run in which a proper part of it is in and the next block has to be mapped and cannot be |
| `UploadCuts.CutReachesPast` | internal/bufferedwrites/buffered_write_handler.go:155-186 | The converse: an append that ran out of memory with a part in reached past what was spare, and the pool could map a block |
| `SharedPools.GuardIsSafe` | internal/block/block_pool.go:168-204 | Releasing blocks and permits never panics, in any number of pools |
| `SharedPools.StepKeepsInv` | internal/block/block_pool.go:69-204 | Permits in use are exactly what the pools account for and never above the limit |
| `SharedPools.Execute` | internal/block/block_pool.go:69-204 | The same after any sequence of operations on any pools |
| `SharedPools.BlocksOutBalance` | internal/block/block_pool.go:100-174 | After any run the blocks of a pool that are not free are those handed out and not put back |
| `SharedPools.PermitsAreHeld` | internal/block/block_pool.go:151-165 | After any run, permits in use equal the sum of the larger of total and reserved over open pools, if and only if no mapping past a reservation failed in it and no closed pool has more blocks than it had reserved |
| `SharedPools.LossesAreFailures` | internal/block/block_pool.go:109-140 | Permits are lost in a run exactly if some call in it took a permit and failed to map the block |
| `SharedPools.FailedMappingLosesPermit` | internal/block/block_pool.go:127-148 | A run with one permit in use for a pool that has no block |
| `SharedPools.BlocksWithinLimit` | internal/block/block_pool.go:151-165 | Blocks across all pools exceed the limit by at most the blocks that closed pools left without a permit, less the permits lost |
| `SharedPools.OverrunIsPossible` | internal/block/block_pool.go:69-204 | By opening pools and getting blocks a run can exceed the limit, if and only if the blocks closed pools left without a permit outnumber the permits lost |
| `SharedPools.ClosedTooEarly` | internal/block/block_pool.go:181-204 | For every limit, a run from the start that exceeds it by one after a pool was closed with its block out |
| `SharedPools.ClearedPoolHolds` | internal/block/block_pool.go:181-204 | With all blocks back, clearing leaves the pool no block and its reservation, and closing it no permit |
| `BlockPools.ClearFree` | internal/block/block_pool.go:181-204 | What clearing leaves of a pool and how many permits it gives back |
| `GenBlockPools.GenBlockPool.New` | internal/block/block_pool.go:69-94 | Refuses a bad configuration, or exactly if the permits are not to be had, without side effects, and otherwise takes exactly what it holds |
| `GenBlockPools.GenBlockPool.CanAllocateBlock` | internal/block/block_pool.go:151-165 | A permit is taken exactly if the block is allowed and past the reservation |
| `GenBlockPools.GenBlockPool.TryGetBlock` | internal/block/block_pool.go:127-148 | Permits change by exactly what the pool holds more, unless mapping fails |
| `GenBlockPools.GenBlockPool.ClearFreeBlockChannel` | internal/block/block_pool.go:181-204 | Unmaps every free block and gives back exactly the permits the pool no longer holds |
| `Blocks.ReadsAreContiguous` | internal/block/block.go:68-86 | However the reads are cut up, they give the bytes once, in order, up to the end |
| `Blocks.EndIsReported` | internal/block/block.go:68-86 | The end is reported by exactly the reads that reach it or start there |
| `Blocks.SeekThenRead` | internal/block/block.go:97-116 | A seek succeeds exactly if it leads into the data or to its end, counted from start, position or end, and reads go on from there |
| `Blocks.WritesAppend` | internal/block/block.go:118-128 | Writes are all accepted if and only if they fit together, and then follow one another |
| `Blocks.WritesReadBack` | internal/block/block.go:53-128 | Reuse, any writes that fit and any reads that reach the end give back what was written |
| `Blocks.PlacedOnce` | internal/block/prefetch_block.go:178-190 | A block is given its start offset once, and again only after reuse |
| `MemoryBlocks.MemoryBlock.Write` | internal/block/block.go:118-128 | In the mapped array: appends or changes nothing |
| `MemoryBlocks.MemoryBlock.Read` | internal/block/block.go:68-86 | Fills the front of the caller's buffer, leaves the rest, moves the position, reports the end |
| `MemoryBlocks.MemoryBlock.Seek` | internal/block/block.go:97-116 | Moves the position to a place inside the data or changes nothing |
| `MemoryBlocks.MemoryBlock.Reuse` | internal/block/block.go:53-56 | The block is empty and its position at the start |
| `MemoryBlocks.PrefetchMemoryBlock.constructor` | internal/block/prefetch_block.go:112-131 | A new block is blank, unplaced and not notified |
| `MemoryBlocks.PrefetchMemoryBlock.Reuse` | internal/block/prefetch_block.go:102-109 | A reused block is as a new one |
| `MemoryBlocks.PrefetchMemoryBlock.ReadAtSlice` | internal/block/prefetch_block.go:157-169 | Bounds inside the data that hold the offset, short exactly at the end |
| `MemoryBlocks.PrefetchMemoryBlock.AwaitReady` | internal/block/prefetch_block.go:194-212 | Returns the outcome and leaves it for later waits, or gives up and changes nothing |
| `MemoryBlocks.PrefetchMemoryBlock.DecRef` | internal/block/prefetch_block.go:230-236 | One reference fewer, and whether it was the last |
| `InodeIndex.StepKeepsInv` | internal/fs/fs.go:408-486 | Every critical section keeps the documented invariants: IDs in range and keyed, the root ID missing or a directory, each index entry a live inode of that name and of the right kind, and every live implicit directory that is not unlinked indexed |
| `InodeIndex.MintKeepsInv` | internal/fs/fs.go:794-865 | An inode minted for a name that is absent, outdated or unlinked gets a new ID, breaks no entry and leaves no linked implicit directory without one |
| `InodeIndex.ForgetKeepsInv` | internal/fs/fs.go:1310-1336 | Removing an inode with its own entries breaks no other entry |
| `InodeIndex.KindIsBacking` | internal/fs/fs.go:794-865 | Which records become an explicit directory, an implicit one, a symlink or a file |
| `InodeRuns.Execute` | internal/fs/fs.go:408-486 | The invariants hold after any sequence of critical sections |
| `InodeRuns.IdsAreNeverReused` | internal/fs/fs.go:794-797 | Over any run inodes keep ID and name, and later ones get IDs never handed out before |
| `InodeRuns.EntryStaysUpToDate` | internal/fs/fs.go:435-437 | Over any run, while a name stays indexed its entry's generation never goes back: no up-to-date entry is replaced by a stale one |
| `InodeRuns.StepMovesEntry` | internal/fs/fs.go:874-1336 | For the table and each of the four indexes, exactly which steps give an inode its entry (minting, and promotion if the name has none) and which take it (a new inode of the name, its last forget, and among local files any flush or failure of the name) |
| `InodeRuns.IndexedIffGiven` | internal/fs/fs.go:408-486 | After any run an inode has an entry if and only if some step gave it one and no later step took it, in each index |
| `InodeRuns.OnlyOutdatedReplaced` | internal/fs/fs.go:874-1009 | A new inode takes the entry of an older generation or of an unlinked inode only |
| `InodeRuns.CountsBalance` | internal/fs/fs.go:1310-1346 | After any run the count of an inode is the number of its lookups less those forgotten, and one more for the root |
| `FileSystems.QuietLookupFindsCurrent` | internal/fs/fs.go:906-1011 | A lookup without interference gives nil exactly for an older record and then changes nothing; else the indexed inode, whose generation compares equal to the record's and is the same exactly if it is not of larger size, with its count raised by one; an entry is replaced only by a newer one |
| `FileSystems.QuietLookupLeavesOthers` | internal/fs/fs.go:906-1011 | Other names, other indexes and other inodes are left alone |
| `FileSystems.SameGeneration` | internal/fs/inode/inode.go:97-127 | When two generations count as equal, and that older one way is newer the other |
| `FileSystems.FileSystem.LookUpObject` | internal/fs/fs.go:946-1011 | The retry loop ends, within two rounds if left alone; whatever other threads do, it returns the indexed inode if that has the record's generation, and else, the record being older, nil or an inode it minted itself, which may have been replaced or destroyed |
| `FileSystems.RoundOutcome` | internal/fs/fs.go:950-1009 | How each round ends: with the result above, or with a minted entry that the next round finds current |
| `FileSystems.FileSystem.LookUpOrCreateInodeIfNotStale` | internal/fs/fs.go:917-1011 | The same for the whole lookup with its count; left alone it is as stated above |
| `FileSystems.FileSystem.CreateDirInode` | internal/fs/fs.go:874-904 | Whatever the index holds: the directory returned is the indexed one; it is given up only after three interruptions; left alone it is the existing one unless unlinked, else a new one |
| `FileSystems.InterruptedLookupCanReturnUnindexed` | internal/fs/fs.go:991-1009 | For any outdated entry and any two newer records: a first round mints, another thread replaces the entry, and a later round returns the first one's inode, which is not indexed |
| `FileSystems.InterruptedLookupCanReturnDestroyed` | internal/fs/fs.go:991-1009 | For any outdated entry and any two newer records: a first round mints, others look the inode up, forget it and index the newer record, and a later round returns an inode that is no longer live |
| `FileSystems.FileSystem.CreateLocalFile` | internal/fs/fs.go:1963-2014 | Whatever the index holds: finds a local file that is not unlinked or indexes a new one; if the record or the writer cannot be made no local file has the name, and what is returned then |
| `FileSystems.FileSystem.PromoteToGenerationBacked` | internal/fs/fs.go:1179-1185 | The name is no local file's any more and is indexed as backed, by this inode exactly if it had no entry, and otherwise as before |
| `FileSystems.FileSystem.FlushFile` | internal/fs/fs.go:1203-1226 | A successful flush leaves the name indexed as backed, by this inode unless another one holds it, and a failed one or that of an unlinked file leaves that index alone; unless it is unlinked no local file has the name any more, whoever held the entry; no other inode's entry in any other index changes |
| `FileSystems.FileSystem.constructor` | internal/fs/fs.go:239-244 | The root is live, under its ID, and indexed as an implicit directory and a folder |
| `FileSystems.FlushedIsFound` | internal/fs/fs.go:1179-1226 | A file that wrote a new generation and is promoted is what a lookup of that generation finds, without another inode |
| `InodeRuns.FlushTakesAnothersEntry` | internal/fs/fs.go:1179-1185 | For any name, a run after which a live local file that is not unlinked has no entry, since another inode of the name was flushed |
| `InodeRuns.ReplacedDirIsUnindexed` | internal/fs/fs.go:874-904 | A run after which a live implicit directory, unlinked and then replaced, has no entry |
| `FileSystems.FileSystem.UnlockAndDecrementLookupCount` | internal/fs/fs.go:1310-1346 | Destroyed exactly when the count reaches zero, and then no index and not the table leads to the inode; every entry of another inode stays in all indexes, and all entries unless it is the last forget; the count goes down by what is forgotten |
| `FileSystems.ForgottenIsUnreachable` | internal/fs/fs.go:1318-1336 | Forgetting the last lookup leaves no way to the inode |
| `FlagTree.CreateHierarchicalOptimizedFlags` | cfg/optimize.go:270-300 | Whatever the order of keys: succeeds if and only if no key's path is a proper prefix of another's; then each path leads to its value and nothing else is held; a reported key is both a path and a terminal key |
| `FlagTree.FindAfterAdd` | cfg/optimize.go:277-297 | Adding an entry in place changes what is found at its own path only |
| `FlagTree.JoinSplit` | cfg/optimize.go:274 | Joining the parts of a key gives the key back |
| `FlagTree.SplitJoin` | cfg/optimize.go:274-282 | Splitting joined parts gives the parts back |
| `Queues.LinkedListQueue.Push` | common/queue.go:69-79 | The sequence gets the value at its end; all nodes stay linked from start to end |
| `Queues.LinkedListQueue.Pop` | common/queue.go:83-97 | The first value comes off and the others stay |
| `Queues.LinkedListQueue.Peek` | common/queue.go:61-66 | The first value, nothing changed |
| `Queues.LinkedListQueue.IsEmpty` | common/queue.go:55-57 | True exactly for the empty sequence |
| `Queues.LinkedListQueue.Len` | common/queue.go:100-102 | The length of the sequence |

## Left out

- Memory mapping, contexts, logging, metrics and tracing: whether a block can be mapped, a
  permit is granted, a download or upload fails, a wait is cancelled or reads are sequential is
  an arbitrary choice in the model, within what the parameters allow.
- Pointers to blocks and inodes: blocks, queue entries and inodes are kept in a sequence and
  named by their index, so aliasing is by index; the nested flag maps are kept in an arena the
  same way, and the semaphore's waiting `Acquire` is not modelled.
- Integer widths: sizes and offsets are unbounded, and the `float64` minima and maxima of the
  write handler are integer ones, which is exact below 2^53.
- Creation of the GCS writer and unmapping of memory are taken to succeed; a failed writer
  creation would leave the wait group raised.
- BufferedReaders.BufferedReader.ReadAt: whether the read counts as sequential is a parameter.
- BufferedReaders.BufferedReader.DropHead: waits for the download before the pop and not after it; under the
  reader's mutex no other step can tell the two apart.
- The ten-second timeout in the reader's `Destroy` and callbacks that run after it: wall-clock behaviour.
- BufferedWriteHandlers.BufferedWriteHandler.Flush: one successful flush ends the use of a handler; a second one, or a write
  after the upload channel is closed, is outside its contract, as are `CancelUpload` and `Destroy`.
- BufferedWriteHandlers.BufferedWriteHandler.Get: whether the semaphore has a permit left is an arbitrary choice here; it is exact in `SharedPools`.
- FileSystems.FileSystem.LookUpObject: other threads may run anything while the lock is dropped, a finite
  number of times; without a bound the loop need not end.
- InodeRuns.EntryStaysUpToDate: the comparison of a record and the replacement of the entry are one step, and an object that an
  inode wrote is taken to be newer than the one before, as GCS promises.
- FileSystems.FileSystem.UnlockAndDecrementLookupCount: count and index change in one step, since the inode's lock is held throughout.
- FileSystems.FileSystem.CreateLocalFile: the mutex itself is not modelled, so neither is its being left locked when the
  parent cannot make the record and no local file has the name.
- The rest of `internal/fs`, `internal/gcsx`, `cfg`, `cmd` and the caches: FUSE operations, storage
  wrappers and configuration checks would add branch-by-branch members only.
