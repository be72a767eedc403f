# NLog: a verified model of its handlers, formatter and loggers

NLog is a Go logging library. This project models the parts of it that keep state
and must agree with something simpler, and proves that they do.

**The asynchronous handlers** (`AsyncQueue` to `AsyncHandler`). Any number of threads
log to any number of handlers; entries come from one shared pool, pass through a
bounded channel with one of three overflow policies, and are written by one consumer
that Close waits for. `AsyncQueue` is the protocol as a machine: every `select`, every
write, every pool operation and every call on the handler's one block timer (Stop, the
drain, Reset) is a step of its own, a queue holds addresses as the channel holds
references, and a send on a closed channel panics. The timer is off, running or has
ticked; when a running timer ticks and when the drain deadline passes is open.
`AsyncEffects` says what a step can do to one handler.
The laws over all runs are ownership (`AsyncOwnership`), order (`AsyncOrder`),
conservation (`AsyncConservation`), what each counter counts and which policy allows it
(`AsyncCounters`), where entries go and where calls panic (`AsyncReturns`), which way the
consumer handles entries (`AsyncBatches`), shutdown
(`AsyncShutdown`), who can be left waiting for the timer (`AsyncTimer`), what DropOldest
keeps (`AsyncDropOldest`), and a simulation of the batching consumer by the
entry-at-a-time one (`AsyncRefinement`).
`AsyncLimits` and `AsyncTimerRuns` hold runs, stage by stage (`AsyncRuns`), that reach
the states where something goes wrong. `AsyncFile` puts the consumer on top of the file
handler: what a quiet Close leaves in the files. `AsyncHandler` holds Handle, process and Close
in the shape of the source, with loops and branches, as methods whose every action is
a step of the machine, between arbitrary steps of everybody else.

**The console write paths** (`WriteLocks` to `WriteLockRuns`): TryLock, the pooled
fallback, the blocking consumer and the two locks of `handler/console.go`, and the
single lock of `handler/consolehandler`, as a machine in which every lock operation,
every store into the shared entry, every append to the shared buffer and every piece
a Write passes on is a step. A WriterFormatter takes the writer's lock for each Write.

**The file handler** (`FileSystem` to `SyncFile`): the buffered writer over the
size-tracking writer, the three write paths, rotation, pruning and Close, as classes
over an abstract disk on which any operation may fail, a write after any part of it.
`Rotation` says what a write does to the log as a whole (segments, current text, time
of the last rotation), and the methods are proved against it; every error has its own
clause about where the text is. What a backup is named after is an arbitrary function
of the time. `Backups` and `Retention` are about what is on the disk; `FileRecords` is
about the lines a reader finds; `FileRuns` has runs that lose bytes without an error.

**The JSON formatter** (`JsonFormatter` to `BatchFraming`): the encoder as methods on a
buffer, with the flush loop of the escaper; a reader for the grammar of objects,
numbers and strings (RFC 8259, sections 4, 6 and 7); and the proof that the reader
gives back the entry, and a batch its lines. `LoggerFields` has the constructors of
fields: what a caller puts in is what the reader gets out.

**Entries and loggers** (`EntryPool`, `SyncConsole`, `LoggerSlices`): pooled entries and
buffers are reused without anybody noticing, and loggers keep their fields although
they share arrays with their builder.

`Core` and `Policy` hold the values and counters all of these share.

## Results about the code

- *A blocked caller can be left waiting.* The callers that wait for room under the Block
  policy share one timer: each stops and resets it before it waits, and stops it again
  after its send or once it has seen `closed`. A caller that waits with the queue full,
  the handler open and the timer off goes on waiting until Close is called, an entry
  leaves the queue or a new caller resets the timer, and for nothing else
  (`AsyncTimer.StrandedStep`, both directions; `AsyncTimer.StrandedForGood`). When the
  consumer has stopped after a write error, two waiting callers are enough
  (`AsyncTimerRuns.SecondCallerStranded`), and even a caller that waits alone can lose
  its tick to one that has sent its entry and stops the timer late
  (`AsyncTimerRuns.WaitsAloneStranded`). Nobody is stranded while no two calls that
  found the queue full overlap, from there to their last call on the timer, and in
  particular while no two calls of Handle overlap (`AsyncTimer.AloneIsTimed`,
  `AsyncTimer.ApartIsTimed`).
- *A failed rename is survived.* After it the buffered writer is still on the closed
  file. Its buffer is empty then, and the rotation stays due until it succeeds, so the
  next write tries it again and nothing is written to the closed file; when the rename
  succeeds the handler is in order again (`FileHandler.FileBase.Stalled`,
  `FileHandler.FileBase.WriteLine`). A failed close, reopen or open leaves a handler
  that reports an error from every later write (`Dead`), and its text in the log file,
  or in the backup just made if the open failed (`FileHandler.FileBase.Salvaged`).
- *Two rotations can lose a backup.* The name is local wall-clock time in whole seconds,
  which repeats within a second, when the clocks go back and when the wall clock is
  set. A rotation without pruning leaves the readable bytes as they were if and only if
  no backup with content that is still there has the same name
  (`FileHandler.FileBase.Rotate`, `Retention.RenameLosesNothing`); a run in which one is
  lost is `FileRuns.SameNameLoses`, for any two moments with one name.
- *A formatter's error can make rotation late.* When FormatTo fails after it has written
  something, its bytes stay in the log but are not added to the size. A size that was
  right stays right if and only if the call succeeds or the formatter has written
  nothing (`FileHandler.FileBase.WritePieces`); `FileRuns.FormatErrorDelaysRotation`.
- *Lines can interleave.* FormatTo takes the writer's lock for each Write. Every Write is
  whole in the output (`WriteLockLaws.WholePieces`); every line is when each call is one
  Write, as the comments of the source expect of formatters (`WriteLockLaws.WholeLines`);
  with two Writes it need not be (`WriteLockRuns.PiecesInterleave`).
- *A write after Close can be lost without an error.* It is accepted and counted if and
  only if no rotation is due and the line fits into what is left of the 4096-byte buffer
  (`FileHandler.FileBase.WriteLine`, in `Took`); nothing will flush that buffer
  (`FileRuns.LostAfterClose`). A caller that falls back to a synchronous write may get
  there after Close has returned (`AsyncTimerRuns.FallbackAfterClose`).
- *The counters can miscount.* "Handled = in callers + queued + held + processed +
  failed + dropped" is kept by every step except two kinds of eviction: one that reads
  nil from a channel already closed and empty, and one on behalf of a level above
  ErrorLevel (`AsyncLimits.AgreementKept`, both directions). A call that overlaps Close
  reaches the first (`AsyncLimits.OverlappingCloseMiscounts`), two entries at FatalLevel
  reach the second, with a panic (`AsyncLimits.FatalEvictionMiscounts`).
- *Not every record is JSON.* A field that is an infinity or not a number is printed as
  a bare word; the record is an object if and only if no field is one
  (`JsonRecord.RecordIsObject`).
- *A builder must not be copied by value.* An append through any slice leaves what
  another slice shows unchanged if and only if that slice is on another array, there is
  no room, it ends within the first, or it shows the added fields already
  (`LoggerSlices.Append`, both directions); the append through a copied builder changes
  a logger's field (`LoggerSlices.CopiedBuilderOverwrites`).
- A comment in `handler/console.go` (lines 367-369) says that processWrite's lock always
  succeeds immediately. The synchronous fallback of the Block policy takes the same
  lock, so the model lets the consumer wait for it.
- `handler/file.go` marks a handler closed only in asynchronous mode: a second Close of
  a synchronous one gets as far as Sync on a closed file and returns its error
  (`FileHandler.FileBase.CloseFile` on a handler that is shut). The handlers of
  `handler/filehandler` return nil (`FileHandler.FileBase.Close`).

## Assumptions

Callers are asked for what the code itself needs: time does not go backwards (Go's
monotonic clock), the timestamp layout yields no quote, backslash or control byte, the
writer of a console handler with write locking does not call back into the handler,
and Close is not called twice at the same time. Nothing is assumed of the scheduler. The
timer is that of Go 1.23 and later, where Stop and Reset discard a tick that nobody has
received (`go.mod` asks for 1.24). A running timer may tick at any moment; only the methods of `AsyncHandler` assume that it
does so in the end. A WriterFormatter stops at the first Write that fails. Of the disk
it is assumed that a failed open, rename or remove changes nothing, that a failed close
closes the file all the same, that a failed write has put a front of its bytes, perhaps
none, into the file, and that modification times do not go backwards.

## Model

| member | source | states |
|---|---|---|
| AsyncOwnership.SingleOwner | handler/consolehandler/console_async.go:87-227 | in every reachable state an entry is in at most one of pool, thread, queue slot and consumer |
| AsyncOwnership.NeverPutTwice | core/entry.go:88-99 | PutEntry is never applied to an entry already in the pool, on any overflow, error, fallback or drain path |
| AsyncOwnership.AddressesAreEntries | core/entry.go:78-85 | every address a thread, queue or consumer holds is that of an entry |
| AsyncOwnership.OwnedStep | logger/logger.go:135-193 | each step moves exactly the ownership it should: handing over, enqueueing, evicting, receiving, recycling, abandoning on error |
| AsyncEffects.StepEffect | handler/consolehandler/console_async.go:87-246 | a step changes one handler, by one of the listed effects, and no other |
| AsyncEffects.CallShape | handler/consolehandler/console_async.go:94-170 | a call keeps its entry until the handler has taken it over: enqueued, dropped, or written by the fallback |
| AsyncOrder.EnqueueHistory | handler/consolehandler/console_async.go:94-227 | everything ever enqueued is what left the queue followed by what is in it |
| AsyncOrder.WrittenInOrder | handler/consolehandler/console_async.go:179-227 | the consumer's output is a subsequence of enqueue order and keeps every thread's own order of calls |
| AsyncConservation.ConservationOfRecords | handler/consolehandler/console_async.go:87-246 | whichever records one counts, those handed to Handle are those in callers, queued, held, written, failed, evicted, dropped or written by the fallback |
| AsyncConservation.ConservationOfCounters | handler/policy.go:78-106 | the same over the counters, with the two ways they can differ made explicit |
| AsyncConservation.AccountedRun | handler/consolehandler/console_async.go:179-246 | the flags, the consumer's phase and Close go together in every reachable state |
| AsyncCounters.DropsByLevel | handler/consolehandler/console_async.go:134-167 | in every reachable state each level's counter is the number of its records dropped on arrival, plus under DropOldest the evictions made for its arrivals; evictions are made for no other level |
| AsyncCounters.PoliciesObeyed | handler/consolehandler/console_async.go:87-170 | a record is dropped only at a level not configured to block, written by the fallback only at one that is, and evictions are made only for levels configured to drop the oldest; a level not configured only drops its newest |
| AsyncCounters.BlockedCountsTimeouts | handler/consolehandler/console_async.go:116-119 | the blocked counter is the number of timeouts in the run |
| AsyncReturns.InCirculation | core/entry.go:78-99 | an entry that is pooled or that somebody has stays so through a step unless it is a dropped arrival, the one evicted, one a fallback wrote, one whose own write failed, or the pool discards it; only a new call brings one in |
| AsyncReturns.PanicsExactly | handler/policy.go:77-91 | a call panics exactly when it sends on the closed queue, or when a drop is to be counted at a level without a counter |
| AsyncBatches.BatchesCountAll | handler/console.go:401-431 | a batching consumer on an open handler never handles an entry by itself, and between batches, after a failed one too, everything it took is counted |
| AsyncBatches.SinglesCountWritten | handler/consolehandler/console_async.go:179-205 | the other consumer never batches, and between entries everything it took is counted but the one entry whose write failed, after which it has returned |
| AsyncLimits.AgreementKept | handler/consolehandler/console_async.go:134-155 | the counters' law survives a step if and only if it is not an eviction from a closed, empty queue or at a level that cannot be counted |
| AsyncLimits.OverlappingCloseMiscounts | handler/consolehandler/console_async.go:230-246 | a run in which a call overlaps Close and one drop too many is counted |
| AsyncLimits.FatalEvictionMiscounts | handler/consolehandler/console_async.go:134-147 | a run in which an eviction at FatalLevel panics with the entry gone and no drop counted |
| AsyncTimer.TimerGoesOff | handler/consolehandler/console_async.go:100-131 | a timer that is on goes off exactly when a waiting caller takes its tick, or any call on the handler stops it or drains its tick; it runs from a Reset to its tick |
| AsyncTimer.DrainsIfOff | handler/consolehandler/console_async.go:102-107 | Stop is followed by the drain exactly if it found the timer off |
| AsyncTimer.StrandedStep | handler/consolehandler/console_async.go:95-132 | a caller without a tick stays so through a step if and only if the step is neither Close, nor a removal from the queue, nor another caller's reset |
| AsyncTimer.StrandedForGood | handler/consolehandler/console_async.go:95-132 | without such a step, over any run, it has no step to take and does not return |
| AsyncTimer.AloneIsTimed | handler/consolehandler/console_async.go:95-132 | in runs where no two calls that found the queue full overlap, up to their last call on the timer, nobody is left without a tick |
| AsyncTimer.ApartIsTimed | handler/consolehandler/console_async.go:87-132 | the same when no two calls of Handle overlap |
| AsyncTimerRuns.SecondCallerStranded | handler/consolehandler/console_async.go:95-132 | a run in which the consumer has stopped, two callers wait, and one takes the only tick |
| AsyncTimerRuns.WaitsAloneStranded | handler/consolehandler/console_async.go:108-115 | a run in which no two callers ever wait together and one is stranded, by a Stop that comes late |
| AsyncTimerRuns.FallbackAfterClose | handler/filehandler/file_async.go:95-103 | a run in which a synchronous fallback write comes after Close has returned |
| AsyncShutdown.ConsumerBounded | handler/filehandler/file_async.go:152-200 | while nothing is enqueued the consumer takes at most Measure steps, in the batch loop and the drain loop too |
| AsyncShutdown.CloseProgresses | handler/filehandler/file_async.go:203-219 | after Close has begun, the consumer can always step until it has returned, and then Close can |
| AsyncShutdown.QuietClose | handler/consolehandler/console_async.go:230-246 | with all producers done, no failed write and no deadline, Close leaves an empty queue, and processed plus dropped is the number handled |
| AsyncShutdown.CloseTwice | handler/consolehandler/console_async.go:230-246 | once a Close has begun any other changes nothing, and once it has ended the consumer never acts again |
| AsyncDropOldest.KeepsNewest | handler/consolehandler/console_async.go:134-155 | with one producer, between calls the queue is exactly the last k submissions, all were enqueued, and the retry never finds the queue full |
| AsyncDropOldest.QueueIsNewest | handler/consolehandler/console_async.go:94-170 | the queue is the end of the enqueue history |
| AsyncRefinement.BatchingRefines | handler/console.go:393-473 | every run of the batching consumer without failed batch writes is a run of the entry-at-a-time consumer ending in the corresponding state |
| AsyncRefinement.StepUnbatched | handler/console.go:404-431 | step by step: formatting corresponds to writing, the batch write to nothing |
| AsyncRefinement.SettledOutput | handler/console.go:405-431 | between batches the output is exactly the entries taken, as submitted, though each was recycled before its batch was written |
| AsyncHandler.World.Handle | handler/consolehandler/console_async.go:87-170 | a call takes at most eight actions of its own, five of them on the timer, and reports an error exactly when its synchronous write failed; it is over then, or waits for room with its tick gone and nobody left to act |
| AsyncHandler.World.BlockOrFallBack | handler/consolehandler/console_async.go:95-132 | Stop, drain and Reset, then the select of send, the shared timer and closed: one send and Stop, or the fallback write, or stranded with nobody left to act |
| AsyncHandler.World.EvictAndRetry | handler/consolehandler/console_async.go:134-155 | one eviction and one retry |
| AsyncHandler.World.DrainEntries | handler/consolehandler/console_async.go:206-223 | the inner loops end: back in the outer select, or returned |
| AsyncHandler.World.CollectAndWrite | handler/console.go:405-431 | the batch loop ends in one write |
| AsyncHandler.World.Process | handler/filehandler/file_async.go:152-200 | process ends only by returning, or waits on an empty queue that nobody will fill or close |
| AsyncHandler.World.Close | handler/consolehandler/console_async.go:230-246 | Close closes the queue only after the consumer has returned, and does nothing the second time |
| Policy.IncrementDropped | handler/policy.go:78-91 | one drop more for this level and for no other, nothing else changed |
| Policy.Counters.CountDropped | handler/policy.go:78-91 | the counter of the level, or no counter where the source panics |
| WriteLockLaws.MutualExclusion | handler/console.go:148-228 | at most one thread is inside the writer |
| WriteLockLaws.SharedByHolder | handler/console.go:150-167 | only the holder of mu changes syncEntry or syncBuf, or writes syncBuf out |
| WriteLockLaws.TriesForMu | handler/console.go:148-196 | HandleLog and Handle take mu at their start exactly when TryLock succeeds on a free mutex; no other call does |
| WriteLockLaws.SharedUnderMu | handler/console.go:325-385 | a call writes from the handler's buffer exactly when it got mu by TryLock or is the consumer's; only HandleLog fills the shared entry and formats from it |
| WriteLockLaws.WritesOwnLine | handler/consolehandler/console_sync.go:62-126 | what a thread writes is head and fields of the entry its call was made with, or with FormatTo the next of this entry's pieces |
| WriteLockLaws.NoDeadlock | handler/console.go:47-50 | while a call is under way, some call can step |
| WriteLockLaws.CallsFinish | handler/console.go:325-385 | without new calls a run is bounded, and where it can go no further all threads are idle |
| WriteLockLaws.WholePieces | handler/consolehandler/console.go:15-29 | the output is the Writes in order; each thread's Writes are, call by call, head and fields of the entry or the pieces FormatTo makes of it, whole unless the Write failed, none missing before a failure; the counter is the number of successful calls and of the entries of all batches |
| WriteLockLaws.WholeLines | handler/consolehandler/console.go:60-146 | when each call is one Write: one per call, each thread's calls in order, with head and fields of the entry the call was made with, or a part of them if it failed |
| WriteLockRuns.PiecesInterleave | handler/consolehandler/console.go:24-29 | a run in which a formatter writes two pieces and another call's line comes in between |
| BufferedFile.SizeTrackingWriter.Write | handler/filehandler/file.go:26-30 | the counter grows by what reached the file, of a failed write too |
| BufferedFile.BufWriter.Flush | handler/filehandler/file.go:154-156 | the text, file and buffer together, stays the same, after an error too; an error is kept for good |
| BufferedFile.BufWriter.Write | handler/filehandler/file.go:72-76 | the text grows by p, or after an error by the part taken, over any number of internal flushes or direct writes; only this file changes |
| FileHandler.FileBase.constructor | handler/filehandler/file.go:313-340 | the handler starts in order, with the file's size |
| FileHandler.FileBase.RotateIfNeeded | handler/filehandler/file.go:122-149 | a rotation happens exactly when size, age or interval asks for it |
| FileHandler.FileBase.Release | handler/filehandler/file.go:153-162 | flush, sync and close: which state each error leaves, and where the text is then |
| FileHandler.FileBase.MoveAside | handler/filehandler/file.go:164-176 | the text becomes the newest backup; the segments that go are those with its name, and no others |
| FileHandler.FileBase.Reopen | handler/filehandler/file.go:168-176 | a failed rename leaves the text in place and the log file open |
| FileHandler.FileBase.Rotate | handler/filehandler/file.go:152-196 | the text becomes a segment and the log starts afresh; after each error the text is in the file and buffer, in the log file, or in the backup just made; without pruning the readable bytes stay the same if and only if the backup name is fresh |
| FileHandler.FileBase.CleanupOldBackups | handler/filehandler/file.go:199-238 | as many files go as exceed the limit, none newer than one that stays |
| FileHandler.FileBase.CommitLine | handler/filehandler/file.go:70-78 | the line is the end of the text and the size is right, or the writer has failed for good with a part of the line at most |
| FileHandler.FileBase.WriteLine | handler/filehandler/file.go:60-79 | no error: the log has taken the line, after a rotation if one was due; error: where the text is then; on a closed handler a line is accepted and lost if and only if no rotation is due and it fits the buffer |
| FileHandler.FileBase.WritePieces | handler/filehandler/file.go:81-98 | the same when the formatter writes in pieces: flushed plus buffered difference is the length written; after an error of its own the log has what it wrote, and the size stays right if and only if that is nothing |
| FileHandler.FileBase.WriteFormatted | handler/filehandler/file.go:100-119 | the same for Format, whose failure changes nothing |
| FileHandler.FileBase.WriteBatch | handler/file.go:540-553 | the same for a batch, counted whether or not it is written |
| FileHandler.FileBase.Process | handler/filehandler/file_async.go:163-176 | the log is the run of the entries written before the first error; with none, distinct names and no limit, what can be read back is what the log held and every entry |
| AsyncFile.QuietFile | handler/filehandler/file_async.go:152-219 | after a quiet Close with no error, no fallback, no limit and distinct names, the backups in order and the log file hold the log as it was and then every record taken from the queue, in queue order |
| AsyncFile.WriteAndClose | handler/filehandler/file.go:246-265 | process and closeFile with no error leave everything written in the files |
| FileHandler.FileBase.CloseFile | handler/filehandler/file.go:246-265 | the file is closed in any case; the buffer is empty and everything in the file, or the flush failed and the rest is in the buffer |
| FileHandler.FileBase.Close | handler/filehandler/file_sync.go:89-97 | Close once; a second Close changes nothing and returns nil |
| FileHandler.FileBase.BytesOnDisk | handler/filehandler/file.go:152-196 | with distinct names and no limit, what is read from the backups in order, log file and buffer are all the bytes of the log |
| FileHandler.FileBase.Survivors | handler/filehandler/file.go:199-238 | the backups on disk are the newest segments, min(count, limit) of them, each with its bytes |
| Rotation.RunConserves | handler/filehandler/file.go:122-196 | over any run, segments and current text are the initial content and every byte written, in order |
| Rotation.RunGroups | handler/filehandler/file.go:122-149 | no write is split across files, and a write goes into the file of the one before it exactly while that is smaller than maxSize and was started less than maxAge and less than rotateInterval ago, and else into a new one, over any run and any times |
| Rotation.RotationsBounded | handler/filehandler/file.go:129-132 | at most (initial size + bytes written) / maxSize rotations |
| Retention.RenameLosesNothing | handler/filehandler/file.go:164-168 | on any directory the rename keeps all bytes readable if and only if no backup with content that is still there has the same name |
| FileRuns.SameNameLoses | handler/filehandler/file.go:165-168 | two rotations of a handler at any two moments with one name, without an error, and one backup lost |
| FileRuns.FormatErrorDelaysRotation | handler/filehandler/file.go:81-98 | a formatter fails after a piece, and the next write comes before the rotation that is due |
| FileRuns.LostAfterClose | handler/filehandler/file.go:60-79 | a line is accepted and counted after Close if and only if it has at most 4096 bytes, and is in no file |
| Backups.DoomedAreOldest | handler/filehandler/file.go:218-237 | the first of the files sorted by time are the oldest, as many as exceed the limit |
| Backups.NewestSpared | handler/filehandler/file.go:218-237 | the strictly newest backup is never picked |
| Backups.SortSorts | handler/filehandler/file.go:219-226 | the order of modification times |
| Retention.KeptRename | handler/filehandler/file.go:168-176 | after a rename every segment neither overwritten nor removed is on disk with its bytes |
| Retention.PruneRetains | handler/filehandler/file.go:229-237 | if the newest segments were on disk, the newest are there after the pruning |
| FileRecords.LinesSurvive | handler/filehandler/file.go:122-196 | every file consists of whole lines, each segment too; read in order they are all the lines written, none lost, repeated or cut |
| FileRecords.RecordsSurvive | handler/file.go:516-553 | the same for batches of formatted entries |
| SyncFile.SyncFileHandler.Handle | handler/filehandler/file.go:60-119 | the three formatter paths do the same to the log |
| SyncFile.SyncFileHandler.HandleLog | handler/filehandler/file_sync.go:31-76 | the direct path and the pooled path log the same record |
| JsonFormatter.AppendJSONString | formatter/json.go:98-131 | the flush loop appends the byte-by-byte escape |
| JsonFormatter.FormatJSONToBuffer | formatter/json.go:54-95 | one record is appended to the buffer |
| JsonRoundTrip.ReadEscaped | formatter/json.go:98-131 | an escaped string is read back up to its closing quote, whatever follows |
| JsonRoundTrip.EscapeInjective | formatter/json.go:98-131 | different strings have different escapes |
| JsonRoundTrip.ReadsInt | formatter/json.go:142-143 | every int64 text is read back, negative and minimal ones too |
| JsonRoundTrip.FieldReads | formatter/json.go:136-163 | every field value is read back; a number that is not finite is refused |
| LoggerFields.AnyReads | logger/field.go:58-88 | a value of any type given to Any is read back as this value, a float that is no number is refused |
| LoggerFields.TypedReads | logger/field.go:12-56 | the same for the typed constructors |
| LoggerFields.SamePrintSameEntry | formatter/json.go:54-163 | entries whose records are the same text agree in time, level, message, caller and every field's key and value, text of Any fields included |
| LoggerFields.LevelParsed | logger/level.go:22-39 | the printed name of a level is parsed as this level |
| JsonRecord.RoundTrip | formatter/json.go:54-95 | a record is read back as exactly the members time, level, message, optional caller, fields, in order |
| JsonRecord.NotRead | formatter/json.go:144-145 | a record with a number that is not finite is no JSON text |
| JsonRecord.RecordIsObject | formatter/json.go:54-95 | a record is an object with these members if and only if its floats are finite |
| BatchFraming.EscapeClean | formatter/json.go:98-131 | no byte below 0x20 in an escaped string |
| BatchFraming.RecordIsLine | formatter/json.go:54-95 | a record contains one newline, its last byte |
| BatchFraming.SplitBatch | handler/console.go:405-428 | lines written one after the other are found again, in order |
| BatchFraming.BatchSplits | handler/console.go:405-428 | a batch of records splits back into them |
| BatchFraming.FormatBatch | handler/console.go:407-421 | the batch loop leaves the records' concatenation in batchBuf |
| EntryPool.Pool.Get | core/entry.go:78-85 | an entry with no fields and no caller, out of the pool or new |
| EntryPool.Pool.Put | core/entry.go:88-99 | the entry is clean again, whatever it held |
| EntryPool.LogEntry.Refill | handler/consolehandler/console_sync.go:64-75 | an entry used again holds this call's data only |
| EntryPool.PrintedRender | formatter/json.go:73-84 | what is left in an undefined caller is never printed |
| SyncConsole.SyncConsoleHandler.HandleLog | handler/consolehandler/console_sync.go:61-143 | by whichever path, the writer is offered the record of this call as if every object were new, and it is counted if and only if the writer takes it |
| SyncConsole.SyncConsoleHandler.Handle | handler/consolehandler/console.go:60-128 | the entry's record is offered to the writer once and counted if and only if the writer takes it |
| SyncConsole.Logger.Log | logger/logger.go:125-193 | below the level or with no handler nothing; otherwise the record with the logger's fields, the call's fields and this call's caller or none; the pool gets its entry back by the fast path, or when the handler allows it and the write succeeded |
| LoggerSlices.Append | logger/logger.go:69 | append in place or into a new array; any other slice shows the same as before if and only if it is on another array or does not notice |
| LoggerSlices.Builder.WithFields | logger/logger.go:68-71 | no logger made earlier sees a change |
| LoggerSlices.Builder.Build | logger/logger.go:90-104 | the logger shows what was added so far |
| LoggerSlices.Builder.With | logger/logger.go:107-122 | the new logger shows its parent's fields and the added ones; nobody else changes |
| LoggerSlices.CopiedBuilderOverwrites | logger/logger.go:27-37 | a builder copied by value overwrites a logger's field |

## Left out

- The operating system: files, handles and modification times are those of an abstract disk. Errors of Stat and Glob are left out.
- Time: no bound on waiting is stated. When a running block timer ticks and when the drain deadline passes are free choices.
- Counters are unbounded; the source's are uint64 and int64.
- Bytes are modelled as characters; the reader knows no arrays, no `\u` escapes above 007f and no UTF-8 validation, none of which the encoder produces.
- Float, time and Any values are given as the text the standard library prints, a float as sign and digits.
- The asynchronous protocol and the locks are machines over values; of the handlers' fields only queue, flags, timer, counters and phases are in them. A batch or entry write is one step there; how it reaches a file is the file handler's part.
- In the sequential models of the synchronous handlers (`SyncConsole`, `SyncFile`) fields are sequences: that a reused entry keeps its array is not visible. Whether TryLock succeeds is an argument. What concurrent callers do to the shared entry and buffer is in `WriteLocks`.
- Handlers whose writer is safe for concurrent calls, which skip the lock, are not in `WriteLocks`.
- SyncConsole.Logger.Log: the logger's handler is a synchronous console handler or none; what a call hands to an asynchronous one is in `AsyncQueue`.
- AsyncHandler.World.Close: the closing of the file and the error it returns are in `FileHandler.FileBase.Close`.
- AsyncFile.QuietFile: the steps of the consumer and of the file handler are put one after the other, not interleaved; synchronous fallback writes are excluded.
- A counter changes in the same step as what it counts; between the two the source shows a total that is one behind.
- AsyncDropOldest.KeepsNewest: one producer only; with several the retry can find the queue full again.
- AsyncRefinement.BatchingRefines: runs in which a batch write fails are not compared, since the batching consumer has recycled and counted those entries already.
- FileHandler.FileBase.Survivors: nothing else may match the backup pattern, and names and modification times are distinct.
- AsyncCounters.DropsByLevel: under DropOldest the code counts the level of the arriving entry, so the counters do not say at which level records were lost.
- Two overlapping Close calls: the second may close the queue again, which the code does not guard against.
- MultiHandler, the slog adapter, the text formatter, caller lookup, the coarse clock, and Fatal and Panic after the log call.
