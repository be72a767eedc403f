/**
 The asynchronous file handler end to end: the queue's consumer on top of the file
 handler. What the machine's consumer has written, in the order it wrote it, is what
 the file handler's process takes; then Close closes the file.
 */
module AsyncFile {
  import opened Core
  import opened FileSystem
  import opened Rotation
  import opened Retention
  import opened FileHandler
  import AsyncQueue
  import opened AsyncOrder
  import AsyncConservation
  import opened AsyncShutdown

  type Record = AsyncQueue.Record

  /** The records as they are written: each as the formatter prints it, at its moment. */
  function Lines(render: Record -> string, records: seq<Record>, times: seq<int>): seq<Rotation.Call>
    requires |times| == |records|
  {
    seq(|records|, i requires 0 <= i < |records| => Rotation.Call(render(records[i]), times[i]))
  }

  function Printed(render: Record -> string, records: seq<Record>): string {
    if records == [] then "" else Printed(render, records[..|records| - 1]) + render(records[|records| - 1])
  }

  lemma {:induction false} LinesPrinted(render: Record -> string, records: seq<Record>, times: seq<int>)
    requires |times| == |records|
    ensures CallBytes(Lines(render, records, times)) == Printed(render, records)
  {
    if records != [] {
      var n := |records| - 1;
      LinesPrinted(render, records[..n], times[..n]);
      assert Lines(render, records, times)[..n] == Lines(render, records[..n], times[..n]);
    }
  }

  /** The backups in rotation order and the log file hold the text. */
  ghost predicate FilesHold(base: FileBase, text: string)
    reads base, base.disk
  {
    && base.disk.Valid() && Active in base.disk.names
    && ReadBackups(TreeOf(base.disk), base.segments, base.gone) + base.FileText() == text
  }

  /** closeFile: with no error what was in the buffer is in the log file. */
  method CloseFiles(base: FileBase) returns (err: Option<Error>)
    requires base.Working()
    modifies base.sink`written, base.bufWriter, base.disk
    ensures err.None? ==> base.Shut() && base.bufWriter.buffered == "" && FilesHold(base, old(base.OnDisk()))
    ensures old(base.Healthy()) && base.disk.Reliable() ==> err.None?
  {
    hide Kept, FileBase.Pruned, ReadBackups, SurvivingBytes, FileBase.RotationDue;
    base.DiskReads();
    err := base.CloseFile();
    if err.None? {
      base.DiskReads();
      assert base.Text() == base.FileText() + "" == base.FileText();
      assert base.OnDisk() == old(base.OnDisk());
    }
  }

  /** process and closeFile: with no error everything is in the files. */
  method WriteAndClose(base: FileBase, lines: seq<Rotation.Call>) returns (err: Option<Error>)
    requires base.Working()
    requires forall i | 0 <= i < |lines| :: base.disk.clock <= lines[i].now
    requires forall i, j | 0 <= i < j < |lines| :: lines[i].now <= lines[j].now
    modifies base, base.counters, base.sink, base.bufWriter, base.disk
    ensures err.None? ==> base.Shut() && base.bufWriter.buffered == ""
    ensures err.None? && base.cfg.maxBackups <= 0 && DistinctNames(base.segments) ==>
              FilesHold(base, old(AllBytes(base.View())) + CallBytes(lines))
    ensures old(base.Healthy()) && base.disk.Reliable() ==> err.None?
  {
    hide FileBase.Healthy, FileBase.Stalled, FileBase.Shut, FileBase.Broken, FileBase.OnDisk, FilesHold;
    var done: nat;
    done, err := base.Process(lines);
    if err.None? {
      err := CloseFiles(base);
    }
  }

  /** A Close of h that nobody overlaps has returned; no write has failed, and the deadline has not passed. */
  ghost predicate ClosedQuietly(init: AsyncQueue.State, steps: seq<AsyncQueue.Step>, i: nat, s0: AsyncQueue.State, s: AsyncQueue.State, h: nat) {
    && AsyncQueue.Reaches(init, steps, s) && i < |steps| && AsyncQueue.Exec(init, steps[..i]) == Some(s0)
    && AsyncQueue.IsHandler(s0, h) && steps[i] == AsyncQueue.Close(h) && NobodyInside(s0.threads, h) && NoCallsFrom(steps, i, h)
    && AsyncQueue.IsHandler(s, h) && s.handlers[h].closer.Closed? && !s.handlers[h].deadlineFired
    && !AsyncConservation.WriteFailed(s.handlers[h]) && s.handlers[h].bypassFailed == []
  }

  lemma QuietOutput(init: AsyncQueue.State, steps: seq<AsyncQueue.Step>, i: nat, s0: AsyncQueue.State, s: AsyncQueue.State, h: nat)
    requires ClosedQuietly(init, steps, i, s0, s, h)
    ensures AsyncQueue.IsHandler(s, h) && s.handlers[h].queue == [] && s.handlers[h].out == Taken(s.handlers[h].removed)
  {
    hide AsyncQueue.Exec, AsyncQueue.Init, Taken;
    QuietClose(init, steps, i, s0, s, h);
  }

  /**
   After a quiet Close of an asynchronous file handler, with no error, no synchronous
   fallback, no pruning and no backup name used twice: the backups in rotation order
   and the log file hold what the log held before, and then every record the consumer
   took out of the queue, in the order of the queue.
   */
  method QuietFile(ghost init: AsyncQueue.State, ghost steps: seq<AsyncQueue.Step>, ghost i: nat, ghost s0: AsyncQueue.State,
                   s: AsyncQueue.State, h: nat, base: FileBase, render: Record -> string, times: seq<int>)
    returns (err: Option<Error>)
    requires ClosedQuietly(init, steps, i, s0, s, h) && s.handlers[h].bypassed == []
    requires base.Healthy() && |times| == |s.handlers[h].out|
    requires forall k | 0 <= k < |times| :: base.disk.clock <= times[k]
    requires forall j, k | 0 <= j < k < |times| :: times[j] <= times[k]
    modifies base, base.counters, base.sink, base.bufWriter, base.disk
    ensures s.handlers[h].queue == []
    ensures err.None? && base.cfg.maxBackups <= 0 && DistinctNames(base.segments) ==>
              FilesHold(base, old(AllBytes(base.View())) + Printed(render, Taken(s.handlers[h].removed)))
    ensures base.disk.Reliable() ==> err.None?
  {
    QuietOutput(init, steps, i, s0, s, h);
    hide FileBase.Sane, FileBase.Shut, ClosedQuietly, Taken, FilesHold;
    LinesPrinted(render, s.handlers[h].out, times);
    err := WriteAndClose(base, Lines(render, s.handlers[h].out, times));
  }
}
