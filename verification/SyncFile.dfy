/**
 The synchronous file handler (handler/filehandler/file_sync.go and the three
 paths of fileBase.write in handler/filehandler/file.go).
 */
module SyncFile {
  import opened Core
  import opened Policy
  import opened JsonFormatter
  import opened EntryPool
  import opened FileHandler

  /** What the formatter can do beyond Format. */
  datatype FormatterKind = FormatsIntoBuffer | FormatsIntoWriter | FormatsOnly

  class SyncFileHandler {
    const base: FileBase
    const includeCaller: bool
    const kind: FormatterKind
    const pool: Pool
    const syncEntry: LogEntry
    const syncBuf: Buffer

    constructor (base: FileBase, includeCaller: bool, kind: FormatterKind, pool: Pool)
      requires pool.Valid()
      ensures Valid() && this.base == base && this.includeCaller == includeCaller && this.kind == kind && this.pool == pool
      ensures fresh(syncEntry) && fresh(syncBuf)
    {
      this.base, this.includeCaller, this.kind, this.pool := base, includeCaller, kind, pool;
      syncEntry := new LogEntry();
      syncBuf := new Buffer();
    }

    /** The handler's own entry is not in the pool. */
    ghost predicate Valid()
      reads this, pool, pool.free
    {
      pool.Valid() && syncEntry !in pool.free
    }

    /** Formatting into the handler's buffer, and the write. */
    method CommitFormatted(entry: LogEntry) returns (err: Option<Error>)
      requires base.Valid() && !base.Stalled()
      modifies base`currentSize, base.counters, base.sink, base.bufWriter, base.disk, syncBuf
      ensures base.Added(err.None?, old(Render(includeCaller, entry.Value())), |old(Render(includeCaller, entry.Value()))|)
      ensures err.Some? ==> err.value.WriteFailed?
      ensures base.counters.stats == if err.None? then AddProcessed(old(base.counters.stats), 1) else old(base.counters.stats)
      ensures old(base.Healthy()) && base.disk.Reliable() ==> err.None?
    {
      hide Render, FileBase.Sane, FileBase.Healthy, FileBase.Stalled, FileBase.Shut, FileBase.Broken;
      FormatAfresh(includeCaller, entry, syncBuf);
      err := base.CommitLine(syncBuf.data);
    }

    /** The rotation check, then formatting and the write. */
    method RotateFormatWrite(entry: LogEntry, now: int) returns (err: Option<Error>)
      requires base.Valid() && base.disk.clock <= now
      modifies base, base.counters, base.sink, base.bufWriter, base.disk, syncBuf
      ensures base.Took(err, old(Render(includeCaller, entry.Value())), now)
      ensures base.counters.stats == if err.None? then AddProcessed(old(base.counters.stats), 1) else old(base.counters.stats)
      ensures old(base.Healthy()) && base.disk.Reliable() ==> err.None?
    {
      hide Render, FileBase.Sane, FileBase.Pruned;
      err := base.RotateIfNeeded(now);
      if err.None? {
        err := CommitFormatted(entry);
      }
    }

    /** fileBase.write: the three paths do the same to the log. */
    method Handle(entry: LogEntry, now: int) returns (err: Option<Error>)
      requires base.Valid() && base.disk.clock <= now
      modifies base, base.counters, base.sink, base.bufWriter, base.disk, syncBuf
      ensures base.Took(err, old(Render(includeCaller, entry.Value())), now)
      ensures base.counters.stats == if err.None? then AddProcessed(old(base.counters.stats), 1) else old(base.counters.stats)
      ensures old(base.Healthy()) && base.disk.Reliable() ==> err.None?
    {
      hide Render, FileBase.Healthy, FileBase.Stalled, FileBase.Working, FileBase.Shut, FileBase.Broken, FileBase.Dead;
      hide FileBase.Sane, FileBase.Pruned, FileBase.View, FileBase.Text, FileBase.FileText, FileBase.DueAt, FileBase.Valid;
      if kind.FormatsIntoBuffer? {
        err := RotateFormatWrite(entry, now);
      } else {
        var buf := new Buffer();
        FormatAfresh(includeCaller, entry, buf);
        if kind.FormatsIntoWriter? {
          FlattenOne(buf.data);
          err := base.WritePieces([buf.data], false, now);
        } else {
          err := base.WriteFormatted(Some(buf.data), now);
        }
      }
    }

    method CommitFilled(t: string, level: Level, msg: string, loggerFields: seq<Field>, callFields: seq<Field>, caller: CallerInfo)
      returns (err: Option<Error>)
      requires base.Valid() && !base.Stalled()
      modifies base`currentSize, base.counters, base.sink, base.bufWriter, base.disk, syncBuf, syncEntry
      ensures base.Added(err.None?, Render(includeCaller, Entry(t, level, msg, loggerFields + callFields, caller)),
                         |Render(includeCaller, Entry(t, level, msg, loggerFields + callFields, caller))|)
      ensures err.Some? ==> err.value.WriteFailed?
      ensures base.counters.stats == if err.None? then AddProcessed(old(base.counters.stats), 1) else old(base.counters.stats)
      ensures old(base.Healthy()) && base.disk.Reliable() ==> err.None?
    {
      hide Render, FileBase.Sane, FileBase.Healthy, FileBase.Stalled, FileBase.Shut, FileBase.Broken;
      syncEntry.Refill(t, level, msg, loggerFields, callFields, caller);
      err := CommitFormatted(syncEntry);
    }

    /** The direct path of HandleLog: the handler's own entry is filled after the rotation check. */
    method RotateFillWrite(t: string, level: Level, msg: string, loggerFields: seq<Field>, callFields: seq<Field>, caller: CallerInfo,
                           now: int)
      returns (err: Option<Error>)
      requires base.Valid() && base.disk.clock <= now
      modifies base, base.counters, base.sink, base.bufWriter, base.disk, syncBuf, syncEntry
      ensures base.Took(err, Render(includeCaller, Entry(t, level, msg, loggerFields + callFields, caller)), now)
      ensures base.counters.stats == if err.None? then AddProcessed(old(base.counters.stats), 1) else old(base.counters.stats)
      ensures old(base.Healthy()) && base.disk.Reliable() ==> err.None?
    {
      hide Render, FileBase.Sane, FileBase.Pruned;
      err := base.RotateIfNeeded(now);
      if err.None? {
        err := CommitFilled(t, level, msg, loggerFields, callFields, caller);
      }
    }

    /** GetEntry and the stores of a call. */
    method GetFilled(t: string, level: Level, msg: string, loggerFields: seq<Field>, callFields: seq<Field>, caller: CallerInfo)
      returns (entry: LogEntry)
      requires Valid()
      modifies pool, pool.free
      ensures Valid() && entry !in pool.free && entry != syncEntry
      ensures pool.free == old(pool.free) - {entry} && (entry in old(pool.free) || fresh(entry))
      ensures entry.Value() == Entry(t, level, msg, loggerFields + callFields, caller)
    {
      entry := pool.Get();
      entry.Fill(t, level, msg, loggerFields, callFields);
      entry.caller := caller;
      assert [] + (loggerFields + callFields) == loggerFields + callFields;
    }

    method HandleThenPut(entry: LogEntry, now: int) returns (err: Option<Error>)
      requires Valid() && entry !in pool.free && entry != syncEntry && base.Valid() && base.disk.clock <= now
      modifies base, base.counters, base.sink, base.bufWriter, base.disk, syncBuf, pool, entry
      ensures Valid() && pool.free == old(pool.free) + {entry}
      ensures base.Took(err, old(Render(includeCaller, entry.Value())), now)
      ensures base.counters.stats == if err.None? then AddProcessed(old(base.counters.stats), 1) else old(base.counters.stats)
      ensures old(base.Healthy()) && base.disk.Reliable() ==> err.None?
    {
      hide Render, FileBase.Healthy, FileBase.Stalled, FileBase.Working, FileBase.Shut, FileBase.Broken, FileBase.Dead;
      hide FileBase.View, FileBase.Text, FileBase.FileText, FileBase.DueAt, FileBase.Valid;
      err := Handle(entry, now);
      pool.Put(entry);
    }

    /** The other path: an entry from the pool, handled and put back. */
    method PooledWrite(t: string, level: Level, msg: string, loggerFields: seq<Field>, callFields: seq<Field>, caller: CallerInfo,
                       now: int)
      returns (err: Option<Error>)
      requires Valid() && base.Valid() && base.disk.clock <= now
      modifies base, base.counters, base.sink, base.bufWriter, base.disk, syncBuf, pool, pool.free
      ensures Valid() && old(pool.free) <= pool.free && fresh(pool.free - old(pool.free))
      ensures base.Took(err, Render(includeCaller, Entry(t, level, msg, loggerFields + callFields, caller)), now)
      ensures base.counters.stats == if err.None? then AddProcessed(old(base.counters.stats), 1) else old(base.counters.stats)
      ensures old(base.Healthy()) && base.disk.Reliable() ==> err.None?
    {
      hide Render, FileBase.Healthy, FileBase.Stalled, FileBase.Working, FileBase.Shut, FileBase.Broken, FileBase.Dead;
      hide FileBase.View, FileBase.Text, FileBase.FileText, FileBase.DueAt, FileBase.Valid;
      var entry := GetFilled(t, level, msg, loggerFields, callFields, caller);
      err := HandleThenPut(entry, now);
    }

    /** HandleLog: by either path the record is that of this call. */
    method HandleLog(t: string, level: Level, msg: string, loggerFields: seq<Field>, callFields: seq<Field>, caller: CallerInfo, now: int)
      returns (err: Option<Error>)
      requires Valid() && base.Valid() && base.disk.clock <= now
      modifies base, base.counters, base.sink, base.bufWriter, base.disk, syncBuf, syncEntry, pool, pool.free
      ensures Valid() && old(pool.free) <= pool.free && fresh(pool.free - old(pool.free))
      ensures base.Took(err, Render(includeCaller, Entry(t, level, msg, loggerFields + callFields, caller)), now)
      ensures base.counters.stats == if err.None? then AddProcessed(old(base.counters.stats), 1) else old(base.counters.stats)
      ensures old(base.Healthy()) && base.disk.Reliable() ==> err.None?
    {
      hide Render, FileBase.Took, FileBase.Healthy, FileBase.Valid;
      if kind.FormatsIntoBuffer? {
        err := RotateFillWrite(t, level, msg, loggerFields, callFields, caller, now);
      } else {
        err := PooledWrite(t, level, msg, loggerFields, callFields, caller, now);
      }
    }
  }

  lemma FlattenOne(s: string)
    ensures Flatten([s]) == s
  {
    assert [s][1..] == [];
    assert s + "" == s;
  }
}
