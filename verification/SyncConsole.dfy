/**
 The synchronous console handler and the logger on top of it
 (handler/consolehandler/console_sync.go, handler/consolehandler/console.go,
 logger/logger.go): three paths that reuse objects in three different ways.
 */
module SyncConsole {
  import opened Core
  import opened Policy
  import opened JsonFormatter
  import opened EntryPool

  /** parallelBuf: an entry and a buffer, pooled together. */
  class ParallelBuf {
    const buf: Buffer
    const entry: LogEntry

    constructor ()
      ensures entry.Clean() && fresh(buf) && fresh(entry)
    {
      buf := new Buffer();
      entry := new LogEntry();
    }
  }

  /** The io.Writer: every Write call made on it, and a plan of which ones fail. */
  class Writer {
    const plan: nat -> bool
    var offered: seq<string>

    constructor (plan: nat -> bool)
      ensures offered == []
    {
      this.plan, offered := plan, [];
    }

    method Write(p: string) returns (ok: bool)
      modifies this
      ensures offered == old(offered) + [p] && ok == !plan(|old(offered)|)
    {
      ok := !plan(|offered|);
      offered := offered + [p];
    }
  }

  class SyncConsoleHandler {
    const includeCaller: bool
    const bufferFormatter: bool
    const writer: Writer
    const counters: Counters
    const pool: Pool
    const syncEntry: LogEntry
    const syncBuf: Buffer
    var parBufPool: set<ParallelBuf>

    constructor (includeCaller: bool, bufferFormatter: bool, writer: Writer, pool: Pool)
      requires pool.Valid()
      ensures Valid() && this.includeCaller == includeCaller && this.bufferFormatter == bufferFormatter
      ensures this.writer == writer && this.pool == pool && counters.stats == NO_STATS
      ensures fresh(counters) && fresh(syncEntry) && fresh(syncBuf) && parBufPool == {}
    {
      this.includeCaller, this.bufferFormatter, this.writer, this.pool := includeCaller, bufferFormatter, writer, pool;
      counters := new Counters();
      syncEntry := new LogEntry();
      syncBuf := new Buffer();
      parBufPool := {};
    }

    ghost function Owned(): set<object>
      reads this
    {
      (set p | p in parBufPool :: p.entry as object) + (set p | p in parBufPool :: p.buf as object) + {syncEntry, syncBuf}
    }

    /** The handler's own entries are not in the pool. */
    ghost predicate Valid()
      reads this, pool, pool.free
    {
      pool.Valid() && Owned() !! pool.free
    }

    /** Write what has been formatted, and count it. */
    method Emit(line: string) returns (ok: bool)
      modifies writer, counters
      ensures writer.offered == old(writer.offered) + [line]
      ensures ok == !writer.plan(|old(writer.offered)|)
      ensures counters.stats == if ok then AddProcessed(old(counters.stats), 1) else old(counters.stats)
    {
      ok := writer.Write(line);
      if ok {
        counters.CountProcessed(1);
      }
    }

    /** What every call leaves behind: the pool has at most gained entries that are new. */
    twostate predicate Kept()
      reads this, pool, pool.free
    {
      && Valid() && fresh(pool.free - old(pool.free))
      && fresh(Owned() - old(Owned()))
    }

    /** TryLock succeeded: the handler's own entry and buffer. */
    method LockedPath(t: string, level: Level, msg: string, loggerFields: seq<Field>, callFields: seq<Field>, caller: CallerInfo)
      returns (ok: bool)
      requires Valid()
      modifies syncEntry, syncBuf, writer, counters
      ensures Kept()
      ensures writer.offered == old(writer.offered) + [Render(includeCaller, Entry(t, level, msg, loggerFields + callFields, caller))]
      ensures ok == !writer.plan(|old(writer.offered)|)
      ensures counters.stats == if ok then AddProcessed(old(counters.stats), 1) else old(counters.stats)
    {
      hide Render;
      syncEntry.Refill(t, level, msg, loggerFields, callFields, caller);
      FormatAfresh(includeCaller, syncEntry, syncBuf);
      ok := Emit(syncBuf.data);
    }

    method GetParallelBuf() returns (pb: ParallelBuf)
      requires Valid()
      modifies `parBufPool
      ensures Valid() && Owned() <= old(Owned())
      ensures (fresh(pb) && fresh(pb.entry) && fresh(pb.buf)) || (pb in old(parBufPool) && pb.entry in old(Owned()) && pb.buf in old(Owned()))
      ensures pb.entry !in pool.free && parBufPool <= old(parBufPool)
    {
      if * {
        pb := new ParallelBuf();
      } else if parBufPool == {} {
        pb := new ParallelBuf();
      } else {
        pb :| pb in parBufPool;
        parBufPool := parBufPool - {pb};
      }
    }

    method PutParallelBuf(pb: ParallelBuf)
      requires Valid() && pb.entry !in pool.free
      modifies `parBufPool
      ensures Valid() && parBufPool == old(parBufPool) + {pb} && Owned() <= old(Owned()) + {pb.entry, pb.buf}
    {
      parBufPool := parBufPool + {pb};
    }

    /** TryLock failed: a pooled entry and buffer, formatted without the lock. */
    method ParallelPath(t: string, level: Level, msg: string, loggerFields: seq<Field>, callFields: seq<Field>, caller: CallerInfo)
      returns (ok: bool)
      requires Valid()
      modifies this, Owned(), writer, counters
      ensures Kept()
      ensures writer.offered == old(writer.offered) + [Render(includeCaller, Entry(t, level, msg, loggerFields + callFields, caller))]
      ensures ok == !writer.plan(|old(writer.offered)|)
      ensures counters.stats == if ok then AddProcessed(old(counters.stats), 1) else old(counters.stats)
    {
      hide Render;
      var pb := GetParallelBuf();
      pb.entry.Refill(t, level, msg, loggerFields, callFields, caller);
      FormatAfresh(includeCaller, pb.entry, pb.buf);
      ok := Emit(pb.buf.data);
      pb.entry.Recycle();
      PutParallelBuf(pb);
    }

    /** Handle, that is write: the caller's entry, by TryLock, by a pooled buffer, or by another formatter's own buffer. */
    method Handle(entry: LogEntry, gotLock: bool) returns (ok: bool)
      requires Valid()
      modifies this, Owned() - {entry}, writer, counters
      ensures Kept()
      ensures writer.offered == old(writer.offered) + [old(Render(includeCaller, entry.Value()))]
      ensures ok == !writer.plan(|old(writer.offered)|)
      ensures counters.stats == if ok then AddProcessed(old(counters.stats), 1) else old(counters.stats)
    {
      hide Render;
      if bufferFormatter && gotLock {
        FormatAfresh(includeCaller, entry, syncBuf);
        ok := Emit(syncBuf.data);
      } else if bufferFormatter {
        var pb := GetParallelBuf();
        FormatAfresh(includeCaller, entry, pb.buf);
        ok := Emit(pb.buf.data);
        PutParallelBuf(pb);
      } else {
        var buf := new Buffer();
        FormatAfresh(includeCaller, entry, buf);
        ok := Emit(buf.data);
      }
    }

    /** GetEntry and the stores of a call; without a caller of its own the entry keeps what the pool left. */
    method Prepare(t: string, level: Level, msg: string, loggerFields: seq<Field>, callFields: seq<Field>, caller: Option<CallerInfo>)
      returns (entry: LogEntry)
      requires Valid()
      modifies pool, pool.free
      ensures Valid() && entry !in pool.free && entry !in Owned()
      ensures pool.free == old(pool.free) - {entry} && (entry in old(pool.free) || fresh(entry))
      ensures Render(includeCaller, entry.Value()) ==
              Render(includeCaller, Entry(t, level, msg, loggerFields + callFields, if caller.Some? then caller.value else NO_CALLER))
    {
      hide Render;
      entry := pool.Get();
      entry.Fill(t, level, msg, loggerFields, callFields);
      if caller.Some? {
        entry.caller := caller.value;
      }
      assert [] + (loggerFields + callFields) == loggerFields + callFields;
      PrintedRender(includeCaller, entry.Value(),
                    Entry(t, level, msg, loggerFields + callFields, if caller.Some? then caller.value else NO_CALLER));
    }

    /** Handle, then PutEntry where the caller does it. */
    method HandleAndPut(entry: LogEntry, gotLock: bool, onError: bool, onSuccess: bool) returns (ok: bool)
      requires Valid() && entry !in pool.free && entry !in Owned()
      modifies this, Owned(), pool, entry, writer, counters
      ensures Valid() && fresh(Owned() - old(Owned()))
      ensures pool.free == if (if ok then onSuccess else onError) then old(pool.free) + {entry} else old(pool.free)
      ensures writer.offered == old(writer.offered) + [old(Render(includeCaller, entry.Value()))]
      ensures ok == !writer.plan(|old(writer.offered)|)
      ensures counters.stats == if ok then AddProcessed(old(counters.stats), 1) else old(counters.stats)
    {
      hide Render;
      ok := Handle(entry, gotLock);
      if (ok && onSuccess) || (!ok && onError) {
        pool.Put(entry);
      }
    }

    /** No BufferFormatter: an entry from the pool, handled, and put back whether or not that succeeded. */
    method PooledPath(t: string, level: Level, msg: string, loggerFields: seq<Field>, callFields: seq<Field>, caller: CallerInfo,
                      gotLock: bool)
      returns (ok: bool)
      requires Valid()
      modifies this, Owned(), pool, pool.free, writer, counters
      ensures Kept() && old(pool.free) <= pool.free
      ensures writer.offered == old(writer.offered) + [Render(includeCaller, Entry(t, level, msg, loggerFields + callFields, caller))]
      ensures ok == !writer.plan(|old(writer.offered)|)
      ensures counters.stats == if ok then AddProcessed(old(counters.stats), 1) else old(counters.stats)
    {
      hide Render;
      var entry := Prepare(t, level, msg, loggerFields, callFields, Some(caller));
      ok := HandleAndPut(entry, gotLock, true, true);
    }

    /**
     HandleLog, by whichever path: the writer is offered exactly the record of this
     call, as if every object had been new.
     */
    method HandleLog(t: string, level: Level, msg: string, loggerFields: seq<Field>, callFields: seq<Field>, caller: CallerInfo,
                     gotLock: bool)
      returns (ok: bool)
      requires Valid()
      modifies this, Owned(), pool, pool.free, writer, counters
      ensures Kept() && old(pool.free) <= pool.free
      ensures writer.offered == old(writer.offered) + [Render(includeCaller, Entry(t, level, msg, loggerFields + callFields, caller))]
      ensures ok == !writer.plan(|old(writer.offered)|)
      ensures counters.stats == if ok then AddProcessed(old(counters.stats), 1) else old(counters.stats)
    {
      hide Render;
      if bufferFormatter && gotLock {
        ok := LockedPath(t, level, msg, loggerFields, callFields, caller);
      } else if bufferFormatter {
        ok := ParallelPath(t, level, msg, loggerFields, callFields, caller);
      } else {
        ok := PooledPath(t, level, msg, loggerFields, callFields, caller, gotLock);
      }
    }
  }

  /** logger.Logger over a synchronous handler, or none; `fast` is whether it calls HandleLog. */
  class Logger {
    const handler: SyncConsoleHandler?
    const fast: bool
    const level: Level
    const fields: seq<Field>
    const includeCaller: bool
    const recycleEntry: bool

    constructor (handler: SyncConsoleHandler?, fast: bool, level: Level, fields: seq<Field>, includeCaller: bool, recycleEntry: bool)
      ensures this.handler == handler && this.fast == fast && this.level == level && this.fields == fields
      ensures this.includeCaller == includeCaller && this.recycleEntry == recycleEntry
    {
      this.handler, this.fast, this.level, this.fields := handler, fast, level, fields;
      this.includeCaller, this.recycleEntry := includeCaller, recycleEntry;
    }

    /** All that a call can change. */
    ghost function Reached(): set<object>
      reads handler, if handler == null then {} else {handler.pool}
    {
      if handler == null then {}
      else {handler, handler.pool, handler.writer, handler.counters} + handler.Owned() + handler.pool.free
    }

    /** The path through the pool: the caller is stored only when it is wanted. */
    method LogEntryPath(h: SyncConsoleHandler, l: Level, msg: string, callFields: seq<Field>, now: string, found: CallerInfo, gotLock: bool)
      requires h == handler && h.Valid()
      modifies Reached()
      ensures h.Kept()
      ensures if recycleEntry && !h.writer.plan(|old(h.writer.offered)|)
              then old(h.pool.free) <= h.pool.free else h.pool.free <= old(h.pool.free)
      ensures h.writer.offered == old(h.writer.offered) +
                [Render(h.includeCaller, Entry(now, l, msg, fields + callFields, if includeCaller then found else NO_CALLER))]
    {
      hide Render;
      var entry := h.Prepare(now, l, msg, fields, callFields, if includeCaller then Some(found) else None);
      var _ := h.HandleAndPut(entry, gotLock, false, recycleEntry);
    }

    /** log, when there is a handler: the fast path takes no fields of the call's own. */
    method LogTo(h: SyncConsoleHandler, l: Level, msg: string, callFields: seq<Field>, now: string, found: CallerInfo, gotLock: bool)
      requires h == handler && h.Valid()
      modifies Reached()
      ensures h.Kept()
      ensures if (fast && callFields == []) || (recycleEntry && !h.writer.plan(|old(h.writer.offered)|))
              then old(h.pool.free) <= h.pool.free else h.pool.free <= old(h.pool.free)
      ensures h.writer.offered == old(h.writer.offered) +
                [Render(h.includeCaller, Entry(now, l, msg, fields + callFields, if includeCaller then found else NO_CALLER))]
    {
      hide Render;
      if fast && callFields == [] {
        var caller := if includeCaller then found else NO_CALLER;
        var _ := h.HandleLog(now, l, msg, fields, [], caller, gotLock);
      } else {
        LogEntryPath(h, l, msg, callFields, now, found, gotLock);
      }
    }

    /**
     Log: below the level, or with no handler, nothing happens; otherwise the writer is
     offered the record with the logger's fields, then the call's fields, and this
     call's caller or none, whatever the pool's entries were used for before. The pool
     keeps all its entries by the fast path, or if the handler lets the logger recycle
     and the write succeeded; otherwise it does not get back what it gave.
     */
    method Log(l: Level, msg: string, callFields: seq<Field>, now: string, found: CallerInfo, gotLock: bool)
      requires handler != null ==> handler.Valid()
      modifies if l < level then {} else Reached()
      ensures handler != null ==> handler.Kept()
      ensures handler != null && l >= level ==>
                if (fast && callFields == []) || (recycleEntry && !handler.writer.plan(|old(handler.writer.offered)|))
                then old(handler.pool.free) <= handler.pool.free else handler.pool.free <= old(handler.pool.free)
      ensures handler != null ==>
                handler.writer.offered == old(handler.writer.offered) +
                  if l < level then []
                  else [Render(handler.includeCaller, Entry(now, l, msg, fields + callFields, if includeCaller then found else NO_CALLER))]
    {
      if l >= level && handler != null {
        LogTo(handler, l, msg, callFields, now, found, gotLock);
      }
    }
  }
}
