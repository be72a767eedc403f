/**
 Pooled entries (core/entry.go): entries are reused, and the pool keeps them
 clean.
 */
module EntryPool {
  import opened Core
  import opened JsonFormatter

  /** core.Entry, the object: what the pool recycles and the formatter reads. */
  class LogEntry {
    var timeText: string
    var level: Level
    var message: string
    var fields: seq<Field>
    var caller: CallerInfo

    constructor ()
      ensures fields == [] && caller == NO_CALLER
    {
      timeText, level, message, fields, caller := "", DEBUG_LEVEL, "", [], NO_CALLER;
    }

    function Value(): Entry
      reads this
    {
      Entry(timeText, level, message, fields, caller)
    }

    /** What the pool promises of an entry. */
    predicate Clean()
      reads this
    {
      fields == [] && !caller.defined
    }

    /** The field stores and the two appends at the start of every path. */
    method Fill(t: string, l: Level, msg: string, loggerFields: seq<Field>, callFields: seq<Field>)
      modifies this
      ensures Value() == Entry(t, l, msg, old(fields) + (loggerFields + callFields), old(caller))
    {
      timeText, level, message := t, l, msg;
      if |loggerFields| > 0 {
        fields := fields + loggerFields;
      }
      if |callFields| > 0 {
        fields := fields + callFields;
      }
      assert old(fields) + [] == old(fields) && loggerFields + [] == loggerFields && [] + callFields == callFields;
      assert old(fields) + loggerFields + callFields == old(fields) + (loggerFields + callFields);
    }

    /** A handler's own entry, used again: every field is stored, whatever was there. */
    method Refill(t: string, l: Level, msg: string, loggerFields: seq<Field>, callFields: seq<Field>, c: CallerInfo)
      modifies this
      ensures Value() == Entry(t, l, msg, loggerFields + callFields, c)
    {
      caller, fields := c, [];
      Fill(t, l, msg, loggerFields, callFields);
      assert [] + (loggerFields + callFields) == loggerFields + callFields;
    }

    method Recycle()
      modifies this
      ensures Clean()
    {
      fields := [];
      if caller.defined {
        caller := NO_CALLER;
      }
    }
  }

  /** sync.Pool of entries, shared by all loggers. */
  class Pool {
    var free: set<LogEntry>

    constructor ()
      ensures Valid() && free == {}
    {
      free := {};
    }

    predicate Valid()
      reads this, free
    {
      forall e | e in free :: e.Clean()
    }

    /** GetEntry: some pooled entry, or a new one. */
    method Get() returns (e: LogEntry)
      requires Valid()
      modifies this, free
      ensures Valid() && e !in free && e.Clean() && e.message == ""
      ensures (e in old(free) || fresh(e)) && free == old(free) - {e}
    {
      if * {
        e := new LogEntry();
      } else if free == {} {
        e := new LogEntry();
      } else {
        e :| e in free;
        free := free - {e};
      }
      e.message := "";
      e.fields := [];
    }

    /** PutEntry: whatever the entry holds, it is clean again. */
    method Put(e: LogEntry)
      requires Valid()
      modifies this, e
      ensures Valid() && free == old(free) + {e}
    {
      e.Recycle();
      free := free + {e};
    }
  }

  /** A record as the formatter prints it: an undefined caller is no caller. */
  function Printed(e: Entry): Entry {
    if e.caller.defined then e else e.(caller := NO_CALLER)
  }

  /** What is left in an undefined caller is never printed. */
  lemma PrintedRender(includeCaller: bool, a: Entry, b: Entry)
    requires Printed(a) == Printed(b)
    ensures Render(includeCaller, a) == Render(includeCaller, b)
  {
  }

  /** Reset and FormatEntry: what the buffer held before is gone. */
  method FormatAfresh(includeCaller: bool, entry: LogEntry, buf: Buffer)
    modifies buf
    ensures buf.data == Render(includeCaller, entry.Value())
  {
    hide Render;
    buf.Reset();
    FormatJSONToBuffer(includeCaller, entry.Value(), buf);
    assert "" + Render(includeCaller, entry.Value()) == Render(includeCaller, entry.Value());
  }
}
