/**
 Overflow policies and the handler counters (handler/policy.go). The counters
 are unbounded here; the source's are uint64.
 */
module Policy {
  import opened Core

  datatype OverflowPolicy = DropNewest | DropOldest | Block

  datatype Stats = Stats(
    droppedDebug: nat, droppedInfo: nat, droppedWarn: nat, droppedError: nat,
    blocked: nat, processed: nat)
  {
    /** GetDropped */
    function Dropped(level: Level): nat {
      match level
      case 0 => droppedDebug
      case 1 => droppedInfo
      case 2 => droppedWarn
      case 3 => droppedError
      case _ => 0
    }

    /** GetTotalDropped */
    function TotalDropped(): nat {
      droppedDebug + droppedInfo + droppedWarn + droppedError
    }
  }

  const NO_STATS := Stats(0, 0, 0, 0, 0, 0)

  /** The levels IncrementDropped has a counter for; it panics on the others. */
  predicate Countable(level: Level) {
    DEBUG_LEVEL <= level <= ERROR_LEVEL
  }

  function IncrementDropped(s: Stats, level: Level): (r: Stats)
    requires Countable(level)
    ensures r.TotalDropped() == s.TotalDropped() + 1
    ensures forall l: Level :: r.Dropped(l) == s.Dropped(l) + if l == level then 1 else 0
    ensures r.processed == s.processed && r.blocked == s.blocked
  {
    s.(droppedDebug := s.droppedDebug + if level == DEBUG_LEVEL then 1 else 0,
       droppedInfo := s.droppedInfo + if level == INFO_LEVEL then 1 else 0,
       droppedWarn := s.droppedWarn + if level == WARN_LEVEL then 1 else 0,
       droppedError := s.droppedError + if level == ERROR_LEVEL then 1 else 0)
  }

  function IncrementBlocked(s: Stats): Stats {
    s.(blocked := s.blocked + 1)
  }

  function AddProcessed(s: Stats, n: nat): Stats {
    s.(processed := s.processed + n)
  }

  /** Handle's policy lookup: a level without an entry is treated as DropNewest. */
  function PolicyFor(policies: map<Level, OverflowPolicy>, level: Level): OverflowPolicy {
    if level in policies then policies[level] else DropNewest
  }

  /** The counters a handler updates. */
  class Counters {
    var stats: Stats

    constructor ()
      ensures stats == NO_STATS
    {
      stats := NO_STATS;
    }

    /** False where the source panics: no counter was changed. */
    method CountDropped(level: Level) returns (ok: bool)
      modifies this
      ensures ok <==> Countable(level)
      ensures stats == if Countable(level) then IncrementDropped(old(stats), level) else old(stats)
    {
      ok := true;
      match level
      case 0 => stats := stats.(droppedDebug := stats.droppedDebug + 1);
      case 1 => stats := stats.(droppedInfo := stats.droppedInfo + 1);
      case 2 => stats := stats.(droppedWarn := stats.droppedWarn + 1);
      case 3 => stats := stats.(droppedError := stats.droppedError + 1);
      case _ => ok := false;
    }

    method CountProcessed(n: nat)
      modifies this
      ensures stats == AddProcessed(old(stats), n)
    {
      stats := stats.(processed := stats.processed + n);
    }
  }
}
