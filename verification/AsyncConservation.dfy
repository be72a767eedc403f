/**
 Conservation: every record handed to Handle is in exactly one place, and the
 counters agree with that, in every interleaving of the threads, the consumers
 and Close.
 */
module AsyncConservation {
  import opened Core
  import opened Policy
  import opened AsyncQueue
  import opened AsyncOwnership
  import opened AsyncEffects
  import opened AsyncOrder

  /** How many of the records are of the kind p: any set of records one cares to count. */
  function Count(p: Record -> bool, records: seq<Record>): nat {
    if records == [] then 0 else
    Count(p, records[..|records| - 1]) + One(p, records[|records| - 1])
  }

  function One(p: Record -> bool, record: Record): nat {
    if p(record) then 1 else 0
  }

  lemma CountSnoc(p: Record -> bool, records: seq<Record>, record: Record)
    ensures Count(p, records + [record]) == Count(p, records) + One(p, record)
  {
    assert (records + [record])[..|records|] == records;
  }

  lemma {:induction false} CountAppend(p: Record -> bool, a: seq<Record>, b: seq<Record>)
    ensures Count(p, a + b) == Count(p, a) + Count(p, b)
  {
    if b == [] {
      assert a + b == a;
    } else {
      assert (a + b)[..|a + b| - 1] == a + b[..|b| - 1];
      CountAppend(p, a, b[..|b| - 1]);
    }
  }

  lemma {:induction false} CountAll(p: Record -> bool, records: seq<Record>)
    requires forall r :: p(r)
    ensures Count(p, records) == |records|
  {
    if records != [] { CountAll(p, records[..|records| - 1]); }
  }

  /** The record a thread is carrying to handler h, if it is inside Handle on h. */
  function Carried(p: Record -> bool, heap: map<Ref, Record>, pc: Pc, h: nat): nat {
    if OnHandler(pc) && pc.h == h && pc.ref in heap then One(p, heap[pc.ref]) else 0
  }

  function InFlight(p: Record -> bool, heap: map<Ref, Record>, threads: seq<Thread>, h: nat): nat {
    if threads == [] then 0 else
    InFlight(p, heap, threads[..|threads| - 1], h) + Carried(p, heap, threads[|threads| - 1].pc, h)
  }

  lemma {:induction false} InFlightUpdate(p: Record -> bool, heap: map<Ref, Record>, threads: seq<Thread>, t: nat, th: Thread, h: nat)
    requires t < |threads|
    ensures InFlight(p, heap, threads[t := th], h) + Carried(p, heap, threads[t].pc, h)
         == InFlight(p, heap, threads, h) + Carried(p, heap, th.pc, h)
  {
    var n := |threads| - 1;
    if t == n {
      assert threads[t := th][..n] == threads[..n];
    } else {
      InFlightUpdate(p, heap, threads[..n], t, th, h);
      assert threads[t := th][..n] == threads[..n][t := th];
    }
  }

  /** An entry no thread holds may be filled. */
  lemma {:induction false} InFlightFrame(p: Record -> bool, heap: map<Ref, Record>, threads: seq<Thread>, r: Ref, rec: Record, h: nat)
    requires forall t | 0 <= t < |threads| && OnHandler(threads[t].pc) :: threads[t].pc.ref != r
    ensures InFlight(p, heap[r := rec], threads, h) == InFlight(p, heap, threads, h)
  {
    if threads != [] {
      InFlightFrame(p, heap, threads[..|threads| - 1], r, rec, h);
    }
  }

  lemma {:induction false} NobodyInFlight(p: Record -> bool, heap: map<Ref, Record>, threads: seq<Thread>, h: nat)
    requires forall t | 0 <= t < |threads| && OnHandler(threads[t].pc) :: threads[t].pc.h != h
    ensures InFlight(p, heap, threads, h) == 0
  {
    if threads != [] {
      NobodyInFlight(p, heap, threads[..|threads| - 1], h);
    }
  }

  lemma {:induction false} CarriedInFlight(p: Record -> bool, heap: map<Ref, Record>, threads: seq<Thread>, t: nat, h: nat)
    requires t < |threads|
    ensures Carried(p, heap, threads[t].pc, h) <= InFlight(p, heap, threads, h)
  {
    if t < |threads| - 1 {
      CarriedInFlight(p, heap, threads[..|threads| - 1], t, h);
    }
  }

  /** The records the handler has taken over from its callers. */
  function Account(p: Record -> bool, hd: Handler): nat {
    Count(p, hd.enqueued) + Count(p, hd.dropped) + Count(p, hd.bypassed) + Count(p, hd.bypassFailed)
  }

  ghost predicate Balanced(p: Record -> bool, s: State, h: nat)
    requires IsHandler(s, h)
  {
    Count(p, s.handlers[h].submitted) == InFlight(p, s.heap, s.threads, h) + Account(p, s.handlers[h])
  }

  /** The histories Account adds up, after an effect. */
  lemma HistoriesAfter(heap: map<Ref, Record>, hd: Handler, e: Effect)
    requires CanAffect(heap, hd, e)
    ensures var hd' := Affect(heap, hd, e);
            && hd'.submitted == (if e.Submits? then hd.submitted + [e.record] else hd.submitted)
            && hd'.enqueued == (if e.Enqueues? then hd.enqueued + [e.record] else hd.enqueued)
            && hd'.dropped == (if e.Drops? then hd.dropped + [e.record] else hd.dropped)
            && hd'.bypassed == (if e.Bypasses? && e.ok then hd.bypassed + [e.record] else hd.bypassed)
            && hd'.bypassFailed == (if e.Bypasses? && !e.ok then hd.bypassFailed + [e.record] else hd.bypassFailed)
  {
  }

  lemma AccountAfter(p: Record -> bool, heap: map<Ref, Record>, hd: Handler, e: Effect)
    requires CanAffect(heap, hd, e)
    ensures Count(p, Affect(heap, hd, e).submitted)
         == Count(p, hd.submitted) + if e.Submits? then One(p, e.record) else 0
    ensures Account(p, Affect(heap, hd, e))
         == Account(p, hd) + if e.Enqueues? || e.Drops? || e.Bypasses? then One(p, e.record) else 0
  {
    HistoriesAfter(heap, hd, e);
    if e.Submits? { CountSnoc(p, hd.submitted, e.record); }
    if e.Enqueues? { CountSnoc(p, hd.enqueued, e.record); }
    if e.Drops? { CountSnoc(p, hd.dropped, e.record); }
    if e.Bypasses? { CountSnoc(p, hd.bypassed, e.record); CountSnoc(p, hd.bypassFailed, e.record); }
  }

  lemma BalancedStart(p: Record -> bool, s: State, owner: map<Ref, Place>, step: Step, h: nat)
    requires Owned(s, owner) && Enabled(s, step) && Starts(step) && IsHandler(s, h) && Balanced(p, s, h)
    ensures IsHandler(Apply(s, step), h) && Balanced(p, Apply(s, step), h)
  {
    hide Apply, Enabled, Affect, CanAffect, Account, One;
    var s', t, r := Apply(s, step), step.t, step.ref;
    StartShape(s, step);
    StepEffect(s, step);
    forall u | 0 <= u < |s.threads| && OnHandler(s.threads[u].pc) ensures s.threads[u].pc.ref != r {
      assert owner[s.threads[u].pc.ref] == AtThread(u);
    }
    InFlightFrame(p, s.heap, s.threads, r, s'.heap[r], h);
    InFlightUpdate(p, s'.heap, s.threads, t, s'.threads[t], h);
    if Target(s, step) == Some(h) { AccountAfter(p, s.heap, s.handlers[h], EffectOf(s, step)); }
  }

  lemma BalancedCall(p: Record -> bool, s: State, step: Step, h: nat)
    requires Enabled(s, step) && Caller(step).Some? && !Starts(step) && IsHandler(s, h) && Balanced(p, s, h)
    ensures IsHandler(Apply(s, step), h) && Balanced(p, Apply(s, step), h)
  {
    hide Apply, Enabled, Affect, CanAffect, EffectOf, Account, One;
    var s', t := Apply(s, step), Caller(step).value;
    CallShape(s, step);
    StepEffect(s, step);
    InFlightUpdate(p, s.heap, s.threads, t, s'.threads[t], h);
    if Target(s, step) == Some(h) { AccountAfter(p, s.heap, s.handlers[h], EffectOf(s, step)); }
  }

  lemma BalancedStep(p: Record -> bool, s: State, owner: map<Ref, Place>, step: Step, h: nat)
    requires Owned(s, owner) && Enabled(s, step) && IsHandler(s, h) && Balanced(p, s, h)
    ensures IsHandler(Apply(s, step), h) && Balanced(p, Apply(s, step), h)
  {
    if Starts(step) {
      BalancedStart(p, s, owner, step, h);
    } else if Caller(step).Some? {
      BalancedCall(p, s, step, h);
    } else {
      HandlerShape(s, step);
      StepEffect(s, step);
      if Target(s, step) == Some(h) { AccountAfter(p, s.heap, s.handlers[h], EffectOf(s, step)); }
    }
  }

  // ------------------------------------------------------------ counters

  /** The records taken out of the queue by an eviction. */
  function Evicted(removed: seq<Removal>): seq<Record> {
    if removed == [] then [] else
    var last := removed[|removed| - 1];
    Evicted(removed[..|removed| - 1]) + if last.taken then [] else [last.record]
  }

  /** The entries counted as processed whose batch is still to be written. */
  function InBatchWrite(c: Consumer): nat {
    if c.Flushing? then |c.batch| else 0
  }

  ghost predicate Counted(hd: Handler) {
    && hd.stats.TotalDropped() + hd.uncounted == |hd.dropped| + |Evicted(hd.removed)| + hd.phantom
    && hd.stats.processed == |hd.out| + |hd.bypassed| + |hd.batchFailed| + InBatchWrite(hd.consumer)
  }

  lemma EvictedSnoc(removed: seq<Removal>, last: Removal)
    ensures |Evicted(removed + [last])| == |Evicted(removed)| + if last.taken then 0 else 1
  {
    assert (removed + [last])[..|removed|] == removed;
  }

  lemma CountedEvict(heap: map<Ref, Record>, hd: Handler, level: Level)
    requires Counted(hd) && (hd.queue != [] ==> hd.queue[0] in heap)
    ensures Counted(AfterEvict(heap, hd, level))
  {
    if hd.queue != [] { EvictedSnoc(hd.removed, Removal(heap[hd.queue[0]], false)); }
  }

  lemma CountedReceive(heap: map<Ref, Record>, hd: Handler)
    requires Counted(hd) && CanAffect(heap, hd, Receives)
    ensures Counted(AfterReceive(heap, hd))
  {
    EvictedSnoc(hd.removed, Removal(heap[hd.queue[0]], true));
  }

  lemma CountedAffect(heap: map<Ref, Record>, hd: Handler, e: Effect)
    requires Counted(hd) && CanAffect(heap, hd, e)
    ensures Counted(Affect(heap, hd, e))
  {
    match e
    case Evicts(level) => CountedEvict(heap, hd, level);
    case Receives => CountedReceive(heap, hd);
    case _ =>
  }

  // ------------------------------------------------------------ phases

  predicate Draining(c: Consumer) {
    c == Looping(DrainLoop) || (c.Writing? && c.loop.DrainLoop?) || (c.Recycling? && c.loop.DrainLoop?)
  }

  predicate WriteFailed(hd: Handler) {
    hd.failed != [] || hd.batchFailed != []
  }

  /** How the flags, the consumer and the closer go together. */
  ghost predicate Phased(hd: Handler) {
    && |hd.queue| <= hd.capacity && 0 < hd.capacity
    && (hd.closed <==> !hd.closer.Open?) && (hd.queueClosed <==> hd.closer.Closed?)
    && (hd.queueClosed ==> hd.consumer.Exited?)
    && (Draining(hd.consumer) || hd.deadlineFired ==> hd.closed)
    && (hd.consumer.Exited? ==> WriteFailed(hd) || hd.closed)
    && (hd.phantom > 0 ==> hd.queueClosed)
    && (hd.consumer.RecyclingFormatted? || hd.consumer.Collecting? || hd.consumer.Flushing? ==> hd.consumer.batch != [])
    && (hd.failed == [] || hd.batchFailed == []) && (WriteFailed(hd) ==> hd.consumer.Exited?)
  }

  lemma PhasedEvict(heap: map<Ref, Record>, hd: Handler, level: Level)
    requires Phased(hd) && (hd.queue != [] ==> hd.queue[0] in heap)
    ensures Phased(AfterEvict(heap, hd, level))
  {
  }

  lemma PhasedAffect(heap: map<Ref, Record>, hd: Handler, e: Effect)
    requires Phased(hd) && CanAffect(heap, hd, e)
    ensures Phased(Affect(heap, hd, e))
  {
    match e
    case Evicts(level) => PhasedEvict(heap, hd, level);
    case _ =>
  }

  // ------------------------------------------------------------ panics

  predicate SomeonePanicked(threads: seq<Thread>, h: nat) {
    exists t | 0 <= t < |threads| :: threads[t].pc.Panicked? && threads[t].pc.h == h
  }

  /** An eviction that could not be counted has panicked its thread. */
  lemma PanickedStep(s: State, step: Step, h: nat)
    requires Enabled(s, step) && IsHandler(s, h)
    requires s.handlers[h].uncounted > 0 ==> SomeonePanicked(s.threads, h)
    ensures IsHandler(Apply(s, step), h)
    ensures Apply(s, step).handlers[h].uncounted > 0 ==> SomeonePanicked(Apply(s, step).threads, h)
  {
    var s' := Apply(s, step);
    StepEffect(s, step);
    if SomeonePanicked(s.threads, h) {
      var t :| 0 <= t < |s.threads| && s.threads[t].pc.Panicked? && s.threads[t].pc.h == h;
      PanickedStuck(s, step, t);
    } else if Target(s, step) == Some(h) && s'.handlers[h].uncounted > 0 {
      UncountedEffect(s.heap, s.handlers[h], EffectOf(s, step));
      assert s'.threads[step.t].pc.Panicked?;
    }
  }

  lemma PanickedStuck(s: State, step: Step, t: nat)
    requires Enabled(s, step) && IsThread(s, t) && s.threads[t].pc.Panicked?
    ensures IsThread(Apply(s, step), t) && Apply(s, step).threads[t].pc == s.threads[t].pc
  {
    if Starts(step) { StartShape(s, step); } else if Caller(step).Some? { CallShape(s, step); } else { HandlerShape(s, step); }
  }

  lemma UncountedEffect(heap: map<Ref, Record>, hd: Handler, e: Effect)
    requires CanAffect(heap, hd, e) && Affect(heap, hd, e).uncounted != hd.uncounted
    ensures e.Evicts? && !Countable(e.level) && (hd.queue != [] || hd.queueClosed)
  {
  }

  // ------------------------------------------------------------ every run

  ghost predicate Accounted(s: State, h: nat)
    requires IsHandler(s, h)
  {
    && Counted(s.handlers[h]) && Phased(s.handlers[h])
    && (s.handlers[h].uncounted > 0 ==> SomeonePanicked(s.threads, h))
  }

  lemma AccountedStep(s: State, step: Step, h: nat)
    requires Enabled(s, step) && IsHandler(s, h) && Accounted(s, h)
    ensures IsHandler(Apply(s, step), h) && Accounted(Apply(s, step), h)
  {
    StepEffect(s, step);
    PanickedStep(s, step, h);
    if Target(s, step) == Some(h) {
      CountedAffect(s.heap, s.handlers[h], EffectOf(s, step));
      PhasedAffect(s.heap, s.handlers[h], EffectOf(s, step));
    }
  }

  lemma {:induction false} AccountedRun(p: Record -> bool, init: State, steps: seq<Step>, s: State, h: nat)
      returns (owner: map<Ref, Place>)
    requires Reaches(init, steps, s) && IsHandler(s, h)
    ensures Owned(s, owner) && Balanced(p, s, h) && Accounted(s, h)
  {
    if steps == [] {
      owner := map[];
      NobodyInFlight(p, s.heap, s.threads, h);
    } else {
      var m := Exec(init, steps[..|steps| - 1]).value;
      var step := steps[|steps| - 1];
      StepEffect(m, step);
      owner := AccountedRun(p, init, steps[..|steps| - 1], m, h);
      BalancedStep(p, m, owner, step, h);
      AccountedStep(m, step, h);
      OwnedStep(m, owner, step);
      owner := OwnerAfter(m, owner, step);
    }
  }

  lemma RecordsLast(removed: seq<Removal>)
    requires removed != []
    ensures Records(removed) == Records(removed[..|removed| - 1]) + [removed[|removed| - 1].record]
  {
  }

  lemma TakenLast(removed: seq<Removal>)
    requires removed != []
    ensures Taken(removed)
         == Taken(removed[..|removed| - 1]) + if removed[|removed| - 1].taken then [removed[|removed| - 1].record] else []
  {
  }

  lemma EvictedLast(removed: seq<Removal>)
    requires removed != []
    ensures Evicted(removed)
         == Evicted(removed[..|removed| - 1]) + if !removed[|removed| - 1].taken then [removed[|removed| - 1].record] else []
  {
  }

  lemma CountOptional(p: Record -> bool, records: seq<Record>, rec: Record, there: bool)
    ensures Count(p, records + (if there then [rec] else [])) == Count(p, records) + if there then One(p, rec) else 0
  {
    if there { CountSnoc(p, records, rec); } else { assert records + [] == records; }
  }

  lemma {:induction false} CountRemoved(p: Record -> bool, removed: seq<Removal>)
    ensures Count(p, Records(removed)) == Count(p, Taken(removed)) + Count(p, Evicted(removed))
  {
    if removed != [] {
      var front, last := removed[..|removed| - 1], removed[|removed| - 1];
      RecordsLast(removed);
      TakenLast(removed);
      EvictedLast(removed);
      CountRemoved(p, front);
      CountSnoc(p, Records(front), last.record);
      CountOptional(p, Taken(front), last.record, last.taken);
      CountOptional(p, Evicted(front), last.record, !last.taken);
    }
  }

  /**
   Conservation of records. Whatever kind of record one counts, those handed to
   Handle are those still in a caller, queued, held by the consumer, written,
   lost to a failed write, evicted, dropped on arrival, or written (or failed)
   by the synchronous fallback. With p true everywhere this is a law about
   numbers; with p true of one record it says that record is in one place.
   */
  lemma ConservationOfRecords(p: Record -> bool, init: State, steps: seq<Step>, s: State, h: nat)
    requires Reaches(init, steps, s) && IsHandler(s, h)
    ensures var hd := s.handlers[h];
            && (HoldsEntry(hd.consumer) ==> hd.consumer.ref in s.heap)
            && (forall k | 0 <= k < |hd.queue| :: hd.queue[k] in s.heap)
            && Count(p, hd.submitted)
               == InFlight(p, s.heap, s.threads, h) + Count(p, Queued(s.heap, hd.queue))
                + Count(p, Held(s.heap, hd.consumer)) + Count(p, hd.out)
                + Count(p, hd.failed) + Count(p, hd.batchFailed) + Count(p, Evicted(hd.removed))
                + Count(p, hd.dropped) + Count(p, hd.bypassed) + Count(p, hd.bypassFailed)
  {
    var hd := s.handlers[h];
    var _ := AccountedRun(p, init, steps, s, h);
    var _ := Invariants(init, steps, s);
    assert Tracked(s.heap, hd);
    EnqueueHistory(init, steps, s, h);
    CountAppend(p, Records(hd.removed), Queued(s.heap, hd.queue));
    CountRemoved(p, hd.removed);
    CountAppend(p, hd.out + Held(s.heap, hd.consumer) + hd.failed, hd.batchFailed);
    CountAppend(p, hd.out + Held(s.heap, hd.consumer), hd.failed);
    CountAppend(p, hd.out, Held(s.heap, hd.consumer));
  }

  /**
   Conservation in terms of the handler's own counters. `phantom` and
   `uncounted` are the two ways the counters and the entries can part: an
   eviction from a channel that is already closed and empty is counted although
   nothing was evicted, and an eviction on behalf of a level above ErrorLevel
   panics before it is counted.
   */
  lemma ConservationOfCounters(init: State, steps: seq<Step>, s: State, h: nat)
    requires Reaches(init, steps, s) && IsHandler(s, h)
    ensures var hd := s.handlers[h];
            && (HoldsEntry(hd.consumer) ==> hd.consumer.ref in s.heap)
            && |hd.submitted| + hd.phantom
               == InFlight(_ => true, s.heap, s.threads, h) + |hd.queue|
                + |Held(s.heap, hd.consumer)| - InBatchWrite(hd.consumer)
                + hd.stats.processed + |hd.failed| + |hd.bypassFailed|
                + hd.stats.TotalDropped() + hd.uncounted
    ensures var hd := s.handlers[h];
            && (hd.phantom > 0 ==> hd.queueClosed)
            && (hd.uncounted > 0 ==> SomeonePanicked(s.threads, h))
  {
    var p: Record -> bool := _ => true;
    var hd := s.handlers[h];
    var _ := AccountedRun(p, init, steps, s, h);
    ConservationOfRecords(p, init, steps, s, h);
    assert InFlight(p, s.heap, s.threads, h) == InFlight(_ => true, s.heap, s.threads, h);
    CountAll(p, hd.submitted); CountAll(p, Queued(s.heap, hd.queue)); CountAll(p, Held(s.heap, hd.consumer));
    CountAll(p, hd.out); CountAll(p, hd.failed); CountAll(p, hd.batchFailed); CountAll(p, Evicted(hd.removed));
    CountAll(p, hd.dropped); CountAll(p, hd.bypassed); CountAll(p, hd.bypassFailed);
  }
}
