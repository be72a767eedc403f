/**
 What leaves a queue, in what order, and with what content.

 The enqueue history of a handler is what was removed followed by what is still
 queued; what the consumer writes is exactly what it took, in that order; and an
 entry still holds, when it is read, the record its caller stored in it.
 */
module AsyncOrder {
  import opened Core
  import opened AsyncQueue
  import opened AsyncOwnership
  import opened AsyncEffects

  /** The records the consumer took out of the queue, evictions left out. */
  function Taken(removed: seq<Removal>): seq<Record> {
    if removed == [] then [] else
    var last := removed[|removed| - 1];
    Taken(removed[..|removed| - 1]) + if last.taken then [last.record] else []
  }

  /** What the consumer has taken and not yet written or lost. */
  function Held(heap: map<Ref, Record>, c: Consumer): seq<Record>
    requires HoldsEntry(c) ==> c.ref in heap
  {
    match c
    case Writing(r, _) => [heap[r]]
    case Formatting(r, batch) => batch + [heap[r]]
    case RecyclingFormatted(_, batch) => batch
    case Collecting(batch) => batch
    case Flushing(batch) => batch
    case _ => []
  }

  ghost predicate Tracked(heap: map<Ref, Record>, hd: Handler) {
    && |hd.enqueued| == |hd.removed| + |hd.queue|
    && (forall i | 0 <= i < |hd.removed| :: hd.removed[i].record == hd.enqueued[i])
    && (forall k | 0 <= k < |hd.queue| ::
          hd.queue[k] in heap && heap[hd.queue[k]] == hd.enqueued[|hd.removed| + k])
    && (HoldsEntry(hd.consumer) ==> hd.consumer.ref in heap)
    && Taken(hd.removed) == hd.out + Held(heap, hd.consumer) + hd.failed + hd.batchFailed
    && (hd.failed != [] || hd.batchFailed != [] ==> hd.consumer.Exited?)
    && (hd.failed == [] || hd.batchFailed == [])
  }

  ghost predicate AllTracked(s: State) {
    forall h | 0 <= h < |s.handlers| :: Tracked(s.heap, s.handlers[h])
  }

  /** The calls of a thread that may already be in a queue: all of them, or all but the one in progress. */
  function CallsBefore(th: Thread): int {
    if ThreadHolds(th.pc) then th.calls - 1 else th.calls
  }

  /** The records of a handler belong to known threads and to calls they are past. */
  ghost predicate Past(threads: seq<Thread>, records: seq<Record>) {
    forall i | 0 <= i < |records| ::
      records[i].thread < |threads| && records[i].call < CallsBefore(threads[records[i].thread])
  }

  ghost predicate Recorded(s: State) {
    && (forall t | 0 <= t < |s.threads| && ThreadHolds(s.threads[t].pc) ::
          var r := s.threads[t].pc.ref;
          r in s.heap && s.heap[r].thread == t && s.heap[r].call == s.threads[t].calls - 1)
    && (forall h | 0 <= h < |s.handlers| :: Past(s.threads, s.handlers[h].enqueued))
    && (forall h | 0 <= h < |s.handlers| :: CallsInOrder(s.handlers[h].enqueued))
  }

  /** Every thread's records appear in the order of its calls. */
  ghost predicate CallsInOrder(records: seq<Record>) {
    forall i, j | 0 <= i < j < |records| && records[i].thread == records[j].thread :: records[i].call < records[j].call
  }

  // ------------------------------------------------------------ tracking

  /** Everything about a handler that Tracked looks at. */
  predicate SameTrack(a: Handler, b: Handler) {
    && a.queue == b.queue && a.enqueued == b.enqueued && a.removed == b.removed && a.consumer == b.consumer
    && a.out == b.out && a.failed == b.failed && a.batchFailed == b.batchFailed
  }

  lemma TrackedFields(heap: map<Ref, Record>, a: Handler, b: Handler)
    requires Tracked(heap, a) && SameTrack(a, b)
    ensures Tracked(heap, b)
  {
  }

  lemma TrackedDequeue(heap: map<Ref, Record>, hd: Handler, taken: bool, hd': Handler)
    requires Tracked(heap, hd) && hd.queue != []
    requires hd' == Dequeue(hd, heap[hd.queue[0]], taken).(consumer := hd'.consumer)
    requires if taken then
               && CanReceive(hd.consumer) && HoldsEntry(hd'.consumer) && hd'.consumer.ref in heap
               && Held(heap, hd'.consumer) == Held(heap, hd.consumer) + [heap[hd.queue[0]]]
             else hd'.consumer == hd.consumer
    ensures Tracked(heap, hd')
  {
    var last := Removal(heap[hd.queue[0]], taken);
    assert hd'.removed[..|hd'.removed| - 1] == hd.removed;
    assert Taken(hd'.removed) == Taken(hd.removed) + if taken then [last.record] else [];
    assert last.record == hd.enqueued[|hd.removed|];
  }

  lemma EvictMoves(heap: map<Ref, Record>, hd: Handler, level: Level)
    requires hd.queue != [] ==> hd.queue[0] in heap
    ensures SameTrack(if hd.queue == [] then hd else Dequeue(hd, heap[hd.queue[0]], false), AfterEvict(heap, hd, level))
  {
  }

  lemma TrackedEvict(heap: map<Ref, Record>, hd: Handler, level: Level)
    requires Tracked(heap, hd) && (hd.queue != [] ==> hd.queue[0] in heap)
    ensures Tracked(heap, AfterEvict(heap, hd, level))
  {
    EvictMoves(heap, hd, level);
    if hd.queue != [] {
      TrackedDequeue(heap, hd, false, Dequeue(hd, heap[hd.queue[0]], false));
      TrackedFields(heap, Dequeue(hd, heap[hd.queue[0]], false), AfterEvict(heap, hd, level));
    } else {
      TrackedFields(heap, hd, AfterEvict(heap, hd, level));
    }
  }

  /** The consumer receives nothing: what it held is now written, lost or still held. */
  lemma TrackedConsumer(heap: map<Ref, Record>, a: Handler, b: Handler)
    requires Tracked(heap, a)
    requires b.queue == a.queue && b.enqueued == a.enqueued && b.removed == a.removed
    requires HoldsEntry(b.consumer) ==> b.consumer.ref in heap
    requires b.out + Held(heap, b.consumer) + b.failed + b.batchFailed
          == a.out + Held(heap, a.consumer) + a.failed + a.batchFailed
    requires (b.failed != [] || b.batchFailed != [] ==> b.consumer.Exited?) && (b.failed == [] || b.batchFailed == [])
    ensures Tracked(heap, b)
  {
  }

  /** The effects by which the consumer moves on without receiving. */
  predicate ConsumerEffect(e: Effect) {
    e.Writes? || e.Recycles? || e.Formats? || e.FindsEmpty? || e.SeesClosed? || e.HitsDeadline?
  }

  lemma WriteSettles(heap: map<Ref, Record>, a: Handler, ok: bool)
    requires Tracked(heap, a) && CanAffect(heap, a, Writes(ok))
    ensures Tracked(heap, AfterWrite(heap, a, ok))
  {
    var b := AfterWrite(heap, a, ok);
    var w := Held(heap, a.consumer);
    assert Held(heap, b.consumer) == [] && a.failed == [] && a.batchFailed == [];
    assert b.out + b.failed + b.batchFailed == a.out + w;
    TrackedConsumer(heap, a, b);
  }

  lemma ConsumerMovesOn(heap: map<Ref, Record>, a: Handler, e: Effect)
    requires Tracked(heap, a) && CanAffect(heap, a, e) && ConsumerEffect(e) && !e.Writes?
    ensures Tracked(heap, Affect(heap, a, e))
  {
    match e
    case Recycles => TrackedConsumer(heap, a, AfterRecycle(a));
    case Formats => TrackedConsumer(heap, a, AfterFormat(heap, a));
    case FindsEmpty => TrackedConsumer(heap, a, AfterQueueEmpty(a));
    case SeesClosed => TrackedConsumer(heap, a, Affect(heap, a, e));
    case HitsDeadline => TrackedConsumer(heap, a, Affect(heap, a, e));
  }

  lemma OtherEffects(heap: map<Ref, Record>, a: Handler, e: Effect)
    requires CanAffect(heap, a, e) && !ConsumerEffect(e) && !e.Enqueues? && !e.Evicts? && !e.Receives?
    ensures SameTrack(a, Affect(heap, a, e))
  {
  }

  lemma TrackedReceive(heap: map<Ref, Record>, hd: Handler)
    requires Tracked(heap, hd) && CanAffect(heap, hd, Receives)
    ensures Tracked(heap, AfterReceive(heap, hd))
  {
    TrackedDequeue(heap, hd, true, AfterReceive(heap, hd));
  }

  lemma TrackedEnqueue(heap: map<Ref, Record>, hd: Handler, r: Ref)
    requires Tracked(heap, hd) && r in heap
    ensures Tracked(heap, Enqueue(hd, r, heap[r]))
  {
  }

  lemma TrackedAffect(heap: map<Ref, Record>, hd: Handler, e: Effect)
    requires Tracked(heap, hd) && CanAffect(heap, hd, e)
    ensures Tracked(heap, Affect(heap, hd, e))
  {
    if e.Writes? {
      WriteSettles(heap, hd, e.ok);
    } else if ConsumerEffect(e) {
      ConsumerMovesOn(heap, hd, e);
    } else if e.Enqueues? {
      TrackedEnqueue(heap, hd, e.ref);
    } else if e.Evicts? {
      TrackedEvict(heap, hd, e.level);
    } else if e.Receives? {
      TrackedReceive(heap, hd);
    } else {
      OtherEffects(heap, hd, e);
      TrackedFields(heap, hd, Affect(heap, hd, e));
    }
  }

  /** A new or pooled entry is filled: no handler sees it. */
  lemma FillUnseen(s: State, owner: map<Ref, Place>, r: Ref, rec: Record, h: nat)
    requires Owned(s, owner) && IsHandler(s, h) && Tracked(s.heap, s.handlers[h]) && Gettable(s, r)
    ensures Tracked(s.heap[r := rec], s.handlers[h])
  {
    var heap := s.heap[r := rec];
    var hd := s.handlers[h];
    forall k | 0 <= k < |hd.queue| ensures heap[hd.queue[k]] == s.heap[hd.queue[k]] {
      assert owner[hd.queue[k]] == InQueue(h);
    }
  }

  lemma TrackedStep(s: State, owner: map<Ref, Place>, step: Step)
    requires Owned(s, owner) && AllTracked(s) && Enabled(s, step)
    ensures AllTracked(Apply(s, step))
  {
    hide Apply, Enabled, Tracked, CanAffect;
    var s' := Apply(s, step);
    StepEffect(s, step);
    if Starts(step) { StartShape(s, step); } else if Caller(step).Some? { CallShape(s, step); } else { HandlerShape(s, step); }
    forall h | 0 <= h < |s'.handlers| ensures Tracked(s'.heap, s'.handlers[h]) {
      if Starts(step) {
        FillUnseen(s, owner, step.ref, s'.heap[step.ref], h);
        TrackedFields(s'.heap, s.handlers[h], s'.handlers[h]);
      } else if Target(s, step) == Some(h) {
        TrackedAffect(s.heap, s.handlers[h], EffectOf(s, step));
      }
    }
  }

  // ------------------------------------------------------------ call order

  lemma EnqueuedAfter(heap: map<Ref, Record>, hd: Handler, e: Effect)
    requires CanAffect(heap, hd, e)
    ensures Affect(heap, hd, e).enqueued == hd.enqueued + if e.Enqueues? then [e.record] else []
  {
    if e.Evicts? { EvictMoves(heap, hd, e.level); }
  }

  /** A thread's record may join a queue when all its earlier ones precede it. */
  lemma InOrderSnoc(records: seq<Record>, rec: Record)
    requires CallsInOrder(records)
    requires forall i | 0 <= i < |records| && records[i].thread == rec.thread :: records[i].call < rec.call
    ensures CallsInOrder(records + [rec])
  {
  }

  lemma CallMovesOn(s: State, step: Step)
    requires Enabled(s, step) && Caller(step).Some? && !Starts(step)
    ensures var s', t := Apply(s, step), Caller(step).value;
            && t < |s.threads| && |s'.threads| == |s.threads| && s'.threads == s.threads[t := s'.threads[t]] && s'.heap == s.heap
            && CallsBefore(s.threads[t]) <= CallsBefore(s'.threads[t]) && s'.threads[t].calls == s.threads[t].calls
            && (ThreadHolds(s'.threads[t].pc) ==> ThreadHolds(s.threads[t].pc) && s'.threads[t].pc.ref == s.threads[t].pc.ref)
  {
    hide Apply, Enabled, EffectOf, Target, TakesOver;
    CallShape(s, step);
  }

  lemma RecordedThreads(s: State, owner: map<Ref, Place>, step: Step)
    requires Owned(s, owner) && Recorded(s) && Enabled(s, step)
    ensures var s' := Apply(s, step);
            && |s'.threads| == |s.threads|
            && (forall t | 0 <= t < |s.threads| :: CallsBefore(s.threads[t]) <= CallsBefore(s'.threads[t]))
            && (forall t | 0 <= t < |s'.threads| && ThreadHolds(s'.threads[t].pc) ::
                  var r := s'.threads[t].pc.ref;
                  r in s'.heap && s'.heap[r].thread == t && s'.heap[r].call == s'.threads[t].calls - 1)
  {
    hide Apply, Enabled, EffectOf, Target;
    var s' := Apply(s, step);
    if Starts(step) {
      StartShape(s, step);
      forall t | 0 <= t < |s.threads| && ThreadHolds(s.threads[t].pc) ensures s.threads[t].pc.ref != step.ref {
        assert owner[s.threads[t].pc.ref] == AtThread(t);
      }
    } else if Caller(step).Some? {
      CallMovesOn(s, step);
    } else {
      HandlerShape(s, step);
    }
  }

  lemma PastSnoc(threads: seq<Thread>, records: seq<Record>, rec: Record)
    requires Past(threads, records) && rec.thread < |threads| && rec.call < CallsBefore(threads[rec.thread])
    ensures Past(threads, records + [rec])
  {
  }

  /** The threads only move on. */
  lemma PastLater(threads: seq<Thread>, later: seq<Thread>, records: seq<Record>)
    requires Past(threads, records) && |later| == |threads|
    requires forall t | 0 <= t < |threads| :: CallsBefore(threads[t]) <= CallsBefore(later[t])
    ensures Past(later, records)
  {
  }

  /** An enqueueing step adds the caller's record, which is later than all it has queued so far. */
  lemma EnqueuesNext(s: State, step: Step, h: nat)
    requires Recorded(s) && Enabled(s, step) && IsHandler(s, h) && EffectOf(s, step).Enqueues?
    ensures var s', rec := Apply(s, step), EffectOf(s, step).record;
            && (forall i | 0 <= i < |s.handlers[h].enqueued| && s.handlers[h].enqueued[i].thread == rec.thread ::
                  s.handlers[h].enqueued[i].call < rec.call)
            && rec.thread < |s'.threads| && rec.call < CallsBefore(s'.threads[rec.thread])
  {
    CallShape(s, step);
    assert Past(s.threads, s.handlers[h].enqueued);
  }

  lemma RecordedHandler(s: State, owner: map<Ref, Place>, step: Step, h: nat, e: Effect)
    requires Owned(s, owner) && Recorded(s) && Enabled(s, step) && IsHandler(s, h)
    requires e == EffectOf(s, step) && CanAffect(s.heap, s.handlers[h], e)
    ensures CallsInOrder(Affect(s.heap, s.handlers[h], e).enqueued)
    ensures Past(Apply(s, step).threads, Affect(s.heap, s.handlers[h], e).enqueued)
  {
    RecordedThreads(s, owner, step);
    PastLater(s.threads, Apply(s, step).threads, s.handlers[h].enqueued);
    EnqueuedAfter(s.heap, s.handlers[h], e);
    if e.Enqueues? {
      EnqueuesNext(s, step, h);
      PastSnoc(Apply(s, step).threads, s.handlers[h].enqueued, e.record);
      InOrderSnoc(s.handlers[h].enqueued, e.record);
    }
  }

  lemma RecordedStep(s: State, owner: map<Ref, Place>, step: Step)
    requires Owned(s, owner) && Recorded(s) && Enabled(s, step)
    ensures Recorded(Apply(s, step))
  {
    hide Apply, Enabled, Affect, CanAffect, EffectOf;
    var s' := Apply(s, step);
    StepEffect(s, step);
    RecordedThreads(s, owner, step);
    forall h | 0 <= h < |s'.handlers|
      ensures CallsInOrder(s'.handlers[h].enqueued) && Past(s'.threads, s'.handlers[h].enqueued)
    {
      if Target(s, step) == Some(h) {
        RecordedHandler(s, owner, step, h, EffectOf(s, step));
      } else {
        PastLater(s.threads, s'.threads, s.handlers[h].enqueued);
      }
    }
  }

  /** The invariants of a reachable state. */
  lemma {:induction false} Invariants(init: State, steps: seq<Step>, s: State) returns (owner: map<Ref, Place>)
    requires Reaches(init, steps, s)
    ensures Owned(s, owner) && AllTracked(s) && Recorded(s)
  {
    if steps == [] {
      owner := map[];
    } else {
      var m := Exec(init, steps[..|steps| - 1]).value;
      var step := steps[|steps| - 1];
      owner := Invariants(init, steps[..|steps| - 1], m);
      OwnedStep(m, owner, step);
      TrackedStep(m, owner, step);
      RecordedStep(m, owner, step);
      owner := OwnerAfter(m, owner, step);
    }
  }

  // ------------------------------------------------------------ what it means

  function Records(removed: seq<Removal>): seq<Record> {
    seq(|removed|, i requires 0 <= i < |removed| => removed[i].record)
  }

  /** The records now in the queue, read through the references. */
  function Queued(heap: map<Ref, Record>, queue: seq<Ref>): seq<Record>
    requires forall k | 0 <= k < |queue| :: queue[k] in heap
  {
    seq(|queue|, k requires 0 <= k < |queue| => heap[queue[k]])
  }

  /** a is b with some elements left out: idx says where each element of a is in b. */
  ghost predicate EmbedsAt<T>(a: seq<T>, b: seq<T>, idx: seq<nat>) {
    && |idx| == |a|
    && (forall i | 0 <= i < |a| :: idx[i] < |b| && b[idx[i]] == a[i])
    && (forall i, j | 0 <= i < j < |a| :: idx[i] < idx[j])
  }

  lemma {:induction false} TakenEmbeds(removed: seq<Removal>) returns (idx: seq<nat>)
    ensures EmbedsAt(Taken(removed), Records(removed), idx)
  {
    if removed == [] {
      idx := [];
    } else {
      var n := |removed| - 1;
      idx := TakenEmbeds(removed[..n]);
      assert Records(removed) == Records(removed[..n]) + [removed[n].record];
      if removed[n].taken { idx := idx + [n]; }
    }
  }

  /**
   FIFO: the enqueue history is what was removed, by the consumer or by an
   eviction, followed by the current queue, whose entries still hold the records
   their callers stored in them.
   */
  lemma EnqueueHistory(init: State, steps: seq<Step>, s: State, h: nat)
    requires Reaches(init, steps, s) && IsHandler(s, h)
    ensures var hd := s.handlers[h];
            && (forall k | 0 <= k < |hd.queue| :: hd.queue[k] in s.heap)
            && hd.enqueued == Records(hd.removed) + Queued(s.heap, hd.queue)
  {
    hide Owned, Init, Exec, Recorded;
    var owner := Invariants(init, steps, s);
    assert Tracked(s.heap, s.handlers[h]);
  }

  /**
   What the consumer has written is a subsequence of the enqueue order, so it
   keeps each thread's own order of calls, whatever the mix of policies.
   */
  lemma WrittenInOrder(init: State, steps: seq<Step>, s: State, h: nat) returns (idx: seq<nat>)
    requires Reaches(init, steps, s) && IsHandler(s, h)
    ensures EmbedsAt(s.handlers[h].out, s.handlers[h].enqueued, idx)
    ensures CallsInOrder(s.handlers[h].enqueued) && CallsInOrder(s.handlers[h].out)
  {
    var owner := Invariants(init, steps, s);
    var hd := s.handlers[h];
    assert Tracked(s.heap, hd);
    idx := TakenEmbeds(hd.removed);
    idx := idx[..|hd.out|];
    forall i | 0 <= i < |hd.out| ensures idx[i] < |hd.enqueued| && hd.enqueued[idx[i]] == hd.out[i] {
      assert Taken(hd.removed)[i] == hd.out[i];
      assert Records(hd.removed)[idx[i]] == hd.removed[idx[i]].record;
    }
  }
}
