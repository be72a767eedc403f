/**
 The batching consumer refines the entry-at-a-time consumer: every run in which
 no batch write fails is, step by step, a run of the same program with an
 entry-at-a-time consumer in its place. A batch that is still being collected has,
 over there, been written entry by entry already.
 */
module AsyncRefinement {
  import opened Core
  import opened Policy
  import opened AsyncQueue
  import opened AsyncEffects
  import opened AsyncOrder
  import opened AsyncConservation
  import opened AsyncRuns

  /** The entries formatted into batchBuf and not written yet. */
  function Pending(c: Consumer): seq<Record> {
    match c
    case Formatting(_, batch) => batch
    case RecyclingFormatted(_, batch) => batch
    case Collecting(batch) => batch
    case Flushing(batch) => batch
    case _ => []
  }

  /** Where the entry-at-a-time consumer stands meanwhile. */
  function OneByOne(c: Consumer): Consumer {
    match c
    case Formatting(r, _) => Writing(r, BatchLoop)
    case RecyclingFormatted(r, _) => Recycling(r, BatchLoop)
    case Collecting(_) => Looping(BatchLoop)
    case Flushing(_) => Selecting
    case _ => c
  }

  function Unbatched(hd: Handler): Handler {
    var pending := Pending(hd.consumer);
    hd.(batching := false, consumer := OneByOne(hd.consumer), out := hd.out + pending,
        stats := AddProcessed(hd.stats, if hd.consumer.Flushing? then 0 else |pending|))
  }

  /** The same state with handler h taking entries one at a time. */
  function Unbatch(s: State, h: nat): State
    requires IsHandler(s, h)
  {
    s.(handlers := s.handlers[h := Unbatched(s.handlers[h])])
  }

  /** The step over there: formatting is writing, and the batch write is nothing any more. */
  function Counterpart(s: State, step: Step, h: nat): Option<Step>
    requires IsHandler(s, h)
  {
    if step == Format(h) then Some(Write(h, true))
    else if step.Write? && step.h == h && s.handlers[h].consumer.Flushing? then None
    else Some(step)
  }

  /** A batch write does not fail. */
  predicate NoBatchFailure(s: State, step: Step, h: nat)
    requires IsHandler(s, h)
  {
    step.Write? && step.h == h && s.handlers[h].consumer.Flushing? ==> step.ok
  }

  // ---------------------------------------------------------------- effects

  function CounterEffect(e: Effect): Effect {
    if e.Formats? then Writes(true) else e
  }

  predicate ConsumerActs(e: Effect) {
    e.Receives? || e.Writes? || e.Recycles? || e.Formats? || e.FindsEmpty? || e.SeesClosed? || e.HitsDeadline?
  }

  lemma ReceiveUnbatched(heap: map<Ref, Record>, hd: Handler)
    requires CanReceive(hd.consumer) && hd.queue != [] && hd.queue[0] in heap && hd.batching
    ensures AfterReceive(heap, Unbatched(hd)) == Unbatched(AfterReceive(heap, hd))
  {
  }

  lemma WriteUnbatched(heap: map<Ref, Record>, hd: Handler, ok: bool)
    requires hd.consumer.Writing? && hd.consumer.ref in heap
    ensures AfterWrite(heap, Unbatched(hd), ok) == Unbatched(AfterWrite(heap, hd, ok))
  {
  }

  lemma FormatUnbatched(heap: map<Ref, Record>, hd: Handler)
    requires hd.consumer.Formatting? && hd.consumer.ref in heap
    ensures AfterWrite(heap, Unbatched(hd), true) == Unbatched(AfterFormat(heap, hd))
  {
  }

  lemma OtherUnbatched(heap: map<Ref, Record>, hd: Handler, e: Effect)
    requires CanAffect(heap, hd, e) && hd.batching && (e.Recycles? || e.FindsEmpty? || e.SeesClosed? || e.HitsDeadline?)
    ensures CanAffect(heap, Unbatched(hd), e) && Affect(heap, Unbatched(hd), e) == Unbatched(Affect(heap, hd, e))
  {
  }

  lemma ConsumerUnbatched(heap: map<Ref, Record>, hd: Handler, e: Effect)
    requires CanAffect(heap, hd, e) && hd.batching && ConsumerActs(e) && !(e.Writes? && hd.consumer.Flushing?)
    ensures CanAffect(heap, Unbatched(hd), CounterEffect(e))
    ensures Affect(heap, Unbatched(hd), CounterEffect(e)) == Unbatched(Affect(heap, hd, e))
  {
    hide AfterReceive, AfterWrite, AfterFormat, AfterRecycle, AfterQueueEmpty;
    match e
    case Receives => ReceiveUnbatched(heap, hd);
    case Writes(ok) => WriteUnbatched(heap, hd, ok);
    case Formats => FormatUnbatched(heap, hd);
    case _ => OtherUnbatched(heap, hd, e);
  }

  lemma EvictUnbatched(heap: map<Ref, Record>, hd: Handler, level: Level)
    requires hd.queue != [] ==> hd.queue[0] in heap
    ensures AfterEvict(heap, Unbatched(hd), level) == Unbatched(AfterEvict(heap, hd, level))
  {
  }

  lemma CallUnbatched(heap: map<Ref, Record>, hd: Handler, e: Effect)
    requires CanAffect(heap, hd, e) && hd.batching && !ConsumerActs(e)
    ensures CanAffect(heap, Unbatched(hd), e)
    ensures Affect(heap, Unbatched(hd), e) == Unbatched(Affect(heap, hd, e))
  {
    match e
    case Evicts(level) => EvictUnbatched(heap, hd, level);
    case Enqueues(r, rec) =>
    case _ =>
  }

  /** An effect over here is its counterpart over there. */
  lemma AffectUnbatched(heap: map<Ref, Record>, hd: Handler, e: Effect)
    requires CanAffect(heap, hd, e) && hd.batching && !(e.Writes? && hd.consumer.Flushing?)
    ensures CanAffect(heap, Unbatched(hd), CounterEffect(e))
    ensures Affect(heap, Unbatched(hd), CounterEffect(e)) == Unbatched(Affect(heap, hd, e))
  {
    hide Affect, CanAffect, Unbatched;
    if ConsumerActs(e) {
      ConsumerUnbatched(heap, hd, e);
    } else {
      CallUnbatched(heap, hd, e);
    }
  }

  /** The batch write: over there, nothing. */
  lemma BatchWriteUnbatched(heap: map<Ref, Record>, hd: Handler)
    requires CanAffect(heap, hd, Writes(true)) && hd.consumer.Flushing?
    ensures Unbatched(Affect(heap, hd, Writes(true))) == Unbatched(hd)
  {
  }

  // ---------------------------------------------------------------- steps

  lemma CounterpartEnabled(s: State, step: Step, h: nat)
    requires Enabled(s, step) && IsHandler(s, h) && s.handlers[h].batching && Counterpart(s, step, h).Some?
    ensures Enabled(Unbatch(s, h), Counterpart(s, step, h).value)
  {
  }

  lemma CounterpartTarget(s: State, step: Step, h: nat)
    requires Enabled(s, step) && IsHandler(s, h) && s.handlers[h].batching && Counterpart(s, step, h).Some?
    requires Enabled(Unbatch(s, h), Counterpart(s, step, h).value)
    ensures Target(Unbatch(s, h), Counterpart(s, step, h).value) == Target(s, step)
    ensures EffectOf(Unbatch(s, h), Counterpart(s, step, h).value)
         == if Target(s, step) == Some(h) then CounterEffect(EffectOf(s, step)) else EffectOf(s, step)
  {
  }

  predicate SameElsewhere(a: State, b: State) {
    a.threads == b.threads && a.heap == b.heap && a.pool == b.pool
  }

  /** A sender sees no difference. */
  predicate SameRoom(a: Handler, b: Handler) {
    a.queueClosed == b.queueClosed && |a.queue| == |b.queue| && a.capacity == b.capacity
  }

  lemma SetsAlike(a: State, b: State, t: nat, pc: Pc, h: nat, hd: Handler, hd': Handler)
    requires IsThread(a, t) && IsThread(b, t) && IsHandler(a, h) && IsHandler(b, h) && SameElsewhere(a, b)
    ensures SameElsewhere(SetBoth(a, t, pc, h, hd), SetBoth(b, t, pc, h, hd'))
  {
  }

  lemma SendsAlike(a: State, b: State, t: nat, full: Pc, sent: Pc)
    requires InHandle(a, t) && InHandle(b, t) && SameElsewhere(a, b)
    requires SameRoom(a.handlers[a.threads[t].pc.h], b.handlers[a.threads[t].pc.h])
    ensures SameElsewhere(TrySend(a, t, full, sent), TrySend(b, t, full, sent))
  {
    hide Enqueue, SetBoth, SetHandler, PolicyFor, Countable;
    var pc := a.threads[t].pc;
    var queued, queued' := Enqueue(a.handlers[pc.h], pc.ref, a.heap[pc.ref]), Enqueue(b.handlers[pc.h], pc.ref, b.heap[pc.ref]);
    SetsAlike(a, b, t, sent, pc.h, queued, queued');
  }

  lemma TrySendElsewhere(s: State, t: nat, full: Pc, sent: Pc, h: nat)
    requires InHandle(s, t) && IsHandler(s, h)
    ensures InHandle(Unbatch(s, h), t) && SameElsewhere(TrySend(Unbatch(s, h), t, full, sent), TrySend(s, t, full, sent))
  {
    hide TrySend;
    SendsAlike(Unbatch(s, h), s, t, full, sent);
  }

  lemma DropElsewhere(s: State, t: nat, h: nat)
    requires InHandle(s, t) && IsHandler(s, h)
    ensures InHandle(Unbatch(s, h), t) && SameElsewhere(DropArriving(Unbatch(s, h), t), DropArriving(s, t))
  {
  }

  lemma SendElsewhere(s: State, step: Step, h: nat)
    requires Enabled(s, step) && IsHandler(s, h) && (step.Send? || step.Retry? || step.BlockedSend?) && Enabled(Unbatch(s, h), step)
    ensures SameElsewhere(Apply(Unbatch(s, h), step), Apply(s, step))
  {
    var pc := s.threads[step.t].pc;
    TrySendElsewhere(s, step.t, pc, if step.BlockedSend? then Sent(pc.h, false) else Idle, h);
    DropElsewhere(s, step.t, h);
    hide TrySend, DropArriving;
  }

  lemma CallElsewhere(s: State, step: Step, h: nat)
    requires Enabled(s, step) && IsHandler(s, h) && Caller(step).Some? && Enabled(Unbatch(s, h), step)
    ensures SameElsewhere(Apply(Unbatch(s, h), step), Apply(s, step))
  {
    hide SendStep, RetryStep, TrySend;
    if step.Send? || step.Retry? || step.BlockedSend? {
      SendElsewhere(s, step, h);
    }
  }

  lemma HandlerElsewhere(s: State, step: Step, h: nat)
    requires Enabled(s, step) && IsHandler(s, h) && s.handlers[h].batching && Caller(step).None? && Counterpart(s, step, h).Some?
    requires Enabled(Unbatch(s, h), Counterpart(s, step, h).value)
    ensures SameElsewhere(Apply(Unbatch(s, h), Counterpart(s, step, h).value), Apply(s, step))
  {
    hide AfterReceive, AfterWrite, AfterRecycle, AfterFormat, AfterQueueEmpty;
  }

  /** The step over here and its counterpart over there lead to states that correspond again. */
  lemma StepUnbatched(s: State, step: Step, h: nat)
    requires Enabled(s, step) && IsHandler(s, h) && s.handlers[h].batching && NoBatchFailure(s, step, h)
    ensures IsHandler(Apply(s, step), h) && Apply(s, step).handlers[h].batching
    ensures match Counterpart(s, step, h)
            case None => Unbatch(Apply(s, step), h) == Unbatch(s, h)
            case Some(step') => Enabled(Unbatch(s, h), step') && Apply(Unbatch(s, h), step') == Unbatch(Apply(s, step), h)
  {
    hide Apply, Enabled, Affect, CanAffect, Unbatched, EffectOf, Target;
    BatchingKept(s, step, h);
    match Counterpart(s, step, h)
    case None =>
      FlushUnbatched(s, step, h);
    case Some(step') =>
      CounterpartEnabled(s, step, h);
      CounterpartTarget(s, step, h);
      if Caller(step).Some? { CallElsewhere(s, step, h); } else { HandlerElsewhere(s, step, h); }
      HandlersCorrespond(s, step, h);
  }

  lemma BatchingKept(s: State, step: Step, h: nat)
    requires Enabled(s, step) && IsHandler(s, h)
    ensures IsHandler(Apply(s, step), h) && Apply(s, step).handlers[h].batching == s.handlers[h].batching
  {
    hide Apply, Enabled, EffectOf, Target;
    StepEffect(s, step);
    if Target(s, step) == Some(h) {
      BatchingFixed(s.heap, s.handlers[h], EffectOf(s, step));
    }
  }

  lemma BatchingFixed(heap: map<Ref, Record>, hd: Handler, e: Effect)
    requires CanAffect(heap, hd, e)
    ensures Affect(heap, hd, e).batching == hd.batching
  {
    if e.Evicts? { EvictMoves(heap, hd, e.level); }
  }

  lemma FlushUnbatched(s: State, step: Step, h: nat)
    requires Enabled(s, step) && IsHandler(s, h) && step == Write(h, true) && s.handlers[h].consumer.Flushing?
    ensures IsHandler(Apply(s, step), h) && Unbatch(Apply(s, step), h) == Unbatch(s, h)
  {
    BatchWriteUnbatched(s.heap, s.handlers[h]);
    var s' := Apply(s, step);
    assert s'.handlers[h := Unbatched(s'.handlers[h])] == s.handlers[h := Unbatched(s.handlers[h])];
  }

  lemma HandlersCorrespond(s: State, step: Step, h: nat)
    requires Enabled(s, step) && IsHandler(s, h) && s.handlers[h].batching && Counterpart(s, step, h).Some?
    requires Enabled(Unbatch(s, h), Counterpart(s, step, h).value) && IsHandler(Apply(s, step), h)
    requires Target(Unbatch(s, h), Counterpart(s, step, h).value) == Target(s, step)
    requires EffectOf(Unbatch(s, h), Counterpart(s, step, h).value)
          == if Target(s, step) == Some(h) then CounterEffect(EffectOf(s, step)) else EffectOf(s, step)
    ensures Apply(Unbatch(s, h), Counterpart(s, step, h).value).handlers == Unbatch(Apply(s, step), h).handlers
  {
    var u, step' := Unbatch(s, h), Counterpart(s, step, h).value;
    if Target(s, step) == Some(h) { FlushingWrites(s, step, h); }
    hide Apply, Enabled, Affect, CanAffect, Unbatched, EffectOf, Target;
    StepEffect(s, step);
    StepEffect(u, step');
    if Target(s, step).Some? {
      var g := Target(s, step).value;
      if g == h {
        AffectUnbatched(s.heap, s.handlers[h], EffectOf(s, step));
      }
      assert u.heap == s.heap;
      forall i | 0 <= i < |s.handlers| ensures Apply(u, step').handlers[i] == Unbatch(Apply(s, step), h).handlers[i] {}
    }
  }

  lemma FlushingWrites(s: State, step: Step, h: nat)
    requires Enabled(s, step) && IsHandler(s, h) && Counterpart(s, step, h).Some? && Target(s, step) == Some(h)
    ensures !(EffectOf(s, step).Writes? && s.handlers[h].consumer.Flushing?)
  {
  }

  // ---------------------------------------------------------------- runs

  /** No batch write of h fails in the run. */
  ghost predicate NoBatchFailures(init: State, steps: seq<Step>, h: nat) {
    forall i | 0 <= i < |steps| ::
      match Exec(init, steps[..i])
      case None => true
      case Some(m) => IsHandler(m, h) ==> NoBatchFailure(m, steps[i], h)
  }

  lemma UnbatchedInit(init: State, h: nat)
    requires Init(init) && IsHandler(init, h)
    ensures Init(Unbatch(init, h))
  {
  }

  /**
   Refinement: whatever batches the scheduler cuts, a run of the batching consumer
   without failed batch writes is a run of the entry-at-a-time consumer that ends in
   the corresponding state: same threads, pool, queues and drops, and the output
   and the counter ahead by exactly the batch in hand.
   */
  lemma {:induction false} BatchingRefines(init: State, steps: seq<Step>, s: State, h: nat) returns (steps': seq<Step>)
    requires Reaches(init, steps, s) && IsHandler(init, h) && init.handlers[h].batching && NoBatchFailures(init, steps, h)
    ensures IsHandler(s, h) && s.handlers[h].batching
    ensures Reaches(Unbatch(init, h), steps', Unbatch(s, h)) && |steps'| <= |steps|
  {
    hide Init, Apply, Enabled, Unbatch, NoBatchFailure;
    UnbatchedInit(init, h);
    if steps == [] {
      steps' := [];
    } else {
      var front, step := steps[..|steps| - 1], steps[|steps| - 1];
      var m := Exec(init, front).value;
      FrontNoFailures(init, steps, h);
      var front' := BatchingRefines(init, front, m, h);
      assert Exec(init, steps[..|steps| - 1]) == Some(m);
      StepUnbatched(m, step, h);
      match Counterpart(m, step, h)
      case None => steps' := front';
      case Some(step') =>
        steps' := front' + [step'];
        ExecSnoc(Unbatch(init, h), front', step');
    }
  }

  lemma FrontNoFailures(init: State, steps: seq<Step>, h: nat)
    requires NoBatchFailures(init, steps, h) && steps != []
    ensures NoBatchFailures(init, steps[..|steps| - 1], h)
  {
    hide Exec, NoBatchFailure;
    var front := steps[..|steps| - 1];
    forall i | 0 <= i < |front|
      ensures match Exec(init, front[..i]) case None => true case Some(m) => IsHandler(m, h) ==> NoBatchFailure(m, front[i], h)
    {
      assert front[..i] == steps[..i] && front[i] == steps[i];
    }
  }

  /** The consumer is between entries: it holds nothing and its batch, if any, is written. */
  predicate Settled(hd: Handler) {
    && (hd.consumer.Selecting? || hd.consumer.Looping? || hd.consumer.Recycling? || hd.consumer.Exited?)
    && !WriteFailed(hd)
  }

  /**
   However the scheduler cut the queue into batches, the batching consumer has
   written exactly the entries it took, in order, as they were when submitted,
   although each was recycled (and perhaps refilled by another call) before its
   batch was written; and it has counted exactly these.
   */
  lemma SettledOutput(init: State, steps: seq<Step>, s: State, h: nat)
    requires Reaches(init, steps, s) && IsHandler(s, h) && Settled(s.handlers[h])
    ensures s.handlers[h].out == Taken(s.handlers[h].removed)
    ensures s.handlers[h].stats.processed == |s.handlers[h].out| + |s.handlers[h].bypassed|
  {
    var _ := Invariants(init, steps, s);
    assert Tracked(s.heap, s.handlers[h]);
    var _ := AccountedRun(_ => true, init, steps, s, h);
  }
}
