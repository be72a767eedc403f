/**
 Shutdown: once a handler is closed and nobody sends to it, its consumer returns
 after a bounded number of its own steps, and a Close that no caller overlaps
 leaves nothing behind.
 */
module AsyncShutdown {
  import opened Core
  import opened AsyncQueue
  import opened AsyncOwnership
  import opened AsyncEffects
  import opened AsyncOrder
  import opened AsyncConservation

  /** How far the consumer is from returning, the queue aside. */
  function PhaseRank(c: Consumer): nat {
    match c
    case Exited => 0
    case Looping(DrainLoop) => 1
    case Recycling(_, DrainLoop) => 2
    case Writing(_, DrainLoop) => 3
    case Selecting => 2
    case Looping(BatchLoop) => 3
    case Recycling(_, BatchLoop) => 4
    case Writing(_, BatchLoop) => 5
    case Flushing(_) => 3
    case Collecting(_) => 4
    case RecyclingFormatted(_, _) => 5
    case Formatting(_, _) => 6
  }

  /** The consumer steps still possible, when nothing more is enqueued. */
  function Measure(hd: Handler): nat {
    5 * |hd.queue| + PhaseRank(hd.consumer)
  }

  predicate ConsumerStep(step: Step, h: nat) {
    (step.Receive? || step.Write? || step.Recycle? || step.Format? || step.QueueEmpty? || step.SeeClosed? || step.Deadline?)
    && step.h == h
  }

  predicate ByConsumer(e: Effect) {
    e.Receives? || ConsumerEffect(e)
  }

  lemma MeasureAffect(heap: map<Ref, Record>, hd: Handler, e: Effect)
    requires CanAffect(heap, hd, e)
    ensures ByConsumer(e) ==> Measure(Affect(heap, hd, e)) < Measure(hd)
    ensures !e.Enqueues? ==> Measure(Affect(heap, hd, e)) <= Measure(hd)
  {
    if e.Evicts? { EvictMoves(heap, hd, e.level); }
  }

  /** Every consumer step comes closer to the end, and only an enqueue moves it away. */
  lemma MeasureStep(s: State, step: Step, h: nat)
    requires Enabled(s, step) && IsHandler(s, h)
    ensures IsHandler(Apply(s, step), h)
    ensures var a, b := s.handlers[h], Apply(s, step).handlers[h];
            && |a.enqueued| <= |b.enqueued|
            && (|b.enqueued| == |a.enqueued| ==> Measure(b) + (if ConsumerStep(step, h) then 1 else 0) <= Measure(a))
  {
    hide Apply, Enabled, Affect, CanAffect, Measure;
    StepEffect(s, step);
    if Target(s, step) == Some(h) {
      var e := EffectOf(s, step);
      EnqueuedAfter(s.heap, s.handlers[h], e);
      MeasureAffect(s.heap, s.handlers[h], e);
      assert ConsumerStep(step, h) ==> ByConsumer(e);
    }
  }

  function ConsumerSteps(steps: seq<Step>, h: nat): nat {
    if steps == [] then 0 else
    ConsumerSteps(steps[..|steps| - 1], h) + if ConsumerStep(steps[|steps| - 1], h) then 1 else 0
  }

  /**
   From any state, in any run during which nothing is enqueued to h, its consumer
   takes at most Measure steps: inside the batch loop and the drain loop too.
   */
  lemma {:induction false} ConsumerBounded(s: State, steps: seq<Step>, s': State, h: nat)
    requires Exec(s, steps) == Some(s') && IsHandler(s, h)
    ensures IsHandler(s', h) && |s.handlers[h].enqueued| <= |s'.handlers[h].enqueued|
    ensures |s'.handlers[h].enqueued| == |s.handlers[h].enqueued| ==>
              ConsumerSteps(steps, h) + Measure(s'.handlers[h]) <= Measure(s.handlers[h])
  {
    if steps != [] {
      var front, step := steps[..|steps| - 1], steps[|steps| - 1];
      var m := Exec(s, front).value;
      ConsumerBounded(s, front, m, h);
      MeasureStep(m, step, h);
    }
  }

  /**
   While a handler is closed, its consumer can always take a step until it has
   returned, and then Close can go on: with ConsumerBounded, wg.Wait returns.
   */
  lemma CloseProgresses(init: State, steps: seq<Step>, s: State, h: nat) returns (step: Step)
    requires Reaches(init, steps, s) && IsHandler(s, h) && s.handlers[h].closer.Waiting?
    ensures Enabled(s, step)
    ensures if s.handlers[h].consumer.Exited? then step == CloseQueue(h) else ConsumerStep(step, h)
  {
    var hd := s.handlers[h];
    var _ := Invariants(init, steps, s);
    assert Tracked(s.heap, hd);
    var _ := AccountedRun(_ => true, init, steps, s, h);
    match hd.consumer
    case Exited => step := CloseQueue(h);
    case Selecting => step := SeeClosed(h);
    case Looping(_) => step := if hd.queue == [] then QueueEmpty(h) else Receive(h);
    case Collecting(_) => step := if hd.queue == [] then QueueEmpty(h) else Receive(h);
    case Writing(_, _) => step := Write(h, true);
    case Flushing(_) => step := Write(h, true);
    case Recycling(_, _) => step := Recycle(h);
    case RecyclingFormatted(_, _) => step := Recycle(h);
    case Formatting(_, _) => step := Format(h);
  }

  // ------------------------------------------------------------ a quiet Close

  predicate NobodyInside(threads: seq<Thread>, h: nat) {
    forall t | 0 <= t < |threads| :: !Inside(threads[t].pc, h)
  }

  /** The consumer returns early only after a failed write or when the drain deadline fires. */
  predicate DrainedOrCut(hd: Handler) {
    && (hd.consumer.Exited? ==> WriteFailed(hd) || hd.deadlineFired || hd.queue == [])
    && hd.phantom == 0 && hd.uncounted == 0
  }

  lemma DrainedAffect(heap: map<Ref, Record>, hd: Handler, e: Effect)
    requires CanAffect(heap, hd, e) && DrainedOrCut(hd) && Phased(hd)
    requires ByConsumer(e) || e == Untouched || e == Closes || e == ClosesQueue || e == TimerTicks
    ensures DrainedOrCut(Affect(heap, hd, e))
  {
  }

  /** With nobody inside Handle on h and no new call, only the consumer and Close touch it. */
  lemma QuietStep(s: State, step: Step, h: nat)
    requires Enabled(s, step) && IsHandler(s, h) && NobodyInside(s.threads, h)
    requires DrainedOrCut(s.handlers[h]) && Phased(s.handlers[h])
    requires !(step.Start? && step.h == h)
    ensures IsHandler(Apply(s, step), h) && NobodyInside(Apply(s, step).threads, h)
    ensures DrainedOrCut(Apply(s, step).handlers[h])
    ensures Apply(s, step).handlers[h].submitted == s.handlers[h].submitted
    ensures Apply(s, step).handlers[h].bypassFailed == s.handlers[h].bypassFailed
  {
    hide Apply, Affect, CanAffect, DrainedOrCut, Phased;
    StepEffect(s, step);
    if Starts(step) { StartShape(s, step); } else if Caller(step).Some? { CallShape(s, step); } else { HandlerShape(s, step); }
    if Target(s, step) == Some(h) {
      assert Caller(step).None?;
      DrainedAffect(s.heap, s.handlers[h], EffectOf(s, step));
      HistoriesAfter(s.heap, s.handlers[h], EffectOf(s, step));
    }
  }

  /** The steps from position i on hand nothing to h. */
  predicate NoCallsFrom(steps: seq<Step>, i: nat, h: nat) {
    forall j | i <= j < |steps| :: !(steps[j].Start? && steps[j].h == h)
  }

  /** Before Close, and with nobody inside, the consumer can only have returned on a failed write. */
  lemma QuietStart(init: State, steps: seq<Step>, s: State, h: nat)
    requires Reaches(init, steps, s) && IsHandler(s, h) && NobodyInside(s.threads, h)
    ensures Phased(s.handlers[h]) && (s.handlers[h].closer.Open? ==> DrainedOrCut(s.handlers[h]))
  {
    hide Exec, Init, Owned, Balanced;
    var _ := AccountedRun(_ => true, init, steps, s, h);
  }

  lemma {:induction false} QuietRun(init: State, steps: seq<Step>, i: nat, s0: State, s: State, h: nat)
    requires Reaches(init, steps, s) && i < |steps| && Exec(init, steps[..i]) == Some(s0)
    requires IsHandler(s0, h) && steps[i] == Close(h) && NobodyInside(s0.threads, h)
    requires NoCallsFrom(steps, i, h)
    ensures IsHandler(s, h) && NobodyInside(s.threads, h) && DrainedOrCut(s.handlers[h])
  {
    hide Apply, NobodyInside, Init, DrainedOrCut, Phased;
    var n := |steps| - 1;
    var m := Exec(init, steps[..n]).value;
    if i < n {
      assert steps[..n][..i] == steps[..i];
      QuietRun(init, steps[..n], i, s0, m, h);
    }
    QuietStart(init, steps[..n], m, h);
    QuietStep(m, steps[n], h);
  }

  /**
   If every producer has finished before Close, no write fails and the drain
   deadline does not fire, then when Close has returned the queue is empty and
   ProcessedTotal plus the drops is the number of entries handled.
   */
  lemma QuietClose(init: State, steps: seq<Step>, i: nat, s0: State, s: State, h: nat)
    requires Reaches(init, steps, s) && i < |steps| && Exec(init, steps[..i]) == Some(s0)
    requires IsHandler(s0, h) && steps[i] == Close(h) && NobodyInside(s0.threads, h)
    requires NoCallsFrom(steps, i, h)
    ensures IsHandler(s, h)
    ensures var hd := s.handlers[h];
            hd.closer.Closed? && !WriteFailed(hd) && hd.bypassFailed == [] && !hd.deadlineFired ==>
              && hd.queue == []
              && hd.stats.processed + hd.stats.TotalDropped() == |hd.submitted|
              && hd.out == Taken(hd.removed)
  {
    hide Init, Exec, Owned;
    QuietRun(init, steps, i, s0, s, h);
    ConservationOfCounters(init, steps, s, h);
    NobodyInFlight(_ => true, s.heap, s.threads, h);
    var _ := AccountedRun(_ => true, init, steps, s, h);
    var _ := Invariants(init, steps, s);
    assert Tracked(s.heap, s.handlers[h]);
  }

  /**
   Once a Close has begun, any other finds `closed` closed and returns at once without a
   change, even while the first still waits; once it has ended the consumer is gone for good.
   */
  lemma CloseTwice(init: State, steps: seq<Step>, s: State, h: nat)
    requires Reaches(init, steps, s) && IsHandler(s, h) && !s.handlers[h].closer.Open?
    ensures !Enabled(s, Close(h)) && Enabled(s, CloseAgain(h)) && Apply(s, CloseAgain(h)) == s
    ensures s.handlers[h].closer.Closed? ==> forall step | ConsumerStep(step, h) :: !Enabled(s, step)
  {
    hide Owned, Balanced, Exec, Init;
    var _ := AccountedRun(_ => true, init, steps, s, h);
  }
}
