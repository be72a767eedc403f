/**
 DropOldest with a single producer and a concurrent consumer: the queue holds
 the newest submissions, nothing submitted is ever dropped on arrival, and the
 "still full" branch of the third select is unreachable.
 */
module AsyncDropOldest {
  import opened Core
  import opened Policy
  import opened AsyncQueue
  import opened AsyncOwnership
  import opened AsyncEffects
  import opened AsyncOrder
  import opened AsyncConservation

  /** Only thread t logs to h, always at a level whose policy is DropOldest and that can be counted. */
  predicate SoleProducer(init: State, steps: seq<Step>, t: nat, h: nat)
    requires IsHandler(init, h)
  {
    forall j | 0 <= j < |steps| && steps[j].Start? && steps[j].h == h ::
      steps[j].t == t && Countable(steps[j].level)
      && PolicyFor(init.handlers[h].policies, steps[j].level).DropOldest?
  }

  /** Every submission but the one in progress has been enqueued, and a retry finds room. */
  ghost predicate AllEnqueued(s: State, t: nat, h: nat)
    requires IsHandler(s, h)
  {
    var hd := s.handlers[h];
    && hd.dropped == [] && hd.bypassed == [] && hd.bypassFailed == [] && |hd.queue| <= hd.capacity && 0 < hd.capacity
    && (forall u | 0 <= u < |s.threads| && Inside(s.threads[u].pc, h) :: u == t && OnHandler(s.threads[u].pc))
    && if t < |s.threads| && OnHandler(s.threads[t].pc) && s.threads[t].pc.h == h then
         var pc := s.threads[t].pc;
         && pc.ref in s.heap && hd.submitted == hd.enqueued + [s.heap[pc.ref]]
         && Countable(s.heap[pc.ref].level) && PolicyFor(hd.policies, s.heap[pc.ref].level).DropOldest?
         && (pc.First? || pc.Evicting? || pc.Retrying? || (pc.Panicked? && hd.queueClosed))
         && (pc.Retrying? ==> hd.queueClosed || |hd.queue| < hd.capacity)
       else
         hd.submitted == hd.enqueued
  }

  /** The fields of a handler that matter here, after an effect by someone else than its producer. */
  lemma OthersAffect(heap: map<Ref, Record>, hd: Handler, e: Effect)
    requires CanAffect(heap, hd, e) && !e.Submits? && !e.Enqueues? && !e.Drops? && !e.Bypasses? && !e.Evicts?
    ensures var hd' := Affect(heap, hd, e);
            && hd'.policies == hd.policies && hd'.capacity == hd.capacity && |hd'.queue| <= |hd.queue|
            && (hd.queueClosed ==> hd'.queueClosed)
  {
    hide IncrementBlocked, AddProcessed;
    match e
    case Receives =>
    case Writes(ok) =>
    case _ =>
  }

  lemma PoliciesKept(heap: map<Ref, Record>, hd: Handler, e: Effect)
    requires CanAffect(heap, hd, e)
    ensures Affect(heap, hd, e).policies == hd.policies
  {
    if e.Evicts? { EvictMoves(heap, hd, e.level); }
  }

  lemma {:induction false} PoliciesFixed(init: State, steps: seq<Step>, s: State, h: nat)
    requires Exec(init, steps) == Some(s) && IsHandler(init, h)
    ensures IsHandler(s, h) && s.handlers[h].policies == init.handlers[h].policies
  {
    if steps != [] {
      var m := Exec(init, steps[..|steps| - 1]).value;
      hide Apply, Enabled, Affect, CanAffect, EffectOf;
      PoliciesFixed(init, steps[..|steps| - 1], m, h);
      StepEffect(m, steps[|steps| - 1]);
      if Target(m, steps[|steps| - 1]) == Some(h) {
        PoliciesKept(m.heap, m.handlers[h], EffectOf(m, steps[|steps| - 1]));
      }
    }
  }

  lemma ProducerStep(s: State, owner: map<Ref, Place>, step: Step, t: nat, h: nat)
    requires Owned(s, owner) && Enabled(s, step) && IsHandler(s, h) && AllEnqueued(s, t, h)
    requires Caller(step).Some? && !Starts(step) && Target(s, step) == Some(h)
    ensures IsHandler(Apply(s, step), h) && AllEnqueued(Apply(s, step), t, h)
  {
    hide Owned, TakesOver;
    CallShape(s, step);
    StepEffect(s, step);
    HistoriesAfter(s.heap, s.handlers[h], EffectOf(s, step));
    assert Caller(step) == Some(t);
  }

  lemma ProducerStarts(s: State, owner: map<Ref, Place>, step: Step, t: nat, h: nat)
    requires Owned(s, owner) && Enabled(s, step) && IsHandler(s, h) && AllEnqueued(s, t, h)
    requires Starts(step)
    requires step.Start? && step.h == h ==>
               step.t == t && Countable(step.level) && PolicyFor(s.handlers[h].policies, step.level).DropOldest?
    ensures IsHandler(Apply(s, step), h) && AllEnqueued(Apply(s, step), t, h)
  {
    StartShape(s, step);
    StepEffect(s, step);
    if step.Start? && step.h == h { HistoriesAfter(s.heap, s.handlers[h], EffectOf(s, step)); }
    if t < |s.threads| && OnHandler(s.threads[t].pc) { assert owner[s.threads[t].pc.ref] == AtThread(t); }
  }

  lemma OthersStep(s: State, step: Step, t: nat, h: nat)
    requires Enabled(s, step) && IsHandler(s, h) && AllEnqueued(s, t, h)
    requires !Starts(step) && (Caller(step).None? || Target(s, step) != Some(h))
    ensures IsHandler(Apply(s, step), h) && AllEnqueued(Apply(s, step), t, h)
  {
    hide Apply, Affect, CanAffect;
    StepEffect(s, step);
    if Caller(step).Some? { CallShape(s, step); } else { HandlerShape(s, step); }
    if Target(s, step) == Some(h) {
      HistoriesAfter(s.heap, s.handlers[h], EffectOf(s, step));
      OthersAffect(s.heap, s.handlers[h], EffectOf(s, step));
    }
  }

  lemma {:induction false} DropOldestRun(init: State, steps: seq<Step>, s: State, t: nat, h: nat)
      returns (owner: map<Ref, Place>)
    requires Reaches(init, steps, s) && IsHandler(init, h) && SoleProducer(init, steps, t, h)
    ensures IsHandler(s, h) && AllEnqueued(s, t, h) && Owned(s, owner)
  {
    if steps == [] {
      owner := map[];
    } else {
      var front, step := steps[..|steps| - 1], steps[|steps| - 1];
      var m := Exec(init, front).value;
      owner := DropOldestRun(init, front, m, t, h);
      PoliciesFixed(init, front, m, h);
      if Starts(step) {
        ProducerStarts(m, owner, step, t, h);
      } else if Caller(step).Some? && Target(m, step) == Some(h) {
        ProducerStep(m, owner, step, t, h);
      } else {
        OthersStep(m, step, t, h);
      }
      OwnedStep(m, owner, step);
      owner := OwnerAfter(m, owner, step);
    }
  }

  /**
   Between two calls every submission has been enqueued and the queue is exactly
   the last k submissions, for a k up to the capacity; a retry after the eviction
   never finds the queue full, at any interleaving.
   */
  lemma KeepsNewest(init: State, steps: seq<Step>, s: State, t: nat, h: nat)
    requires Reaches(init, steps, s) && IsHandler(init, h) && SoleProducer(init, steps, t, h)
    ensures IsHandler(s, h) && s.handlers[h].dropped == []
    ensures var hd := s.handlers[h];
            (t < |s.threads| && OnHandler(s.threads[t].pc) ==> s.threads[t].pc.h != h) ==>
              && hd.enqueued == hd.submitted && |hd.queue| <= hd.capacity && |hd.queue| <= |hd.submitted|
              && (forall k | 0 <= k < |hd.queue| ::
                    hd.queue[k] in s.heap && s.heap[hd.queue[k]] == hd.submitted[|hd.submitted| - |hd.queue| + k])
    ensures forall u | 0 <= u < |s.threads| && s.threads[u].pc.Retrying? && s.threads[u].pc.h == h ::
              CanSend(s.handlers[h])
  {
    hide Owned, Init, Exec, Countable;
    var _ := DropOldestRun(init, steps, s, t, h);
    QueueIsNewest(init, steps, s, h);
  }

  /** The queue is the end of the enqueue history. */
  lemma QueueIsNewest(init: State, steps: seq<Step>, s: State, h: nat)
    requires Reaches(init, steps, s) && IsHandler(s, h)
    ensures var hd := s.handlers[h];
            && |hd.queue| <= |hd.enqueued|
            && (forall k | 0 <= k < |hd.queue| ::
                  hd.queue[k] in s.heap && s.heap[hd.queue[k]] == hd.enqueued[|hd.enqueued| - |hd.queue| + k])
  {
    var _ := Invariants(init, steps, s);
    assert Tracked(s.heap, s.handlers[h]);
  }
}
