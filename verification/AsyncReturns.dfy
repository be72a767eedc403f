/**
 Where the entries go and where calls end: which steps leave an entry to the
 garbage collector instead of the pool, and which end a call in a panic.
 */
module AsyncReturns {
  import opened Core
  import opened Policy
  import opened AsyncQueue
  import opened AsyncOwnership
  import opened AsyncEffects
  import opened AsyncCounters

  // ---------------------------------------------------------------- entries

  /** The entry is in the pool, or a thread, a queue slot or a consumer has it. */
  ghost predicate Somewhere(s: State, r: Ref) {
    exists spot :: At(s, spot, r)
  }

  predicate Full(hd: Handler) {
    !hd.queueClosed && |hd.queue| >= hd.capacity
  }

  /** The step by which the holder of r lets go of it without a PutEntry. */
  predicate Abandons(s: State, step: Step, r: Ref)
    requires Enabled(s, step)
  {
    match step
    case Send(t) =>
      var pc, hd := s.threads[t].pc, s.handlers[s.threads[t].pc.h];
      var level := s.heap[pc.ref].level;
      pc.ref == r && Full(hd) && !Says(hd, level, Block) && !Says(hd, level, DropOldest) && level in [0, 1, 2, 3]
    case Retry(t) =>
      s.threads[t].pc.ref == r && Full(s.handlers[s.threads[t].pc.h]) && s.heap[r].level in [0, 1, 2, 3]
    case Evict(t) => var queue := s.handlers[s.threads[t].pc.h].queue; queue != [] && queue[0] == r
    case Fallback(t, _) => s.threads[t].pc.ref == r
    case SyncWrite(t, ok) => s.threads[t].pc.ref == r && !s.threads[t].pc.always && !ok
    case Write(h, ok) => s.handlers[h].consumer.Writing? && s.handlers[h].consumer.ref == r && !ok
    case PoolDiscard(x) => x == r
    case _ => false
  }

  lemma GoneIsNowhere(s: State, owner: map<Ref, Place>, r: Ref)
    requires Owned(s, owner) && (r !in owner || owner[r].Gone?)
    ensures !Somewhere(s, r)
  {
  }

  lemma NowhereIsGone(s: State, owner: map<Ref, Place>, r: Ref)
    requires Owned(s, owner) && r in owner && !Somewhere(s, r)
    ensures Owned(s, owner[r := Gone])
  {
    assert !At(s, Pooled, r);
    forall t | 0 <= t < |s.threads| && ThreadHolds(s.threads[t].pc) ensures s.threads[t].pc.ref != r {
      assert !At(s, Spot.Thread(t), r);
    }
    forall h | 0 <= h < |s.handlers| && HoldsEntry(s.handlers[h].consumer) ensures s.handlers[h].consumer.ref != r {
      assert !At(s, Consumer(h), r);
    }
    forall h, k | 0 <= h < |s.handlers| && 0 <= k < |s.handlers[h].queue| ensures s.handlers[h].queue[k] != r {
      assert !At(s, Slot(h, k), r);
    }
  }

  /** Only a new call brings an entry back that nobody has. */
  lemma GoneStays(s: State, owner: map<Ref, Place>, step: Step, r: Ref)
    requires Owned(s, owner) && Enabled(s, step) && (r !in owner || owner[r].Gone?)
    requires !((step.Start? || step.StartSync?) && step.ref == r)
    ensures var after := OwnerAfter(s, owner, step); r !in after || after[r].Gone?
  {
  }

  lemma AbandonedIsGone(s: State, owner: map<Ref, Place>, step: Step, r: Ref)
    requires Owned(s, owner) && Enabled(s, step) && Abandons(s, step, r)
    ensures var after := OwnerAfter(s, owner, step); r in after && after[r].Gone?
  {
  }

  // Where an entry is after a step that does not abandon it, one lemma for each kind of spot.

  lemma PooledStays(s: State, step: Step, r: Ref)
    requires Enabled(s, step) && At(s, Pooled, r) && !Abandons(s, step, r)
    ensures Somewhere(Apply(s, step), r)
  {
    var s' := Apply(s, step);
    assert if (step.Start? || step.StartSync?) && step.ref == r then At(s', Spot.Thread(step.t), r) else At(s', Pooled, r);
  }

  /** The steps that try to send. */
  predicate Sends(step: Step) {
    step.Send? || step.BlockedSend? || step.Retry?
  }

  lemma SenderStays(s: State, step: Step, t: nat, r: Ref)
    requires Enabled(s, step) && Sends(step) && At(s, Spot.Thread(t), r) && !Abandons(s, step, r)
    ensures Somewhere(Apply(s, step), r)
  {
    hide IncrementDropped;
    var s' := Apply(s, step);
    if !At(s', Spot.Thread(t), r) {
      var h := s.threads[t].pc.h;
      assert At(s', Slot(h, |s.handlers[h].queue|), r);
    }
  }

  lemma CallerStays(s: State, step: Step, t: nat, r: Ref)
    requires Enabled(s, step) && !Sends(step) && Caller(step) == Some(t) && At(s, Spot.Thread(t), r) && !Abandons(s, step, r)
    ensures Somewhere(Apply(s, step), r)
  {
    hide IncrementDropped, AfterEvict, AfterCall;
    var s' := Apply(s, step);
    assert At(s', Spot.Thread(t), r) || At(s', Pooled, r);
  }

  lemma HeldStays(s: State, step: Step, t: nat, r: Ref)
    requires Enabled(s, step) && At(s, Spot.Thread(t), r) && !Abandons(s, step, r)
    ensures Somewhere(Apply(s, step), r)
  {
    hide Enabled, Apply, Abandons, EffectOf, Target;
    if Sends(step) {
      SenderStays(s, step, t, r);
    } else if Caller(step) == Some(t) {
      CallerStays(s, step, t, r);
    } else {
      if Caller(step).None? { HandlerShape(s, step); } else if Starts(step) { StartShape(s, step); } else { CallShape(s, step); }
      assert At(Apply(s, step), Spot.Thread(t), r);
    }
  }

  /** The queue when the consumer acts. */
  lemma QueueConsumed(heap: map<Ref, Record>, hd: Handler, e: Effect)
    requires CanAffect(heap, hd, e) && (e.Receives? || e.Writes? || e.Recycles? || e.Formats? || e.FindsEmpty?)
    ensures var hd' := Affect(heap, hd, e);
            || hd'.queue == hd.queue
            || (hd.queue != [] && hd'.queue == hd.queue[1..] && HoldsEntry(hd'.consumer) && hd'.consumer.ref == hd.queue[0])
  {
    hide IncrementDropped, AfterEvict;
  }

  /** The queue grows at its end or loses its head, which goes to the consumer unless it is evicted. */
  lemma QueueAfter(heap: map<Ref, Record>, hd: Handler, e: Effect)
    requires CanAffect(heap, hd, e)
    ensures var hd' := Affect(heap, hd, e);
            || hd'.queue == hd.queue
            || (e.Enqueues? && hd'.queue == hd.queue + [e.ref])
            || (hd.queue != [] && hd'.queue == hd.queue[1..]
                && (e.Evicts? || (HoldsEntry(hd'.consumer) && hd'.consumer.ref == hd.queue[0])))
  {
    hide IncrementDropped, AfterReceive, AfterWrite, AfterQueueEmpty, AfterRecycle, AfterFormat;
    if e.Receives? || e.Writes? || e.Recycles? || e.Formats? || e.FindsEmpty? {
      QueueConsumed(heap, hd, e);
    }
  }

  lemma EvictTarget(s: State, step: Step)
    requires Enabled(s, step) && EffectOf(s, step).Evicts?
    ensures step.Evict? && Target(s, step) == Some(s.threads[step.t].pc.h)
  {
  }

  lemma QueuedStays(s: State, step: Step, h: nat, k: nat, r: Ref)
    requires Enabled(s, step) && At(s, Slot(h, k), r) && !Abandons(s, step, r)
    ensures Somewhere(Apply(s, step), r)
  {
    hide Enabled, Apply, Affect, CanAffect, EffectOf, Target;
    var s' := Apply(s, step);
    StepEffect(s, step);
    if Target(s, step) == Some(h) {
      QueueAfter(s.heap, s.handlers[h], EffectOf(s, step));
      if EffectOf(s, step).Evicts? { EvictTarget(s, step); }
    }
    assert At(s', Slot(h, k), r) || At(s', Consumer(h), r) || (k > 0 && At(s', Slot(h, k - 1), r));
  }

  /** A consumer lets go of its entry when it recycles it, or when its write fails. */
  lemma ConsumerAfter(heap: map<Ref, Record>, hd: Handler, e: Effect)
    requires CanAffect(heap, hd, e) && HoldsEntry(hd.consumer)
    ensures var c := Affect(heap, hd, e).consumer;
            (HoldsEntry(c) && c.ref == hd.consumer.ref) || e.Recycles? || (e == Writes(false) && hd.consumer.Writing?)
  {
    hide IncrementDropped;
  }

  lemma ReceivedStays(s: State, step: Step, h: nat, r: Ref)
    requires Enabled(s, step) && At(s, Consumer(h), r) && !Abandons(s, step, r)
    ensures Somewhere(Apply(s, step), r)
  {
    hide Enabled, Apply, Affect, CanAffect, EffectOf, Target;
    if step == Recycle(h) {
      RecycledIsPooled(s, h);
    } else {
      StepEffect(s, step);
      if Target(s, step) == Some(h) {
        OtherTarget(s, step, h);
        ConsumerAfter(s.heap, s.handlers[h], EffectOf(s, step));
      }
      assert At(Apply(s, step), Consumer(h), r);
    }
  }

  lemma RecycledIsPooled(s: State, h: nat)
    requires Enabled(s, Recycle(h))
    ensures At(Apply(s, Recycle(h)), Pooled, s.handlers[h].consumer.ref)
  {
  }

  lemma OtherTarget(s: State, step: Step, h: nat)
    requires Enabled(s, step) && Target(s, step) == Some(h)
    ensures EffectOf(s, step).Recycles? ==> step == Recycle(h)
    ensures EffectOf(s, step) == Writes(false) ==> step == Write(h, false)
  {
  }

  lemma NotAbandoned(s: State, step: Step, r: Ref)
    requires Enabled(s, step) && Somewhere(s, r) && !Abandons(s, step, r)
    ensures Somewhere(Apply(s, step), r)
  {
    hide Enabled, Apply, Abandons;
    var spot :| At(s, spot, r);
    match spot
    case Pooled => PooledStays(s, step, r);
    case Thread(t) => HeldStays(s, step, t, r);
    case Slot(h, k) => QueuedStays(s, step, h, k, r);
    case Consumer(h) => ReceivedStays(s, step, h, r);
  }

  /**
   Exactly which entries stay in circulation, in every reachable state. An entry that
   somebody has, or that is pooled, is so after the step as well, unless it is a
   dropped arrival, the one evicted, the one a fallback wrote, the one whose own write
   failed, or the pool let go of it. Nothing but a new call brings an entry in.
   */
  lemma InCirculation(init: State, steps: seq<Step>, s: State, step: Step, r: Ref)
    requires Reaches(init, steps, s) && Enabled(s, step)
    ensures Somewhere(Apply(s, step), r)
            <==> (Somewhere(s, r) && !Abandons(s, step, r)) || ((step.Start? || step.StartSync?) && step.ref == r)
  {
    hide Enabled, Apply, Abandons, Somewhere, Owned, OwnerAfter, Reaches;
    var owner := OwnedRun(init, steps, s);
    if (step.Start? || step.StartSync?) && step.ref == r {
      NewCallHolds(s, step);
    } else if Somewhere(s, r) && !Abandons(s, step, r) {
      NotAbandoned(s, step, r);
    } else {
      if Somewhere(s, r) {
        AbandonedIsGone(s, owner, step, r);
      } else {
        if r in owner {
          NowhereIsGone(s, owner, r);
          owner := owner[r := Gone];
        }
        GoneStays(s, owner, step, r);
      }
      OwnedStep(s, owner, step);
      GoneIsNowhere(Apply(s, step), OwnerAfter(s, owner, step), r);
    }
  }

  lemma NewCallHolds(s: State, step: Step)
    requires Enabled(s, step) && (step.Start? || step.StartSync?)
    ensures Somewhere(Apply(s, step), step.ref)
  {
    assert At(Apply(s, step), Spot.Thread(step.t), step.ref);
  }

  // ---------------------------------------------------------------- panics

  /** What makes a call panic: a send on the closed channel, or a level without a drop counter where a drop is counted. */
  predicate PanicCause(s: State, step: Step)
    requires Enabled(s, step)
  {
    (Sends(step) || step.Evict?)
    && var pc, hd := s.threads[step.t].pc, s.handlers[s.threads[step.t].pc.h];
       var level := s.heap[pc.ref].level;
       match step
       case Send(_) =>
         hd.queueClosed || (Full(hd) && !Says(hd, level, Block) && !Says(hd, level, DropOldest) && level !in [0, 1, 2, 3])
       case BlockedSend(_) => hd.queueClosed
       case Retry(_) => hd.queueClosed || (Full(hd) && level !in [0, 1, 2, 3])
       case Evict(_) => (hd.queue != [] || hd.queueClosed) && level !in [0, 1, 2, 3]
  }

  lemma SendPanics(s: State, step: Step)
    requires Enabled(s, step) && Sends(step)
    ensures Apply(s, step).threads[step.t].pc.Panicked? <==> s.threads[step.t].pc.Panicked? || PanicCause(s, step)
  {
    hide IncrementDropped;
  }

  lemma OtherPanics(s: State, step: Step, t: nat)
    requires Enabled(s, step) && !Sends(step) && Caller(step) == Some(t)
    ensures Apply(s, step).threads[t].pc.Panicked? <==> s.threads[t].pc.Panicked? || PanicCause(s, step)
  {
    hide IncrementDropped, AfterEvict, AfterCall;
  }

  /**
   A call panics at exactly these steps, and no thread leaves a panic. An eviction that
   finds the queue empty and open counts nothing, so it does not panic at any level.
   */
  lemma PanicsExactly(s: State, step: Step, t: nat)
    requires Enabled(s, step) && IsThread(s, t)
    ensures var s' := Apply(s, step);
            && IsThread(s', t)
            && (s'.threads[t].pc.Panicked? <==> s.threads[t].pc.Panicked? || (Caller(step) == Some(t) && PanicCause(s, step)))
  {
    hide Enabled, Apply, EffectOf, Target, PanicCause;
    if Caller(step).None? { HandlerShape(s, step); } else if Starts(step) { StartShape(s, step); } else { CallShape(s, step); }
    if Caller(step) == Some(t) {
      if Sends(step) { SendPanics(s, step); } else { OtherPanics(s, step, t); }
    }
  }
}
