/**
 What a step of the protocol does to one handler and to the calling thread. A
 handler is only ever changed by one of a few effects, so an invariant of a
 single handler is proved over these instead of over the steps.
 */
module AsyncEffects {
  import opened Core
  import opened Policy
  import opened AsyncQueue

  datatype Effect =
    | Untouched
    | Submits(record: Record)
    | Enqueues(ref: Ref, record: Record)
    | Drops(record: Record)
    | Evicts(level: Level)
    | TimesOut
    | Bypasses(record: Record, ok: bool)
    | Receives
    | Writes(ok: bool)
    | Recycles
    | Formats
    | FindsEmpty
    | SeesClosed
    | HitsDeadline
    | Closes
    | ClosesQueue
    | TimerTicks
    | UsesTimer(call: TimerCall)

  predicate CanAffect(heap: map<Ref, Record>, hd: Handler, e: Effect) {
    match e
    case Enqueues(r, rec) => !hd.queueClosed && |hd.queue| < hd.capacity && r in heap && rec == heap[r]
    case Drops(rec) => !hd.queueClosed && |hd.queue| >= hd.capacity && Countable(rec.level)
    case Evicts(_) => hd.queue != [] ==> hd.queue[0] in heap
    case Receives => CanReceive(hd.consumer) && hd.queue != [] && hd.queue[0] in heap
    case Writes(_) => (hd.consumer.Writing? && hd.consumer.ref in heap) || hd.consumer.Flushing?
    case Recycles => hd.consumer.Recycling? || hd.consumer.RecyclingFormatted?
    case Formats => hd.consumer.Formatting? && hd.consumer.ref in heap
    case FindsEmpty => (hd.consumer.Looping? || hd.consumer.Collecting?) && hd.queue == []
    case SeesClosed => hd.consumer.Selecting? && hd.closed
    case HitsDeadline => hd.consumer == Looping(DrainLoop)
    case Closes => hd.closer.Open?
    case ClosesQueue => hd.closer.Waiting? && hd.consumer.Exited?
    case TimesOut => hd.timer.TimerTicked?
    case TimerTicks => hd.timer.TimerRunning?
    case _ => true
  }

  function Affect(heap: map<Ref, Record>, hd: Handler, e: Effect): Handler
    requires CanAffect(heap, hd, e)
  {
    match e
    case Untouched => hd
    case Submits(rec) => hd.(submitted := hd.submitted + [rec])
    case Enqueues(r, rec) => Enqueue(hd, r, rec)
    case Drops(rec) => hd.(stats := IncrementDropped(hd.stats, rec.level), dropped := hd.dropped + [rec])
    case Evicts(level) => AfterEvict(heap, hd, level)
    case TimesOut => hd.(stats := IncrementBlocked(hd.stats), timer := TimerOff)
    case Bypasses(rec, ok) => AfterBypass(hd, rec, ok)
    case Receives => AfterReceive(heap, hd)
    case Writes(ok) => AfterWrite(heap, hd, ok)
    case Recycles => AfterRecycle(hd)
    case Formats => AfterFormat(heap, hd)
    case FindsEmpty => AfterQueueEmpty(hd)
    case SeesClosed => hd.(consumer := Looping(DrainLoop))
    case HitsDeadline => hd.(consumer := Exited, deadlineFired := true)
    case Closes => hd.(closed := true, closer := Waiting)
    case ClosesQueue => hd.(queueClosed := true, closer := Closed)
    case TimerTicks => hd.(timer := TimerTicked)
    case UsesTimer(call) => hd.(timer := AfterCall(hd.timer, call))
  }

  /** The handler a step is about, if any. */
  function Target(s: State, step: Step): Option<nat>
    requires Enabled(s, step)
  {
    match step
    case Start(_, h, _, _, _) => Some(h)
    case StartSync(_, _, _, _, _) => None
    case SyncWrite(_, _) => None
    case SyncRecycle(_) => None
    case PoolDiscard(_) => None
    case Send(t) => Some(s.threads[t].pc.h)
    case BlockedSend(t) => Some(s.threads[t].pc.h)
    case BlockedTimeout(t) => Some(s.threads[t].pc.h)
    case BlockedClosed(t) => Some(s.threads[t].pc.h)
    case UseTimer(t) => Some(s.threads[t].pc.h)
    case Evict(t) => Some(s.threads[t].pc.h)
    case Retry(t) => Some(s.threads[t].pc.h)
    case Fallback(t, _) => Some(s.threads[t].pc.h)
    case Receive(h) => Some(h)
    case Write(h, _) => Some(h)
    case Recycle(h) => Some(h)
    case Format(h) => Some(h)
    case QueueEmpty(h) => Some(h)
    case SeeClosed(h) => Some(h)
    case Deadline(h) => Some(h)
    case Close(h) => Some(h)
    case CloseQueue(h) => Some(h)
    case CloseAgain(h) => Some(h)
    case TimerFire(h) => Some(h)
  }

  /** What a send does to the handler; `full` is what happens when there is no room. */
  function SendEffect(s: State, t: nat, full: Effect): Effect
    requires InHandle(s, t)
  {
    var pc := s.threads[t].pc;
    var hd := s.handlers[pc.h];
    if hd.queueClosed then Untouched
    else if |hd.queue| < hd.capacity then Enqueues(pc.ref, s.heap[pc.ref])
    else full
  }

  function DropEffect(rec: Record): Effect {
    if Countable(rec.level) then Drops(rec) else Untouched
  }

  function FullEffect(policy: OverflowPolicy, rec: Record): Effect {
    match policy
    case DropNewest => DropEffect(rec)
    case DropOldest => Untouched
    case Block => Untouched
  }

  function EffectOf(s: State, step: Step): Effect
    requires Enabled(s, step)
  {
    match step
    case Start(t, h, r, level, text) => Submits(Record(t, s.threads[t].calls, level, text))
    case Send(t) =>
      var pc := s.threads[t].pc;
      SendEffect(s, t, FullEffect(PolicyFor(s.handlers[pc.h].policies, s.heap[pc.ref].level), s.heap[pc.ref]))
    case BlockedSend(t) => SendEffect(s, t, Untouched)
    case BlockedTimeout(t) => TimesOut
    case UseTimer(t) => UsesTimer(CallOf(s.threads[t].pc))
    case Evict(t) => Evicts(s.heap[s.threads[t].pc.ref].level)
    case Retry(t) => SendEffect(s, t, DropEffect(s.heap[s.threads[t].pc.ref]))
    case Fallback(t, ok) => Bypasses(s.heap[s.threads[t].pc.ref], ok)
    case Receive(_) => Receives
    case Write(_, ok) => Writes(ok)
    case Recycle(_) => Recycles
    case Format(_) => Formats
    case QueueEmpty(_) => FindsEmpty
    case SeeClosed(_) => SeesClosed
    case Deadline(_) => HitsDeadline
    case Close(_) => Closes
    case CloseQueue(_) => ClosesQueue
    case TimerFire(_) => TimerTicks
    case _ => Untouched
  }

  /** The step changes its target by its effect, and no other handler. */
  ghost predicate Effective(s: State, step: Step)
    requires Enabled(s, step)
  {
    && |Apply(s, step).handlers| == |s.handlers|
    && (Target(s, step).None? ==> Apply(s, step).handlers == s.handlers)
    && (Target(s, step).Some? ==>
          var h := Target(s, step).value;
          && IsHandler(s, h)
          && CanAffect(s.heap, s.handlers[h], EffectOf(s, step))
          && Apply(s, step).handlers == s.handlers[h := Affect(s.heap, s.handlers[h], EffectOf(s, step))])
  }

  lemma SendEffective(s: State, step: Step)
    requires Enabled(s, step) && (step.Send? || step.BlockedSend? || step.Retry?)
    ensures Effective(s, step)
  {
  }

  lemma CallEffective(s: State, step: Step)
    requires Enabled(s, step) && !(step.Send? || step.BlockedSend? || step.Retry?)
    requires !(step.Receive? || step.Write? || step.Recycle? || step.Format? || step.QueueEmpty?)
    ensures Effective(s, step)
  {
  }

  lemma ConsumerEffective(s: State, step: Step)
    requires Enabled(s, step)
    requires step.Receive? || step.Write? || step.Recycle? || step.Format? || step.QueueEmpty?
    ensures Effective(s, step)
  {
  }

  /** A step changes its target by its effect, and no other handler. */
  lemma StepEffect(s: State, step: Step)
    requires Enabled(s, step)
    ensures |Apply(s, step).handlers| == |s.handlers|
    ensures Target(s, step).None? ==> Apply(s, step).handlers == s.handlers
    ensures Target(s, step).Some? ==>
              var h := Target(s, step).value;
              && IsHandler(s, h)
              && CanAffect(s.heap, s.handlers[h], EffectOf(s, step))
              && Apply(s, step).handlers == s.handlers[h := Affect(s.heap, s.handlers[h], EffectOf(s, step))]
  {
    hide Apply, Enabled, Affect, CanAffect, EffectOf, Target;
    if step.Send? || step.BlockedSend? || step.Retry? {
      SendEffective(s, step);
    } else if step.Receive? || step.Write? || step.Recycle? || step.Format? || step.QueueEmpty? {
      ConsumerEffective(s, step);
    } else {
      CallEffective(s, step);
    }
  }

  /** The thread whose call a step advances, if any. */
  function Caller(step: Step): Option<nat> {
    match step
    case Start(t, _, _, _, _) => Some(t)
    case StartSync(t, _, _, _, _) => Some(t)
    case Send(t) => Some(t)
    case BlockedSend(t) => Some(t)
    case BlockedTimeout(t) => Some(t)
    case BlockedClosed(t) => Some(t)
    case UseTimer(t) => Some(t)
    case Evict(t) => Some(t)
    case Retry(t) => Some(t)
    case Fallback(t, _) => Some(t)
    case SyncWrite(t, _) => Some(t)
    case SyncRecycle(t) => Some(t)
    case _ => None
  }

  predicate Starts(step: Step) {
    step.Start? || step.StartSync?
  }

  /** The thread that starts a call gets an entry nobody has and stores the call's record in it. */
  lemma StartShape(s: State, step: Step)
    requires Enabled(s, step) && Starts(step)
    ensures var s', t, r := Apply(s, step), step.t, step.ref;
            && t < |s.threads| && s.threads[t].pc.Idle? && Gettable(s, r)
            && |s'.threads| == |s.threads| && s'.threads == s.threads[t := s'.threads[t]]
            && ThreadHolds(s'.threads[t].pc) && s'.threads[t].pc.ref == r && s'.threads[t].calls == s.threads[t].calls + 1
            && OnHandler(s'.threads[t].pc) == step.Start? && (step.Start? ==> s'.threads[t].pc.h == step.h)
            && s'.heap == s.heap[r := Record(t, s.threads[t].calls, step.level, step.text)]
  {
  }

  /** The effects by which an entry leaves its caller for the handler's account. */
  predicate TakesOver(e: Effect, r: Ref, rec: Record) {
    (e.Enqueues? && e.ref == r && e.record == rec) || e == Drops(rec) || e == Bypasses(rec, true) || e == Bypasses(rec, false)
  }

  /** A call in progress keeps its entry until the handler takes it over; what is left then are calls on the timer. */
  predicate CallShaped(s: State, step: Step)
    requires Enabled(s, step) && Caller(step).Some?
  {
    var s', t, e := Apply(s, step), Caller(step).value, EffectOf(s, step);
    && t < |s.threads| && |s'.threads| == |s.threads| && s'.threads == s.threads[t := s'.threads[t]] && s'.heap == s.heap
    && var pc, pc' := s.threads[t].pc, s'.threads[t].pc;
    && !pc.Idle? && !pc.Panicked? && s'.threads[t].calls == s.threads[t].calls
    && (ThreadHolds(pc') ==> ThreadHolds(pc) && pc'.ref == pc.ref && OnHandler(pc') == OnHandler(pc))
    && (OnHandler(pc) ==> Target(s, step) == Some(pc.h) && pc.ref in s.heap
                          && (Inside(pc', pc.h) || pc'.Idle?)
                          && (!ThreadHolds(pc') <==> TakesOver(e, pc.ref, s.heap[pc.ref]))
                          && (e.Enqueues? || e.Drops? || e.Bypasses? ==> TakesOver(e, pc.ref, s.heap[pc.ref])))
    && (pc.Sent? ==> Target(s, step) == Some(pc.h) && e.UsesTimer? && (pc'.Idle? || pc' == Sent(pc.h, true)))
    && (!OnHandler(pc) && !pc.Sent? ==> Target(s, step).None? && e == Untouched && !pc'.Sent?)
    && !e.Submits?
  }

  lemma SendShape(s: State, step: Step)
    requires Enabled(s, step) && (step.Send? || step.BlockedSend? || step.Retry?)
    ensures CallShaped(s, step)
  {
  }

  lemma OtherShape(s: State, step: Step)
    requires Enabled(s, step) && Caller(step).Some? && !Starts(step) && !(step.Send? || step.BlockedSend? || step.Retry?)
    ensures CallShaped(s, step)
  {
  }

  lemma CallShape(s: State, step: Step)
    requires Enabled(s, step) && Caller(step).Some? && !Starts(step)
    ensures CallShaped(s, step)
  {
    hide CallShaped, Apply, Enabled;
    if step.Send? || step.BlockedSend? || step.Retry? { SendShape(s, step); } else { OtherShape(s, step); }
  }

  lemma HandlerShape(s: State, step: Step)
    requires Enabled(s, step) && Caller(step).None?
    ensures Apply(s, step).threads == s.threads && Apply(s, step).heap == s.heap
    ensures var e := EffectOf(s, step); !e.Submits? && !e.Enqueues? && !e.Drops? && !e.Bypasses?
  {
  }
}
