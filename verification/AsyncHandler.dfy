/**
 Handle, process and Close as the source writes them
 (handler/consolehandler/console_async.go, handler/filehandler/file_async.go and
 the batching process of handler/console.go), between steps of the rest of the
 program. Every action on shared state is one step of the machine, so each of
 these methods is a piece of one of its runs.
 */
module AsyncHandler {
  import opened Core
  import opened Policy
  import opened AsyncQueue
  import opened AsyncOwnership
  import opened AsyncEffects
  import opened AsyncOrder
  import opened AsyncConservation
  import opened AsyncShutdown
  import opened AsyncRuns
  import AsyncTimer

  /** Whose code is running. */
  datatype Who = Producer(t: nat) | ConsumerOf(h: nat) | CloserOf(h: nat)

  predicate Mine(who: Who, step: Step) {
    match who
    case Producer(t) => Caller(step) == Some(t)
    case ConsumerOf(h) => ConsumerStep(step, h)
    case CloserOf(h) => step == Close(h) || step == CloseQueue(h)
  }

  /** The steps of a run that are whose. */
  function Own(who: Who, steps: seq<Step>): seq<Step> {
    if steps == [] then [] else
    Own(who, steps[..|steps| - 1]) + if Mine(who, steps[|steps| - 1]) then [steps[|steps| - 1]] else []
  }

  lemma OwnSnoc(who: Who, steps: seq<Step>, step: Step)
    ensures Own(who, steps + [step]) == Own(who, steps) + if Mine(who, step) then [step] else []
  {
    assert (steps + [step])[..|steps|] == steps;
  }

  /** What nobody else can change under one's feet. */
  predicate Undisturbed(who: Who, a: State, b: State) {
    match who
    case Producer(t) =>
      && IsThread(a, t) && IsThread(b, t) && b.threads[t] == a.threads[t]
      && (InHandle(a, t) ==> InHandle(b, t)) && (AtTimer(a, t) ==> AtTimer(b, t))
    case ConsumerOf(h) =>
      && IsHandler(a, h) && IsHandler(b, h) && b.handlers[h].consumer == a.handlers[h].consumer
      && b.handlers[h].batching == a.handlers[h].batching
    case CloserOf(h) =>
      && IsHandler(a, h) && IsHandler(b, h) && b.handlers[h].closer == a.handlers[h].closer
      && b.handlers[h].closed == a.handlers[h].closed && b.handlers[h].queueClosed == a.handlers[h].queueClosed
  }

  lemma ConsumerKept(heap: map<Ref, Record>, hd: Handler, e: Effect)
    requires CanAffect(heap, hd, e)
    ensures Affect(heap, hd, e).batching == hd.batching
    ensures !ByConsumer(e) ==> Affect(heap, hd, e).consumer == hd.consumer
    ensures !e.Closes? && !e.ClosesQueue? ==>
              var b := Affect(heap, hd, e);
              b.closer == hd.closer && b.closed == hd.closed && b.queueClosed == hd.queueClosed
  {
    if e.Evicts? { EvictMoves(heap, hd, e.level); }
  }

  lemma ProducerUndisturbed(t: nat, s: State, step: Step)
    requires Enabled(s, step) && Caller(step) != Some(t) && IsThread(s, t)
    ensures Undisturbed(Producer(t), s, Apply(s, step))
  {
    hide Apply, Enabled;
    StepEffect(s, step);
    if Starts(step) { StartShape(s, step); } else if Caller(step).Some? { CallShape(s, step); } else { HandlerShape(s, step); }
  }

  lemma NotMyEffect(who: Who, s: State, step: Step)
    requires Enabled(s, step) && !Mine(who, step) && !who.Producer? && Target(s, step) == Some(who.h)
    ensures who.ConsumerOf? ==> !ByConsumer(EffectOf(s, step))
    ensures who.CloserOf? ==> !EffectOf(s, step).Closes? && !EffectOf(s, step).ClosesQueue?
  {
  }

  lemma HandlerUndisturbed(who: Who, s: State, step: Step)
    requires Enabled(s, step) && !Mine(who, step) && !who.Producer? && IsHandler(s, who.h)
    ensures Undisturbed(who, s, Apply(s, step))
  {
    hide Apply, Enabled, Affect, CanAffect, EffectOf, Target, Mine;
    StepEffect(s, step);
    if Target(s, step) == Some(who.h) {
      NotMyEffect(who, s, step);
      ConsumerKept(s.heap, s.handlers[who.h], EffectOf(s, step));
    }
  }

  predicate Present(who: Who, s: State) {
    match who
    case Producer(t) => IsThread(s, t)
    case ConsumerOf(h) => IsHandler(s, h)
    case CloserOf(h) => IsHandler(s, h)
  }

  lemma OthersDisturbNot(who: Who, s: State, step: Step)
    requires Enabled(s, step) && !Mine(who, step)
    requires Present(who, s)
    ensures Undisturbed(who, s, Apply(s, step))
  {
    hide Apply, Enabled, Undisturbed;
    if who.Producer? {
      ProducerUndisturbed(who.t, s, step);
    } else {
      HandlerUndisturbed(who, s, step);
    }
  }

  /**
   The program as seen by one of its goroutines. `schedule` is what everybody else
   is going to do, in order and as far as it can be done; nothing is assumed of it.
   */
  class World {
    const who: Who
    var s: State
    var schedule: seq<Step>
    ghost const init: State
    ghost var trace: seq<Step>
    ghost var own: seq<Step>    // the steps of `who` in it

    /** The state is one a run has reached. */
    ghost predicate Valid()
      reads this
    {
      Reaches(init, trace, s) && own == Own(who, trace) && Present(who, s)
    }

    /** One action of this goroutine. */
    method Take(step: Step)
      requires Valid() && Mine(who, step) && Enabled(s, step) && Present(who, Apply(s, step))
      modifies `s, `trace, `own
      ensures Valid() && s == Apply(old(s), step) && own == old(own) + [step]
    {
      ExecSnoc(init, trace, step);
      OwnSnoc(who, trace, step);
      s := Apply(s, step);
      trace, own := trace + [step], own + [step];
    }

    /** Others run for a while. */
    method Pause()
      requires Valid()
      modifies `s, `schedule, `trace
      ensures Valid() && Undisturbed(who, old(s), s)
      ensures |schedule| < |old(schedule)| || (schedule == old(schedule) == [] && s == old(s))
    {
      var running := true;
      while running && schedule != []
        invariant Valid() && Undisturbed(who, old(s), s)
        invariant |schedule| < |old(schedule)| || (running && schedule == old(schedule) && s == old(s))
        decreases |schedule|
      {
        var step := schedule[0];
        schedule := schedule[1..];
        if Enabled(s, step) && !Mine(who, step) {
          OthersDisturbNot(who, s, step);
          ExecSnoc(init, trace, step);
          OwnSnoc(who, trace, step);
          Further(who, old(s), s, Apply(s, step));
          s := Apply(s, step);
          trace := trace + [step];
        }
        running := *;
      }
    }

    /** The head of a queue is an entry. */
    lemma HeadIsEntry(h: nat)
      requires Valid() && IsHandler(s, h)
      ensures HeadInHeap(s, h)
    {
      if s.handlers[h].queue != [] {
        AddressesAreEntries(init, trace, s, Slot(h, 0), s.handlers[h].queue[0]);
      }
    }

    /** The call is over: it has returned, or a send on the closed queue or a counter has panicked. */
    ghost predicate Over(t: nat)
      reads this
    {
      IsThread(s, t) && (s.threads[t].pc.Idle? || s.threads[t].pc.Panicked?)
    }

    /** The synchronous write of the Block policy. */
    method WriteHere(t: nat, ok: bool) returns (err: bool)
      requires Valid() && who == Producer(t) && InHandle(s, t) && s.threads[t].pc.FallingBack?
      modifies this
      ensures Valid() && Over(t) && own == old(own) + [Fallback(t, ok)] && err == !ok
    {
      Pause();
      Take(Fallback(t, ok));
      err := !ok;
    }

    /** Stop, and drain the channel if it found the timer off. */
    method StopAndDrain(t: nat) returns (ghost calls: seq<Step>)
      requires Valid() && who == Producer(t) && AtTimer(s, t) && CallOf(s.threads[t].pc).StopTimer?
      modifies this
      ensures Valid() && IsThread(s, t) && Stopped(t, calls) && own == old(own) + calls
      ensures s.threads[t].pc == OnceStopped(old(s.threads[t].pc)) && (OnHandler(s.threads[t].pc) ==> InHandle(s, t))
    {
      Pause();
      calls := [UseTimer(t)];
      Take(UseTimer(t));
      var pc := s.threads[t].pc;
      if (pc.Arming? && pc.call.DrainTimer?) || ((pc.Sent? || pc.Leaving?) && pc.drain) {
        Pause();
        calls := calls + [UseTimer(t)];
        Take(UseTimer(t));
      }
    }

    /**
     Block with a full queue: stop, drain and reset the handler's one timer, then the
     select of a send, its tick and `closed`; after a send or `closed` the timer is
     stopped and drained again. When everybody else has stopped, time still passes and
     a running timer ticks; a caller without one waits on.
     */
    method BlockOrFallBack(t: nat, ok: bool) returns (err: bool, ghost arms: seq<Step>, ghost stops: seq<Step>)
      requires Valid() && who == Producer(t) && InHandle(s, t) && s.threads[t].pc.Arming? && s.threads[t].pc.call.StopTimer?
      modifies this
      ensures Valid() && Armed(t, arms)
      ensures || (Over(t) && own == old(own) + arms + [BlockedSend(t)] + stops && !err
                  && (Stopped(t, stops) || (s.threads[t].pc.Panicked? && stops == [])))
              || (Over(t) && own == old(own) + arms + [BlockedTimeout(t), Fallback(t, ok)] && err == !ok && stops == [])
              || (Over(t) && own == old(own) + arms + [BlockedClosed(t)] + stops + [Fallback(t, ok)] && err == !ok && Stopped(t, stops))
              || (LeftWaiting(t) && own == old(own) + arms && !err && stops == [])
    {
      hide Apply, Enabled, Reaches, Own;
      err, stops := false, [];
      arms := Arm(t);
      AwaitChange(t);
      var h := s.threads[t].pc.h;
      var send: bool, closing: bool := *, *;
      var room, ticked := CanSend(s.handlers[h]), s.handlers[h].timer.TimerTicked?;
      if room && (send || !(s.handlers[h].closed || ticked)) {
        stops := SendAndStop(t);
      } else if s.handlers[h].closed && (closing || !ticked) {
        MayLeave(s, t);
        Take(BlockedClosed(t));
        stops := StopAndDrain(t);
        err := WriteHere(t, ok);
      } else if ticked {
        MayTimeOut(s, t);
        Take(BlockedTimeout(t));
        err := WriteHere(t, ok);
      }
    }

    /** Stop, drain and Reset. */
    method Arm(t: nat) returns (ghost arms: seq<Step>)
      requires Valid() && who == Producer(t) && InHandle(s, t) && s.threads[t].pc.Arming? && s.threads[t].pc.call.StopTimer?
      modifies this
      ensures Valid() && InHandle(s, t) && s.threads[t].pc.Blocked? && Armed(t, arms) && own == old(own) + arms
    {
      ghost var calls := StopAndDrain(t);
      Pause();
      Take(UseTimer(t));
      arms := calls + [UseTimer(t)];
    }

    /** The send of a caller that waited; Stop comes later. */
    method SendAndStop(t: nat) returns (ghost stops: seq<Step>)
      requires Valid() && who == Producer(t) && Enabled(s, BlockedSend(t))
      modifies this
      ensures Valid() && Over(t) && own == old(own) + [BlockedSend(t)] + stops
      ensures Stopped(t, stops) || (s.threads[t].pc.Panicked? && stops == [])
    {
      stops := [];
      Take(BlockedSend(t));
      if s.threads[t].pc.Sent? {
        stops := StopAndDrain(t);
      }
    }

    /** Wait until one of the three is ready, or nothing is going to happen any more. */
    method AwaitChange(t: nat)
      requires Valid() && who == Producer(t) && InHandle(s, t) && s.threads[t].pc.Blocked?
      modifies `s, `schedule, `trace
      ensures Valid() && Undisturbed(who, old(s), s) && InHandle(s, t)
      ensures var hd := s.handlers[s.threads[t].pc.h];
              CanSend(hd) || hd.closed || hd.timer.TimerTicked? || (hd.timer.TimerOff? && schedule == [])
    {
      hide Reaches, Apply, Enabled, Own;
      Pause();
      var h := s.threads[t].pc.h;
      while schedule != [] && !CanSend(s.handlers[h]) && !s.handlers[h].closed && !s.handlers[h].timer.TimerTicked?
        invariant Valid() && Undisturbed(who, old(s), s) && InHandle(s, t) && s.threads[t].pc.h == h
        decreases |schedule|
      {
        ghost var before := s;
        Pause();
        Further(who, old(s), before, s);
      }
      if s.handlers[h].timer.TimerRunning? && !CanSend(s.handlers[h]) && !s.handlers[h].closed {
        ghost var before := s;
        TimePasses(h);
        Further(who, old(s), before, s);
      }
    }

    /** The block timeout has passed. */
    method TimePasses(h: nat)
      requires Valid() && IsHandler(s, h) && s.handlers[h].timer.TimerRunning?
      modifies `s, `trace
      ensures Valid() && Undisturbed(who, old(s), s) && IsHandler(s, h) && s.handlers[h].timer.TimerTicked?
    {
      ghost var step := TimerFire(h);
      TimerFires(s, h);
      hide Apply, Enabled, Reaches, Own;
      OthersDisturbNot(who, s, step);
      ExecSnoc(init, trace, step);
      OwnSnoc(who, trace, step);
      Further(who, s, s, Apply(s, step));
      s := Apply(s, TimerFire(h));
      trace := trace + [step];
    }

    /** The caller still waits: nothing is ready, its tick is gone, and nobody is left to act. */
    ghost predicate LeftWaiting(t: nat)
      reads this
    {
      IsThread(s, t) && s.threads[t].pc.Blocked? && AsyncTimer.Stranded(s, t, s.threads[t].pc.h) && schedule == []
    }

    /** DropOldest with a full queue: remove one entry, then try once more. */
    method EvictAndRetry(t: nat)
      requires Valid() && who == Producer(t) && InHandle(s, t) && s.threads[t].pc.Evicting?
      modifies this
      ensures Valid() && Over(t)
      ensures own == old(own) + [Evict(t)] || own == old(own) + [Evict(t), Retry(t)]
    {
      hide Reaches, IncrementDropped, Own;
      Pause();
      HeadIsEntry(s.threads[t].pc.h);
      Take(Evict(t));
      if s.threads[t].pc.Retrying? {
        Pause();
        Take(Retry(t));
      }
    }

    /**
     Handle: the policy of the entry's level decides what a full queue means. A call
     takes at most eight actions of its own, up to five of them on the timer, and is
     over after them, unless it waits for room and its tick has gone to somebody else;
     only a failed synchronous write is reported.
     */
    method Handle(t: nat, ok: bool) returns (err: bool)
      requires Valid() && who == Producer(t) && InHandle(s, t) && s.threads[t].pc.First?
      modifies this
      ensures Valid() && (Over(t) || LeftWaiting(t))
      ensures old(own) <= own && |own| <= |old(own)| + 8
      ensures err <==> own != [] && own[|own| - 1] == Fallback(t, false) && |own| > |old(own)|
      ensures LeftWaiting(t) ==> |own| > |old(own)| && own[|old(own)|] == Send(t) && Armed(t, own[|old(own)| + 1..])
    {
      hide Apply, Enabled, Reaches, Own, AsyncTimer.Stranded;
      Pause();
      err := false;
      SendLeads(s, t);
      var pc := s.threads[t].pc;
      var policy := PolicyFor(s.handlers[pc.h].policies, s.heap[pc.ref].level);
      var room := CanSend(s.handlers[pc.h]);
      Take(Send(t));
      if !room {
        match policy
        case DropNewest =>
        case DropOldest => EvictAndRetry(t);
        case Block =>
          ghost var arms, stops;
          err, arms, stops := BlockOrFallBack(t, ok);
          assert (old(own) + [Send(t)] + arms)[|old(own)| + 1..] == arms;
      }
    }

    // -------------------------------------------------------------- the consumer

    ghost predicate Consumes(h: nat)
      reads this
    {
      Valid() && who == ConsumerOf(h)
    }

    /** The rest of the schedule is shorter, or it is over and the consumer is closer to its end. */
    twostate predicate Closer(h: nat)
      requires IsHandler(s, h) && IsHandler(old(s), h)
      reads this
    {
      |schedule| < |old(schedule)| || (schedule == old(schedule) && Measure(s.handlers[h]) < Measure(old(s.handlers[h])))
    }

    /** One action of the consumer, some time later. */
    method Act(h: nat, step: Step)
      requires Consumes(h) && ConsumerStep(step, h) && Enabled(s, step)
      modifies `s, `trace, `own
      ensures Consumes(h) && s == Apply(old(s), step) && own == old(own) + [step] && Closer(h)
    {
      ConsumerCloser(s, step, h);
      Take(step);
    }

    /** An action on the entry at hand: formatting it, recycling it, or a write. */
    method ActLater(h: nat, step: Step)
      requires Consumes(h) && ConsumerStep(step, h)
      requires match s.handlers[h].consumer
               case Writing(_, _) => step.Write?
               case Flushing(_) => step.Write?
               case Recycling(_, _) => step.Recycle?
               case RecyclingFormatted(_, _) => step.Recycle?
               case Formatting(_, _) => step.Format?
               case _ => false
      modifies this
      ensures Consumes(h) && Closer(h)
      ensures var c, c' := old(s.handlers[h].consumer), s.handlers[h].consumer;
              match c
              case Writing(r, loop) => c' == if step.ok then Recycling(r, loop) else Exited
              case Flushing(_) => c' == if step.ok then Selecting else Exited
              case Recycling(_, loop) => c' == Looping(loop)
              case RecyclingFormatted(_, batch) => c' == Collecting(batch)
              case Formatting(_, _) => c'.RecyclingFormatted?
              case _ => true
    {
      Pause();
      if HoldsEntry(s.handlers[h].consumer) {
        AddressesAreEntries(init, trace, s, Consumer(h), s.handlers[h].consumer.ref);
      }
      Act(h, step);
    }

    /** What a select of the consumer offers: the queue, `closed`, the deadline, or nothing. */
    method Select(h: nat, step: Step)
      requires Consumes(h) && ConsumerStep(step, h)
      requires var hd := s.handlers[h];
               match step
               case Receive(_) => CanReceive(hd.consumer) && hd.queue != []
               case QueueEmpty(_) => (hd.consumer.Looping? || hd.consumer.Collecting?) && hd.queue == []
               case SeeClosed(_) => hd.consumer.Selecting? && hd.closed
               case Deadline(_) => hd.consumer == Looping(DrainLoop)
               case _ => false
      modifies `s, `trace, `own
      ensures Consumes(h) && Closer(h)
      ensures var c, c' := old(s.handlers[h].consumer), s.handlers[h].consumer;
              match step
              case Receive(_) => if c.Looping? then c'.Writing? && c'.loop == c.loop
                                 else c'.Formatting? || (c.Selecting? && c'.Writing? && c'.loop == BatchLoop)
              case QueueEmpty(_) => if c.Collecting? then c'.Flushing? else if c.loop.BatchLoop? then c'.Selecting? else c'.Exited?
              case SeeClosed(_) => c' == Looping(DrainLoop)
              case Deadline(_) => c'.Exited?
              case _ => true
    {
      HeadIsEntry(h);
      Act(h, step);
    }

    /** The write of one entry and its PutEntry; false when the consumer has returned on an error. */
    method WriteAndRecycle(h: nat, loop: Loop, ok: bool)
      requires Consumes(h) && s.handlers[h].consumer.Writing? && s.handlers[h].consumer.loop == loop
      modifies this
      ensures Consumes(h) && Closer(h)
      ensures s.handlers[h].consumer == if ok then Looping(loop) else Exited
    {
      ActLater(h, Write(h, ok));
      if ok {
        ActLater(h, Recycle(h));
      }
    }

    /** No further than before, and closer unless the consumer is still where it was. */
    twostate predicate NoFurther(h: nat, c: AsyncQueue.Consumer)
      requires IsHandler(s, h) && IsHandler(old(s), h)
      reads this
    {
      Closer(h) || (s.handlers[h].consumer == c && schedule == old(schedule) && Measure(s.handlers[h]) == Measure(old(s.handlers[h])))
    }

    /** The inner loop of process, after a first entry or after `closed`. */
    method DrainEntries(h: nat, loop: Loop)
      requires Consumes(h) && s.handlers[h].consumer == Looping(loop)
      modifies this
      ensures Consumes(h) && Closer(h)
      ensures s.handlers[h].consumer.Exited? || (loop.BatchLoop? && s.handlers[h].consumer.Selecting?)
    {
      hide Apply, Enabled, Reaches;
      while s.handlers[h].consumer.Looping?
        invariant Consumes(h)
        invariant var c := s.handlers[h].consumer; c == Looping(loop) || c.Exited? || (loop.BatchLoop? && c.Selecting?)
        invariant NoFurther(h, Looping(loop))
        decreases |schedule|, Measure(s.handlers[h])
      {
        Pause();
        var ok: bool, late: bool := *, *;
        if loop.DrainLoop? && late {
          Select(h, Deadline(h));
        } else if s.handlers[h].queue == [] {
          Select(h, QueueEmpty(h));
        } else {
          Select(h, Receive(h));
          WriteAndRecycle(h, loop, ok);
        }
      }
    }

    /** The batch path of process: format and recycle until the queue is empty, then one write. */
    method CollectAndWrite(h: nat)
      requires Consumes(h) && s.handlers[h].consumer.Formatting?
      modifies this
      ensures Consumes(h) && Closer(h)
      ensures s.handlers[h].consumer.Exited? || s.handlers[h].consumer.Selecting?
    {
      hide Apply, Enabled, Reaches;
      ActLater(h, Format(h));
      ActLater(h, Recycle(h));
      while s.handlers[h].consumer.Collecting?
        invariant Consumes(h) && Closer(h)
        invariant s.handlers[h].consumer.Collecting? || s.handlers[h].consumer.Flushing?
        decreases |schedule|, Measure(s.handlers[h])
      {
        Pause();
        if s.handlers[h].queue == [] {
          Select(h, QueueEmpty(h));
        } else {
          Select(h, Receive(h));
          ActLater(h, Format(h));
          ActLater(h, Recycle(h));
        }
      }
      var ok: bool := *;
      ActLater(h, Write(h, ok));
    }

    /**
     process. It ends only by returning: on a failed write, or once `closed` is seen
     and the queue was found empty or the deadline fired. Otherwise everybody else has
     nothing left to do, the queue is empty, and it waits.
     */
    method Process(h: nat)
      requires Consumes(h) && s.handlers[h].consumer.Selecting?
      modifies this
      ensures Consumes(h)
      ensures || s.handlers[h].consumer.Exited?
              || (s.handlers[h].consumer.Selecting? && s.handlers[h].queue == [] && !s.handlers[h].closed && schedule == [])
    {
      hide Apply, Enabled, Reaches;
      while s.handlers[h].consumer.Selecting?
        invariant Consumes(h) && (s.handlers[h].consumer.Selecting? || s.handlers[h].consumer.Exited?)
        decreases |schedule|, Measure(s.handlers[h])
      {
        Pause();
        var first: bool := *;
        if s.handlers[h].queue != [] && (first || !s.handlers[h].closed) {
          Select(h, Receive(h));
          if s.handlers[h].consumer.Formatting? {
            CollectAndWrite(h);
          } else {
            var ok: bool := *;
            WriteAndRecycle(h, BatchLoop, ok);
            if ok {
              DrainEntries(h, BatchLoop);
            }
          }
        } else if s.handlers[h].closed {
          Select(h, SeeClosed(h));
          DrainEntries(h, DrainLoop);
        } else if schedule == [] {
          return;
        }
      }
    }

    // -------------------------------------------------------------- Close

    lemma OpenUntilClosed(h: nat)
      requires Valid() && IsHandler(s, h) && !s.handlers[h].closed
      ensures s.handlers[h].closer.Open?
    {
      var _ := AccountedRun(_ => true, init, trace, s, h);
    }

    /**
     Close: nothing if it was called before; otherwise tell the consumer, wait for it,
     and close the queue. It is left waiting only if the others have stopped without
     the consumer having returned.
     */
    method Close(h: nat)
      requires Valid() && who == CloserOf(h)
      modifies this
      ensures Valid() && s.handlers[h].closed
      ensures old(s.handlers[h].closed) ==> own == old(own)
      ensures !old(s.handlers[h].closed) ==>
                || (own == old(own) + [AsyncQueue.Close(h), CloseQueue(h)] && s.handlers[h].queueClosed && s.handlers[h].consumer.Exited?)
                || (own == old(own) + [AsyncQueue.Close(h)] && schedule == [] && !s.handlers[h].consumer.Exited?)
    {
      hide Reaches, IncrementDropped, Own;
      Pause();
      if s.handlers[h].closed {
        return;
      }
      OpenUntilClosed(h);
      Take(AsyncQueue.Close(h));
      Pause();
      while !s.handlers[h].consumer.Exited? && schedule != []
        invariant Valid() && own == old(own) + [AsyncQueue.Close(h)] && !old(s.handlers[h].closed)
        invariant s.handlers[h].closed && s.handlers[h].closer.Waiting?
        decreases |schedule|
      {
        Pause();
      }
      if s.handlers[h].consumer.Exited? {
        Take(CloseQueue(h));
      }
    }
  }

  /** Stop alone, or Stop and the drain. */
  predicate Stopped(t: nat, calls: seq<Step>) {
    calls == [UseTimer(t)] || calls == [UseTimer(t), UseTimer(t)]
  }

  /** The same and Reset. */
  predicate Armed(t: nat, calls: seq<Step>) {
    calls == [UseTimer(t), UseTimer(t)] || calls == [UseTimer(t), UseTimer(t), UseTimer(t)]
  }

  function OnceStopped(pc: Pc): Pc
    requires pc.Arming? || pc.Sent? || pc.Leaving?
  {
    match pc
    case Arming(h, r, _) => Arming(h, r, ResetTimer)
    case Sent(_, _) => Idle
    case Leaving(h, r, _) => FallingBack(h, r)
  }

  /** Where the first select leads. */
  lemma SendLeads(s: State, t: nat)
    requires InHandle(s, t) && s.threads[t].pc.First?
    ensures Enabled(s, Send(t))
    ensures var s', pc := Apply(s, Send(t)), s.threads[t].pc;
            && IsThread(s', t)
            && var pc' := s'.threads[t].pc;
            if CanSend(s.handlers[pc.h]) then pc'.Idle? || pc'.Panicked?
            else match PolicyFor(s.handlers[pc.h].policies, s.heap[pc.ref].level)
                 case DropNewest => pc'.Idle? || pc'.Panicked?
                 case DropOldest => InHandle(s', t) && pc'.Evicting?
                 case Block => InHandle(s', t) && pc' == Arming(pc.h, pc.ref, StopTimer)
  {
  }

  lemma MayLeave(s: State, t: nat)
    requires InHandle(s, t) && s.threads[t].pc.Blocked? && s.handlers[s.threads[t].pc.h].closed
    ensures Enabled(s, BlockedClosed(t))
    ensures var s', pc := Apply(s, BlockedClosed(t)), s.threads[t].pc;
            InHandle(s', t) && AtTimer(s', t) && s'.threads[t].pc == Leaving(pc.h, pc.ref, false)
  {
  }

  lemma MayTimeOut(s: State, t: nat)
    requires InHandle(s, t) && s.threads[t].pc.Blocked? && s.handlers[s.threads[t].pc.h].timer.TimerTicked?
    ensures Enabled(s, BlockedTimeout(t))
    ensures var s' := Apply(s, BlockedTimeout(t)); InHandle(s', t) && s'.threads[t].pc.FallingBack?
  {
  }

  lemma TimerFires(s: State, h: nat)
    requires IsHandler(s, h) && s.handlers[h].timer.TimerRunning?
    ensures Enabled(s, TimerFire(h))
    ensures var s' := Apply(s, TimerFire(h)); IsHandler(s', h) && s'.handlers[h].timer.TimerTicked?
  {
  }

  lemma ConsumerCloser(s: State, step: Step, h: nat)
    requires Enabled(s, step) && ConsumerStep(step, h)
    ensures IsHandler(s, h) && IsHandler(Apply(s, step), h) && Measure(Apply(s, step).handlers[h]) < Measure(s.handlers[h])
  {
    hide Apply;
    StepEffect(s, step);
    MeasureAffect(s.heap, s.handlers[h], EffectOf(s, step));
  }

  lemma Further(who: Who, a: State, b: State, c: State)
    requires Undisturbed(who, a, b) && Undisturbed(who, b, c)
    ensures Undisturbed(who, a, c) && Present(who, c)
  {
  }
}
