/**
 The one block timer of a handler, shared by all callers waiting for room. Each of
 them stops and resets it before it waits, and stops it again after a send or once
 it has seen `closed`, so a caller may be left waiting without its tick.
 */
module AsyncTimer {
  import opened Core
  import opened AsyncQueue
  import opened AsyncOwnership
  import opened AsyncEffects
  import opened AsyncOrder
  import opened AsyncConservation

  /** Thread t waits in the second select of the Block policy. */
  predicate Waits(s: State, t: nat, h: nat) {
    IsThread(s, t) && IsHandler(s, h) && s.threads[t].pc.Blocked? && s.threads[t].pc.h == h
  }

  /** None of the three cases of that select is ready, and the timer is not running. */
  predicate Stranded(s: State, t: nat, h: nat) {
    && Waits(s, t, h)
    && !CanSend(s.handlers[h]) && !s.handlers[h].closed && s.handlers[h].timer.TimerOff?
  }

  /** A waiting caller can go on if and only if there is room, the handler is closed, or the timer has ticked. */
  lemma CanLeave(init: State, steps: seq<Step>, s: State, t: nat, h: nat)
    requires Reaches(init, steps, s) && Waits(s, t, h)
    ensures (exists step: Step :: Caller(step) == Some(t) && Enabled(s, step))
       <==> CanSend(s.handlers[h]) || s.handlers[h].closed || s.handlers[h].timer.TimerTicked?
  {
    AddressesAreEntries(init, steps, s, AsyncOwnership.Thread(t), s.threads[t].pc.ref);
    assert Caller(BlockedSend(t)) == Caller(BlockedClosed(t)) == Caller(BlockedTimeout(t)) == Some(t);
    if CanSend(s.handlers[h]) {
      assert Enabled(s, BlockedSend(t));
    } else if s.handlers[h].closed {
      assert Enabled(s, BlockedClosed(t));
    } else if s.handlers[h].timer.TimerTicked? {
      assert Enabled(s, BlockedTimeout(t));
    }
  }

  // ---------------------------------------------------------------- losing the timer

  /** A waiting caller takes the tick, or a call on h stops or drains the timer, waiting callers or not. */
  predicate Disarms(s: State, step: Step, h: nat)
    requires Enabled(s, step)
  {
    && Target(s, step) == Some(h) && IsHandler(s, h)
    && (step.BlockedTimeout? || Stops(s, step) || (Drains(s, step) && s.handlers[h].timer.TimerTicked?))
  }

  /** The step is a call of Stop, of the drain, or of Reset. */
  predicate Stops(s: State, step: Step)
    requires Enabled(s, step)
  {
    step.UseTimer? && var pc := s.threads[step.t].pc;
    if pc.Arming? then pc.call.StopTimer? else !pc.drain
  }

  predicate Drains(s: State, step: Step)
    requires Enabled(s, step)
  {
    step.UseTimer? && var pc := s.threads[step.t].pc;
    if pc.Arming? then pc.call.DrainTimer? else pc.drain
  }

  predicate Resets(s: State, step: Step)
    requires Enabled(s, step)
  {
    step.UseTimer? && s.threads[step.t].pc.Arming? && s.threads[step.t].pc.call.ResetTimer?
  }

  lemma TimerAffect(heap: map<Ref, Record>, hd: Handler, e: Effect)
    requires CanAffect(heap, hd, e)
    ensures Affect(heap, hd, e).timer ==
      if e.TimesOut? then TimerOff
      else if e.UsesTimer? then AfterCall(hd.timer, e.call)
      else if e.TimerTicks? then TimerTicked
      else hd.timer
  {
    if e.Evicts? { EvictMoves(heap, hd, e.level); }
  }

  /**
   A timer that is on goes off exactly when its tick is taken or a call on the handler
   stops or drains it. It runs exactly from a Reset to its tick, and a tick stays until
   then, but for another Reset.
   */
  lemma TimerGoesOff(s: State, step: Step, h: nat)
    requires Enabled(s, step) && IsHandler(s, h)
    ensures IsHandler(Apply(s, step), h)
    ensures var resets := Target(s, step) == Some(h) && Resets(s, step);
            match (s.handlers[h].timer, Apply(s, step).handlers[h].timer)
            case (TimerOff, after) => if resets then after.TimerRunning? else after.TimerOff?
            case (TimerRunning, after) =>
              if Disarms(s, step, h) then after.TimerOff? else if step == TimerFire(h) then after.TimerTicked? else after.TimerRunning?
            case (TimerTicked, after) =>
              if Disarms(s, step, h) then after.TimerOff? else if resets then after.TimerRunning? else after.TimerTicked?
  {
    StepEffect(s, step);
    TimerCalls(s, step);
    if Target(s, step) == Some(h) {
      TimerAffect(s.heap, s.handlers[h], EffectOf(s, step));
    }
    hide Apply, Affect, CanAffect;
  }

  lemma TimerCalls(s: State, step: Step)
    requires Enabled(s, step)
    ensures var e := EffectOf(s, step);
            && (e.UsesTimer? <==> step.UseTimer?) && (e.TimesOut? <==> step.BlockedTimeout?)
            && (e.TimerTicks? <==> step.TimerFire?)
            && (e == UsesTimer(StopTimer) <==> Stops(s, step)) && (e == UsesTimer(DrainTimer) <==> Drains(s, step))
            && (e == UsesTimer(ResetTimer) <==> Resets(s, step))
            && (step.TimerFire? ==> Target(s, step) == Some(step.h))
  {
  }

  /** After Stop the channel is drained exactly if Stop found the timer off. */
  lemma DrainsIfOff(s: State, t: nat)
    requires Enabled(s, UseTimer(t)) && Stops(s, UseTimer(t))
    ensures var pc, pc' := s.threads[t].pc, Apply(s, UseTimer(t)).threads[t].pc;
            if s.handlers[pc.h].timer.TimerOff? then Enabled(Apply(s, UseTimer(t)), UseTimer(t)) && Drains(Apply(s, UseTimer(t)), UseTimer(t))
            else pc'.Idle? || pc'.FallingBack? || (pc'.Arming? && pc'.call.ResetTimer?)
  {
  }

  // ---------------------------------------------------------------- being stranded

  /** The steps that can bring a stranded caller back: Close, an entry leaving the queue, or a new caller's reset. */
  predicate Rescues(s: State, step: Step, h: nat)
    requires Enabled(s, step)
  {
    && Target(s, step) == Some(h)
    && (step.Close? || step.Receive? || step.Evict? || Resets(s, step))
  }

  lemma RescueAffect(heap: map<Ref, Record>, hd: Handler, e: Effect)
    requires CanAffect(heap, hd, e) && !CanSend(hd) && !hd.closed && hd.timer.TimerOff? && 0 < hd.capacity == |hd.queue|
    requires hd.closed <==> !hd.closer.Open?
    ensures var b := Affect(heap, hd, e);
            (CanSend(b) || b.closed || !b.timer.TimerOff?) <==> (e.Closes? || e.Receives? || e.Evicts? || e == UsesTimer(ResetTimer))
  {
    if e.Evicts? { EvictMoves(heap, hd, e.level); }
  }

  lemma OnlyOthers(s: State, step: Step, t: nat, h: nat)
    requires Enabled(s, step) && Stranded(s, t, h)
    ensures Waits(Apply(s, step), t, h)
  {
    StepEffect(s, step);
    assert Caller(step) != Some(t);
    if Starts(step) { StartShape(s, step); } else if Caller(step).Some? { CallShape(s, step); } else { HandlerShape(s, step); }
  }

  lemma RescueEffects(s: State, step: Step)
    requires Enabled(s, step)
    ensures var e := EffectOf(s, step);
            (step.Close? <==> e.Closes?) && (step.Receive? <==> e.Receives?) && (step.Evict? <==> e.Evicts?)
  {
  }

  /** A stranded caller stays stranded through a step if and only if the step is not a rescue. */
  lemma StrandedStep(init: State, steps: seq<Step>, s: State, step: Step, t: nat, h: nat)
    requires Reaches(init, steps, s) && Enabled(s, step) && Stranded(s, t, h)
    ensures Stranded(Apply(s, step), t, h) <==> !Rescues(s, step, h)
  {
    hide Apply, Affect, CanAffect, Init, Exec, Owned, Balanced;
    var _ := AccountedRun(_ => true, init, steps, s, h);
    OnlyOthers(s, step, t, h);
    StepEffect(s, step);
    RescueEffects(s, step);
    TimerCalls(s, step);
    if Target(s, step) == Some(h) {
      RescueAffect(s.heap, s.handlers[h], EffectOf(s, step));
    }
  }

  /** Every step of the run from s on is possible and none rescues a caller on h. */
  ghost predicate NoRescue(s: State, steps: seq<Step>, h: nat) {
    forall i | 0 <= i < |steps| ::
      match Exec(s, steps[..i])
      case None => false
      case Some(m) => Enabled(m, steps[i]) && !Rescues(m, steps[i], h)
  }

  lemma NoRescueFront(s: State, steps: seq<Step>, h: nat)
    requires NoRescue(s, steps, h) && steps != []
    ensures NoRescue(s, steps[..|steps| - 1], h)
    ensures var n := |steps| - 1;
            Exec(s, steps[..n]).Some? && Enabled(Exec(s, steps[..n]).value, steps[n]) && !Rescues(Exec(s, steps[..n]).value, steps[n], h)
  {
    hide Exec, Enabled, Rescues;
    var front := steps[..|steps| - 1];
    forall i | 0 <= i < |front|
      ensures match Exec(s, front[..i]) case None => false case Some(m) => Enabled(m, front[i]) && !Rescues(m, front[i], h)
    {
      assert front[..i] == steps[..i] && front[i] == steps[i];
    }
  }

  lemma {:induction false} ExecAppend(init: State, before: seq<Step>, s: State, steps: seq<Step>)
    requires Exec(init, before) == Some(s)
    ensures Exec(init, before + steps) == Exec(s, steps)
  {
    hide Enabled, Apply;
    if steps == [] {
      assert before + steps == before;
    } else {
      ExecAppend(init, before, s, steps[..|steps| - 1]);
      assert (before + steps)[..|before + steps| - 1] == before + steps[..|steps| - 1];
    }
  }

  lemma {:induction false} StaysStranded(init: State, before: seq<Step>, s: State, steps: seq<Step>, s': State, t: nat, h: nat)
    requires Reaches(init, before, s) && Stranded(s, t, h) && Exec(s, steps) == Some(s') && NoRescue(s, steps, h)
    ensures Stranded(s', t, h)
  {
    hide Enabled, Apply, Rescues, Stranded, Init;
    if steps != [] {
      var n := |steps| - 1;
      NoRescueFront(s, steps, h);
      var m := Exec(s, steps[..n]).value;
      StaysStranded(init, before, s, steps[..n], m, t, h);
      ExecAppend(init, before, s, steps[..n]);
      StrandedStep(init, before + steps[..n], m, steps[n], t, h);
    }
  }

  /** For as long as nobody rescues it, a stranded caller does not return: it has no step to take. */
  lemma StrandedForGood(init: State, before: seq<Step>, s: State, steps: seq<Step>, s': State, t: nat, h: nat)
    requires Reaches(init, before, s) && Stranded(s, t, h) && Exec(s, steps) == Some(s') && NoRescue(s, steps, h)
    ensures Stranded(s', t, h)
    ensures forall step: Step | Caller(step) == Some(t) :: !Enabled(s', step)
  {
    StaysStranded(init, before, s, steps, s', t, h);
    hide Enabled, Apply, Exec, Init;
    ExecAppend(init, before, s, steps);
    CanLeave(init, before + steps, s', t, h);
  }

  // ---------------------------------------------------------------- a caller on its own

  /** A call that has found the queue full and is not done with the timer. */
  predicate Timing(pc: Pc, h: nat) {
    (pc.Arming? || pc.Blocked? || pc.Sent? || pc.Leaving?) && pc.h == h
  }

  predicate AtMostOneTiming(s: State, h: nat) {
    forall t, u | 0 <= t < |s.threads| && 0 <= u < |s.threads| && Timing(s.threads[t].pc, h) && Timing(s.threads[u].pc, h) :: t == u
  }

  predicate AtMostOneInside(s: State, h: nat) {
    forall t, u | 0 <= t < |s.threads| && 0 <= u < |s.threads| && Inside(s.threads[t].pc, h) && Inside(s.threads[u].pc, h) :: t == u
  }

  /** Whoever waits has the timer running or ticked. */
  ghost predicate Timed(s: State, h: nat)
    requires IsHandler(s, h)
  {
    forall t | 0 <= t < |s.threads| && Waits(s, t, h) :: !s.handlers[h].timer.TimerOff?
  }

  /** A caller starts to wait by resetting the timer. */
  lemma ArrivesTimed(s: State, step: Step, t: nat, h: nat)
    requires Enabled(s, step) && IsHandler(s, h) && !Waits(s, t, h) && Waits(Apply(s, step), t, h)
    ensures Target(s, step) == Some(h) && EffectOf(s, step) == UsesTimer(ResetTimer)
  {
    hide AfterReceive, AfterWrite, AfterQueueEmpty, AfterEvict, AfterRecycle, AfterFormat, AfterBypass;
  }

  lemma TimedStep(s: State, step: Step, h: nat)
    requires Enabled(s, step) && IsHandler(s, h) && Timed(s, h) && AtMostOneTiming(s, h)
    ensures IsHandler(Apply(s, step), h) && Timed(Apply(s, step), h)
  {
    var s' := Apply(s, step);
    StepEffect(s, step);
    forall t | 0 <= t < |s'.threads| && Waits(s', t, h) ensures !s'.handlers[h].timer.TimerOff? {
      if IsThread(s, t) && Waits(s, t, h) {
        if s'.handlers[h].timer.TimerOff? {
          TimerGoesOff(s, step, h);
          DisarmerTimes(s, step, h);
        }
      } else {
        ArrivesTimed(s, step, t, h);
        TimerAffect(s.heap, s.handlers[h], EffectOf(s, step));
      }
    }
  }

  /** Who turns the timer off had found the queue full, and is not left waiting. */
  lemma DisarmerTimes(s: State, step: Step, h: nat)
    requires Enabled(s, step) && Disarms(s, step, h)
    ensures IsThread(s, step.t) && Timing(s.threads[step.t].pc, h) && !Waits(Apply(s, step), step.t, h)
  {
  }

  /** The predicate holds of every state of the run. */
  ghost predicate Throughout(init: State, steps: seq<Step>, p: State -> bool) {
    forall i | 0 <= i <= |steps| :: match Exec(init, steps[..i]) case None => true case Some(m) => p(m)
  }

  lemma ThroughoutFront(init: State, steps: seq<Step>, p: State -> bool)
    requires Throughout(init, steps, p) && steps != []
    ensures Throughout(init, steps[..|steps| - 1], p) && (Exec(init, steps).Some? ==> p(Exec(init, steps).value))
  {
    hide Exec;
    assert steps[..|steps|] == steps;
    var front := steps[..|steps| - 1];
    forall i | 0 <= i <= |front| ensures match Exec(init, front[..i]) case None => true case Some(m) => p(m) {
      assert front[..i] == steps[..i];
    }
  }

  /**
   When no two calls that found the queue full ever overlap, until each has stopped
   the timer after its send, a waiting caller always has its tick coming: nobody is
   stranded.
   */
  lemma {:induction false} AloneIsTimed(init: State, steps: seq<Step>, s: State, h: nat)
    requires Reaches(init, steps, s) && IsHandler(init, h)
    requires Throughout(init, steps, m => AtMostOneTiming(m, h))
    ensures IsHandler(s, h) && Timed(s, h)
    ensures forall t | 0 <= t < |s.threads| :: !Stranded(s, t, h)
  {
    hide Enabled, Apply, AtMostOneTiming, Throughout;
    if steps != [] {
      var n := |steps| - 1;
      var p := (m: State) => AtMostOneTiming(m, h);
      var m := Exec(init, steps[..n]).value;
      ThroughoutFront(init, steps, p);
      AloneIsTimed(init, steps[..n], m, h);
      HoldsAtEnd(init, steps[..n], p);
      TimedStep(m, steps[n], h);
    }
  }

  lemma HoldsAtEnd(init: State, steps: seq<Step>, p: State -> bool)
    requires Throughout(init, steps, p) && Exec(init, steps).Some?
    ensures p(Exec(init, steps).value)
  {
    assert steps[..|steps|] == steps;
  }

  /** In particular when no two calls of Handle on h overlap. */
  lemma ApartIsTimed(init: State, steps: seq<Step>, s: State, h: nat)
    requires Reaches(init, steps, s) && IsHandler(init, h)
    requires Throughout(init, steps, m => AtMostOneInside(m, h))
    ensures IsHandler(s, h) && forall t | 0 <= t < |s.threads| :: !Stranded(s, t, h)
  {
    forall i | 0 <= i <= |steps|
      ensures match Exec(init, steps[..i]) case None => true case Some(m) => AtMostOneTiming(m, h)
    {
      if Exec(init, steps[..i]).Some? {
        assert AtMostOneInside(Exec(init, steps[..i]).value, h);
      }
    }
    AloneIsTimed(init, steps, s, h);
  }
}
