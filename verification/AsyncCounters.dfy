/**
 What each counter counts: drops level by level, timeouts, and which policy let a
 record be dropped, evicted for, or written synchronously.
 */
module AsyncCounters {
  import opened Core
  import opened Policy
  import opened AsyncQueue
  import opened AsyncOwnership
  import opened AsyncEffects
  import opened AsyncOrder
  import opened AsyncConservation

  // ---------------------------------------------------------------- drops, level by level

  function AtLevel(l: Level): Record -> bool {
    (r: Record) => r.level == l
  }

  function LevelCount(l: Level, levels: seq<Level>): nat {
    if levels == [] then 0 else LevelCount(l, levels[..|levels| - 1]) + if levels[|levels| - 1] == l then 1 else 0
  }

  /** The counter of l: the records of this level dropped on arrival, and the evictions made for arrivals of it. */
  ghost predicate LevelTold(hd: Handler, l: Level) {
    Countable(l) ==> hd.stats.Dropped(l) == Count(AtLevel(l), hd.dropped) + LevelCount(l, hd.evictedFor)
  }

  /** Every eviction took an entry, or nil from a closed channel. */
  ghost predicate EvictionsTold(hd: Handler) {
    |hd.evictedFor| == |Evicted(hd.removed)| + hd.phantom
  }

  lemma LevelCountSnoc(l: Level, levels: seq<Level>, last: Level)
    ensures LevelCount(l, levels + [last]) == LevelCount(l, levels) + if last == l then 1 else 0
  {
    assert (levels + [last])[..|levels|] == levels;
  }

  lemma ToldEvict(heap: map<Ref, Record>, hd: Handler, level: Level, l: Level)
    requires CanAffect(heap, hd, Evicts(level)) && LevelTold(hd, l) && EvictionsTold(hd)
    ensures LevelTold(AfterEvict(heap, hd, level), l) && EvictionsTold(AfterEvict(heap, hd, level))
  {
    hide Count, LevelCount, Evicted;
    LevelCountSnoc(l, hd.evictedFor, level);
    if hd.queue != [] { EvictedSnoc(hd.removed, Removal(heap[hd.queue[0]], false)); }
  }

  lemma ToldDrop(heap: map<Ref, Record>, hd: Handler, rec: Record, l: Level)
    requires CanAffect(heap, hd, Drops(rec)) && LevelTold(hd, l) && EvictionsTold(hd)
    ensures LevelTold(Affect(heap, hd, Drops(rec)), l) && EvictionsTold(Affect(heap, hd, Drops(rec)))
  {
    hide Count;
    CountSnoc(AtLevel(l), hd.dropped, rec);
  }

  lemma ToldReceive(heap: map<Ref, Record>, hd: Handler, l: Level)
    requires CanAffect(heap, hd, Receives) && LevelTold(hd, l) && EvictionsTold(hd)
    ensures LevelTold(AfterReceive(heap, hd), l) && EvictionsTold(AfterReceive(heap, hd))
  {
    EvictedSnoc(hd.removed, Removal(heap[hd.queue[0]], true));
  }

  lemma ToldOther(heap: map<Ref, Record>, hd: Handler, e: Effect, l: Level)
    requires CanAffect(heap, hd, e) && LevelTold(hd, l) && EvictionsTold(hd) && !e.Evicts? && !e.Drops? && !e.Receives?
    ensures LevelTold(Affect(heap, hd, e), l) && EvictionsTold(Affect(heap, hd, e))
  {
    hide Count, LevelCount, Evicted;
  }

  lemma ToldAffect(heap: map<Ref, Record>, hd: Handler, e: Effect, l: Level)
    requires CanAffect(heap, hd, e) && LevelTold(hd, l) && EvictionsTold(hd)
    ensures LevelTold(Affect(heap, hd, e), l) && EvictionsTold(Affect(heap, hd, e))
  {
    hide LevelTold, EvictionsTold, CanAffect, AfterEvict, AfterReceive;
    match e
    case Evicts(level) => ToldEvict(heap, hd, level, l);
    case Drops(rec) => ToldDrop(heap, hd, rec, l);
    case Receives => ToldReceive(heap, hd, l);
    case _ => ToldOther(heap, hd, e, l);
  }

  lemma {:induction false} ToldRun(init: State, steps: seq<Step>, s: State, h: nat, l: Level)
    requires Reaches(init, steps, s) && IsHandler(s, h)
    ensures LevelTold(s.handlers[h], l) && EvictionsTold(s.handlers[h])
  {
    if steps != [] {
      hide Apply, Enabled, Affect, CanAffect, EffectOf, Init, LevelTold, EvictionsTold;
      var front, step := steps[..|steps| - 1], steps[|steps| - 1];
      var m := Exec(init, front).value;
      StepEffect(m, step);
      ToldRun(init, front, m, h, l);
      if Target(m, step) == Some(h) {
        ToldAffect(m.heap, m.handlers[h], EffectOf(m, step), l);
      }
    }
  }

  // ---------------------------------------------------------------- policies

  /** The configuration names this policy for the level. */
  predicate Says(hd: Handler, l: Level, p: OverflowPolicy) {
    l in hd.policies && hd.policies[l] == p
  }

  /** Only Block waits and writes synchronously, and only DropOldest evicts. */
  predicate CallObeys(pc: Pc, heap: map<Ref, Record>, hd: Handler) {
    && (pc.Arming? || pc.Blocked? || pc.Leaving? || pc.FallingBack? ==> pc.ref in heap && Says(hd, heap[pc.ref].level, Block))
    && (pc.Evicting? || pc.Retrying? ==> pc.ref in heap && Says(hd, heap[pc.ref].level, DropOldest))
  }

  ghost predicate HandlerObeys(hd: Handler) {
    && (forall r | r in hd.dropped :: !Says(hd, r.level, Block))
    && (forall r | r in hd.bypassed || r in hd.bypassFailed :: Says(hd, r.level, Block))
    && (forall l | l in hd.evictedFor :: Says(hd, l, DropOldest))
  }

  ghost predicate Obeyed(s: State) {
    && (forall t | 0 <= t < |s.threads| && OnHandler(s.threads[t].pc) ::
          IsHandler(s, s.threads[t].pc.h) && CallObeys(s.threads[t].pc, s.heap, s.handlers[s.threads[t].pc.h]))
    && (forall h | 0 <= h < |s.handlers| :: HandlerObeys(s.handlers[h]))
  }

  /** What the effect records is what the policy of the arriving entry allows. */
  predicate EffectObeys(hd: Handler, e: Effect) {
    && (e.Drops? ==> !Says(hd, e.record.level, Block))
    && (e.Bypasses? ==> Says(hd, e.record.level, Block))
    && (e.Evicts? ==> Says(hd, e.level, DropOldest))
  }

  lemma StepObeys(s: State, step: Step)
    requires Enabled(s, step) && Caller(step).Some? && !Starts(step) && OnHandler(s.threads[step.t].pc)
    requires CallObeys(s.threads[step.t].pc, s.heap, s.handlers[s.threads[step.t].pc.h])
    ensures EffectObeys(s.handlers[s.threads[step.t].pc.h], EffectOf(s, step))
  {
  }

  lemma NextObeys(s: State, step: Step)
    requires Enabled(s, step) && Caller(step).Some? && !Starts(step) && OnHandler(s.threads[step.t].pc)
    requires CallObeys(s.threads[step.t].pc, s.heap, s.handlers[s.threads[step.t].pc.h])
    ensures var h, pc' := s.threads[step.t].pc.h, Apply(s, step).threads[step.t].pc; CallObeys(pc', s.heap, s.handlers[h])
  {
  }

  lemma EvictedForAfter(heap: map<Ref, Record>, hd: Handler, e: Effect)
    requires CanAffect(heap, hd, e)
    ensures var hd' := Affect(heap, hd, e);
            && hd'.policies == hd.policies
            && (hd'.evictedFor == hd.evictedFor || (e.Evicts? && hd'.evictedFor == hd.evictedFor + [e.level]))
  {
    hide Affect, CanAffect;
    if e.Evicts? { EvictKeeps(heap, hd, e.level); } else { OtherKeeps(heap, hd, e); }
  }

  lemma EvictKeeps(heap: map<Ref, Record>, hd: Handler, level: Level)
    requires CanAffect(heap, hd, Evicts(level))
    ensures var hd' := Affect(heap, hd, Evicts(level));
            && hd'.policies == hd.policies && hd'.stats.blocked == hd.stats.blocked
            && (hd'.evictedFor == hd.evictedFor || hd'.evictedFor == hd.evictedFor + [level])
  {
  }

  lemma OtherKeeps(heap: map<Ref, Record>, hd: Handler, e: Effect)
    requires CanAffect(heap, hd, e) && !e.Evicts?
    ensures var hd' := Affect(heap, hd, e);
            && hd'.policies == hd.policies && hd'.evictedFor == hd.evictedFor
            && hd'.stats.blocked == hd.stats.blocked + if e.TimesOut? then 1 else 0
  {
    hide AfterEvict, IncrementDropped, AfterReceive, AfterWrite, AfterQueueEmpty, AfterRecycle, AfterFormat;
    if ConsumerEffect(e) || e.Receives? { ConsumerKeeps(heap, hd, e); }
  }

  lemma ConsumerKeeps(heap: map<Ref, Record>, hd: Handler, e: Effect)
    requires CanAffect(heap, hd, e) && (ConsumerEffect(e) || e.Receives?)
    ensures var hd' := Affect(heap, hd, e);
            hd'.policies == hd.policies && hd'.evictedFor == hd.evictedFor && hd'.stats.blocked == hd.stats.blocked
  {
    hide AfterWrite, AfterReceive;
    if e.Writes? {
      WriteKeeps(heap, hd, e.ok);
    } else if e.Receives? {
      ReceiveKeeps(heap, hd);
    }
  }

  lemma WriteKeeps(heap: map<Ref, Record>, hd: Handler, ok: bool)
    requires CanAffect(heap, hd, Writes(ok))
    ensures var hd' := AfterWrite(heap, hd, ok);
            hd'.policies == hd.policies && hd'.evictedFor == hd.evictedFor && hd'.stats.blocked == hd.stats.blocked
  {
  }

  lemma ReceiveKeeps(heap: map<Ref, Record>, hd: Handler)
    requires CanAffect(heap, hd, Receives)
    ensures var hd' := AfterReceive(heap, hd);
            hd'.policies == hd.policies && hd'.evictedFor == hd.evictedFor && hd'.stats.blocked == hd.stats.blocked
  {
  }

  lemma AffectObeys(heap: map<Ref, Record>, hd: Handler, e: Effect)
    requires CanAffect(heap, hd, e) && HandlerObeys(hd) && EffectObeys(hd, e)
    ensures HandlerObeys(Affect(heap, hd, e)) && Affect(heap, hd, e).policies == hd.policies
  {
    hide Affect, CanAffect;
    HistoriesAfter(heap, hd, e);
    EvictedForAfter(heap, hd, e);
  }

  lemma HandlersObey(s: State, step: Step)
    requires Enabled(s, step) && Obeyed(s)
    ensures forall h | 0 <= h < |Apply(s, step).handlers| ::
              HandlerObeys(Apply(s, step).handlers[h]) && h < |s.handlers| && Apply(s, step).handlers[h].policies == s.handlers[h].policies
  {
    hide Apply, Enabled, Affect, CanAffect, EffectOf, HandlerObeys, CallObeys;
    StepEffect(s, step);
    var e := EffectOf(s, step);
    if Target(s, step).Some? {
      var hd := s.handlers[Target(s, step).value];
      if Starts(step) {
        StartEffect(s, step);
      } else if Caller(step).Some? {
        CallShape(s, step);
        if OnHandler(s.threads[step.t].pc) { StepObeys(s, step); }
      } else {
        HandlerShape(s, step);
        NeverEvicts(s, step);
      }
      assert EffectObeys(hd, e);
      AffectObeys(s.heap, hd, e);
    }
  }

  lemma StartEffect(s: State, step: Step)
    requires Enabled(s, step) && Starts(step)
    ensures EffectOf(s, step).Submits? || EffectOf(s, step) == Untouched
  {
  }

  lemma NeverEvicts(s: State, step: Step)
    requires Enabled(s, step) && Caller(step).None?
    ensures !EffectOf(s, step).Evicts?
  {
  }

  /** Every call in progress after the step obeys the policies as they were before it. */
  ghost predicate AllObey(s: State, s': State) {
    && |s'.handlers| == |s.handlers| && |s'.threads| == |s.threads|
    && forall t | 0 <= t < |s'.threads| && OnHandler(s'.threads[t].pc) ::
         IsHandler(s, s'.threads[t].pc.h) && CallObeys(s'.threads[t].pc, s'.heap, s.handlers[s'.threads[t].pc.h])
  }

  lemma StartObeys(s: State, owner: map<Ref, Place>, step: Step)
    requires Owned(s, owner) && Enabled(s, step) && Obeyed(s) && Starts(step)
    ensures AllObey(s, Apply(s, step))
  {
    hide Apply, Enabled, EffectOf, Target, HandlerObeys;
    StepEffect(s, step);
    StartShape(s, step);
    if step.Start? { FirstPc(s, step); }
    forall t | 0 <= t < |s.threads| && OnHandler(s.threads[t].pc) ensures s.threads[t].pc.ref != step.ref {
      assert owner[s.threads[t].pc.ref] == AtThread(t);
    }
  }

  lemma CallsObey(s: State, owner: map<Ref, Place>, step: Step)
    requires Owned(s, owner) && Enabled(s, step) && Obeyed(s)
    ensures AllObey(s, Apply(s, step))
  {
    hide Apply, Enabled, EffectOf, Target, Owned, HandlerObeys, CallObeys;
    if Starts(step) {
      StartObeys(s, owner, step);
    } else {
      StepEffect(s, step);
      if Caller(step).Some? {
        CallShape(s, step);
        if OnHandler(s.threads[step.t].pc) { NextObeys(s, step); }
      } else {
        HandlerShape(s, step);
      }
    }
  }

  lemma FirstPc(s: State, step: Step)
    requires Enabled(s, step) && step.Start?
    ensures Apply(s, step).threads[step.t].pc == First(step.h, step.ref) && IsHandler(s, step.h)
  {
  }

  lemma {:induction false} ObeyedRun(init: State, steps: seq<Step>, s: State) returns (owner: map<Ref, Place>)
    requires Reaches(init, steps, s)
    ensures Owned(s, owner) && Obeyed(s)
  {
    if steps == [] {
      owner := map[];
    } else {
      hide Apply, Enabled, Owned, HandlerObeys, CallObeys;
      var m := Exec(init, steps[..|steps| - 1]).value;
      var step := steps[|steps| - 1];
      owner := ObeyedRun(init, steps[..|steps| - 1], m);
      HandlersObey(m, step);
      CallsObey(m, owner, step);
      SaysSame(m, Apply(m, step));
      OwnedStep(m, owner, step);
      owner := OwnerAfter(m, owner, step);
    }
  }

  /** Whether a call obeys depends on the policies only. */
  lemma SaysSame(a: State, b: State)
    requires |a.handlers| == |b.handlers| && forall h | 0 <= h < |a.handlers| :: b.handlers[h].policies == a.handlers[h].policies
    ensures forall h, pc: Pc | 0 <= h < |a.handlers| :: CallObeys(pc, b.heap, a.handlers[h]) ==> CallObeys(pc, b.heap, b.handlers[h])
  {
  }

  // ---------------------------------------------------------------- what the counters say

  lemma {:induction false} NotAmong(l: Level, levels: seq<Level>)
    requires l !in levels
    ensures LevelCount(l, levels) == 0
  {
    if levels != [] {
      NotAmong(l, levels[..|levels| - 1]);
    }
  }

  /**
   The drop counters, level by level, in every reachable state. The counter of a level
   is the number of its records dropped on arrival, and under DropOldest also of the
   evictions made for its arrivals, whatever the level of what was evicted. A level
   configured otherwise, or not at all, has no evictions.
   */
  lemma DropsByLevel(init: State, steps: seq<Step>, s: State, h: nat, l: Level)
    requires Reaches(init, steps, s) && IsHandler(s, h) && Countable(l)
    ensures var hd := s.handlers[h];
            && hd.stats.Dropped(l) == Count(AtLevel(l), hd.dropped) + LevelCount(l, hd.evictedFor)
            && (!Says(hd, l, DropOldest) ==> hd.stats.Dropped(l) == Count(AtLevel(l), hd.dropped))
            && |hd.evictedFor| == |Evicted(hd.removed)| + hd.phantom
  {
    ToldRun(init, steps, s, h, l);
    var _ := ObeyedRun(init, steps, s);
    if !Says(s.handlers[h], l, DropOldest) {
      NotAmong(l, s.handlers[h].evictedFor);
    }
  }

  /**
   The policies, in every reachable state: a record is dropped on arrival only at a
   level not configured to block, written synchronously only at one that is, and an
   eviction is made only for an arrival at a level configured to drop the oldest. So a
   level that is not configured only ever drops its own newest.
   */
  lemma PoliciesObeyed(init: State, steps: seq<Step>, s: State, h: nat)
    requires Reaches(init, steps, s) && IsHandler(s, h)
    ensures var hd := s.handlers[h];
            && (forall r | r in hd.dropped :: !Says(hd, r.level, Block))
            && (forall r | r in hd.bypassed || r in hd.bypassFailed :: Says(hd, r.level, Block))
            && (forall l | l in hd.evictedFor :: Says(hd, l, DropOldest))
  {
    var _ := ObeyedRun(init, steps, s);
  }

  // ---------------------------------------------------------------- timeouts

  /** How many waiting calls on h have timed out in the run. */
  function TimeoutsOn(init: State, steps: seq<Step>, h: nat): nat
    requires Exec(init, steps).Some?
  {
    if steps == [] then 0 else
    var front, step := steps[..|steps| - 1], steps[|steps| - 1];
    TimeoutsOn(init, front, h)
    + if step.BlockedTimeout? && Exec(init, front).value.threads[step.t].pc.h == h then 1 else 0
  }

  lemma BlockedAffect(heap: map<Ref, Record>, hd: Handler, e: Effect)
    requires CanAffect(heap, hd, e)
    ensures Affect(heap, hd, e).stats.blocked == hd.stats.blocked + if e.TimesOut? then 1 else 0
  {
    hide Affect, CanAffect;
    if e.Evicts? { EvictKeeps(heap, hd, e.level); } else { OtherKeeps(heap, hd, e); }
  }

  lemma OnlyTimeouts(s: State, step: Step)
    requires Enabled(s, step)
    ensures EffectOf(s, step).TimesOut? <==> step.BlockedTimeout?
    ensures step.BlockedTimeout? ==> Target(s, step) == Some(s.threads[step.t].pc.h)
  {
  }

  /** The counter of blocked calls is the number of timeouts. */
  lemma {:induction false} BlockedCountsTimeouts(init: State, steps: seq<Step>, s: State, h: nat)
    requires Reaches(init, steps, s) && IsHandler(s, h)
    ensures s.handlers[h].stats.blocked == TimeoutsOn(init, steps, h)
  {
    if steps != [] {
      var front, step := steps[..|steps| - 1], steps[|steps| - 1];
      var m := Exec(init, front).value;
      OnlyTimeouts(m, step);
      hide Apply, Affect, CanAffect, EffectOf, Init;
      StepEffect(m, step);
      BlockedCountsTimeouts(init, front, m, h);
      if Target(m, step) == Some(h) {
        BlockedAffect(m.heap, m.handlers[h], EffectOf(m, step));
      }
    }
  }
}
