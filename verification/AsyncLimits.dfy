/**
 Where the counters stop telling the truth. The law "handled = in callers +
 queued + held + processed + failed + dropped" is kept by every step except an
 eviction in one of two situations, and runs reach both of them.
 */
module AsyncLimits {
  import opened Core
  import opened Policy
  import opened AsyncQueue
  import opened AsyncEffects
  import opened AsyncOrder
  import opened AsyncConservation
  import opened AsyncRuns

  /** Every entry handled is accounted for by what the handler's counters and queues show. */
  ghost predicate CountersAgree(s: State, h: nat)
    requires IsHandler(s, h)
  {
    var hd := s.handlers[h];
    && (HoldsEntry(hd.consumer) ==> hd.consumer.ref in s.heap)
    && |hd.submitted|
       == InFlight(_ => true, s.heap, s.threads, h) + |hd.queue|
        + |Held(s.heap, hd.consumer)| - InBatchWrite(hd.consumer)
        + hd.stats.processed + |hd.failed| + |hd.bypassFailed| + hd.stats.TotalDropped()
  }

  /**
   An eviction that reads nil from a channel closed and empty, at a level that is
   counted; or one that takes an entry at a level IncrementDropped panics on.
   */
  predicate Miscounts(s: State, step: Step, h: nat)
    requires Enabled(s, step) && IsHandler(s, h)
  {
    step.Evict? && s.threads[step.t].pc.h == h &&
    var hd, level := s.handlers[h], s.heap[s.threads[step.t].pc.ref].level;
    if hd.queue == [] then hd.queueClosed && Countable(level) else !Countable(level)
  }

  lemma MiscountEffect(s: State, step: Step, h: nat)
    requires Enabled(s, step) && IsHandler(s, h)
    ensures IsHandler(Apply(s, step), h)
    ensures var a, b := s.handlers[h], Apply(s, step).handlers[h];
            Miscounts(s, step, h) <==> b.phantom - a.phantom != b.uncounted - a.uncounted
  {
    hide CanAffect, Affect;
    StepEffect(s, step);
    if Target(s, step) == Some(h) {
      if step.Evict? {
        EvictionAffect(s.heap, s.handlers[h], EffectOf(s, step));
      } else {
        OtherAffect(s.heap, s.handlers[h], EffectOf(s, step));
      }
    }
  }

  lemma OtherAffect(heap: map<Ref, Record>, hd: Handler, e: Effect)
    requires CanAffect(heap, hd, e) && !e.Evicts?
    ensures Affect(heap, hd, e).phantom - hd.phantom == Affect(heap, hd, e).uncounted - hd.uncounted
  {
    hide IncrementDropped, AddProcessed, IncrementBlocked;
  }

  lemma EvictionAffect(heap: map<Ref, Record>, hd: Handler, e: Effect)
    requires CanAffect(heap, hd, e) && e.Evicts?
    ensures var hd' := Affect(heap, hd, e);
            hd'.phantom - hd.phantom != hd'.uncounted - hd.uncounted
            <==> if hd.queue == [] then hd.queueClosed && Countable(e.level) else !Countable(e.level)
  {
  }

  /** The law survives a step if and only if the step is not such an eviction. */
  lemma AgreementKept(init: State, steps: seq<Step>, s: State, step: Step, h: nat)
    requires Reaches(init, steps, s) && Enabled(s, step) && IsHandler(s, h) && CountersAgree(s, h)
    ensures IsHandler(Apply(s, step), h)
    ensures CountersAgree(Apply(s, step), h) <==> !Miscounts(s, step, h)
  {
    ConservationOfCounters(init, steps, s, h);
    MiscountEffect(s, step, h);
    ExecSnoc(init, steps, step);
    ConservationOfCounters(init, steps + [step], Apply(s, step), h);
  }

  // The run: a producer is about to evict when the consumer fails and Close finishes.

  const A := Record(0, 0, INFO_LEVEL, "a")
  const B := Record(0, 1, INFO_LEVEL, "b")

  /** One thread and one handler with a queue of one slot. */
  function Snapshot(heap: map<Ref, Record>, queue: seq<Ref>, closed: bool, queueClosed: bool, consumer: Consumer, closer: Closer,
                    submitted: seq<Record>, enqueued: seq<Record>, removed: seq<Removal>, failed: seq<Record>,
                    pc: Pc, calls: nat): State {
    State({}, heap,
      [Handler(1, map[INFO_LEVEL := DropOldest], false, queue, closed, queueClosed, consumer, closer, NO_STATS,
               submitted, enqueued, removed, [], failed, [], [], [], [], 0, 0, [], false, TimerOff)],
      [Thread(pc, calls)])
  }

  /** The states of the run and the steps between them. */
  function ClosedStage(i: nat): Stage
    requires i < 9
  {
    var both := map[0 := A, 1 := B];
    var taken := [Removal(A, true)];
    match i
    case 0 => Stage(Snapshot(map[], [], false, false, Selecting, Open, [], [], [], [], Idle, 0), Start(0, 0, 0, INFO_LEVEL, "a"))
    case 1 => Stage(Snapshot(map[0 := A], [], false, false, Selecting, Open, [A], [], [], [], First(0, 0), 1), Send(0))
    case 2 => Stage(Snapshot(map[0 := A], [0], false, false, Selecting, Open, [A], [A], [], [], Idle, 1), Start(0, 0, 1, INFO_LEVEL, "b"))
    case 3 => Stage(Snapshot(both, [0], false, false, Selecting, Open, [A, B], [A], [], [], First(0, 1), 2), Send(0))
    case 4 => Stage(Snapshot(both, [0], false, false, Selecting, Open, [A, B], [A], [], [], Evicting(0, 1), 2), Receive(0))
    case 5 => Stage(Snapshot(both, [], false, false, Writing(0, BatchLoop), Open, [A, B], [A], taken, [], Evicting(0, 1), 2), Write(0, false))
    case 6 => Stage(Snapshot(both, [], false, false, Exited, Open, [A, B], [A], taken, [A], Evicting(0, 1), 2), Close(0))
    case 7 => Stage(Snapshot(both, [], true, false, Exited, Waiting, [A, B], [A], taken, [A], Evicting(0, 1), 2), CloseQueue(0))
    case 8 => Stage(Snapshot(both, [], true, true, Exited, Closed, [A, B], [A], taken, [A], Evicting(0, 1), 2), Evict(0))
  }

  function ClosedStages(): seq<Stage> {
    seq(9, i requires 0 <= i < 9 => ClosedStage(i))
  }

  lemma ClosedLeadsEarly(i: nat)
    requires 0 <= i < 4
    ensures Leads(ClosedStage(i), ClosedStage(i + 1))
  {
    match i
    case 0 => SameState(Apply(ClosedStage(0).state, ClosedStage(0).step), ClosedStage(1).state);
    case 1 => SameState(Apply(ClosedStage(1).state, ClosedStage(1).step), ClosedStage(2).state);
    case 2 => SameState(Apply(ClosedStage(2).state, ClosedStage(2).step), ClosedStage(3).state);
    case 3 => SameState(Apply(ClosedStage(3).state, ClosedStage(3).step), ClosedStage(4).state);
  }

  lemma ClosedLeadsOn(i: nat)
    requires 4 <= i < 6
    ensures Leads(ClosedStage(i), ClosedStage(i + 1))
  {
    match i
    case 4 => SameState(Apply(ClosedStage(4).state, ClosedStage(4).step), ClosedStage(5).state);
    case 5 => SameState(Apply(ClosedStage(5).state, ClosedStage(5).step), ClosedStage(6).state);
  }

  lemma ClosedLeadsLate(i: nat)
    requires 6 <= i < 8
    ensures Leads(ClosedStage(i), ClosedStage(i + 1))
  {
    match i
    case 6 => SameState(Apply(ClosedStage(6).state, ClosedStage(6).step), ClosedStage(7).state);
    case 7 => SameState(Apply(ClosedStage(7).state, ClosedStage(7).step), ClosedStage(8).state);
  }

  lemma ClosedReached()
    ensures var r := ClosedStages(); Reaches(r[0].state, Before(r, 8), r[8].state)
  {
    hide Apply, Enabled;
    var r := ClosedStages();
    forall i | 0 <= i < 8 ensures Leads(r[i], r[i + 1]) {
      if i < 4 { ClosedLeadsEarly(i); } else if i < 6 { ClosedLeadsOn(i); } else { ClosedLeadsLate(i); }
    }
    ChainReaches(r, 8);
  }

  /**
   A call in progress while Close finishes: its eviction finds the channel closed
   and empty, and a drop is counted although both entries are accounted for.
   */
  lemma OverlappingCloseMiscounts()
    ensures var r := ClosedStages(); var s := r[8].state;
            && Reaches(r[0].state, Before(r, 8), s) && Enabled(s, Evict(0)) && CountersAgree(s, 0)
            && !CountersAgree(Apply(s, Evict(0)), 0)
  {
    var r := ClosedStages();
    ClosedReached();
    ConservationOfCounters(r[0].state, Before(r, 8), r[8].state, 0);
    AgreementKept(r[0].state, Before(r, 8), r[8].state, Evict(0), 0);
  }

  // The other case: an eviction on behalf of an entry at a level without a counter.

  const F := Record(0, 0, FATAL_LEVEL, "a")
  const G := Record(0, 1, FATAL_LEVEL, "b")

  function FatalStage(i: nat): Stage
    requires i < 5
  {
    var (heap, queue, submitted, enqueued, pc, calls, step) :=
      match i
      case 0 => (map[], [], [], [], Idle, 0, Start(0, 0, 0, FATAL_LEVEL, "a"))
      case 1 => (map[0 := F], [], [F], [], First(0, 0), 1, Send(0))
      case 2 => (map[0 := F], [0], [F], [F], Idle, 1, Start(0, 0, 1, FATAL_LEVEL, "b"))
      case 3 => (map[0 := F, 1 := G], [0], [F, G], [F], First(0, 1), 2, Send(0))
      case 4 => (map[0 := F, 1 := G], [0], [F, G], [F], Evicting(0, 1), 2, Evict(0));
    Stage(State({}, heap,
                [Handler(1, map[FATAL_LEVEL := DropOldest], false, queue, false, false, Selecting, Open, NO_STATS,
                         submitted, enqueued, [], [], [], [], [], [], [], 0, 0, [], false, TimerOff)],
                [Thread(pc, calls)]),
          step)
  }

  function FatalStages(): seq<Stage> {
    seq(5, i requires 0 <= i < 5 => FatalStage(i))
  }

  lemma FatalLeads(i: nat)
    requires i < 4
    ensures Leads(FatalStage(i), FatalStage(i + 1))
  {
    match i
    case 0 => SameState(Apply(FatalStage(0).state, FatalStage(0).step), FatalStage(1).state);
    case 1 => SameState(Apply(FatalStage(1).state, FatalStage(1).step), FatalStage(2).state);
    case 2 => SameState(Apply(FatalStage(2).state, FatalStage(2).step), FatalStage(3).state);
    case 3 => SameState(Apply(FatalStage(3).state, FatalStage(3).step), FatalStage(4).state);
  }

  lemma FatalReached()
    ensures var r := FatalStages(); Reaches(r[0].state, Before(r, 4), r[4].state)
  {
    hide Apply, Enabled;
    var r := FatalStages();
    forall i | 0 <= i < 4 ensures Leads(r[i], r[i + 1]) {
      FatalLeads(i);
    }
    ChainReaches(r, 4);
  }

  /** An entry above ErrorLevel evicts another: the entry is gone, and the panic comes before the count. */
  lemma FatalEvictionMiscounts()
    ensures var r := FatalStages(); var s := r[4].state;
            && Reaches(r[0].state, Before(r, 4), s) && Enabled(s, Evict(0)) && CountersAgree(s, 0)
            && !CountersAgree(Apply(s, Evict(0)), 0) && Apply(s, Evict(0)).threads[0].pc.Panicked?
  {
    var r := FatalStages();
    FatalReached();
    ConservationOfCounters(r[0].state, Before(r, 4), r[4].state, 0);
    AgreementKept(r[0].state, Before(r, 4), r[4].state, Evict(0), 0);
  }
}
