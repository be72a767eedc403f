/**
 The two consumers, batching and entry by entry: which of its phases each one is ever
 in, and what the counter of processed entries says about what it took.
 */
module AsyncBatches {
  import opened Core
  import opened AsyncQueue
  import opened AsyncEffects
  import opened AsyncOrder
  import opened AsyncConservation

  /** Handling one entry by itself: its write, its PutEntry, and the select after that. */
  predicate EntryByEntry(c: Consumer) {
    c.Writing? || c.Recycling? || c.Looping?
  }

  /** On the way of a batch. */
  predicate InBatch(c: Consumer) {
    c.Formatting? || c.RecyclingFormatted? || c.Collecting? || c.Flushing?
  }

  /**
   A batching consumer handles single entries only once the handler is closed, and
   then only those it drains; the other one never batches.
   */
  ghost predicate KeepsToItsWay(hd: Handler) {
    if hd.batching then (EntryByEntry(hd.consumer) || hd.failed != [] ==> hd.closed) && (EntryByEntry(hd.consumer) ==> Draining(hd.consumer))
    else !InBatch(hd.consumer) && hd.batchFailed == []
  }

  lemma KeepsToItsWayAffect(heap: map<Ref, Record>, hd: Handler, e: Effect)
    requires CanAffect(heap, hd, e) && KeepsToItsWay(hd)
    ensures KeepsToItsWay(Affect(heap, hd, e))
  {
    if e.Evicts? { EvictMoves(heap, hd, e.level); }
  }

  lemma {:induction false} KeepsToItsWayRun(init: State, steps: seq<Step>, s: State, h: nat)
    requires Reaches(init, steps, s) && IsHandler(s, h)
    ensures KeepsToItsWay(s.handlers[h])
  {
    if steps != [] {
      hide Apply, Enabled, Affect, CanAffect, EffectOf, Init, KeepsToItsWay;
      var front, step := steps[..|steps| - 1], steps[|steps| - 1];
      var m := Exec(init, front).value;
      StepEffect(m, step);
      KeepsToItsWayRun(init, front, m, h);
      if Target(m, step) == Some(h) {
        KeepsToItsWayAffect(m.heap, m.handlers[h], EffectOf(m, step));
      }
    }
  }

  /**
   A batching consumer on an open handler: nothing is handled entry by entry and no
   single write has failed. Between its batches, and when it has returned, everything
   it took is counted, whether or not the write of the last batch failed.
   */
  lemma BatchesCountAll(init: State, steps: seq<Step>, s: State, h: nat)
    requires Reaches(init, steps, s) && IsHandler(s, h) && s.handlers[h].batching && !s.handlers[h].closed
    ensures var hd := s.handlers[h];
            && !EntryByEntry(hd.consumer) && hd.failed == []
            && (hd.consumer.Selecting? || hd.consumer.Exited? ==> hd.stats.processed == |Taken(hd.removed)| + |hd.bypassed|)
            && (hd.consumer.Exited? ==> hd.batchFailed != [])
  {
    hide Init, Exec;
    KeepsToItsWayRun(init, steps, s, h);
    var _ := AccountedRun(_ => true, init, steps, s, h);
    var _ := Invariants(init, steps, s);
    assert Tracked(s.heap, s.handlers[h]);
  }

  /**
   The other consumer: nothing is ever in a batch, and between entries what it took is
   counted but for the one entry whose write failed, after which it has returned.
   */
  lemma SinglesCountWritten(init: State, steps: seq<Step>, s: State, h: nat)
    requires Reaches(init, steps, s) && IsHandler(s, h) && !s.handlers[h].batching
    ensures var hd := s.handlers[h];
            && !InBatch(hd.consumer) && hd.batchFailed == [] && |hd.failed| <= 1 && (hd.failed != [] ==> hd.consumer.Exited?)
            && (!HoldsEntry(hd.consumer) ==> hd.stats.processed + |hd.failed| == |Taken(hd.removed)| + |hd.bypassed|)
  {
    hide Init, Exec;
    KeepsToItsWayRun(init, steps, s, h);
    FailsOnce(init, steps, s, h);
    var _ := AccountedRun(_ => true, init, steps, s, h);
    var _ := Invariants(init, steps, s);
    assert Tracked(s.heap, s.handlers[h]);
  }

  lemma FailsOnceAffect(heap: map<Ref, Record>, hd: Handler, e: Effect)
    requires CanAffect(heap, hd, e) && |hd.failed| <= 1 && (hd.failed != [] ==> hd.consumer.Exited?)
    ensures var hd' := Affect(heap, hd, e); |hd'.failed| <= 1 && (hd'.failed != [] ==> hd'.consumer.Exited?)
  {
    if e.Evicts? { EvictMoves(heap, hd, e.level); }
  }

  lemma {:induction false} FailsOnce(init: State, steps: seq<Step>, s: State, h: nat)
    requires Reaches(init, steps, s) && IsHandler(s, h)
    ensures |s.handlers[h].failed| <= 1 && (s.handlers[h].failed != [] ==> s.handlers[h].consumer.Exited?)
  {
    if steps != [] {
      hide Apply, Enabled, Affect, CanAffect, EffectOf, Init;
      var front, step := steps[..|steps| - 1], steps[|steps| - 1];
      var m := Exec(init, front).value;
      StepEffect(m, step);
      FailsOnce(init, front, m, h);
      if Target(m, step) == Some(h) {
        FailsOnceAffect(m.heap, m.handlers[h], EffectOf(m, step));
      }
    }
  }
}
