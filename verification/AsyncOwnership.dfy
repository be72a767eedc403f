/**
 Single ownership of pooled entries: in every reachable state an entry is in at
 most one of the pool, a thread, a queue slot and a consumer, and PutEntry is
 only ever applied to an entry that is not in the pool.
 */
module AsyncOwnership {
  import opened Core
  import opened Policy
  import opened AsyncQueue

  /** The one place an entry is in; Gone entries are left to the garbage collector. */
  datatype Place = InPool | AtThread(t: nat) | InQueue(h: nat) | AtConsumer(h: nat) | Gone

  /** `owner` says where each entry is, and the state agrees. */
  ghost predicate Owned(s: State, owner: map<Ref, Place>) {
    && owner.Keys == s.heap.Keys
    && (forall r | r in s.pool :: r in owner && owner[r] == InPool)
    && (forall t | 0 <= t < |s.threads| && ThreadHolds(s.threads[t].pc) ::
          s.threads[t].pc.ref in owner && owner[s.threads[t].pc.ref] == AtThread(t))
    && (forall t | 0 <= t < |s.threads| && (OnHandler(s.threads[t].pc) || s.threads[t].pc.Sent?) :: IsHandler(s, s.threads[t].pc.h))
    && (forall h | 0 <= h < |s.handlers| && HoldsEntry(s.handlers[h].consumer) ::
          s.handlers[h].consumer.ref in owner && owner[s.handlers[h].consumer.ref] == AtConsumer(h))
    && (forall h, k | 0 <= h < |s.handlers| && 0 <= k < |s.handlers[h].queue| ::
          s.handlers[h].queue[k] in owner && owner[s.handlers[h].queue[k]] == InQueue(h))
    && (forall h, j, k | 0 <= h < |s.handlers| && 0 <= j < k < |s.handlers[h].queue| ::
          s.handlers[h].queue[j] != s.handlers[h].queue[k])
  }

  /** Where the entry of thread t is once its call has taken a step. */
  ghost function PlaceAfterCall(s: State, s': State, t: nat): Place
    requires InHandle(s, t) && |s'.handlers| == |s.handlers| && |s'.threads| == |s.threads|
  {
    var h := s.threads[t].pc.h;
    if ThreadHolds(s'.threads[t].pc) then AtThread(t)
    else if |s'.handlers[h].enqueued| > |s.handlers[h].enqueued| then InQueue(h)
    else Gone
  }

  ghost function OwnerAfter(s: State, owner: map<Ref, Place>, step: Step): map<Ref, Place>
    requires Enabled(s, step)
  {
    var s' := Apply(s, step);
    match step
    case Start(t, _, r, _, _) => owner[r := AtThread(t)]
    case StartSync(t, r, _, _, _) => owner[r := AtThread(t)]
    case Send(t) => owner[s.threads[t].pc.ref := PlaceAfterCall(s, s', t)]
    case BlockedSend(t) => owner[s.threads[t].pc.ref := PlaceAfterCall(s, s', t)]
    case BlockedTimeout(t) => owner
    case BlockedClosed(t) => owner
    case Evict(t) =>
      var q := s.handlers[s.threads[t].pc.h].queue;
      if q == [] then owner else owner[q[0] := Gone]
    case Retry(t) => owner[s.threads[t].pc.ref := PlaceAfterCall(s, s', t)]
    case Fallback(t, _) => owner[s.threads[t].pc.ref := Gone]
    case SyncWrite(t, _) => if ThreadHolds(s'.threads[t].pc) then owner else owner[s.threads[t].pc.ref := Gone]
    case SyncRecycle(t) => owner[s.threads[t].pc.ref := InPool]
    case Receive(h) => owner[s.handlers[h].queue[0] := AtConsumer(h)]
    case Write(h, ok) =>
      if s.handlers[h].consumer.Writing? && !ok then owner[s.handlers[h].consumer.ref := Gone] else owner
    case Recycle(h) => owner[s.handlers[h].consumer.ref := InPool]
    case PoolDiscard(r) => owner[r := Gone]
    case _ => owner
  }

  lemma OwnedInit(s: State)
    requires Init(s)
    ensures Owned(s, map[])
  {
  }

  // The edits the steps are made of, one lemma each.

  /** A thread moves on, still holding its entry. */
  lemma ThreadMoves(s: State, owner: map<Ref, Place>, t: nat, pc: Pc)
    requires Owned(s, owner) && IsThread(s, t) && ThreadHolds(s.threads[t].pc)
    requires ThreadHolds(pc) && pc.ref == s.threads[t].pc.ref
    requires OnHandler(pc) ==> IsHandler(s, pc.h)
    ensures Owned(SetPc(s, t, pc), owner)
  {
  }

  /** A thread is done with its entry, which goes to the place p. */
  lemma ThreadLeaves(s: State, owner: map<Ref, Place>, t: nat, p: Place, pc: Pc)
    requires Owned(s, owner) && IsThread(s, t) && ThreadHolds(s.threads[t].pc)
    requires p.Gone? || p.InPool? || p.InQueue?
    requires pc.Idle? || (pc.Sent? && IsHandler(s, pc.h))
    ensures Owned(SetPc(s, t, pc), owner[s.threads[t].pc.ref := p])
    ensures s.threads[t].pc.ref !in s.pool
  {
  }

  /** A thread without an entry moves on. */
  lemma EmptyHanded(s: State, owner: map<Ref, Place>, t: nat, pc: Pc)
    requires Owned(s, owner) && IsThread(s, t) && s.threads[t].pc.Sent? && (pc.Idle? || (pc.Sent? && IsHandler(s, pc.h)))
    ensures Owned(SetPc(s, t, pc), owner)
  {
  }

  /** An entry that is nowhere is appended to a queue. */
  lemma Enqueues(s: State, owner: map<Ref, Place>, h: nat, r: Ref, hd: Handler)
    requires Owned(s, owner) && IsHandler(s, h) && r in owner && owner[r] == InQueue(h) && r !in s.handlers[h].queue
    requires hd.queue == s.handlers[h].queue + [r] && hd.consumer == s.handlers[h].consumer
    ensures Owned(SetHandler(s, h, hd), owner)
  {
    var s' := SetHandler(s, h, hd);
    forall g, k | 0 <= g < |s'.handlers| && 0 <= k < |s'.handlers[g].queue|
      ensures s'.handlers[g].queue[k] in owner && owner[s'.handlers[g].queue[k]] == InQueue(g)
    {
      if g == h && k == |s.handlers[h].queue| { assert hd.queue[k] == r; }
    }
  }

  /** An edit of a handler that moves no entry. */
  lemma HandlerKeeps(s: State, owner: map<Ref, Place>, h: nat, hd: Handler)
    requires Owned(s, owner) && IsHandler(s, h)
    requires hd.queue == s.handlers[h].queue
    requires HoldsEntry(hd.consumer) ==>
               HoldsEntry(s.handlers[h].consumer) && hd.consumer.ref == s.handlers[h].consumer.ref
    ensures Owned(SetHandler(s, h, hd), owner)
  {
  }

  /** The oldest entry leaves the queue: evicted, or received by the consumer. */
  lemma Dequeues(s: State, owner: map<Ref, Place>, h: nat, hd: Handler, p: Place)
    requires Owned(s, owner) && IsHandler(s, h) && s.handlers[h].queue != []
    requires hd.queue == s.handlers[h].queue[1..]
    requires if p.Gone? then hd.consumer == s.handlers[h].consumer
             else p == AtConsumer(h) && HoldsEntry(hd.consumer) && hd.consumer.ref == s.handlers[h].queue[0]
    ensures Owned(SetHandler(s, h, hd), owner[s.handlers[h].queue[0] := p])
  {
    var head := s.handlers[h].queue[0];
    var s' := SetHandler(s, h, hd);
    forall g, k | 0 <= g < |s'.handlers| && 0 <= k < |s'.handlers[g].queue|
      ensures s'.handlers[g].queue[k] != head
      ensures s'.handlers[g].queue[k] in owner && owner[s'.handlers[g].queue[k]] == InQueue(g)
    {
      if g == h { assert hd.queue[k] == s.handlers[h].queue[k + 1]; }
    }
    forall j, k | 0 <= j < k < |hd.queue|
      ensures hd.queue[j] != hd.queue[k]
    {
      assert hd.queue[j] == s.handlers[h].queue[j + 1] && hd.queue[k] == s.handlers[h].queue[k + 1];
    }
  }

  /** The consumer is done with its entry. */
  lemma ConsumerLeaves(s: State, owner: map<Ref, Place>, h: nat, hd: Handler, p: Place)
    requires Owned(s, owner) && IsHandler(s, h) && HoldsEntry(s.handlers[h].consumer)
    requires hd.queue == s.handlers[h].queue && !HoldsEntry(hd.consumer)
    requires p.Gone? || p.InPool?
    ensures Owned(SetHandler(s, h, hd), owner[s.handlers[h].consumer.ref := p])
    ensures s.handlers[h].consumer.ref !in s.pool
  {
  }

  /** GetEntry and fill. */
  lemma Gets(s: State, owner: map<Ref, Place>, t: nat, r: Ref, level: Level, text: string, pc: Pc)
    requires Owned(s, owner) && IsThread(s, t) && s.threads[t].pc.Idle? && Gettable(s, r)
    requires ThreadHolds(pc) && pc.ref == r && (OnHandler(pc) ==> IsHandler(s, pc.h))
    ensures Owned(SetPc(Fill(s, t, r, level, text), t, pc), owner[r := AtThread(t)])
  {
  }

  lemma Pools(s: State, owner: map<Ref, Place>, r: Ref)
    requires Owned(s, owner) && r in owner && owner[r] == InPool
    ensures Owned(s.(pool := s.pool + {r}), owner)
    ensures Owned(s.(pool := s.pool - {r}), owner)
    ensures Owned(s.(pool := s.pool - {r}), owner[r := Gone])
  {
  }

  lemma TrySends(s: State, owner: map<Ref, Place>, t: nat, full: Pc, sent: Pc)
    requires Owned(s, owner) && InHandle(s, t) && CanSend(s.handlers[s.threads[t].pc.h])
    requires sent.Idle? || (sent.Sent? && sent.h == s.threads[t].pc.h)
    ensures Owned(TrySend(s, t, full, sent), owner[s.threads[t].pc.ref := PlaceAfterCall(s, TrySend(s, t, full, sent), t)])
  {
    var pc := s.threads[t].pc;
    var hd := s.handlers[pc.h];
    if hd.queueClosed {
      ThreadMoves(s, owner, t, Panicked(pc.h, pc.ref));
      assert owner[pc.ref := AtThread(t)] == owner;
    } else {
      assert pc.ref !in hd.queue;
      ThreadLeaves(s, owner, t, InQueue(pc.h), sent);
      Enqueues(SetPc(s, t, sent), owner[pc.ref := InQueue(pc.h)], pc.h, pc.ref, Enqueue(hd, pc.ref, s.heap[pc.ref]));
    }
  }

  lemma Drops(s: State, owner: map<Ref, Place>, t: nat)
    requires Owned(s, owner) && InHandle(s, t)
    ensures Owned(DropArriving(s, t), owner[s.threads[t].pc.ref := PlaceAfterCall(s, DropArriving(s, t), t)])
  {
    var pc := s.threads[t].pc;
    var hd := s.handlers[pc.h];
    var level := s.heap[pc.ref].level;
    if Countable(level) {
      ThreadLeaves(s, owner, t, Gone, Idle);
      HandlerKeeps(SetPc(s, t, Idle), owner[pc.ref := Gone], pc.h, DropArriving(s, t).handlers[pc.h]);
    } else {
      ThreadMoves(s, owner, t, Panicked(pc.h, pc.ref));
      assert owner[pc.ref := AtThread(t)] == owner;
    }
  }

  lemma OwnedSend(s: State, owner: map<Ref, Place>, t: nat)
    requires Owned(s, owner) && Enabled(s, Send(t))
    ensures Owned(Apply(s, Send(t)), OwnerAfter(s, owner, Send(t)))
  {
    var pc := s.threads[t].pc;
    if CanSend(s.handlers[pc.h]) {
      TrySends(s, owner, t, pc, Idle);
    } else {
      match PolicyFor(s.handlers[pc.h].policies, s.heap[pc.ref].level)
      case Block =>
        ThreadMoves(s, owner, t, Arming(pc.h, pc.ref, StopTimer));
        assert owner[pc.ref := AtThread(t)] == owner;
      case DropOldest =>
        ThreadMoves(s, owner, t, Evicting(pc.h, pc.ref));
        assert owner[pc.ref := AtThread(t)] == owner;
      case DropNewest => Drops(s, owner, t);
    }
  }

  lemma OwnedEvict(s: State, owner: map<Ref, Place>, t: nat)
    requires Owned(s, owner) && Enabled(s, Evict(t))
    ensures Owned(Apply(s, Evict(t)), OwnerAfter(s, owner, Evict(t)))
  {
    var pc := s.threads[t].pc;
    var hd := s.handlers[pc.h];
    var s' := Apply(s, Evict(t));
    var hd' := s'.handlers[pc.h];
    ThreadMoves(s, owner, t, s'.threads[t].pc);
    var m := SetPc(s, t, s'.threads[t].pc);
    if hd.queue != [] {
      Dequeues(m, owner, pc.h, hd', Gone);
    } else {
      HandlerKeeps(m, owner, pc.h, hd');
    }
    assert s' == SetHandler(m, pc.h, hd');
  }

  lemma OwnedStart(s: State, owner: map<Ref, Place>, t: nat, h: nat, r: Ref, level: Level, text: string)
    requires Owned(s, owner) && Enabled(s, Start(t, h, r, level, text))
    ensures Owned(StartCall(s, t, h, r, level, text), owner[r := AtThread(t)])
  {
    Gets(s, owner, t, r, level, text, First(h, r));
    var f := Fill(s, t, r, level, text);
    HandlerKeeps(SetPc(f, t, First(h, r)), owner[r := AtThread(t)], h,
                 s.handlers[h].(submitted := s.handlers[h].submitted + [f.heap[r]]));
  }

  predicate CallStep(step: Step) {
    step.Start? || step.StartSync? || step.Send? || step.BlockedSend? || step.BlockedTimeout? || step.BlockedClosed?
    || step.UseTimer? || step.Evict? || step.Retry? || step.Fallback? || step.SyncWrite? || step.SyncRecycle?
  }

  /** Steps on the timer move no entry. */
  lemma OwnedWaitStep(s: State, owner: map<Ref, Place>, step: Step)
    requires Owned(s, owner) && Enabled(s, step) && (step.BlockedTimeout? || step.BlockedClosed? || step.UseTimer?)
    ensures Owned(Apply(s, step), owner)
  {
    hide Owned;
    var s', t, pc := Apply(s, step), step.t, s.threads[step.t].pc;
    if pc.Sent? { EmptyHanded(s, owner, t, s'.threads[t].pc); } else { ThreadMoves(s, owner, t, s'.threads[t].pc); }
    HandlerKeeps(SetPc(s, t, s'.threads[t].pc), owner, pc.h, s'.handlers[pc.h]);
    assert s' == SetHandler(SetPc(s, t, s'.threads[t].pc), pc.h, s'.handlers[pc.h]);
  }

  lemma OwnedCallStep(s: State, owner: map<Ref, Place>, step: Step)
    requires Owned(s, owner) && Enabled(s, step) && CallStep(step)
    ensures Owned(Apply(s, step), OwnerAfter(s, owner, step))
  {
    hide Owned;
    var s' := Apply(s, step);
    match step
    case Start(t, h, r, level, text) => OwnedStart(s, owner, t, h, r, level, text);
    case StartSync(t, r, level, text, always) => Gets(s, owner, t, r, level, text, SyncWriting(r, always));
    case Send(t) => OwnedSend(s, owner, t);
    case BlockedSend(t) => TrySends(s, owner, t, s.threads[t].pc, Sent(s.threads[t].pc.h, false));
    case BlockedTimeout(t) => OwnedWaitStep(s, owner, step);
    case BlockedClosed(t) => OwnedWaitStep(s, owner, step);
    case UseTimer(t) => OwnedWaitStep(s, owner, step);
    case Evict(t) => OwnedEvict(s, owner, t);
    case Retry(t) =>
      if CanSend(s.handlers[s.threads[t].pc.h]) { TrySends(s, owner, t, s.threads[t].pc, Idle); } else { Drops(s, owner, t); }
    case Fallback(t, ok) =>
      var pc := s.threads[t].pc;
      ThreadLeaves(s, owner, t, Gone, Idle);
      HandlerKeeps(SetPc(s, t, Idle), owner[pc.ref := Gone], pc.h, s'.handlers[pc.h]);
    case SyncWrite(t, ok) =>
      if ThreadHolds(s'.threads[t].pc) { ThreadMoves(s, owner, t, s'.threads[t].pc); } else { ThreadLeaves(s, owner, t, Gone, Idle); }
    case SyncRecycle(t) =>
      var r := s.threads[t].pc.ref;
      ThreadLeaves(s, owner, t, InPool, Idle);
      Pools(SetPc(s, t, Idle), owner[r := InPool], r);
  }

  /** Steps of a handler that move no entry. */
  lemma OwnedStillStep(s: State, owner: map<Ref, Place>, step: Step)
    requires Owned(s, owner) && Enabled(s, step)
    requires step.Format? || step.QueueEmpty? || step.SeeClosed? || step.Deadline? || step.Close? || step.CloseQueue? || step.TimerFire?
    ensures Owned(Apply(s, step), OwnerAfter(s, owner, step))
  {
    hide Owned;
    HandlerKeeps(s, owner, step.h, Apply(s, step).handlers[step.h]);
  }

  lemma OwnedHandlerStep(s: State, owner: map<Ref, Place>, step: Step)
    requires Owned(s, owner) && Enabled(s, step) && !CallStep(step)
    ensures Owned(Apply(s, step), OwnerAfter(s, owner, step))
  {
    if step.PoolDiscard? {
      Pools(s, owner, step.ref);
    } else if !(step.Receive? || step.Write? || step.Recycle? || step.CloseAgain?) {
      OwnedStillStep(s, owner, step);
    } else {
      OwnedMovingStep(s, owner, step);
    }
  }

  lemma OwnedMovingStep(s: State, owner: map<Ref, Place>, step: Step)
    requires Owned(s, owner) && Enabled(s, step) && (step.Receive? || step.Write? || step.Recycle? || step.CloseAgain?)
    ensures Owned(Apply(s, step), OwnerAfter(s, owner, step))
  {
    hide Owned;
    match step
    case Receive(h) => Dequeues(s, owner, h, AfterReceive(s.heap, s.handlers[h]), AtConsumer(h));
    case Write(h, ok) =>
      var hd' := AfterWrite(s.heap, s.handlers[h], ok);
      if s.handlers[h].consumer.Writing? && !ok { ConsumerLeaves(s, owner, h, hd', Gone); }
      else { HandlerKeeps(s, owner, h, hd'); }
    case Recycle(h) =>
      var r := s.handlers[h].consumer.ref;
      var hd' := AfterRecycle(s.handlers[h]);
      ConsumerLeaves(s, owner, h, hd', InPool);
      Pools(SetHandler(s, h, hd'), owner[r := InPool], r);
    case CloseAgain(h) =>
  }

  lemma OwnedStep(s: State, owner: map<Ref, Place>, step: Step)
    requires Owned(s, owner) && Enabled(s, step)
    ensures Owned(Apply(s, step), OwnerAfter(s, owner, step))
  {
    if CallStep(step) { OwnedCallStep(s, owner, step); } else { OwnedHandlerStep(s, owner, step); }
  }

  lemma {:induction false} OwnedRun(init: State, steps: seq<Step>, s: State) returns (owner: map<Ref, Place>)
    requires Reaches(init, steps, s)
    ensures Owned(s, owner)
  {
    if steps == [] {
      owner := map[];
      OwnedInit(s);
    } else {
      var m := Exec(init, steps[..|steps| - 1]).value;
      var step := steps[|steps| - 1];
      owner := OwnedRun(init, steps[..|steps| - 1], m);
      OwnedStep(m, owner, step);
      owner := OwnerAfter(m, owner, step);
    }
  }

  /** Everywhere an entry can be. */
  datatype Spot = Pooled | Thread(t: nat) | Slot(h: nat, k: nat) | Consumer(h: nat)

  predicate At(s: State, spot: Spot, r: Ref) {
    match spot
    case Pooled => r in s.pool
    case Thread(t) => t < |s.threads| && ThreadHolds(s.threads[t].pc) && s.threads[t].pc.ref == r
    case Slot(h, k) => h < |s.handlers| && k < |s.handlers[h].queue| && s.handlers[h].queue[k] == r
    case Consumer(h) => h < |s.handlers| && HoldsEntry(s.handlers[h].consumer) && s.handlers[h].consumer.ref == r
  }

  /** An entry is in at most one place: no two threads, queue slots, consumers or the pool share it. */
  lemma SingleOwner(init: State, steps: seq<Step>, s: State, r: Ref, a: Spot, b: Spot)
    requires Reaches(init, steps, s)
    requires At(s, a, r) && At(s, b, r)
    ensures a == b
  {
    var owner := OwnedRun(init, steps, s);
  }

  /** PutEntry is never applied to an entry that is already in the pool. */
  lemma NeverPutTwice(init: State, steps: seq<Step>, s: State, step: Step)
    requires Reaches(init, steps, s) && Enabled(s, step)
    ensures match step
            case Recycle(h) => s.handlers[h].consumer.ref !in s.pool
            case SyncRecycle(t) => s.threads[t].pc.ref !in s.pool
            case _ => true
  {
    var owner := OwnedRun(init, steps, s);
  }

  /**
   The side conditions of `Enabled` on the heap never hold anything up: every
   address a thread, a queue or a consumer has is that of an entry.
   */
  lemma AddressesAreEntries(init: State, steps: seq<Step>, s: State, spot: Spot, r: Ref)
    requires Reaches(init, steps, s) && At(s, spot, r)
    ensures r in s.heap
  {
    var owner := OwnedRun(init, steps, s);
  }
}
