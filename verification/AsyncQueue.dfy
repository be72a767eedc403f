/**
 The asynchronous handler protocol as a state machine
 (handler/consolehandler/console_async.go, handler/filehandler/file_async.go,
 and the batching consumers of handler/console.go and handler/file.go).

 Any number of threads log to any number of handlers; all of them take their
 entries from one pool. Every `select` of the source is one step, and so is every
 call on the shared timer; a counter changes together with what it counts. The
 timer and the drain deadline may fire at any moment. An entry is an address in
 `heap`; the queues hold addresses, as the channels hold references.
 */
module AsyncQueue {
  import opened Core
  import opened Policy

  type Ref = nat

  /** What a thread stored in the entry it handed over: its `call`-th call. */
  datatype Record = Record(thread: nat, call: nat, level: Level, text: string)

  /** The two inner loops of process that write entries one by one. */
  datatype Loop = BatchLoop | DrainLoop

  /** Where the consumer goroutine stands in process. */
  datatype Consumer =
    | Selecting                                        // the outer select
    | Looping(loop: Loop)                              // the inner select
    | Writing(ref: Ref, loop: Loop)                    // received, not yet written
    | Recycling(ref: Ref, loop: Loop)                  // written, PutEntry is next
    | Formatting(ref: Ref, batch: seq<Record>)         // batch path: received, not yet formatted
    | RecyclingFormatted(ref: Ref, batch: seq<Record>) // formatted, PutEntry is next
    | Collecting(batch: seq<Record>)                   // batch path: the inner select
    | Flushing(batch: seq<Record>)                     // counted, the batch write is next
    | Exited

  datatype Closer = Open | Waiting | Closed

  /** The handler's one block timer: off, running, or with its tick in the channel. */
  datatype Timer = TimerOff | TimerRunning | TimerTicked

  /** What callers do to it; they drain the channel when Stop has found the timer off. */
  datatype TimerCall = StopTimer | DrainTimer | ResetTimer

  /** An entry that left the queue, and whether the consumer or an eviction took it. */
  datatype Removal = Removal(record: Record, taken: bool)

  /**
   One asynchronous handler. The fields after `stats` are history: what was
   handed to Handle, enqueued, removed from the queue, written by the consumer,
   lost to a failed consumer write (of one entry, or of a whole batch), dropped
   on arrival, and written by the synchronous fallback.
   */
  datatype Handler = Handler(
    capacity: nat, policies: map<Level, OverflowPolicy>, batching: bool,
    queue: seq<Ref>, closed: bool, queueClosed: bool,
    consumer: Consumer, closer: Closer, stats: Stats,
    submitted: seq<Record>, enqueued: seq<Record>, removed: seq<Removal>,
    out: seq<Record>, failed: seq<Record>, batchFailed: seq<Record>,
    dropped: seq<Record>,    // arrivals dropped because the queue was full
    bypassed: seq<Record>, bypassFailed: seq<Record>,
    uncounted: nat,          // evicted, but IncrementDropped panicked
    phantom: nat,            // counted as an eviction, but the channel was closed and empty
    evictedFor: seq<Level>,  // the level of the arrival each eviction was made for
    deadlineFired: bool,
    timer: Timer)            // shared by all blocked callers

  /** Where a thread stands in its call; an async call is on handler `h` with entry `ref`. */
  datatype Pc =
    | Idle
    | First(h: nat, ref: Ref)        // the first select of Handle
    | Arming(h: nat, ref: Ref, call: TimerCall)  // Block, the queue is full: this call on the timer is next
    | Blocked(h: nat, ref: Ref)      // Block: the select of send, timer and closed
    | Sent(h: nat, drain: bool)      // Block: the entry is queued; Stop is next, or the drain after it
    | Leaving(h: nat, ref: Ref, drain: bool)  // Block: seen `closed`; Stop is next, or the drain after it
    | Evicting(h: nat, ref: Ref)     // DropOldest: about to remove the oldest
    | Retrying(h: nat, ref: Ref)     // DropOldest: second try
    | FallingBack(h: nat, ref: Ref)  // Block: the synchronous write
    | Panicked(h: nat, ref: Ref)
    | SyncWriting(ref: Ref, always: bool)  // on a synchronous handler
    | SyncRecycling(ref: Ref)

  datatype Thread = Thread(pc: Pc, calls: nat)

  datatype State = State(
    pool: set<Ref>, heap: map<Ref, Record>,
    handlers: seq<Handler>, threads: seq<Thread>)

  datatype Step =
    | Start(t: nat, h: nat, ref: Ref, level: Level, text: string)
    | StartSync(t: nat, ref: Ref, level: Level, text: string, always: bool)
    | Send(t: nat)
    | BlockedSend(t: nat)
    | BlockedTimeout(t: nat)
    | BlockedClosed(t: nat)
    | UseTimer(t: nat)      // the caller's next call on the timer
    | Evict(t: nat)
    | Retry(t: nat)
    | Fallback(t: nat, ok: bool)
    | SyncWrite(t: nat, ok: bool)
    | SyncRecycle(t: nat)
    | Receive(h: nat)
    | Write(h: nat, ok: bool)
    | Recycle(h: nat)
    | Format(h: nat)
    | QueueEmpty(h: nat)
    | SeeClosed(h: nat)
    | Deadline(h: nat)
    | Close(h: nat)
    | CloseQueue(h: nat)
    | CloseAgain(h: nat)
    | PoolDiscard(ref: Ref)
    | TimerFire(h: nat)

  // ---------------------------------------------------------------- enabling

  /** In Handle, with the entry still in hand. */
  predicate OnHandler(pc: Pc) {
    || pc.First? || pc.Arming? || pc.Blocked? || pc.Leaving? || pc.Evicting? || pc.Retrying? || pc.FallingBack?
    || pc.Panicked?
  }

  predicate ThreadHolds(pc: Pc) {
    !pc.Idle? && !pc.Sent?
  }

  /** In Handle on h; the entry may be queued already. */
  predicate Inside(pc: Pc, h: nat) {
    (OnHandler(pc) || pc.Sent?) && pc.h == h
  }

  /** GetEntry yields any pooled entry or a new one. */
  predicate Gettable(s: State, r: Ref) {
    r in s.pool || r !in s.heap
  }

  predicate IsThread(s: State, t: nat) { t < |s.threads| }

  predicate IsHandler(s: State, h: nat) { h < |s.handlers| }

  /** Thread t is inside Handle on a handler that exists. */
  predicate InHandle(s: State, t: nat) {
    IsThread(s, t) && OnHandler(s.threads[t].pc) && IsHandler(s, s.threads[t].pc.h) && s.threads[t].pc.ref in s.heap
  }

  predicate CanReceive(c: Consumer) {
    c.Selecting? || c.Looping? || c.Collecting?
  }

  predicate Enabled(s: State, step: Step) {
    match step
    case Start(t, h, r, _, _) => IsThread(s, t) && s.threads[t].pc.Idle? && IsHandler(s, h) && Gettable(s, r)
    case StartSync(t, r, _, _, _) => IsThread(s, t) && s.threads[t].pc.Idle? && Gettable(s, r)
    case Send(t) => InHandle(s, t) && s.threads[t].pc.First?
    case BlockedSend(t) => InHandle(s, t) && s.threads[t].pc.Blocked? && CanSend(s.handlers[s.threads[t].pc.h])
    case BlockedTimeout(t) => InHandle(s, t) && s.threads[t].pc.Blocked? && s.handlers[s.threads[t].pc.h].timer.TimerTicked?
    case BlockedClosed(t) => InHandle(s, t) && s.threads[t].pc.Blocked? && s.handlers[s.threads[t].pc.h].closed
    case UseTimer(t) => AtTimer(s, t)
    case Evict(t) => InHandle(s, t) && s.threads[t].pc.Evicting? && HeadInHeap(s, s.threads[t].pc.h)
    case Retry(t) => InHandle(s, t) && s.threads[t].pc.Retrying?
    case Fallback(t, _) => InHandle(s, t) && s.threads[t].pc.FallingBack?
    case SyncWrite(t, _) => IsThread(s, t) && s.threads[t].pc.SyncWriting?
    case SyncRecycle(t) => IsThread(s, t) && s.threads[t].pc.SyncRecycling?
    case Receive(h) => IsHandler(s, h) && CanReceive(s.handlers[h].consumer) && s.handlers[h].queue != [] && HeadInHeap(s, h)
    case Write(h, _) => IsHandler(s, h) && (
      var c := s.handlers[h].consumer; (c.Writing? && c.ref in s.heap) || c.Flushing?)
    case Recycle(h) => IsHandler(s, h) && (s.handlers[h].consumer.Recycling? || s.handlers[h].consumer.RecyclingFormatted?)
    case Format(h) => IsHandler(s, h) && s.handlers[h].consumer.Formatting? && s.handlers[h].consumer.ref in s.heap
    case QueueEmpty(h) => IsHandler(s, h) && (s.handlers[h].consumer.Looping? || s.handlers[h].consumer.Collecting?) && s.handlers[h].queue == []
    case SeeClosed(h) => IsHandler(s, h) && s.handlers[h].consumer.Selecting? && s.handlers[h].closed
    case Deadline(h) => IsHandler(s, h) && s.handlers[h].consumer == Looping(DrainLoop)
    case Close(h) => IsHandler(s, h) && s.handlers[h].closer.Open?
    case CloseQueue(h) => IsHandler(s, h) && s.handlers[h].closer.Waiting? && s.handlers[h].consumer.Exited?
    case CloseAgain(h) => IsHandler(s, h) && s.handlers[h].closed
    case PoolDiscard(r) => r in s.pool
    case TimerFire(h) => IsHandler(s, h) && s.handlers[h].timer.TimerRunning?
  }

  /** A call on the timer is what thread t does next. */
  predicate AtTimer(s: State, t: nat) {
    || (InHandle(s, t) && (s.threads[t].pc.Arming? || s.threads[t].pc.Leaving?))
    || (IsThread(s, t) && s.threads[t].pc.Sent? && IsHandler(s, s.threads[t].pc.h))
  }

  predicate HeadInHeap(s: State, h: nat)
    requires IsHandler(s, h)
  {
    s.handlers[h].queue != [] ==> s.handlers[h].queue[0] in s.heap
  }

  /** A send on a closed channel is ready too: it panics. */
  predicate CanSend(hd: Handler) {
    hd.queueClosed || |hd.queue| < hd.capacity
  }

  // ---------------------------------------------------------------- effects

  function Enqueue(hd: Handler, r: Ref, rec: Record): Handler {
    hd.(queue := hd.queue + [r], enqueued := hd.enqueued + [rec])
  }

  function Dequeue(hd: Handler, rec: Record, taken: bool): Handler
    requires hd.queue != []
  {
    hd.(queue := hd.queue[1..], removed := hd.removed + [Removal(rec, taken)])
  }

  /** One attempt to send: on to `sent`, or to `full` when there is no room. */
  function TrySend(s: State, t: nat, full: Pc, sent: Pc): State
    requires InHandle(s, t)
  {
    var pc := s.threads[t].pc;
    var hd := s.handlers[pc.h];
    if hd.queueClosed then
      SetPc(s, t, Panicked(pc.h, pc.ref))
    else if |hd.queue| < hd.capacity then
      SetBoth(s, t, sent, pc.h, Enqueue(hd, pc.ref, s.heap[pc.ref]))
    else
      SetPc(s, t, full)
  }

  /** IncrementDropped for the arriving entry, which is then abandoned. */
  function DropArriving(s: State, t: nat): State
    requires InHandle(s, t)
  {
    var pc := s.threads[t].pc;
    var hd := s.handlers[pc.h];
    var level := s.heap[pc.ref].level;
    if Countable(level) then
      SetBoth(s, t, Idle, pc.h,
              hd.(stats := IncrementDropped(hd.stats, level), dropped := hd.dropped + [s.heap[pc.ref]]))
    else
      SetPc(s, t, Panicked(pc.h, pc.ref))
  }

  function SetPc(s: State, t: nat, pc: Pc): State
    requires IsThread(s, t)
  {
    s.(threads := s.threads[t := s.threads[t].(pc := pc)])
  }

  function SetHandler(s: State, h: nat, hd: Handler): State
    requires IsHandler(s, h)
  {
    s.(handlers := s.handlers[h := hd])
  }

  function SetBoth(s: State, t: nat, pc: Pc, h: nat, hd: Handler): State
    requires IsThread(s, t) && IsHandler(s, h)
  {
    SetHandler(SetPc(s, t, pc), h, hd)
  }

  /** GetEntry, then fill the entry with the call's data. */
  function Fill(s: State, t: nat, r: Ref, level: Level, text: string): State
    requires IsThread(s, t)
  {
    s.(pool := s.pool - {r},
       heap := s.heap[r := Record(t, s.threads[t].calls, level, text)],
       threads := s.threads[t := s.threads[t].(calls := s.threads[t].calls + 1)])
  }

  function StartCall(s: State, t: nat, h: nat, r: Ref, level: Level, text: string): State
    requires IsThread(s, t) && IsHandler(s, h)
  {
    var f := Fill(s, t, r, level, text);
    SetBoth(f, t, First(h, r), h,
            s.handlers[h].(submitted := s.handlers[h].submitted + [f.heap[r]]))
  }

  /** The branch the first select takes when the queue is full. */
  function OnFull(s: State, t: nat): State
    requires InHandle(s, t)
  {
    var pc := s.threads[t].pc;
    match PolicyFor(s.handlers[pc.h].policies, s.heap[pc.ref].level)
    case Block => SetPc(s, t, Arming(pc.h, pc.ref, StopTimer))
    case DropOldest => SetPc(s, t, Evicting(pc.h, pc.ref))
    case DropNewest => DropArriving(s, t)
  }

  function SendStep(s: State, t: nat): State
    requires InHandle(s, t)
  {
    var pc := s.threads[t].pc;
    if CanSend(s.handlers[pc.h]) then TrySend(s, t, pc, Idle) else OnFull(s, t)
  }

  /** Stop and Reset discard a tick that nobody has received; the drain takes it. */
  function AfterCall(timer: Timer, call: TimerCall): Timer {
    match call
    case StopTimer => TimerOff
    case DrainTimer => if timer.TimerTicked? then TimerOff else timer
    case ResetTimer => TimerRunning
  }

  function CallOf(pc: Pc): TimerCall
    requires pc.Arming? || pc.Sent? || pc.Leaving?
  {
    if pc.Arming? then pc.call else if pc.drain then DrainTimer else StopTimer
  }

  /** Stop is followed by the drain if it found the timer off; a caller about to wait ends with Reset. */
  function PastCall(pc: Pc, timer: Timer): Pc
    requires pc.Arming? || pc.Sent? || pc.Leaving?
  {
    var drains := CallOf(pc).StopTimer? && timer.TimerOff?;
    match pc
    case Arming(h, r, ResetTimer) => Blocked(h, r)
    case Arming(h, r, _) => Arming(h, r, if drains then DrainTimer else ResetTimer)
    case Sent(h, _) => if drains then Sent(h, true) else Idle
    case Leaving(h, r, _) => if drains then Leaving(h, r, true) else FallingBack(h, r)
  }

  function TimerStep(s: State, t: nat): State
    requires AtTimer(s, t)
  {
    var pc := s.threads[t].pc;
    var hd := s.handlers[pc.h];
    SetBoth(s, t, PastCall(pc, hd.timer), pc.h, hd.(timer := AfterCall(hd.timer, CallOf(pc))))
  }

  /** The oldest entry is taken out and counted as a drop of the arriving level. */
  function AfterEvict(heap: map<Ref, Record>, hd: Handler, level: Level): Handler
    requires hd.queue != [] ==> hd.queue[0] in heap
  {
    var received := hd.queue != [];
    var nothing := hd.queue == [] && hd.queueClosed;  // a closed, empty channel yields nil
    var counts := received || nothing;
    hd.(queue := if received then hd.queue[1..] else hd.queue,
        removed := if received then hd.removed + [Removal(heap[hd.queue[0]], false)] else hd.removed,
        phantom := if nothing then hd.phantom + 1 else hd.phantom,
        evictedFor := if counts then hd.evictedFor + [level] else hd.evictedFor,
        stats := if counts && Countable(level) then IncrementDropped(hd.stats, level) else hd.stats,
        uncounted := if counts && !Countable(level) then hd.uncounted + 1 else hd.uncounted)
  }

  function EvictStep(s: State, t: nat): State
    requires InHandle(s, t) && HeadInHeap(s, s.threads[t].pc.h)
  {
    var pc := s.threads[t].pc;
    var hd := s.handlers[pc.h];
    var level := s.heap[pc.ref].level;
    var next :=
      if Countable(level) || (hd.queue == [] && !hd.queueClosed) then Retrying(pc.h, pc.ref)
      else Panicked(pc.h, pc.ref);
    SetBoth(s, t, next, pc.h, AfterEvict(s.heap, hd, level))
  }

  function RetryStep(s: State, t: nat): State
    requires InHandle(s, t)
  {
    var pc := s.threads[t].pc;
    if CanSend(s.handlers[pc.h]) then TrySend(s, t, pc, Idle) else DropArriving(s, t)
  }

  /** The synchronous write of the Block fallback. */
  function AfterBypass(hd: Handler, rec: Record, ok: bool): Handler {
    hd.(bypassed := if ok then hd.bypassed + [rec] else hd.bypassed,
        bypassFailed := if ok then hd.bypassFailed else hd.bypassFailed + [rec],
        stats := if ok then AddProcessed(hd.stats, 1) else hd.stats)
  }

  function FallbackStep(s: State, t: nat, ok: bool): State
    requires InHandle(s, t)
  {
    var pc := s.threads[t].pc;
    SetBoth(s, t, Idle, pc.h, AfterBypass(s.handlers[pc.h], s.heap[pc.ref], ok))
  }

  predicate HoldsEntry(c: Consumer) {
    c.Writing? || c.Recycling? || c.Formatting? || c.RecyclingFormatted?
  }

  function AfterReceive(heap: map<Ref, Record>, hd: Handler): Handler
    requires CanReceive(hd.consumer) && hd.queue != [] && hd.queue[0] in heap
  {
    var r := hd.queue[0];
    var next :=
      match hd.consumer
      case Selecting => if hd.batching then Formatting(r, []) else Writing(r, BatchLoop)
      case Collecting(batch) => Formatting(r, batch)
      case Looping(loop) => Writing(r, loop);
    Dequeue(hd, heap[r], true).(consumer := next)
  }

  function AfterWrite(heap: map<Ref, Record>, hd: Handler, ok: bool): Handler
    requires (hd.consumer.Writing? && hd.consumer.ref in heap) || hd.consumer.Flushing?
  {
    var single := hd.consumer.Writing?;
    var records := if single then [heap[hd.consumer.ref]] else hd.consumer.batch;
    var next := if single then Recycling(hd.consumer.ref, hd.consumer.loop) else Selecting;
    hd.(consumer := if ok then next else Exited,
        out := if ok then hd.out + records else hd.out,
        failed := if single && !ok then hd.failed + records else hd.failed,
        batchFailed := if !single && !ok then hd.batchFailed + records else hd.batchFailed,
        stats := if single && ok then AddProcessed(hd.stats, 1) else hd.stats)
  }

  function AfterRecycle(hd: Handler): Handler
    requires hd.consumer.Recycling? || hd.consumer.RecyclingFormatted?
  {
    hd.(consumer := if hd.consumer.Recycling? then Looping(hd.consumer.loop) else Collecting(hd.consumer.batch))
  }

  function AfterFormat(heap: map<Ref, Record>, hd: Handler): Handler
    requires hd.consumer.Formatting? && hd.consumer.ref in heap
  {
    hd.(consumer := RecyclingFormatted(hd.consumer.ref, hd.consumer.batch + [heap[hd.consumer.ref]]))
  }

  /** The inner select finds nothing: back to the outer select, return, or write the batch. */
  function AfterQueueEmpty(hd: Handler): Handler
    requires hd.consumer.Looping? || hd.consumer.Collecting?
  {
    var batch := if hd.consumer.Collecting? then hd.consumer.batch else [];
    var next :=
      match hd.consumer
      case Looping(BatchLoop) => Selecting
      case Looping(DrainLoop) => Exited
      case Collecting(b) => Flushing(b);
    hd.(consumer := next, stats := AddProcessed(hd.stats, |batch|))
  }

  function Apply(s: State, step: Step): State
    requires Enabled(s, step)
  {
    match step
    case Start(t, h, r, level, text) => StartCall(s, t, h, r, level, text)
    case StartSync(t, r, level, text, always) => SetPc(Fill(s, t, r, level, text), t, SyncWriting(r, always))
    case Send(t) => SendStep(s, t)
    case BlockedSend(t) => TrySend(s, t, s.threads[t].pc, Sent(s.threads[t].pc.h, false))
    case BlockedTimeout(t) =>
      var pc := s.threads[t].pc;
      var hd := s.handlers[pc.h];
      SetBoth(s, t, FallingBack(pc.h, pc.ref), pc.h, hd.(stats := IncrementBlocked(hd.stats), timer := TimerOff))
    case BlockedClosed(t) =>
      var pc := s.threads[t].pc;
      SetPc(s, t, Leaving(pc.h, pc.ref, false))
    case UseTimer(t) => TimerStep(s, t)
    case Evict(t) => EvictStep(s, t)
    case Retry(t) => RetryStep(s, t)
    case Fallback(t, ok) => FallbackStep(s, t, ok)
    case SyncWrite(t, ok) =>
      var pc := s.threads[t].pc;
      SetPc(s, t, if ok || pc.always then SyncRecycling(pc.ref) else Idle)
    case SyncRecycle(t) => SetPc(s, t, Idle).(pool := s.pool + {s.threads[t].pc.ref})
    case Receive(h) => SetHandler(s, h, AfterReceive(s.heap, s.handlers[h]))
    case Write(h, ok) => SetHandler(s, h, AfterWrite(s.heap, s.handlers[h], ok))
    case Recycle(h) => SetHandler(s, h, AfterRecycle(s.handlers[h])).(pool := s.pool + {s.handlers[h].consumer.ref})
    case Format(h) => SetHandler(s, h, AfterFormat(s.heap, s.handlers[h]))
    case QueueEmpty(h) => SetHandler(s, h, AfterQueueEmpty(s.handlers[h]))
    case SeeClosed(h) => SetHandler(s, h, s.handlers[h].(consumer := Looping(DrainLoop)))
    case Deadline(h) => SetHandler(s, h, s.handlers[h].(consumer := Exited, deadlineFired := true))
    case Close(h) => SetHandler(s, h, s.handlers[h].(closed := true, closer := Waiting))
    case CloseQueue(h) => SetHandler(s, h, s.handlers[h].(queueClosed := true, closer := Closed))
    case CloseAgain(h) => s
    case PoolDiscard(r) => s.(pool := s.pool - {r})
    case TimerFire(h) => SetHandler(s, h, s.handlers[h].(timer := TimerTicked))
  }

  // ---------------------------------------------------------------- runs

  predicate NewHandler(hd: Handler) {
    && hd == Handler(hd.capacity, hd.policies, hd.batching, [], false, false, Selecting, Open, NO_STATS,
                     [], [], [], [], [], [], [], [], [], 0, 0, [], false, TimerOff)
    && hd.capacity > 0
  }

  predicate Init(s: State) {
    && s.pool == {} && s.heap == map[]
    && (forall h | 0 <= h < |s.handlers| :: NewHandler(s.handlers[h]))
    && (forall t | 0 <= t < |s.threads| :: s.threads[t] == Thread(Idle, 0))
  }

  /** The state after the steps, taken one after the other, or None when one of them was not enabled. */
  function Exec(s: State, steps: seq<Step>): Option<State> {
    if steps == [] then Some(s) else
    match Exec(s, steps[..|steps| - 1])
    case None => None
    case Some(m) =>
      if Enabled(m, steps[|steps| - 1]) then Some(Apply(m, steps[|steps| - 1])) else None
  }

  /** s is the state some run has reached. */
  ghost predicate Reaches(init: State, steps: seq<Step>, s: State) {
    Init(init) && Exec(init, steps) == Some(s)
  }
}
