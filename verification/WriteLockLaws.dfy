/**
 The laws of the console write paths, over every run: mutual exclusion, no
 deadlock, and whole lines, or whole pieces of them, in the output.
 */
module WriteLockLaws {
  import opened Core
  import opened WriteLocks

  /** The part of the code between taking mu and releasing it. */
  predicate HoldsMu(single: bool, pc: Pc) {
    || pc.StoreHead? || pc.StoreFields? || pc.ResetBuf? || pc.FormatHead? || pc.FormatFields? || pc.FormatDone?
    || ((pc.Writing? || pc.WriteDone?) && (pc.shared || single))
    || (pc.WantWriter? && pc.shared)
  }

  predicate HoldsWriteMu(single: bool, pc: Pc) {
    !single && (pc.Writing? || pc.WriteDone?)
  }

  // ---------------------------------------------------------------- locks

  /** The locks are held by exactly the threads that stand between lock and unlock. */
  ghost predicate Locked(s: State) {
    && (forall t | 0 <= t < |s.threads| :: HoldsMu(s.single, s.threads[t].pc) <==> s.mu == Some(t))
    && (forall t | 0 <= t < |s.threads| :: HoldsWriteMu(s.single, s.threads[t].pc) <==> s.writeMu == Some(t))
    && (s.mu.Some? ==> s.mu.value < |s.threads|)
    && (s.writeMu.Some? ==> s.writeMu.value < |s.threads|)
  }

  lemma LockedMove(s: State, t: nat)
    requires Locked(s) && Enabled(s, Move(t))
    ensures Locked(MoveStep(s, t))
  {
  }

  lemma LockedStep(s: State, step: Step)
    requires Locked(s) && Enabled(s, step)
    ensures Locked(Apply(s, step))
  {
    if step.Move? {
      LockedMove(s, step.t);
    }
  }

  // ---------------------------------------------------------------- shared buffer and entry

  /** The whole line in one Write. */
  predicate OnePart(job: Job) {
    job.parts == [job.Line()]
  }

  /** How far the holder of mu has come with the shared entry and the shared buffer. */
  predicate SharedReady(s: State, pc: Pc) {
    match pc
    case WaitMu(job) => OnePart(job)
    case StoreHead(job) => OnePart(job)
    case StoreFields(job) => OnePart(job) && s.syncHead == job.head
    case ResetBuf(job, filled) => OnePart(job) && (filled ==> s.syncHead == job.head && s.syncFields == job.fields)
    case FormatHead(job, filled) =>
      OnePart(job) && s.syncBuf == "" && (filled ==> s.syncHead == job.head && s.syncFields == job.fields)
    case FormatFields(job, filled) =>
      OnePart(job) && s.syncBuf == job.head && (filled ==> s.syncHead == job.head && s.syncFields == job.fields)
    case WantWriter(job, shared, part) => shared ==> OnePart(job) && part == 0 && s.syncBuf == job.Line()
    case Writing(job, shared, part, _) => shared ==> OnePart(job) && part == 0 && s.syncBuf == job.Line()
    case WriteDone(job, shared, part, _) => shared ==> OnePart(job) && part == 0
    case _ => true
  }

  predicate PrivateReady(th: Thread) {
    (th.pc.WantWriter? || th.pc.Writing?) && !th.pc.shared ==> th.pc.part < |th.pc.job.parts| && th.buf == th.pc.job.parts[th.pc.part]
  }

  /** The text a thread writes, or is about to. */
  function Part(pc: Pc): string
    requires pc.WantWriter? || pc.Writing?
  {
    if pc.part < |pc.job.parts| then pc.job.parts[pc.part] else ""
  }

  lemma WritesPart(s: State, t: nat)
    requires Prepared(s) && IsThread(s, t) && (s.threads[t].pc.Writing? || s.threads[t].pc.WantWriter?)
    ensures s.threads[t].pc.part < |s.threads[t].pc.job.parts| && Source(s, t) == Part(s.threads[t].pc)
  {
    assert SharedReady(s, s.threads[t].pc) && PrivateReady(s.threads[t]);
  }

  ghost predicate Prepared(s: State) {
    forall t | 0 <= t < |s.threads| :: SharedReady(s, s.threads[t].pc) && PrivateReady(s.threads[t])
  }

  lemma PreparedMove(s: State, t: nat)
    requires Locked(s) && Prepared(s) && Enabled(s, Move(t))
    ensures Prepared(MoveStep(s, t))
  {
  }

  lemma PreparedStep(s: State, step: Step)
    requires Locked(s) && Prepared(s) && Enabled(s, step)
    ensures Prepared(Apply(s, step))
  {
    hide MoveStep, Part, Locked;
    if step.Move? {
      PreparedMove(s, step.t);
    }
  }

  // ---------------------------------------------------------------- output

  /** What all finished Write calls have put into the writer. */
  function Texts(log: seq<Written>): string {
    if log == [] then "" else Texts(log[..|log| - 1]) + log[|log| - 1].text
  }

  /** The call hands its entry to FormatTo: always on this path, or because TryLock failed. */
  predicate UsesFormatTo(c: Call) {
    c.path.PiecesPath? || (c.path == HandlePath(true) && !c.locked)
  }

  /** What the Writes of a call should be, from the entry it was made with. */
  function Expected(c: Call): seq<string> {
    if UsesFormatTo(c) then c.entry.pieces else [c.entry.head + c.entry.fields]
  }

  /** A Write as it should be, and whether it succeeded. */
  datatype Sent = Sent(text: string, ok: bool)

  /** The Writes of thread t that are in the log, by what they were to write. */
  function WritesOf(log: seq<Written>, t: nat): seq<Sent> {
    if log == [] then [] else
    var w := log[|log| - 1];
    WritesOf(log[..|log| - 1], t) + if w.thread == t then [Sent(PartOf(w), w.ok)] else []
  }

  function PartOf(w: Written): string {
    if w.part < |w.job.parts| then w.job.parts[w.part] else ""
  }

  function ExpectedAt(c: Call, i: nat): string {
    if i < |Expected(c)| then Expected(c)[i] else ""
  }

  /** The Writes of a call: what is expected of it in order, all of them successful but perhaps the last. */
  function Told(c: Call): seq<Sent> {
    seq(c.writes, i requires 0 <= i < c.writes => Sent(ExpectedAt(c, i), c.ok || i + 1 < c.writes))
  }

  function AllTold(calls: seq<Call>): seq<Sent> {
    if calls == [] then [] else AllTold(calls[..|calls| - 1]) + Told(calls[|calls| - 1])
  }

  /** A successful Write wrote exactly its part; a failed one some of it. */
  predicate Honest(w: Written) {
    w.part < |w.job.parts| && if w.ok then w.text == w.job.parts[w.part] else w.text <= w.job.parts[w.part]
  }

  ghost predicate Output(s: State) {
    && (forall t | 0 <= t < |s.threads| && s.threads[t].pc.Writing? ::
          var pc := s.threads[t].pc;
          pc.sent <= |Part(pc)| && s.out == Texts(s.log) + Part(pc)[..pc.sent])
    && ((forall t | 0 <= t < |s.threads| :: !s.threads[t].pc.Writing?) ==> s.out == Texts(s.log))
    && (forall i | 0 <= i < |s.log| :: Honest(s.log[i]) && s.log[i].thread < |s.threads|)
  }

  ghost predicate Complete(s: State) {
    forall t | 0 <= t < |s.threads| :: Sound(s.threads[t]) && WritesOf(s.log, t) == AllTold(s.threads[t].calls)
  }

  /** A call that is over has written all it should, or failed on the last thing it wrote. */
  predicate Finished(c: Call) {
    if c.ok then c.writes == |Expected(c)| else 0 < c.writes <= |Expected(c)|
  }

  /** The machine's job for the call is what it should be. */
  predicate MadeFor(job: Job, c: Call) {
    && job.parts == Expected(c)
    && job.batch == (if c.path.BatchPath? then Some(c.path.count) else None)
    && job.fails == (UsesFormatTo(c) && c.entry.fails)
  }

  /** The call under way is the thread's last one, and its history is right; the others are finished. */
  predicate Sound(th: Thread) {
    && (forall i | 0 <= i < |th.calls| - 1 :: Finished(th.calls[i]))
    && if th.pc.Idle? then th.calls != [] ==> Finished(th.calls[|th.calls| - 1])
       else th.calls != [] && MadeFor(th.pc.job, th.calls[|th.calls| - 1]) && AsFar(th.pc, th.calls[|th.calls| - 1])
  }

  predicate AsFar(pc: Pc, c: Call) {
    match pc
    case WantWriter(_, _, part) => c.writes == part && c.ok && part < |Expected(c)|
    case Writing(_, _, part, _) => c.writes == part && c.ok && part < |Expected(c)|
    case WriteDone(_, shared, part, ok) =>
      c.writes == part + 1 <= |Expected(c)| && c.ok == ok && (shared ==> |Expected(c)| == 1)
    case FormatDone(_, ok) => c.ok == ok && Finished(c)
    case Counting(_, ok) => c.ok == ok && Finished(c)
    case _ => c.writes == 0 && c.ok
  }

  /** No two threads are inside the writer. */
  lemma OneWriter(s: State, a: nat, b: nat)
    requires Locked(s) && a < |s.threads| && b < |s.threads| && s.threads[a].pc.Writing? && s.threads[b].pc.Writing?
    ensures a == b
  {
    assert HoldsMu(s.single, s.threads[a].pc) || HoldsWriteMu(s.single, s.threads[a].pc);
  }

  lemma SentMore(before: string, part: string, sent: nat, n: nat)
    requires sent + n <= |part|
    ensures before + part[..sent] + part[sent..sent + n] == before + part[..sent + n]
  {
    assert part[..sent] + part[sent..sent + n] == part[..sent + n];
  }

  lemma OutputEmit(s: State, t: nat, n: nat)
    requires Locked(s) && Prepared(s) && Output(s) && Enabled(s, Emit(t, n))
    ensures Output(EmitStep(s, t, n))
  {
    hide Texts, Locked, Prepared, Honest, Part;
    WritesPart(s, t);
    var pc := s.threads[t].pc;
    SentMore(Texts(s.log), Part(pc), pc.sent, n);
    SamePart(pc, pc.(sent := pc.sent + n));
    var s' := EmitStep(s, t, n);
    assert s'.threads[t].pc.Writing?;
    forall u | 0 <= u < |s'.threads| && s'.threads[u].pc.Writing? ensures u == t {
      OneWriter(s, u, t);
    }
  }

  lemma SamePart(a: Pc, b: Pc)
    requires a.Writing? && b.Writing? && a.job == b.job && a.part == b.part
    ensures Part(a) == Part(b)
  {
  }

  lemma TextsSnoc(log: seq<Written>, w: Written)
    ensures Texts(log + [w]) == Texts(log) + w.text
    ensures forall t :: WritesOf(log + [w], t) == WritesOf(log, t) + if w.thread == t then [Sent(PartOf(w), w.ok)] else []
  {
    assert (log + [w])[..|log|] == log;
  }

  lemma OutputReturn(s: State, t: nat, ok: bool)
    requires Locked(s) && Prepared(s) && Output(s) && Enabled(s, Return(t, ok))
    ensures Output(ReturnStep(s, t, ok))
  {
    WritesPart(s, t);
    hide Prepared;
    var pc := s.threads[t].pc;
    var w := Written(t, pc.job, pc.part, Source(s, t)[..pc.sent], ok);
    TextsSnoc(s.log, w);
    var s' := ReturnStep(s, t, ok);
    forall u | 0 <= u < |s'.threads| ensures !s'.threads[u].pc.Writing? {
      if u != t && s.threads[u].pc.Writing? {
        OneWriter(s, u, t);
      }
    }
    assert s'.log[|s.log|] == w;
  }

  /** Entering the writer finds it idle. */
  lemma OutputMove(s: State, t: nat)
    requires Locked(s) && Output(s) && Enabled(s, Move(t))
    ensures Output(MoveStep(s, t))
  {
    var s' := MoveStep(s, t);
    LockedMove(s, t);
    if s'.threads[t].pc.Writing? {
      forall u | 0 <= u < |s.threads| ensures !s.threads[u].pc.Writing? {
        if s.threads[u].pc.Writing? {
          assert u != t && s'.threads[u].pc.Writing?;
          OneWriter(s', u, t);
        }
      }
      assert Texts(s.log) + Part(s'.threads[t].pc)[..0] == Texts(s.log);
    } else {
      forall u | 0 <= u < |s.threads| ensures s'.threads[u].pc.Writing? == s.threads[u].pc.Writing? {}
    }
  }

  lemma OutputStep(s: State, step: Step)
    requires Locked(s) && Prepared(s) && Output(s) && Enabled(s, step)
    ensures Output(Apply(s, step))
  {
    match step
    case Start(t, _, _, _) =>
      var s' := Apply(s, step);
      forall u | 0 <= u < |s.threads| ensures s'.threads[u].pc.Writing? == s.threads[u].pc.Writing? {}
    case Move(t) => OutputMove(s, t);
    case Emit(t, n) => OutputEmit(s, t, n);
    case Return(t, ok) => OutputReturn(s, t, ok);
  }

  lemma {:induction false} ToldMore(calls: seq<Call>, ok: bool)
    requires calls != [] && calls[|calls| - 1].ok
    ensures var last := calls[|calls| - 1];
            AllTold(OneMore(calls, ok)) == AllTold(calls) + [Sent(ExpectedAt(last, last.writes), ok)]
  {
    var n := |calls| - 1;
    var more, sent := OneMore(calls, ok), Sent(ExpectedAt(calls[n], calls[n].writes), ok);
    assert more[..n] == calls[..n];
    assert Told(more[n]) == Told(calls[n]) + [sent];
    assert AllTold(calls[..n]) + (Told(calls[n]) + [sent]) == AllTold(calls[..n]) + Told(calls[n]) + [sent];
  }

  lemma CompleteReturn(s: State, t: nat, ok: bool)
    requires Prepared(s) && Complete(s) && Enabled(s, Return(t, ok))
    ensures Complete(ReturnStep(s, t, ok))
  {
    hide AllTold, WritesOf, Texts, Expected;
    var pc, th := s.threads[t].pc, s.threads[t];
    assert SharedReady(s, pc) && Sound(th);
    TextsSnoc(s.log, Written(t, pc.job, pc.part, Source(s, t)[..pc.sent], ok));
    ToldMore(th.calls, ok);
    SameExpected(th.calls[|th.calls| - 1], ok);
  }

  lemma SameExpected(c: Call, ok: bool)
    ensures Expected(c.(writes := c.writes + 1, ok := ok)) == Expected(c)
    ensures UsesFormatTo(c.(writes := c.writes + 1, ok := ok)) == UsesFormatTo(c)
  {
  }

  lemma ToldStart(calls: seq<Call>, c: Call)
    requires c.writes == 0
    ensures AllTold(calls + [c]) == AllTold(calls)
  {
    assert (calls + [c])[..|calls|] == calls;
    assert Told(c) == [];
  }

  /** The step after pc has the same history. */
  lemma SoundNext(s: State, pc: Pc, c: Call)
    requires !pc.Idle? && !pc.Writing? && MadeFor(pc.job, c) && AsFar(pc, c) && SharedReady(s, pc)
    ensures var next := NextPc(s, pc); if next.Idle? then Finished(c) else MadeFor(next.job, c) && AsFar(next, c)
  {
  }

  lemma SoundMove(s: State, t: nat)
    requires Enabled(s, Move(t)) && Sound(s.threads[t]) && SharedReady(s, s.threads[t].pc)
    ensures MoveStep(s, t).threads[t].calls == s.threads[t].calls && Sound(MoveStep(s, t).threads[t])
  {
    var th := s.threads[t];
    SoundNext(s, th.pc, th.calls[|th.calls| - 1]);
    hide AsFar, Finished, NextPc, OwnText, SharedReady, MadeFor;
  }

  lemma SoundStart(s: State, t: nat, path: Path, e: Entry, got: bool)
    requires Enabled(s, Start(t, path, e, got)) && Sound(s.threads[t])
    ensures var th' := StartStep(s, t, path, e, got).threads[t];
            Sound(th') && AllTold(th'.calls) == AllTold(s.threads[t].calls)
  {
    hide AllTold;
    ToldStart(s.threads[t].calls, Call(path, e, TakesLock(s, path, got), 0, true));
  }

  /** A step that returns from no Write. */
  lemma ToldSame(s: State, step: Step, t: nat)
    requires Prepared(s) && Enabled(s, step) && !step.Return? && t < |s.threads| && Sound(s.threads[t])
    ensures Sound(Apply(s, step).threads[t]) && AllTold(Apply(s, step).threads[t].calls) == AllTold(s.threads[t].calls)
  {
    hide AllTold, Sound, SharedReady, PrivateReady, StartStep, MoveStep, EmitStep;
    if t != step.t {
      OthersSame(s, step, t);
    } else {
      assert SharedReady(s, s.threads[t].pc);
      match step
      case Start(_, path, e, got) => SoundStart(s, t, path, e, got);
      case Move(_) => SoundMove(s, t);
      case Emit(_, n) => SoundEmit(s, t, n);
    }
  }

  lemma OthersSame(s: State, step: Step, t: nat)
    requires Enabled(s, step) && t < |s.threads| && t != step.t
    ensures |Apply(s, step).threads| == |s.threads| && Apply(s, step).threads[t] == s.threads[t]
  {
  }

  lemma SoundEmit(s: State, t: nat, n: nat)
    requires Enabled(s, Emit(t, n)) && Sound(s.threads[t])
    ensures Sound(EmitStep(s, t, n).threads[t]) && EmitStep(s, t, n).threads[t].calls == s.threads[t].calls
  {
  }

  lemma CompleteStep(s: State, step: Step)
    requires Prepared(s) && Complete(s) && Enabled(s, step)
    ensures Complete(Apply(s, step))
  {
    hide WritesOf, AllTold, Sound, Prepared;
    if step.Return? {
      CompleteReturn(s, step.t, step.ok);
    } else {
      forall t | 0 <= t < |s.threads|
        ensures Sound(Apply(s, step).threads[t]) && AllTold(Apply(s, step).threads[t].calls) == AllTold(s.threads[t].calls)
      {
        ToldSame(s, step, t);
      }
    }
  }

  // ---------------------------------------------------------------- counters and progress

  function Sum(f: Thread -> nat, threads: seq<Thread>): nat {
    if threads == [] then 0 else Sum(f, threads[..|threads| - 1]) + f(threads[|threads| - 1])
  }

  lemma {:induction false} SumUpdate(f: Thread -> nat, threads: seq<Thread>, t: nat, th: Thread)
    requires t < |threads|
    ensures Sum(f, threads[t := th]) + f(threads[t]) == Sum(f, threads) + f(th)
  {
    var n := |threads| - 1;
    if t == n {
      assert threads[t := th][..n] == threads[..n];
    } else {
      SumUpdate(f, threads[..n], t, th);
      assert threads[t := th][..n] == threads[..n][t := th];
    }
  }

  lemma {:induction false} SumZero(f: Thread -> nat, threads: seq<Thread>)
    requires forall t | 0 <= t < |threads| :: f(threads[t]) == 0
    ensures Sum(f, threads) == 0
  {
    if threads != [] {
      SumZero(f, threads[..|threads| - 1]);
    }
  }

  /**
   What a call adds to the counter in the end: a batch all its entries, whatever
   becomes of the write; any other call one, if it has written everything and the
   formatter reports no error of its own.
   */
  function Worth(c: Call): nat {
    if c.path.BatchPath? then c.path.count
    else if c.ok && !(UsesFormatTo(c) && c.entry.fails) && c.writes == |Expected(c)| then 1
    else 0
  }

  function WorthAll(calls: seq<Call>): nat {
    if calls == [] then 0 else WorthAll(calls[..|calls| - 1]) + Worth(calls[|calls| - 1])
  }

  function Earned(th: Thread): nat {
    WorthAll(th.calls)
  }

  /** A batch is counted beforehand, any other call at its end. */
  function Uncounted(th: Thread): nat {
    if th.pc.Idle? || th.calls == [] || th.calls[|th.calls| - 1].path.BatchPath? then 0 else Worth(th.calls[|th.calls| - 1])
  }

  ghost predicate Counted(s: State) {
    s.processed + Sum(Uncounted, s.threads) == Sum(Earned, s.threads)
  }

  lemma WorthLast(calls: seq<Call>, c: Call)
    requires calls != []
    ensures WorthAll(calls[|calls| - 1 := c]) + Worth(calls[|calls| - 1]) == WorthAll(calls) + Worth(c)
  {
    assert calls[|calls| - 1 := c][..|calls| - 1] == calls[..|calls| - 1];
  }

  lemma WorthSnoc(calls: seq<Call>, c: Call)
    ensures WorthAll(calls + [c]) == WorthAll(calls) + Worth(c)
  {
    assert (calls + [c])[..|calls|] == calls;
  }

  /** What a step makes of the thread's account: the counter and what is not counted yet keep up with it. */
  predicate KeepsUp(processed: nat, th: Thread, processed': nat, th': Thread) {
    processed' + Uncounted(th') + Earned(th) == processed + Uncounted(th) + Earned(th')
  }

  lemma EarnedStart(s: State, t: nat, path: Path, e: Entry, got: bool)
    requires Enabled(s, Start(t, path, e, got))
    ensures var s' := StartStep(s, t, path, e, got); KeepsUp(s.processed, s.threads[t], s'.processed, s'.threads[t])
  {
    hide WorthAll;
    WorthSnoc(s.threads[t].calls, Call(path, e, TakesLock(s, path, got), 0, true));
  }

  lemma EarnedMove(s: State, t: nat)
    requires Enabled(s, Move(t)) && Sound(s.threads[t])
    ensures var s' := MoveStep(s, t); KeepsUp(s.processed, s.threads[t], s'.processed, s'.threads[t])
  {
    hide WorthAll;
  }

  lemma EarnedEmit(s: State, t: nat, n: nat)
    requires Enabled(s, Emit(t, n))
    ensures var s' := EmitStep(s, t, n); KeepsUp(s.processed, s.threads[t], s'.processed, s'.threads[t])
  {
    hide WorthAll;
  }

  lemma EarnedReturn(s: State, t: nat, ok: bool)
    requires Enabled(s, Return(t, ok)) && Sound(s.threads[t])
    ensures var s' := ReturnStep(s, t, ok); KeepsUp(s.processed, s.threads[t], s'.processed, s'.threads[t])
  {
    hide WorthAll;
    var calls := s.threads[t].calls;
    var last := calls[|calls| - 1];
    WorthLast(calls, last.(writes := last.writes + 1, ok := ok));
  }

  lemma EarnedStep(s: State, step: Step)
    requires Enabled(s, step) && Sound(s.threads[step.t])
    ensures KeepsUp(s.processed, s.threads[step.t], Apply(s, step).processed, Apply(s, step).threads[step.t])
  {
    hide WorthAll, StartStep, MoveStep, EmitStep, ReturnStep, Sound;
    match step
    case Start(t, path, e, got) => EarnedStart(s, t, path, e, got);
    case Move(t) => EarnedMove(s, t);
    case Emit(t, n) => EarnedEmit(s, t, n);
    case Return(t, ok) => EarnedReturn(s, t, ok);
  }

  lemma CountedStep(s: State, step: Step)
    requires Complete(s) && Counted(s) && Enabled(s, step)
    ensures Counted(Apply(s, step))
  {
    assert Sound(s.threads[step.t]);
    EarnedStep(s, step);
    hide Sum, Earned, Uncounted, Sound, WritesOf, AllTold;
    SumUpdate(Uncounted, s.threads, step.t, Apply(s, step).threads[step.t]);
    SumUpdate(Earned, s.threads, step.t, Apply(s, step).threads[step.t]);
  }

  /** How many steps the parts from i on take at most. */
  function PartsLeft(parts: seq<string>, i: nat): nat
    decreases |parts| - i
  {
    if i < |parts| then |parts[i]| + 3 + PartsLeft(parts, i + 1) else 0
  }

  /** How many steps a call has left at most. */
  function Left(th: Thread): nat {
    match th.pc
    case Idle => 0
    case Counting(_, _) => 1
    case FormatDone(_, _) => 2
    case WriteDone(job, _, part, _) => 3 + PartsLeft(job.parts, part + 1)
    case Writing(job, _, part, sent) =>
      4 + PartsLeft(job.parts, part + 1) + if sent <= |Part(th.pc)| then |Part(th.pc)| - sent else 0
    case WantWriter(job, _, part) => 2 + PartsLeft(job.parts, part)
    case FormatFields(job, _) => 3 + PartsLeft(job.parts, 0)
    case FormatHead(job, _) => 4 + PartsLeft(job.parts, 0)
    case ResetBuf(job, _) => 5 + PartsLeft(job.parts, 0)
    case StoreFields(job) => 6 + PartsLeft(job.parts, 0)
    case StoreHead(job) => 7 + PartsLeft(job.parts, 0)
    case WaitMu(job) => 6 + PartsLeft(job.parts, 0)
  }

  lemma LeftLess(s: State, step: Step)
    requires Enabled(s, step) && !step.Start?
    requires var pc := s.threads[step.t].pc; pc.Writing? || pc.WantWriter? ==> pc.part < |pc.job.parts| && Source(s, step.t) == Part(pc)
    ensures Left(Apply(s, step).threads[step.t]) < Left(s.threads[step.t])
  {
  }

  /** Every step of a call under way uses up some of what is left. */
  lemma LeftStep(s: State, step: Step)
    requires Prepared(s) && Enabled(s, step) && !step.Start?
    ensures Sum(Left, Apply(s, step).threads) < Sum(Left, s.threads)
  {
    hide Sum, Left, Prepared, Part, NextPc;
    SumUpdate(Left, s.threads, step.t, Apply(s, step).threads[step.t]);
    if s.threads[step.t].pc.Writing? || s.threads[step.t].pc.WantWriter? {
      WritesPart(s, step.t);
    }
    LeftLess(s, step);
  }

  // ---------------------------------------------------------------- runs

  ghost predicate Invariant(s: State) {
    Locked(s) && Prepared(s) && Output(s) && Complete(s) && Counted(s)
  }

  lemma {:induction false} InvariantRun(init: State, steps: seq<Step>, s: State)
    requires Reaches(init, steps, s)
    ensures Invariant(s)
  {
    hide Locked, Prepared, Output, Complete, Counted, Enabled, Apply, Init;
    if steps == [] {
      InvariantStart(s);
    } else {
      var front, last := steps[..|steps| - 1], steps[|steps| - 1];
      var m := Exec(init, front).value;
      InvariantRun(init, front, m);
      LockedStep(m, last);
      PreparedStep(m, last);
      OutputStep(m, last);
      CompleteStep(m, last);
      CountedStep(m, last);
    }
  }

  lemma InvariantStart(s: State)
    requires Init(s)
    ensures Invariant(s)
  {
    SumZero(Uncounted, s.threads);
    SumZero(Earned, s.threads);
  }

  /** Mutual exclusion: at most one thread is inside the writer. */
  lemma MutualExclusion(init: State, steps: seq<Step>, s: State, a: nat, b: nat)
    requires Reaches(init, steps, s) && a < |s.threads| && b < |s.threads|
    requires s.threads[a].pc.Writing? && s.threads[b].pc.Writing?
    ensures a == b
  {
    InvariantRun(init, steps, s);
    OneWriter(s, a, b);
  }

  /** Only the holder of mu changes syncEntry or syncBuf, and whoever writes syncBuf out holds mu. */
  lemma SharedByHolder(init: State, steps: seq<Step>, s: State, step: Step)
    requires Reaches(init, steps, s) && Enabled(s, step)
    ensures var s' := Apply(s, step);
            s'.syncHead != s.syncHead || s'.syncFields != s.syncFields || s'.syncBuf != s.syncBuf ==> s.mu == Some(step.t)
    ensures step.Emit? && s.threads[step.t].pc.shared ==> s.mu == Some(step.t)
  {
    InvariantRun(init, steps, s);
    assert HoldsMu(s.single, s.threads[step.t].pc) <==> s.mu == Some(step.t);
  }

  /**
   What is written is what the entry of the call asks for, whoever used the shared
   entry and buffer before: the whole line, head and fields; or with FormatTo the next
   of its pieces.
   */
  lemma WritesOwnLine(init: State, steps: seq<Step>, s: State, t: nat)
    requires Reaches(init, steps, s) && t < |s.threads| && s.threads[t].pc.Writing?
    ensures s.threads[t].calls != []
    ensures var c := s.threads[t].calls[|s.threads[t].calls| - 1];
            if UsesFormatTo(c) then c.writes < |c.entry.pieces| && Source(s, t) == c.entry.pieces[c.writes]
            else c.writes == 0 && Source(s, t) == c.entry.head + c.entry.fields
  {
    InvariantRun(init, steps, s);
    WritesPart(s, t);
    assert Sound(s.threads[t]);
  }

  /** No deadlock: while a call is under way, some call can take a step. */
  lemma NoDeadlock(init: State, steps: seq<Step>, s: State, u: nat) returns (step: Step)
    requires Reaches(init, steps, s) && u < |s.threads| && !s.threads[u].pc.Idle?
    ensures Enabled(s, step) && !step.Start?
  {
    InvariantRun(init, steps, s);
    var t := if s.writeMu.Some? then s.writeMu.value else if s.mu.Some? then s.mu.value else u;
    assert HoldsMu(s.single, s.threads[t].pc) <==> s.mu == Some(t);
    assert HoldsWriteMu(s.single, s.threads[t].pc) <==> s.writeMu == Some(t);
    var pc := s.threads[t].pc;
    if pc.Writing? {
      WritesPart(s, t);
      step := Return(t, pc.sent == |Part(pc)|);
      assert pc.sent <= |Part(pc)|;
    } else {
      step := Move(t);
    }
  }

  lemma {:induction false} ExecAppend(init: State, before: seq<Step>, s: State, steps: seq<Step>)
    requires Exec(init, before) == Some(s)
    ensures Exec(init, before + steps) == Exec(s, steps)
  {
    hide Enabled, Apply;
    if steps == [] {
      assert before + steps == before;
    } else {
      ExecAppend(init, before, s, steps[..|steps| - 1]);
      assert (before + steps)[..|before + steps| - 1] == before + steps[..|steps| - 1];
    }
  }

  lemma {:induction false} FinishSteps(init: State, before: seq<Step>, s: State, steps: seq<Step>, s': State)
    requires Reaches(init, before, s) && Exec(s, steps) == Some(s')
    requires forall i | 0 <= i < |steps| :: !steps[i].Start?
    ensures |steps| + Sum(Left, s'.threads) <= Sum(Left, s.threads)
  {
    hide Enabled, Apply, Init, Left, Sum, Locked, Prepared, Output, Complete, Counted;
    if steps != [] {
      var n := |steps| - 1;
      var m := Exec(s, steps[..n]).value;
      FinishSteps(init, before, s, steps[..n], m);
      ExecAppend(init, before, s, steps[..n]);
      InvariantRun(init, before + steps[..n], m);
      LeftStep(m, steps[n]);
    }
  }

  /**
   Every call finishes: when no new calls are made, a run has at most as many steps
   as the calls under way have left, and where it can go no further every thread is
   idle.
   */
  lemma CallsFinish(init: State, before: seq<Step>, s: State, steps: seq<Step>, s': State)
    requires Reaches(init, before, s) && Exec(s, steps) == Some(s')
    requires forall i | 0 <= i < |steps| :: !steps[i].Start?
    ensures |steps| <= Sum(Left, s.threads)
    ensures (forall step: Step | !step.Start? :: !Enabled(s', step)) ==> forall t | 0 <= t < |s'.threads| :: s'.threads[t].pc.Idle?
  {
    FinishSteps(init, before, s, steps, s');
    ExecAppend(init, before, s, steps);
    if u :| 0 <= u < |s'.threads| && !s'.threads[u].pc.Idle? {
      var step := NoDeadlock(init, before + steps, s', u);
    }
  }

  /** The Writes of thread t, as they are in the log. */
  function Of(log: seq<Written>, t: nat): seq<Written> {
    if log == [] then [] else
    Of(log[..|log| - 1], t) + if log[|log| - 1].thread == t then [log[|log| - 1]] else []
  }

  /** The Write did what it should: all of it, or some of it if it failed. */
  predicate Did(w: Written, x: Sent) {
    w.ok == x.ok && if w.ok then w.text == x.text else w.text <= x.text
  }

  lemma {:induction false} LogDid(log: seq<Written>, t: nat)
    requires forall i | 0 <= i < |log| :: Honest(log[i])
    ensures |Of(log, t)| == |WritesOf(log, t)| && forall i | 0 <= i < |Of(log, t)| :: Did(Of(log, t)[i], WritesOf(log, t)[i])
  {
    if log != [] {
      LogDid(log[..|log| - 1], t);
      assert Honest(log[|log| - 1]);
    }
  }

  /**
   Whole pieces: when every call has returned, the output is the texts of the Writes in
   the log, in order. The Writes of each thread are, call by call, what the entries of
   its calls ask for: head and fields in one Write, or with FormatTo the entry's pieces
   in order; every Write is whole unless it failed, and a call is complete unless its
   last Write failed. The counter is the number of successful calls, and of the entries
   of all batches, written or not.
   */
  lemma WholePieces(init: State, steps: seq<Step>, s: State)
    requires Reaches(init, steps, s) && forall t | 0 <= t < |s.threads| :: s.threads[t].pc.Idle?
    ensures s.out == Texts(s.log) && forall i | 0 <= i < |s.log| :: s.log[i].thread < |s.threads|
    ensures forall t | 0 <= t < |s.threads| :: |Of(s.log, t)| == |AllTold(s.threads[t].calls)|
    ensures forall t, i | 0 <= t < |s.threads| && 0 <= i < |Of(s.log, t)| :: Did(Of(s.log, t)[i], AllTold(s.threads[t].calls)[i])
    ensures forall t, i | 0 <= t < |s.threads| && 0 <= i < |s.threads[t].calls| :: Finished(s.threads[t].calls[i])
    ensures s.processed == Sum(Earned, s.threads)
  {
    InvariantRun(init, steps, s);
    SumZero(Uncounted, s.threads);
    forall t | 0 <= t < |s.threads|
      ensures |Of(s.log, t)| == |AllTold(s.threads[t].calls)|
      ensures forall i | 0 <= i < |Of(s.log, t)| :: Did(Of(s.log, t)[i], AllTold(s.threads[t].calls)[i])
      ensures forall i | 0 <= i < |s.threads[t].calls| :: Finished(s.threads[t].calls[i])
    {
      assert Sound(s.threads[t]);
      LogDid(s.log, t);
    }
  }

  /** The call writes its whole line in one Write. */
  predicate InOneWrite(c: Call) {
    Expected(c) == [c.entry.head + c.entry.fields]
  }

  lemma {:induction false} ToldLines(calls: seq<Call>)
    requires forall i | 0 <= i < |calls| :: Finished(calls[i]) && InOneWrite(calls[i])
    ensures |AllTold(calls)| == |calls|
    ensures forall i | 0 <= i < |calls| :: AllTold(calls)[i] == Sent(calls[i].entry.head + calls[i].entry.fields, calls[i].ok)
  {
    if calls != [] {
      var n := |calls| - 1;
      ToldLines(calls[..n]);
      assert Told(calls[n]) == [Sent(calls[n].entry.head + calls[n].entry.fields, calls[n].ok)];
    }
  }

  /**
   Whole lines: every call that does not use FormatTo, or whose FormatTo writes the line
   in one piece, is in the output as one Write, each thread's calls in their order: head
   and fields of the entry it was made with, or a part of them if the Write failed.
   */
  lemma WholeLines(init: State, steps: seq<Step>, s: State)
    requires Reaches(init, steps, s) && forall t | 0 <= t < |s.threads| :: s.threads[t].pc.Idle?
    requires forall t, i | 0 <= t < |s.threads| && 0 <= i < |s.threads[t].calls| :: InOneWrite(s.threads[t].calls[i])
    ensures s.out == Texts(s.log) && forall i | 0 <= i < |s.log| :: s.log[i].thread < |s.threads|
    ensures forall t | 0 <= t < |s.threads| :: |Of(s.log, t)| == |s.threads[t].calls|
    ensures forall t, i | 0 <= t < |s.threads| && 0 <= i < |Of(s.log, t)| ::
              var w, c := Of(s.log, t)[i], s.threads[t].calls[i];
              w.ok == c.ok && if w.ok then w.text == c.entry.head + c.entry.fields else w.text <= c.entry.head + c.entry.fields
    ensures s.processed == Sum(Earned, s.threads)
  {
    WholePieces(init, steps, s);
    forall t | 0 <= t < |s.threads|
      ensures |Of(s.log, t)| == |s.threads[t].calls|
      ensures forall i | 0 <= i < |Of(s.log, t)| ::
                var c := s.threads[t].calls[i]; Did(Of(s.log, t)[i], Sent(c.entry.head + c.entry.fields, c.ok))
    {
      ToldLines(s.threads[t].calls);
    }
  }

  // ---------------------------------------------------------------- whose buffer

  /** The call works under mu: it got the lock by TryLock, or it is the consumer's, which waits for it. */
  predicate UnderMu(c: Call) {
    c.locked || c.path.ProcessPath?
  }

  /** The call under way is on the way its path and its TryLock lead to. */
  predicate OnItsWay(th: Thread) {
    !th.pc.Idle? ==>
      && th.calls != []
      && var c := th.calls[|th.calls| - 1];
      && (c.locked ==> c.path.HandleLogPath? || c.path.HandlePath?)
      && (th.pc.WaitMu? ==> c.path.ProcessPath?)
      && (th.pc.StoreHead? || th.pc.StoreFields? ==> c.locked && c.path.HandleLogPath?)
      && (th.pc.ResetBuf? || th.pc.FormatHead? || th.pc.FormatFields? ==> UnderMu(c) && th.pc.filled == c.path.HandleLogPath?)
      && (th.pc.WantWriter? || th.pc.Writing? || th.pc.WriteDone? ==> th.pc.shared == UnderMu(c))
  }

  lemma OnItsWayMove(s: State, t: nat)
    requires Enabled(s, Move(t)) && OnItsWay(s.threads[t])
    ensures OnItsWay(MoveStep(s, t).threads[t])
  {
  }

  lemma OnItsWayStep(s: State, step: Step, t: nat)
    requires Enabled(s, step) && t < |s.threads| && OnItsWay(s.threads[t])
    ensures OnItsWay(Apply(s, step).threads[t])
  {
    if step.Move? && step.t == t { OnItsWayMove(s, t); }
  }

  lemma {:induction false} OnItsWayRun(init: State, steps: seq<Step>, s: State, t: nat)
    requires Reaches(init, steps, s) && t < |s.threads|
    ensures OnItsWay(s.threads[t])
  {
    hide Enabled, Apply, OnItsWay;
    if steps == [] {
      IdleOnItsWay(s, t);
    } else {
      var front, last := steps[..|steps| - 1], steps[|steps| - 1];
      var m := Exec(init, front).value;
      SameThreads(m, last);
      OnItsWayRun(init, front, m, t);
      OnItsWayStep(m, last, t);
    }
  }

  lemma IdleOnItsWay(s: State, t: nat)
    requires Init(s) && t < |s.threads|
    ensures OnItsWay(s.threads[t])
  {
  }

  lemma SameThreads(s: State, step: Step)
    requires Enabled(s, step)
    ensures |Apply(s, step).threads| == |s.threads|
  {
  }

  /**
   A call writes from the handler's buffer exactly when it got mu by TryLock or is the
   consumer's. Only HandleLog fills the shared entry, and it formats from it when it
   got mu.
   */
  lemma SharedUnderMu(init: State, steps: seq<Step>, s: State, t: nat)
    requires Reaches(init, steps, s) && t < |s.threads| && !s.threads[t].pc.Idle?
    ensures s.threads[t].calls != []
    ensures var c, pc := s.threads[t].calls[|s.threads[t].calls| - 1], s.threads[t].pc;
            && (c.locked ==> c.path.HandleLogPath? || c.path.HandlePath?)
            && (pc.Writing? ==> (pc.shared <==> c.locked || c.path.ProcessPath?))
            && (pc.StoreHead? || pc.StoreFields? ==> c.path.HandleLogPath?)
            && (pc.FormatHead? || pc.FormatFields? ==> (pc.filled <==> c.path.HandleLogPath?))
  {
    OnItsWayRun(init, steps, s, t);
  }

  /** HandleLog and Handle take mu at their start when TryLock succeeds, which it can only when mu is free; no other call does. */
  lemma TriesForMu(s: State, t: nat, path: Path, e: Entry, got: bool)
    requires Enabled(s, Start(t, path, e, got))
    ensures var s' := Apply(s, Start(t, path, e, got));
            var calls := s'.threads[t].calls;
            && calls == s.threads[t].calls + [Call(path, e, s'.mu != s.mu, 0, true)]
            && (s'.mu != s.mu <==> got && s.mu.None? && (path.HandleLogPath? || path.HandlePath?))
            && (s'.mu != s.mu ==> s'.mu == Some(t))
  {
  }
}
