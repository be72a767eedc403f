/**
 The write paths of the console handlers as a state machine: handler/console.go
 with its two locks, and the single-lock handlers of handler/consolehandler
 (`single`). The writer is one that is not safe for concurrent calls.

 Any number of threads make calls. Every lock operation, every store into the
 shared entry, every append to the shared buffer and every piece a Write call
 passes on is a step of its own.
 */
module WriteLocks {
  import opened Core

  /**
   What a call has to print: the line that FormatEntry puts into a buffer, its head
   (time, level, message, caller) and its fields; and what FormatTo of a
   WriterFormatter does instead, one Write for each of its pieces and perhaps an error
   of its own after them.
   */
  datatype Entry = Entry(head: string, fields: string, pieces: seq<string>, fails: bool)

  /**
   One call, and what it writes, a Write each; FormatTo stops at the first error. The
   consumer's batch is a call too, and `batch` is how many entries it holds.
   */
  datatype Job = Job(head: string, fields: string, parts: seq<string>, batch: Option<nat>, fails: bool)
  {
    function Line(): string { head + fields }
  }

  /** The entry points: what is tried first. */
  datatype Path =
    | HandleLogPath                // TryLock mu, then fill syncEntry; else format into a buffer of one's own
    | HandlePath(inPieces: bool)   // TryLock mu, then format the caller's entry; else FormatTo, or a buffer of one's own
    | ProcessPath                  // Lock mu, then format the queue's entry
    | PrivatePath                  // Format: a buffer of one's own
    | PiecesPath                   // FormatTo
    | BatchPath(count: nat)        // format a batch into the consumer's buffer, and count it before the write

  datatype Pc =
    | Idle
    | WaitMu(job: Job)
    | StoreHead(job: Job) | StoreFields(job: Job)
    | ResetBuf(job: Job, filled: bool) | FormatHead(job: Job, filled: bool) | FormatFields(job: Job, filled: bool)
    | WantWriter(job: Job, shared: bool, part: nat)
    | Writing(job: Job, shared: bool, part: nat, sent: nat)
    | WriteDone(job: Job, shared: bool, part: nat, ok: bool)
    | FormatDone(job: Job, ok: bool)
    | Counting(job: Job, ok: bool)

  /**
   History: a call as it was made, whether it got mu by TryLock, how many of its Writes
   have returned, and whether all of them succeeded.
   */
  datatype Call = Call(path: Path, entry: Entry, locked: bool, writes: nat, ok: bool)

  /** `buf` is what the thread writes when it does not use the shared buffer. */
  datatype Thread = Thread(pc: Pc, buf: string, calls: seq<Call>)

  /** A finished Write: what reached the writer. */
  datatype Written = Written(thread: nat, job: Job, part: nat, text: string, ok: bool)

  datatype State = State(
    single: bool, mu: Option<nat>, writeMu: Option<nat>,
    syncHead: string, syncFields: string, syncBuf: string,
    out: string, processed: nat, threads: seq<Thread>,
    log: seq<Written>)

  datatype Step =
    | Start(t: nat, path: Path, entry: Entry, got: bool)  // `got`: TryLock succeeds if it can; it need not
    | Move(t: nat)                // the next step, where there is only one
    | Emit(t: nat, n: nat)        // the writer passes on n bytes more
    | Return(t: nat, ok: bool)    // Write returns; an error may come after a part

  predicate IsThread(s: State, t: nat) { t < |s.threads| }

  /** What thread t is writing from. */
  function Source(s: State, t: nat): string
    requires IsThread(s, t) && (s.threads[t].pc.Writing? || s.threads[t].pc.WantWriter?)
  {
    if s.threads[t].pc.shared then s.syncBuf else s.threads[t].buf
  }

  /** The lock a thread takes before it calls the writer, if it does not hold it already. */
  predicate WriterFree(s: State, shared: bool) {
    if s.single then shared || s.mu.None? else s.writeMu.None?
  }

  predicate Enabled(s: State, step: Step) {
    && IsThread(s, step.t)
    && var pc := s.threads[step.t].pc;
       match step
       case Start(_, _, _, _) => pc.Idle?
       case Move(_) =>
         && !pc.Idle? && !pc.Writing?
         && (pc.WaitMu? ==> s.mu.None?)
         && (pc.WantWriter? ==> WriterFree(s, pc.shared))
       case Emit(_, n) => pc.Writing? && 0 < n && pc.sent + n <= |Source(s, step.t)|
       case Return(_, ok) => pc.Writing? && pc.sent <= |Source(s, step.t)| && (ok ==> pc.sent == |Source(s, step.t)|)
  }

  predicate TakesLock(s: State, path: Path, got: bool) {
    (path.HandleLogPath? || path.HandlePath?) && s.mu.None? && got
  }

  /** What a call will write: whether mu could be taken decides between a whole line and pieces. */
  function JobOf(path: Path, e: Entry, locked: bool): Job {
    match path
    case BatchPath(count) => Job(e.head, e.fields, [e.head + e.fields], Some(count), false)
    case PiecesPath => Job(e.head, e.fields, e.pieces, None, e.fails)
    case HandlePath(inPieces) =>
      if inPieces && !locked then Job(e.head, e.fields, e.pieces, None, e.fails)
      else Job(e.head, e.fields, [e.head + e.fields], None, false)
    case _ => Job(e.head, e.fields, [e.head + e.fields], None, false)
  }

  function StartPc(path: Path, job: Job, locked: bool): Pc {
    if locked then if path.HandleLogPath? then StoreHead(job) else ResetBuf(job, false)
    else if path.ProcessPath? then WaitMu(job)
    else NextWrite(job, 0)
  }

  /** The next Write of a call, or the end when there is none. */
  function NextWrite(job: Job, part: nat): Pc {
    if part < |job.parts| then WantWriter(job, false, part) else Counting(job, true)
  }

  function NextPc(s: State, pc: Pc): Pc
    requires !pc.Idle? && !pc.Writing?
  {
    match pc
    case WaitMu(job) => ResetBuf(job, false)
    case StoreHead(job) => StoreFields(job)
    case StoreFields(job) => ResetBuf(job, true)
    case ResetBuf(job, filled) => FormatHead(job, filled)
    case FormatHead(job, filled) => FormatFields(job, filled)
    case FormatFields(job, filled) => WantWriter(job, true, 0)
    case WantWriter(job, shared, part) => Writing(job, shared, part, 0)
    case WriteDone(job, shared, part, ok) =>
      if shared then FormatDone(job, ok) else if ok then NextWrite(job, part + 1) else Counting(job, false)
    case FormatDone(job, ok) => Counting(job, ok)
    case Counting(job, ok) => Idle
  }

  /** What a thread about to write on its own will write. */
  function OwnText(pc: Pc, buf: string): string {
    if pc.WantWriter? && !pc.shared && pc.part < |pc.job.parts| then pc.job.parts[pc.part] else buf
  }

  function SetPc(s: State, t: nat, pc: Pc): seq<Thread>
    requires IsThread(s, t)
  {
    s.threads[t := s.threads[t].(pc := pc, buf := OwnText(pc, s.threads[t].buf))]
  }

  function StartStep(s: State, t: nat, path: Path, e: Entry, got: bool): State
    requires IsThread(s, t)
  {
    var locked := TakesLock(s, path, got);
    var job := JobOf(path, e, locked);
    var pc := StartPc(path, job, locked);
    var th := s.threads[t];
    s.(mu := if locked then Some(t) else s.mu,
       processed := if path.BatchPath? then s.processed + path.count else s.processed,
       threads := s.threads[t := Thread(pc, OwnText(pc, th.buf), th.calls + [Call(path, e, locked, 0, true)])])
  }

  function MoveStep(s: State, t: nat): State
    requires Enabled(s, Move(t))
  {
    var pc := s.threads[t].pc;
    var next := NextPc(s, pc);
    var single := s.single;
    s.(mu := match pc
             case WaitMu(_) => Some(t)
             case WantWriter(_, shared, _) => if single && !shared then Some(t) else s.mu
             case WriteDone(_, shared, _, _) => if single && !shared then None else s.mu
             case FormatDone(_, _) => None
             case _ => s.mu,
       writeMu := match pc
                  case WantWriter(_, _, _) => if single then s.writeMu else Some(t)
                  case WriteDone(_, _, _, _) => if single then s.writeMu else None
                  case _ => s.writeMu,
       syncHead := if pc.StoreHead? then pc.job.head else s.syncHead,
       syncFields := if pc.StoreFields? then pc.job.fields else s.syncFields,
       syncBuf := match pc
                  case ResetBuf(_, _) => ""
                  case FormatHead(job, filled) => s.syncBuf + if filled then s.syncHead else job.head
                  case FormatFields(job, filled) => s.syncBuf + if filled then s.syncFields else job.fields
                  case _ => s.syncBuf,
       processed := if pc.Counting? && pc.ok && !pc.job.fails && pc.job.batch.None? then s.processed + 1 else s.processed,
       threads := SetPc(s, t, next))
  }

  function EmitStep(s: State, t: nat, n: nat): State
    requires Enabled(s, Emit(t, n))
  {
    var pc := s.threads[t].pc;
    s.(out := s.out + Source(s, t)[pc.sent..pc.sent + n],
       threads := SetPc(s, t, pc.(sent := pc.sent + n)))
  }

  function ReturnStep(s: State, t: nat, ok: bool): State
    requires Enabled(s, Return(t, ok))
  {
    var pc := s.threads[t].pc;
    var th := s.threads[t];
    s.(log := s.log + [Written(t, pc.job, pc.part, Source(s, t)[..pc.sent], ok)],
       threads := s.threads[t := Thread(WriteDone(pc.job, pc.shared, pc.part, ok), th.buf, OneMore(th.calls, ok))])
  }

  /** The call under way has finished a Write. */
  function OneMore(calls: seq<Call>, ok: bool): seq<Call> {
    if calls == [] then [] else
    var last := calls[|calls| - 1];
    calls[|calls| - 1 := last.(writes := last.writes + 1, ok := ok)]
  }

  function Apply(s: State, step: Step): State
    requires Enabled(s, step)
  {
    match step
    case Start(t, path, e, got) => StartStep(s, t, path, e, got)
    case Move(t) => MoveStep(s, t)
    case Emit(t, n) => EmitStep(s, t, n)
    case Return(t, ok) => ReturnStep(s, t, ok)
  }

  // ---------------------------------------------------------------- runs

  predicate Init(s: State) {
    && s.mu.None? && s.writeMu.None? && s.out == "" && s.processed == 0 && s.log == []
    && (forall t | 0 <= t < |s.threads| :: s.threads[t].pc.Idle? && s.threads[t].calls == [])
  }

  function Exec(s: State, steps: seq<Step>): Option<State> {
    if steps == [] then Some(s) else
    match Exec(s, steps[..|steps| - 1])
    case None => None
    case Some(m) =>
      if Enabled(m, steps[|steps| - 1]) then Some(Apply(m, steps[|steps| - 1])) else None
  }

  ghost predicate Reaches(init: State, steps: seq<Step>, s: State) {
    Init(init) && Exec(init, steps) == Some(s)
  }
}
