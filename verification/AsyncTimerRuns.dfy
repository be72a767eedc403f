/**
 Runs of a handler that blocks: two in which a caller is left without its tick, and
 one in which a caller writes after Close has returned.
 */
module AsyncTimerRuns {
  import opened Core
  import opened Policy
  import opened AsyncQueue
  import opened AsyncRuns
  import opened AsyncTimer

  const A := Record(0, 0, INFO_LEVEL, "a")
  const B := Record(0, 1, INFO_LEVEL, "b")
  const C := Record(1, 0, INFO_LEVEL, "c")
  const D := Record(0, 2, INFO_LEVEL, "d")

  function Made(n: nat): seq<Record> {
    match n
    case 0 => []
    case 1 => [A]
    case 2 => [A, B]
    case 3 => [A, B, C]
    case _ => [A, B, C, D]
  }

  function Heap(n: nat): map<Ref, Record> {
    match n
    case 0 => map[]
    case 1 => map[0 := A]
    case 2 => map[0 := A, 1 := B]
    case 3 => map[0 := A, 1 := B, 2 := C]
    case _ => map[0 := A, 1 := B, 2 := C, 3 := D]
  }

  /**
   Two threads and one handler that blocks, with a queue of one slot: so many records
   handed to it, so many of them enqueued, and the first one taken by the consumer
   once the queue is shorter than that. An open handler's consumer exits on an error,
   that of a closed one at the deadline.
   */
  function Snapshot(made: nat, enqueued: nat, queue: seq<Ref>, consumer: Consumer, closer: Closer, timer: Timer, blocked: nat,
                    a: Thread, b: Thread): State
  {
    State({}, Heap(made),
      [Handler(1, map[INFO_LEVEL := Block], false, queue, !closer.Open?, closer.Closed?, consumer, closer,
               NO_STATS.(blocked := blocked), Made(made), Made(enqueued),
               if |queue| < enqueued then [Removal(A, true)] else [], [],
               if consumer.Exited? && closer.Open? then [A] else [], [], [], [], [], 0, 0, [],
               consumer.Exited? && !closer.Open?, timer)],
      [a, b])
  }

  function Strand0(): Stage {
    Stage(Snapshot(0, 0, [], Selecting, Open, TimerOff, 0, Thread(Idle, 0), Thread(Idle, 0)),
          Start(0, 0, 0, INFO_LEVEL, "a"))
  }

  function Strand1(): Stage {
    Stage(Snapshot(1, 0, [], Selecting, Open, TimerOff, 0, Thread(First(0, 0), 1), Thread(Idle, 0)),
          Send(0))
  }

  function Strand2(): Stage {
    Stage(Snapshot(1, 1, [0], Selecting, Open, TimerOff, 0, Thread(Idle, 1), Thread(Idle, 0)),
          Receive(0))
  }

  function Strand3(): Stage {
    Stage(Snapshot(1, 1, [], Writing(0, BatchLoop), Open, TimerOff, 0, Thread(Idle, 1), Thread(Idle, 0)),
          Write(0, false))
  }

  function Strand4(): Stage {
    Stage(Snapshot(1, 1, [], Exited, Open, TimerOff, 0, Thread(Idle, 1), Thread(Idle, 0)),
          Start(0, 0, 1, INFO_LEVEL, "b"))
  }

  function Strand5(): Stage {
    Stage(Snapshot(2, 1, [], Exited, Open, TimerOff, 0, Thread(First(0, 1), 2), Thread(Idle, 0)),
          Send(0))
  }

  function Strand6(): Stage {
    Stage(Snapshot(2, 2, [1], Exited, Open, TimerOff, 0, Thread(Idle, 2), Thread(Idle, 0)),
          Start(1, 0, 2, INFO_LEVEL, "c"))
  }

  function Strand7(): Stage {
    Stage(Snapshot(3, 2, [1], Exited, Open, TimerOff, 0, Thread(Idle, 2), Thread(First(0, 2), 1)),
          Send(1))
  }

  function Strand8(): Stage {
    Stage(Snapshot(3, 2, [1], Exited, Open, TimerOff, 0, Thread(Idle, 2), Thread(Arming(0, 2, StopTimer), 1)),
          UseTimer(1))
  }

  function Strand9(): Stage {
    Stage(Snapshot(3, 2, [1], Exited, Open, TimerOff, 0, Thread(Idle, 2), Thread(Arming(0, 2, DrainTimer), 1)),
          UseTimer(1))
  }

  function Strand10(): Stage {
    Stage(Snapshot(3, 2, [1], Exited, Open, TimerOff, 0, Thread(Idle, 2), Thread(Arming(0, 2, ResetTimer), 1)),
          UseTimer(1))
  }

  function Strand11(): Stage {
    Stage(Snapshot(3, 2, [1], Exited, Open, TimerRunning, 0, Thread(Idle, 2), Thread(Blocked(0, 2), 1)),
          Start(0, 0, 3, INFO_LEVEL, "d"))
  }

  function Strand12(): Stage {
    Stage(Snapshot(4, 2, [1], Exited, Open, TimerRunning, 0, Thread(First(0, 3), 3), Thread(Blocked(0, 2), 1)),
          Send(0))
  }

  function Strand13(): Stage {
    Stage(Snapshot(4, 2, [1], Exited, Open, TimerRunning, 0, Thread(Arming(0, 3, StopTimer), 3), Thread(Blocked(0, 2), 1)),
          UseTimer(0))
  }

  function Strand14(): Stage {
    Stage(Snapshot(4, 2, [1], Exited, Open, TimerOff, 0, Thread(Arming(0, 3, ResetTimer), 3), Thread(Blocked(0, 2), 1)),
          UseTimer(0))
  }

  function Strand15(): Stage {
    Stage(Snapshot(4, 2, [1], Exited, Open, TimerRunning, 0, Thread(Blocked(0, 3), 3), Thread(Blocked(0, 2), 1)),
          TimerFire(0))
  }

  function Strand16(): Stage {
    Stage(Snapshot(4, 2, [1], Exited, Open, TimerTicked, 0, Thread(Blocked(0, 3), 3), Thread(Blocked(0, 2), 1)),
          BlockedTimeout(0))
  }

  function Strand17(): Stage {
    Stage(Snapshot(4, 2, [1], Exited, Open, TimerOff, 1, Thread(FallingBack(0, 3), 3), Thread(Blocked(0, 2), 1)),
          Fallback(0, true))
  }

  function StrandStages(): seq<Stage> {
    [Strand0(), Strand1(), Strand2(), Strand3(), Strand4(), Strand5(), Strand6(), Strand7(), Strand8(),
     Strand9(), Strand10(), Strand11(), Strand12(), Strand13(), Strand14(), Strand15(), Strand16(),
     Strand17()]
  }

  /** The consumer takes an entry and stops on a write error. */
  lemma StrandStops()
    ensures Leads(Strand0(), Strand1())
    ensures Leads(Strand1(), Strand2())
    ensures Leads(Strand2(), Strand3())
    ensures Leads(Strand3(), Strand4())
  {
    SameState(Apply(Strand0().state, Strand0().step), Strand1().state);
    SameState(Apply(Strand1().state, Strand1().step), Strand2().state);
    SameState(Apply(Strand2().state, Strand2().step), Strand3().state);
    SameState(Apply(Strand3().state, Strand3().step), Strand4().state);
  }

  /** The queue fills up. */
  lemma StrandFills()
    ensures Leads(Strand4(), Strand5())
    ensures Leads(Strand5(), Strand6())
    ensures Leads(Strand6(), Strand7())
  {
    SameState(Apply(Strand4().state, Strand4().step), Strand5().state);
    SameState(Apply(Strand5().state, Strand5().step), Strand6().state);
    SameState(Apply(Strand6().state, Strand6().step), Strand7().state);
  }

  /** A caller finds the queue full. */
  lemma StrandArms()
    ensures Leads(Strand7(), Strand8())
    ensures Leads(Strand8(), Strand9())
    ensures Leads(Strand9(), Strand10())
  {
    SameState(Apply(Strand7().state, Strand7().step), Strand8().state);
    SameState(Apply(Strand8().state, Strand8().step), Strand9().state);
    SameState(Apply(Strand9().state, Strand9().step), Strand10().state);
  }

  /** It waits, and another one comes. */
  lemma StrandWaits()
    ensures Leads(Strand10(), Strand11())
    ensures Leads(Strand11(), Strand12())
    ensures Leads(Strand12(), Strand13())
  {
    SameState(Apply(Strand10().state, Strand10().step), Strand11().state);
    SameState(Apply(Strand11().state, Strand11().step), Strand12().state);
    SameState(Apply(Strand12().state, Strand12().step), Strand13().state);
  }

  /** That one resets the timer and gets its tick. */
  lemma StrandLoses()
    ensures Leads(Strand13(), Strand14())
    ensures Leads(Strand14(), Strand15())
    ensures Leads(Strand15(), Strand16())
    ensures Leads(Strand16(), Strand17())
  {
    SameState(Apply(Strand13().state, Strand13().step), Strand14().state);
    SameState(Apply(Strand14().state, Strand14().step), Strand15().state);
    SameState(Apply(Strand15().state, Strand15().step), Strand16().state);
    SameState(Apply(Strand16().state, Strand16().step), Strand17().state);
  }

  lemma StrandChain()
    ensures Chain(StrandStages())
  {
    hide Leads;
    StrandStops(); StrandFills(); StrandArms(); StrandWaits(); StrandLoses();
  }

  /**
   Two callers wait on a handler whose consumer has returned on a write error. One
   of them gets the only tick; the other is stranded, and only a later Close, or the
   call of somebody else, can bring it back.
   */
  lemma SecondCallerStranded()
    ensures var r := StrandStages();
            Reaches(r[0].state, Before(r, 17), r[17].state) && Stranded(r[17].state, 1, 0) && r[17].state.handlers[0].consumer.Exited?
  {
    hide Apply, Enabled, Chain;
    StrandChain();
    ChainReaches(StrandStages(), 17);
  }

  function Alone0(): Stage {
    Stage(Snapshot(0, 0, [], Selecting, Open, TimerOff, 0, Thread(Idle, 0), Thread(Idle, 0)),
          Start(0, 0, 0, INFO_LEVEL, "a"))
  }

  function Alone1(): Stage {
    Stage(Snapshot(1, 0, [], Selecting, Open, TimerOff, 0, Thread(First(0, 0), 1), Thread(Idle, 0)),
          Send(0))
  }

  function Alone2(): Stage {
    Stage(Snapshot(1, 1, [0], Selecting, Open, TimerOff, 0, Thread(Idle, 1), Thread(Idle, 0)),
          Start(0, 0, 1, INFO_LEVEL, "b"))
  }

  function Alone3(): Stage {
    Stage(Snapshot(2, 1, [0], Selecting, Open, TimerOff, 0, Thread(First(0, 1), 2), Thread(Idle, 0)),
          Send(0))
  }

  function Alone4(): Stage {
    Stage(Snapshot(2, 1, [0], Selecting, Open, TimerOff, 0, Thread(Arming(0, 1, StopTimer), 2), Thread(Idle, 0)),
          UseTimer(0))
  }

  function Alone5(): Stage {
    Stage(Snapshot(2, 1, [0], Selecting, Open, TimerOff, 0, Thread(Arming(0, 1, DrainTimer), 2), Thread(Idle, 0)),
          UseTimer(0))
  }

  function Alone6(): Stage {
    Stage(Snapshot(2, 1, [0], Selecting, Open, TimerOff, 0, Thread(Arming(0, 1, ResetTimer), 2), Thread(Idle, 0)),
          UseTimer(0))
  }

  function Alone7(): Stage {
    Stage(Snapshot(2, 1, [0], Selecting, Open, TimerRunning, 0, Thread(Blocked(0, 1), 2), Thread(Idle, 0)),
          Receive(0))
  }

  function Alone8(): Stage {
    Stage(Snapshot(2, 1, [], Writing(0, BatchLoop), Open, TimerRunning, 0, Thread(Blocked(0, 1), 2), Thread(Idle, 0)),
          BlockedSend(0))
  }

  function Alone9(): Stage {
    Stage(Snapshot(2, 2, [1], Writing(0, BatchLoop), Open, TimerRunning, 0, Thread(Sent(0, false), 2), Thread(Idle, 0)),
          Write(0, false))
  }

  function Alone10(): Stage {
    Stage(Snapshot(2, 2, [1], Exited, Open, TimerRunning, 0, Thread(Sent(0, false), 2), Thread(Idle, 0)),
          Start(1, 0, 2, INFO_LEVEL, "c"))
  }

  function Alone11(): Stage {
    Stage(Snapshot(3, 2, [1], Exited, Open, TimerRunning, 0, Thread(Sent(0, false), 2), Thread(First(0, 2), 1)),
          Send(1))
  }

  function Alone12(): Stage {
    Stage(Snapshot(3, 2, [1], Exited, Open, TimerRunning, 0, Thread(Sent(0, false), 2), Thread(Arming(0, 2, StopTimer), 1)),
          UseTimer(1))
  }

  function Alone13(): Stage {
    Stage(Snapshot(3, 2, [1], Exited, Open, TimerOff, 0, Thread(Sent(0, false), 2), Thread(Arming(0, 2, ResetTimer), 1)),
          UseTimer(1))
  }

  function Alone14(): Stage {
    Stage(Snapshot(3, 2, [1], Exited, Open, TimerRunning, 0, Thread(Sent(0, false), 2), Thread(Blocked(0, 2), 1)),
          UseTimer(0))
  }

  function Alone15(): Stage {
    Stage(Snapshot(3, 2, [1], Exited, Open, TimerOff, 0, Thread(Idle, 2), Thread(Blocked(0, 2), 1)),
          TimerFire(0))
  }

  function AloneStages(): seq<Stage> {
    [Alone0(), Alone1(), Alone2(), Alone3(), Alone4(), Alone5(), Alone6(), Alone7(), Alone8(), Alone9(),
     Alone10(), Alone11(), Alone12(), Alone13(), Alone14(), Alone15()]
  }

  /** The queue fills up, and a caller finds it full. */
  lemma AloneFills()
    ensures Leads(Alone0(), Alone1())
    ensures Leads(Alone1(), Alone2())
    ensures Leads(Alone2(), Alone3())
    ensures Leads(Alone3(), Alone4())
  {
    SameState(Apply(Alone0().state, Alone0().step), Alone1().state);
    SameState(Apply(Alone1().state, Alone1().step), Alone2().state);
    SameState(Apply(Alone2().state, Alone2().step), Alone3().state);
    SameState(Apply(Alone3().state, Alone3().step), Alone4().state);
  }

  /** It waits. */
  lemma AloneWaits()
    ensures Leads(Alone4(), Alone5())
    ensures Leads(Alone5(), Alone6())
    ensures Leads(Alone6(), Alone7())
  {
    SameState(Apply(Alone4().state, Alone4().step), Alone5().state);
    SameState(Apply(Alone5().state, Alone5().step), Alone6().state);
    SameState(Apply(Alone6().state, Alone6().step), Alone7().state);
  }

  /** It sends when the consumer makes room, and the consumer stops. */
  lemma AloneSends()
    ensures Leads(Alone7(), Alone8())
    ensures Leads(Alone8(), Alone9())
    ensures Leads(Alone9(), Alone10())
  {
    SameState(Apply(Alone7().state, Alone7().step), Alone8().state);
    SameState(Apply(Alone8().state, Alone8().step), Alone9().state);
    SameState(Apply(Alone9().state, Alone9().step), Alone10().state);
  }

  /** Another caller waits, alone. */
  lemma AloneFollows()
    ensures Leads(Alone10(), Alone11())
    ensures Leads(Alone11(), Alone12())
    ensures Leads(Alone12(), Alone13())
  {
    SameState(Apply(Alone10().state, Alone10().step), Alone11().state);
    SameState(Apply(Alone11().state, Alone11().step), Alone12().state);
    SameState(Apply(Alone12().state, Alone12().step), Alone13().state);
  }

  /** The first one stops the timer. */
  lemma AloneStops()
    ensures Leads(Alone13(), Alone14())
    ensures Leads(Alone14(), Alone15())
  {
    SameState(Apply(Alone13().state, Alone13().step), Alone14().state);
    SameState(Apply(Alone14().state, Alone14().step), Alone15().state);
  }

  lemma AloneChain()
    ensures Chain(AloneStages())
  {
    hide Leads;
    AloneFills(); AloneWaits(); AloneSends(); AloneFollows(); AloneStops();
  }

  lemma {:induction false} BeforeFront(r: seq<Stage>, n: nat, i: nat)
    requires i <= n <= |r|
    ensures |Before(r, n)| == n && Before(r, n)[..i] == Before(r, i)
  {
    if i < n {
      BeforeFront(r, n - 1, i);
      BeforeFront(r, n - 1, n - 1);
    } else if n > 0 {
      BeforeFront(r, n - 1, n - 1);
    }
  }

  predicate AtMostOneWaits(s: State, h: nat) {
    forall t, u | 0 <= t < |s.threads| && 0 <= u < |s.threads| && Waits(s, t, h) && Waits(s, u, h) :: t == u
  }

  lemma NeverTwoWaiting(i: nat)
    requires i < 16
    ensures AtMostOneWaits(AloneStages()[i].state, 0)
  {
  }

  lemma AloneReached(i: nat)
    requires i < 16
    ensures var r := AloneStages(); Reaches(r[0].state, Before(r, i), r[i].state)
  {
    hide Apply, Enabled, Chain;
    AloneChain();
    ChainReaches(AloneStages(), i);
  }

  /**
   It is not enough that no two callers ever wait at the same time: one that has sent
   its entry may stop the timer late, when another one has come to wait.
   */
  lemma WaitsAloneStranded()
    ensures var r := AloneStages();
            && Reaches(r[0].state, Before(r, 15), r[15].state) && Stranded(r[15].state, 1, 0)
            && Throughout(r[0].state, Before(r, 15), m => AtMostOneWaits(m, 0))
  {
    hide Apply, Enabled, AtMostOneWaits;
    var r := AloneStages();
    AloneReached(15);
    BeforeFront(r, 15, 15);
    forall i | 0 <= i <= |Before(r, 15)|
      ensures match Exec(r[0].state, Before(r, 15)[..i]) case None => true case Some(m) => AtMostOneWaits(m, 0)
    {
      BeforeFront(r, 15, i);
      AloneReached(i);
      NeverTwoWaiting(i);
    }
  }

  function Late7(): Stage {
    Stage(Snapshot(2, 1, [0], Selecting, Open, TimerRunning, 0, Thread(Blocked(0, 1), 2), Thread(Idle, 0)),
          Close(0))
  }

  function Late8(): Stage {
    Stage(Snapshot(2, 1, [0], Selecting, Waiting, TimerRunning, 0, Thread(Blocked(0, 1), 2), Thread(Idle, 0)),
          BlockedClosed(0))
  }

  function Late9(): Stage {
    Stage(Snapshot(2, 1, [0], Selecting, Waiting, TimerRunning, 0, Thread(Leaving(0, 1, false), 2), Thread(Idle, 0)),
          UseTimer(0))
  }

  function Late10(): Stage {
    Stage(Snapshot(2, 1, [0], Selecting, Waiting, TimerOff, 0, Thread(FallingBack(0, 1), 2), Thread(Idle, 0)),
          SeeClosed(0))
  }

  function Late11(): Stage {
    Stage(Snapshot(2, 1, [0], Looping(DrainLoop), Waiting, TimerOff, 0, Thread(FallingBack(0, 1), 2), Thread(Idle, 0)),
          Deadline(0))
  }

  function Late12(): Stage {
    Stage(Snapshot(2, 1, [0], Exited, Waiting, TimerOff, 0, Thread(FallingBack(0, 1), 2), Thread(Idle, 0)),
          CloseQueue(0))
  }

  function Late13(): Stage {
    Stage(Snapshot(2, 1, [0], Exited, Closed, TimerOff, 0, Thread(FallingBack(0, 1), 2), Thread(Idle, 0)),
          Fallback(0, true))
  }

  function LateStages(): seq<Stage> {
    [Alone0(), Alone1(), Alone2(), Alone3(), Alone4(), Alone5(), Alone6(), Late7(), Late8(), Late9(),
     Late10(), Late11(), Late12(), Late13()]
  }

  /** The caller waits as before, and sees the handler closed. */
  lemma LateLeaves()
    ensures Leads(Alone6(), Late7())
    ensures Leads(Late7(), Late8())
    ensures Leads(Late8(), Late9())
    ensures Leads(Late9(), Late10())
  {
    SameState(Apply(Alone6().state, Alone6().step), Late7().state);
    SameState(Apply(Late7().state, Late7().step), Late8().state);
    SameState(Apply(Late8().state, Late8().step), Late9().state);
    SameState(Apply(Late9().state, Late9().step), Late10().state);
  }

  /** The consumer returns at the deadline, and Close after it. */
  lemma LateCloses()
    ensures Leads(Late10(), Late11())
    ensures Leads(Late11(), Late12())
    ensures Leads(Late12(), Late13())
  {
    SameState(Apply(Late10().state, Late10().step), Late11().state);
    SameState(Apply(Late11().state, Late11().step), Late12().state);
    SameState(Apply(Late12().state, Late12().step), Late13().state);
  }

  lemma LateChain()
    ensures Chain(LateStages())
  {
    hide Leads;
    AloneFills(); AloneWaits(); LateLeaves(); LateCloses();
  }

  /** A caller that saw `closed` writes synchronously after Close has returned. */
  lemma FallbackAfterClose()
    ensures var r := LateStages();
            Reaches(r[0].state, Before(r, 13), r[13].state) && r[13].state.handlers[0].closer.Closed? && Enabled(r[13].state, r[13].step)
  {
    var r := LateStages();
    assert Enabled(r[13].state, r[13].step);
    hide Apply, Enabled, Chain;
    LateChain();
    ChainReaches(r, 13);
  }
}
