/**
 A run of the console write paths in which two lines interleave: FormatTo takes the
 writer's lock for each Write, not for the call.
 */
module WriteLockRuns {
  import opened Core
  import opened WriteLocks
  import opened WriteLockLaws

  lemma ExecSnoc(init: State, steps: seq<Step>, s: State, step: Step)
    requires Reaches(init, steps, s) && Enabled(s, step)
    ensures Reaches(init, steps + [step], Apply(s, step))
  {
    assert (steps + [step])[..|steps|] == steps;
  }

  function Entries(calls: seq<Call>): seq<Entry> {
    seq(|calls|, i requires 0 <= i < |calls| => calls[i].entry)
  }

  /** Thread t has written its part and is about to go on; the writer is free again. */
  ghost predicate Wrote(s: State, t: nat, s': State)
    requires IsThread(s, t) && s.threads[t].pc.WantWriter?
  {
    var pc := s.threads[t].pc;
    && s'.out == s.out + Part(pc) && WriterFree(s', false) && |s'.threads| == |s.threads|
    && s'.threads[t].pc == NextWrite(pc.job, pc.part + 1) && Entries(s'.threads[t].calls) == Entries(s.threads[t].calls)
    && s'.processed == s.processed
    && forall u | 0 <= u < |s.threads| && u != t :: s'.threads[u] == s.threads[u]
  }

  /** A thread of its own buffer can write a part while the writer is free. */
  lemma WritePart(init: State, before: seq<Step>, s: State, t: nat) returns (steps: seq<Step>, s': State)
    requires Reaches(init, before, s) && IsThread(s, t) && s.threads[t].pc.WantWriter? && !s.threads[t].pc.shared
    requires WriterFree(s, false) && Part(s.threads[t].pc) != ""
    ensures Reaches(init, steps, s') && Wrote(s, t, s')
  {
    hide Exec, Init;
    InvariantRun(init, before, s);
    WritesPart(s, t);
    var n := |Part(s.threads[t].pc)|;
    var a := Apply(s, Move(t));
    ExecSnoc(init, before, s, Move(t));
    var b := Apply(a, Emit(t, n));
    ExecSnoc(init, before + [Move(t)], a, Emit(t, n));
    var c := Apply(b, Return(t, true));
    ExecSnoc(init, before + [Move(t)] + [Emit(t, n)], b, Return(t, true));
    s' := Apply(c, Move(t));
    ExecSnoc(init, before + [Move(t)] + [Emit(t, n)] + [Return(t, true)], c, Move(t));
    steps := before + [Move(t)] + [Emit(t, n)] + [Return(t, true)] + [Move(t)];
  }

  const TWO := Entry("", "", ["a", "b"], false)
  const ONE := Entry("", "", ["c"], false)

  function InPieces(e: Entry): Job {
    JobOf(PiecesPath, e, false)
  }

  lemma Starts(init: State, before: seq<Step>, s: State, t: nat, e: Entry) returns (steps: seq<Step>, s': State)
    requires Reaches(init, before, s) && IsThread(s, t) && s.threads[t].pc.Idle? && e.pieces != []
    ensures Reaches(init, steps, s') && s'.out == s.out && s'.processed == s.processed
    ensures WriterFree(s', false) == WriterFree(s, false) && |s'.threads| == |s.threads|
    ensures s'.threads[t].pc == WantWriter(InPieces(e), false, 0) && Entries(s'.threads[t].calls) == Entries(s.threads[t].calls) + [e]
    ensures forall u | 0 <= u < |s.threads| && u != t :: s'.threads[u] == s.threads[u]
  {
    ExecSnoc(init, before, s, Start(t, PiecesPath, e, true));
    steps, s' := before + [Start(t, PiecesPath, e, true)], Apply(s, Start(t, PiecesPath, e, true));
  }

  lemma Ends(init: State, before: seq<Step>, s: State, t: nat) returns (steps: seq<Step>, s': State)
    requires Reaches(init, before, s) && IsThread(s, t) && s.threads[t].pc.Counting? && s.threads[t].pc.ok
    requires !s.threads[t].pc.job.fails && s.threads[t].pc.job.batch.None?
    ensures Reaches(init, steps, s') && s'.out == s.out && s'.processed == s.processed + 1
    ensures WriterFree(s', false) == WriterFree(s, false) && |s'.threads| == |s.threads|
    ensures s'.threads[t].pc.Idle? && s'.threads[t].calls == s.threads[t].calls
    ensures forall u | 0 <= u < |s.threads| && u != t :: s'.threads[u] == s.threads[u]
  {
    ExecSnoc(init, before, s, Move(t));
    steps, s' := before + [Move(t)], Apply(s, Move(t));
  }

  lemma PartsOf()
    ensures Part(WantWriter(InPieces(TWO), false, 0)) == "a" && Part(WantWriter(InPieces(TWO), false, 1)) == "b"
    ensures Part(WantWriter(InPieces(ONE), false, 0)) == "c" && NextWrite(InPieces(ONE), 1) == Counting(InPieces(ONE), true)
    ensures NextWrite(InPieces(TWO), 1) == WantWriter(InPieces(TWO), false, 1)
    ensures NextWrite(InPieces(TWO), 2) == Counting(InPieces(TWO), true)
  {
  }

  /** The first thread has written one of its two pieces, and the second all of its own. */
  ghost predicate Torn(s: State) {
    && |s.threads| == 2 && s.out == "ac" && s.processed == 0 && WriterFree(s, false)
    && s.threads[0].pc == WantWriter(InPieces(TWO), false, 1) && Entries(s.threads[0].calls) == [TWO]
    && s.threads[1].pc == Counting(InPieces(ONE), true) && Entries(s.threads[1].calls) == [ONE]
  }

  /** A thread starts a call of FormatTo and writes its first piece. */
  lemma Begins(init: State, before: seq<Step>, s: State, t: nat, e: Entry) returns (steps: seq<Step>, s': State)
    requires Reaches(init, before, s) && IsThread(s, t) && s.threads[t].pc.Idle? && WriterFree(s, false)
    requires e.pieces != [] && e.pieces[0] != ""
    ensures Reaches(init, steps, s') && s'.out == s.out + e.pieces[0] && s'.processed == s.processed
    ensures WriterFree(s', false) && |s'.threads| == |s.threads|
    ensures s'.threads[t].pc == NextWrite(InPieces(e), 1) && Entries(s'.threads[t].calls) == Entries(s.threads[t].calls) + [e]
    ensures forall u | 0 <= u < |s.threads| && u != t :: s'.threads[u] == s.threads[u]
  {
    hide Reaches, Apply, Enabled, NextWrite, WriterFree;
    steps, s' := Starts(init, before, s, t, e);
    steps, s' := WritePart(init, steps, s', t);
  }

  lemma TearApart(single: bool) returns (init: State, steps: seq<Step>, s: State)
    ensures Reaches(init, steps, s) && init.single == single && Torn(s)
  {
    init := State(single, None, None, "", "", "", "", 0, [Thread(Idle, "", []), Thread(Idle, "", [])], []);
    assert Reaches(init, [], init) && WriterFree(init, false);
    PartsOf();
    hide Reaches, Apply, Enabled, Part, NextWrite, InPieces, WriterFree;
    steps, s := Begins(init, [], init, 0, TWO);
    steps, s := Begins(init, steps, s, 1, ONE);
  }

  /** FormatTo of one entry in two pieces, of the other in one; the pieces of the first are torn apart. */
  lemma PiecesInterleave(single: bool) returns (init: State, steps: seq<Step>, s: State)
    ensures Reaches(init, steps, s) && init.single == single && forall t | 0 <= t < |s.threads| :: s.threads[t].pc.Idle?
    ensures |s.threads| == 2 && s.out == "acb" && s.processed == 2
    ensures Entries(s.threads[0].calls) == [TWO] && Entries(s.threads[1].calls) == [ONE]
  {
    init, steps, s := TearApart(single);
    PartsOf();
    assert !InPieces(TWO).fails && InPieces(TWO).batch.None? && !InPieces(ONE).fails && InPieces(ONE).batch.None?;
    hide Reaches, Apply, Enabled, Part, NextWrite, InPieces, WriterFree;
    steps, s := Ends(init, steps, s, 1);
    steps, s := WritePart(init, steps, s, 0);
    steps, s := Ends(init, steps, s, 0);
  }
}
