/**
 Records in files: what a reader of the rotated files finds, line by line.
 */
module FileRecords {
  import opened Core
  import opened JsonFormatter
  import opened JsonRecord
  import opened BatchFraming
  import opened Rotation

  ghost predicate AllLines(lines: seq<string>) {
    forall i | 0 <= i < |lines| :: IsLine(lines[i])
  }

  /** A text made of whole lines. */
  ghost predicate Whole(s: string) {
    AllLines(SplitLines(s)) && Flatten(SplitLines(s)) == s
  }

  /** Every line found by reading the backups in rotation order, then the log file and the buffer. */
  function SegmentLines(segments: seq<Segment>): seq<string> {
    if segments == [] then [] else
    SegmentLines(segments[..|segments| - 1]) + SplitLines(segments[|segments| - 1].bytes)
  }

  function LogLines(v: LogView): seq<string> {
    SegmentLines(v.segments) + SplitLines(v.current)
  }

  lemma WholeGrows(s: string, lines: seq<string>)
    requires Whole(s) && AllLines(lines)
    ensures Whole(s + Flatten(lines)) && SplitLines(s + Flatten(lines)) == SplitLines(s) + lines
  {
    FlattenAppend(SplitLines(s), lines);
    SplitBatch(SplitLines(s) + lines);
  }

  lemma RotatedLines(cfg: Config, v: LogView, now: int)
    ensures LogLines(Rotated(cfg, v, now)) == LogLines(v)
  {
    var segments := v.segments + [Segment(cfg.nameAt(now), v.current)];
    assert segments[..|segments| - 1] == v.segments;
  }

  /** One write per batch of lines. */
  function Writes(batches: seq<seq<string>>, times: seq<int>): seq<Call>
    requires |times| == |batches|
  {
    seq(|batches|, i requires 0 <= i < |batches| => Call(Flatten(batches[i]), times[i]))
  }

  lemma WritesFront(batches: seq<seq<string>>, times: seq<int>)
    requires |times| == |batches| > 0
    ensures Writes(batches, times)[..|batches| - 1] == Writes(batches[..|batches| - 1], times[..|batches| - 1])
  {
  }

  /** One write: its lines come last, whether or not a rotation comes before it. */
  lemma AppendLines(cfg: Config, v: LogView, lines: seq<string>, now: int)
    requires Whole(v.current) && AllLines(lines)
    ensures Whole(Appended(cfg, v, Flatten(lines), now).current)
    ensures LogLines(Appended(cfg, v, Flatten(lines), now)) == LogLines(v) + lines
  {
    RotatedLines(cfg, v, now);
    assert Whole("");
    var r := MaybeRotated(cfg, v, now);
    WholeGrows(r.current, lines);
    Regroup(SegmentLines(r.segments), SplitLines(r.current), lines);
  }

  /** The segments a run has added to v are made of whole lines. */
  ghost predicate NewWhole(v: LogView, r: LogView) {
    |v.segments| <= |r.segments| && forall k | |v.segments| <= k < |r.segments| :: Whole(r.segments[k].bytes)
  }

  lemma NewWholeStep(cfg: Config, v: LogView, m: LogView, bytes: string, now: int)
    requires NewWhole(v, m) && Whole(m.current)
    ensures NewWhole(v, Appended(cfg, m, bytes, now))
  {
    hide Whole;
  }

  lemma Regroup(a: seq<string>, b: seq<string>, c: seq<string>)
    ensures a + (b + c) == a + b + c
  {
  }

  lemma FlattenLast(batches: seq<seq<string>>)
    requires batches != []
    ensures Flatten(batches) == Flatten(batches[..|batches| - 1]) + batches[|batches| - 1]
  {
    FlattenSnoc(batches[..|batches| - 1], batches[|batches| - 1]);
    assert batches == batches[..|batches| - 1] + [batches[|batches| - 1]];
  }

  /**
   Whatever rotations a run makes, every file consists of whole lines, and reading
   the files in order gives the lines that were there before, then every line
   written, in order, none lost, repeated or cut.
   */
  lemma {:induction false} LinesSurvive(cfg: Config, v: LogView, batches: seq<seq<string>>, times: seq<int>)
    requires |times| == |batches| && Whole(v.current)
    requires forall b | b in batches :: AllLines(b)
    ensures Whole(Run(cfg, v, Writes(batches, times)).current) && NewWhole(v, Run(cfg, v, Writes(batches, times)))
    ensures LogLines(Run(cfg, v, Writes(batches, times))) == LogLines(v) + Flatten(batches)
  {
    hide SplitLines, Whole, LogLines, Appended, AllLines;
    if batches == [] {
      assert Writes(batches, times) == [];
    } else {
      var n := |batches| - 1;
      LinesSurvive(cfg, v, batches[..n], times[..n]);
      WritesFront(batches, times);
      AppendLines(cfg, Run(cfg, v, Writes(batches[..n], times[..n])), batches[n], times[n]);
      NewWholeStep(cfg, v, Run(cfg, v, Writes(batches[..n], times[..n])), Flatten(batches[n]), times[n]);
      FlattenLast(batches);
      Regroup(LogLines(v), Flatten(batches[..n]), batches[n]);
    }
  }

  function BatchLines(includeCaller: bool, batches: seq<seq<Entry>>): seq<seq<string>> {
    seq(|batches|, i requires 0 <= i < |batches| => Batch(includeCaller, batches[i]))
  }

  lemma BatchIsLines(includeCaller: bool, entries: seq<Entry>)
    requires forall e | e in entries :: SafeTimes(e)
    ensures AllLines(Batch(includeCaller, entries))
  {
    hide Render, SafeTimes, IsLine;
    forall j | 0 <= j < |entries| ensures IsLine(Batch(includeCaller, entries)[j]) {
      RecordIsLine(includeCaller, entries[j]);
    }
  }

  /** For a new log and formatted entries: the files read back as the records, in order. */
  lemma RecordsSurvive(cfg: Config, start: int, includeCaller: bool, batches: seq<seq<Entry>>, times: seq<int>)
    requires |times| == |batches|
    requires forall b | b in batches :: forall e | e in b :: SafeTimes(e)
    ensures LogLines(Run(cfg, LogView([], "", start, 0), Writes(BatchLines(includeCaller, batches), times)))
         == Flatten(BatchLines(includeCaller, batches))
  {
    hide Render, SafeTimes, IsLine, AllLines, Run;
    var lines := BatchLines(includeCaller, batches);
    forall b | b in lines ensures AllLines(b) {
      var i :| 0 <= i < |lines| && lines[i] == b;
      assert batches[i] in batches;
      BatchIsLines(includeCaller, batches[i]);
    }
    EmptyLog(start);
    LinesSurvive(cfg, LogView([], "", start, 0), lines, times);
  }

  lemma EmptyLog(start: int)
    ensures Whole("") && LogLines(LogView([], "", start, 0)) == []
  {
  }
}
