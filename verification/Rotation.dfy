/**
 What rotation does to the log as a whole: the segments cut off so far, in
 rotation order, and the current text (file and buffer together). The handlers
 of handler/filehandler/file.go and handler/file.go are proved against these
 functions; the laws here are about any run of them.
 */
module Rotation {
  import opened Core

  /**
   `nameAt` is the timestamp that names a backup made at this moment: local time in
   whole seconds, which repeats within a second, when the clocks go back, and when
   the wall clock is set back. Nothing is assumed of it.
   */
  datatype Config = Config(maxSize: int, maxAge: int, maxBackups: int, rotateInterval: int, nameAt: int -> string)

  /** A backup: the timestamp in its name, and what it held. */
  datatype Segment = Segment(stamp: string, bytes: string)

  /** `size` is what the handler takes for the size of the current text. */
  datatype LogView = LogView(segments: seq<Segment>, current: string, lastRotate: int, size: int)

  /** The size is right. */
  predicate Exact(v: LogView) {
    v.size == |v.current|
  }

  /** rotateIfNeeded: by size, by age or by interval. */
  predicate NeedRotate(cfg: Config, size: int, lastRotate: int, now: int) {
    || (cfg.maxSize > 0 && size >= cfg.maxSize)
    || (cfg.maxAge > 0 && now - lastRotate >= cfg.maxAge)
    || (cfg.rotateInterval > 0 && now - lastRotate >= cfg.rotateInterval)
  }

  function Rotated(cfg: Config, v: LogView, now: int): LogView {
    LogView(v.segments + [Segment(cfg.nameAt(now), v.current)], "", now, 0)
  }

  function MaybeRotated(cfg: Config, v: LogView, now: int): LogView {
    if NeedRotate(cfg, v.size, v.lastRotate, now) then Rotated(cfg, v, now) else v
  }

  /** One write: the rotation check, then the bytes (a line, or a whole batch of lines). */
  function Appended(cfg: Config, v: LogView, bytes: string, now: int): LogView {
    var r := MaybeRotated(cfg, v, now);
    r.(current := r.current + bytes, size := r.size + |bytes|)
  }

  /** A formatter's own error after it wrote these bytes: they stay in the log, and are not added to the size. */
  function Misprinted(cfg: Config, v: LogView, bytes: string, now: int): LogView {
    var r := MaybeRotated(cfg, v, now);
    r.(current := r.current + bytes)
  }

  /** Writing keeps the size right; a formatter's error does if and only if it wrote nothing. */
  lemma SizeStaysExact(cfg: Config, v: LogView, bytes: string, now: int)
    requires Exact(v)
    ensures Exact(Appended(cfg, v, bytes, now))
    ensures Exact(Misprinted(cfg, v, bytes, now)) <==> bytes == ""
  {
  }

  datatype Call = Call(bytes: string, now: int)

  function Run(cfg: Config, v: LogView, calls: seq<Call>): LogView {
    if calls == [] then v else
    var last := calls[|calls| - 1];
    Appended(cfg, Run(cfg, v, calls[..|calls| - 1]), last.bytes, last.now)
  }

  // ---------------------------------------------------------------- conservation

  function SegmentBytes(segments: seq<Segment>): string {
    if segments == [] then "" else
    SegmentBytes(segments[..|segments| - 1]) + segments[|segments| - 1].bytes
  }

  /** The backups in rotation order, then the active file, then the buffer. */
  function AllBytes(v: LogView): string {
    SegmentBytes(v.segments) + v.current
  }

  function CallBytes(calls: seq<Call>): string {
    if calls == [] then "" else CallBytes(calls[..|calls| - 1]) + calls[|calls| - 1].bytes
  }

  lemma SegmentBytesSnoc(segments: seq<Segment>, s: Segment)
    ensures SegmentBytes(segments + [s]) == SegmentBytes(segments) + s.bytes
  {
    assert (segments + [s])[..|segments|] == segments;
  }

  lemma RotatedKeeps(cfg: Config, v: LogView, now: int)
    ensures AllBytes(Rotated(cfg, v, now)) == AllBytes(v)
  {
    SegmentBytesSnoc(v.segments, Segment(cfg.nameAt(now), v.current));
  }

  /**
   Byte conservation: whatever rotations a run makes, the backups, the active file
   and the buffer together hold the initial content and every byte written, in
   the order written.
   */
  lemma {:induction false} RunConserves(cfg: Config, v: LogView, calls: seq<Call>)
    ensures AllBytes(Run(cfg, v, calls)) == AllBytes(v) + CallBytes(calls)
  {
    if calls == [] {
      assert AllBytes(v) + "" == AllBytes(v);
    } else {
      var front, last := calls[..|calls| - 1], calls[|calls| - 1];
      var m := Run(cfg, v, front);
      RunConserves(cfg, v, front);
      RotatedKeeps(cfg, m, last.now);
      var r := MaybeRotated(cfg, m, last.now);
      assert SegmentBytes(r.segments) + (r.current + last.bytes) == AllBytes(r) + last.bytes;
      assert AllBytes(v) + CallBytes(front) + last.bytes == AllBytes(v) + (CallBytes(front) + last.bytes);
    }
  }

  // ---------------------------------------------------------------- which write goes into which file

  /** When the k-th file was started: the first one before the run, any other by its first write. */
  function Started(start: int, files: seq<seq<Call>>, k: nat): int
    requires k < |files|
  {
    if k == 0 || files[k] == [] then start else files[k][0].now
  }

  /** What is in the k-th file before its i-th write; only the first one had initial content. */
  function InFile(initial: string, files: seq<seq<Call>>, k: nat, i: nat): string
    requires k < |files| && i <= |files[k]|
  {
    (if k == 0 then initial else "") + CallBytes(files[k][..i])
  }

  /**
   `files` says which writes went where: the k-th file is what was written into the
   k-th segment, the last one what was written into the current text, and each
   segment is named after the moment the next file was started.
   */
  ghost predicate Filed(cfg: Config, v: LogView, initial: string, start: int, files: seq<seq<Call>>) {
    && |files| == |v.segments| + 1 && v.lastRotate == Started(start, files, |files| - 1)
    && (forall k | 0 < k < |files| :: files[k] != [])
    && (forall k | 0 <= k < |v.segments| ::
          v.segments[k] == Segment(cfg.nameAt(Started(start, files, k + 1)), InFile(initial, files, k, |files[k]|)))
    && v.current == InFile(initial, files, |files| - 1, |files[|files| - 1]|)
  }

  /** A file of this size and age goes on: no limit that is set has been reached. */
  predicate Within(cfg: Config, size: nat, age: int) {
    && (cfg.maxSize > 0 ==> size < cfg.maxSize)
    && (cfg.maxAge > 0 ==> age < cfg.maxAge)
    && (cfg.rotateInterval > 0 ==> age < cfg.rotateInterval)
  }

  /** Every write found its file within the limits. */
  ghost predicate WritesWithin(cfg: Config, initial: string, start: int, files: seq<seq<Call>>) {
    forall k, i | 0 <= k < |files| && 0 <= i < |files[k]| ::
      Within(cfg, |InFile(initial, files, k, i)|, files[k][i].now - Started(start, files, k))
  }

  /** Every new file was started because the one before had reached a limit. */
  ghost predicate CutsDue(cfg: Config, initial: string, start: int, files: seq<seq<Call>>) {
    forall k | 0 < k < |files| && files[k] != [] ::
      !Within(cfg, |InFile(initial, files, k - 1, |files[k - 1]|)|, files[k][0].now - Started(start, files, k - 1))
  }

  function AddToLast(files: seq<seq<Call>>, call: Call): seq<seq<Call>>
    requires files != []
  {
    files[|files| - 1 := files[|files| - 1] + [call]]
  }

  lemma CallBytesSnoc(calls: seq<Call>, call: Call)
    ensures CallBytes(calls + [call]) == CallBytes(calls) + call.bytes
  {
    assert (calls + [call])[..|calls|] == calls;
  }

  /** The files before the last write look the same after it. */
  lemma SameInFile(initial: string, files: seq<seq<Call>>, files': seq<seq<Call>>, k: nat, i: nat)
    requires k < |files| && k < |files'| && i <= |files[k]| <= |files'[k]| && files'[k][..|files[k]|] == files[k]
    ensures InFile(initial, files', k, i) == InFile(initial, files, k, i)
  {
    assert files'[k][..i] == files[k][..i];
  }

  lemma GrownFile(initial: string, files: seq<seq<Call>>, call: Call)
    requires files != []
    ensures var n, files' := |files| - 1, AddToLast(files, call);
            InFile(initial, files', n, |files'[n]|) == InFile(initial, files, n, |files[n]|) + call.bytes
  {
    var n := |files| - 1;
    CallBytesSnoc(files[n], call);
    assert AddToLast(files, call)[n][..|files[n]| + 1] == files[n] + [call] && files[n][..|files[n]|] == files[n];
    var start := if n == 0 then initial else "";
    assert start + CallBytes(files[n]) + call.bytes == start + (CallBytes(files[n]) + call.bytes);
  }

  /** A write without a rotation: the last file grows. */
  lemma FiledGrows(cfg: Config, v: LogView, initial: string, start: int, files: seq<seq<Call>>, call: Call)
    requires Filed(cfg, v, initial, start, files)
    ensures Filed(cfg, v.(current := v.current + call.bytes, size := v.size + |call.bytes|), initial, start, AddToLast(files, call))
  {
    hide InFile;
    var files' := AddToLast(files, call);
    GrownFile(initial, files, call);
    forall k | 0 <= k < |v.segments| ensures InFile(initial, files', k, |files'[k]|) == InFile(initial, files, k, |files[k]|) {
      SameInFile(initial, files, files', k, |files[k]|);
    }
  }

  lemma NewFile(initial: string, files: seq<seq<Call>>, call: Call)
    requires files != []
    ensures InFile(initial, files + [[call]], |files|, 0) == "" && InFile(initial, files + [[call]], |files|, 1) == call.bytes
  {
    assert [call][..1] == [call] && [call][..0] == [];
    CallBytesSnoc([], call);
    assert [] + [call] == [call] && "" + call.bytes == call.bytes;
  }

  /** A write after a rotation: a new file. */
  lemma FiledCut(cfg: Config, v: LogView, initial: string, start: int, files: seq<seq<Call>>, call: Call)
    requires Filed(cfg, v, initial, start, files)
    ensures var r := Rotated(cfg, v, call.now);
            Filed(cfg, r.(current := r.current + call.bytes, size := r.size + |call.bytes|), initial, start, files + [[call]])
  {
    hide InFile, Started;
    var files', n := files + [[call]], |files|;
    NewFile(initial, files, call);
    StartedNow(start, files, call);
    forall k | 0 <= k < n
      ensures Started(start, files', k) == Started(start, files, k)
      ensures InFile(initial, files', k, |files'[k]|) == InFile(initial, files, k, |files[k]|)
    {
      SameStarted(start, files, call, k);
      SameInFile(initial, files, files', k, |files[k]|);
    }
    var segments' := v.segments + [Segment(cfg.nameAt(call.now), v.current)];
    forall k | 0 <= k < n
      ensures segments'[k] == Segment(cfg.nameAt(Started(start, files', k + 1)), InFile(initial, files', k, |files'[k]|))
    {
      if k < n - 1 { assert segments'[k] == v.segments[k]; }
    }
    assert "" + call.bytes == call.bytes && |files'[n]| == 1;
  }

  lemma StartedNow(start: int, files: seq<seq<Call>>, call: Call)
    requires files != []
    ensures Started(start, files + [[call]], |files|) == call.now
  {
  }

  lemma SameStarted(start: int, files: seq<seq<Call>>, call: Call, k: nat)
    requires k < |files|
    ensures Started(start, files + [[call]], k) == Started(start, files, k)
  {
  }

  lemma WithinGrows(cfg: Config, initial: string, start: int, files: seq<seq<Call>>, call: Call)
    requires files != [] && WritesWithin(cfg, initial, start, files) && CutsDue(cfg, initial, start, files)
    requires forall k | 0 < k < |files| :: files[k] != []
    requires var n := |files| - 1; Within(cfg, |InFile(initial, files, n, |files[n]|)|, call.now - Started(start, files, n))
    ensures WritesWithin(cfg, initial, start, AddToLast(files, call)) && CutsDue(cfg, initial, start, AddToLast(files, call))
  {
    hide InFile, Within;
    var files' := AddToLast(files, call);
    forall k, i | 0 <= k < |files'| && 0 <= i < |files'[k]|
      ensures Within(cfg, |InFile(initial, files', k, i)|, files'[k][i].now - Started(start, files', k))
    {
      SameInFile(initial, files, files', k, i);
      if i < |files[k]| { assert files'[k][i] == files[k][i]; }
    }
    forall k | 0 < k < |files'| && files'[k] != []
      ensures !Within(cfg, |InFile(initial, files', k - 1, |files'[k - 1]|)|, files'[k][0].now - Started(start, files', k - 1))
    {
      SameInFile(initial, files, files', k - 1, |files[k - 1]|);
      assert files'[k][0] == files[k][0];
    }
  }

  /** A file that was started by this write is within all limits. */
  lemma FreshWithin(cfg: Config, call: Call, start: int, files: seq<seq<Call>>)
    requires files != []
    ensures Within(cfg, 0, call.now - Started(start, files + [[call]], |files|))
  {
  }

  lemma WithinCut(cfg: Config, initial: string, start: int, files: seq<seq<Call>>, call: Call)
    requires files != [] && WritesWithin(cfg, initial, start, files) && CutsDue(cfg, initial, start, files)
    requires var n := |files| - 1; !Within(cfg, |InFile(initial, files, n, |files[n]|)|, call.now - Started(start, files, n))
    ensures WritesWithin(cfg, initial, start, files + [[call]]) && CutsDue(cfg, initial, start, files + [[call]])
  {
    var files' := files + [[call]];
    hide InFile;
    NewFile(initial, files, call);
    FreshWithin(cfg, call, start, files);
    hide Within;
    forall k, i | 0 <= k < |files'| && 0 <= i < |files'[k]|
      ensures Within(cfg, |InFile(initial, files', k, i)|, files'[k][i].now - Started(start, files', k))
    {
      if k < |files| { SameInFile(initial, files, files', k, i); }
    }
    forall k | 0 < k < |files'| && files'[k] != []
      ensures !Within(cfg, |InFile(initial, files', k - 1, |files'[k - 1]|)|, files'[k][0].now - Started(start, files', k - 1))
    {
      SameInFile(initial, files, files', k - 1, |files[k - 1]|);
    }
  }

  lemma AddKeepsCalls(files: seq<seq<Call>>, call: Call)
    requires files != []
    ensures Flatten(AddToLast(files, call)) == Flatten(files) + [call]
    ensures Flatten(files + [[call]]) == Flatten(files) + [call]
  {
    var n := |files| - 1;
    FlattenSnoc(files[..n], files[n]);
    FlattenSnoc(files[..n], files[n] + [call]);
    FlattenSnoc(files, [call]);
    assert files == files[..n] + [files[n]];
    assert AddToLast(files, call) == files[..n] + [files[n] + [call]];
    assert Flatten(files[..n]) + (files[n] + [call]) == Flatten(files[..n]) + files[n] + [call];
  }

  /** What one write adds. */
  lemma FiledAppended(cfg: Config, v: LogView, initial: string, start: int, files: seq<seq<Call>>, call: Call)
    returns (files': seq<seq<Call>>)
    requires Filed(cfg, v, initial, start, files)
    ensures Filed(cfg, Appended(cfg, v, call.bytes, call.now), initial, start, files') && Flatten(files') == Flatten(files) + [call]
    ensures Exact(v) && WritesWithin(cfg, initial, start, files) && CutsDue(cfg, initial, start, files) ==>
              WritesWithin(cfg, initial, start, files') && CutsDue(cfg, initial, start, files')
  {
    hide WritesWithin, CutsDue, InFile;
    var n := |files| - 1;
    var age := call.now - v.lastRotate;
    assert NeedRotate(cfg, |v.current|, v.lastRotate, call.now) <==> !Within(cfg, |v.current|, age);
    hide Within;
    AddKeepsCalls(files, call);
    var kept := Exact(v) && WritesWithin(cfg, initial, start, files) && CutsDue(cfg, initial, start, files);
    if NeedRotate(cfg, v.size, v.lastRotate, call.now) {
      FiledCut(cfg, v, initial, start, files, call);
      files' := files + [[call]];
      if kept { WithinCut(cfg, initial, start, files, call); }
    } else {
      FiledGrows(cfg, v, initial, start, files, call);
      files' := AddToLast(files, call);
      if kept { WithinGrows(cfg, initial, start, files, call); }
    }
  }

  /**
   No write is split across files: every call's bytes lie whole in one segment or in
   the current text, in order. And a rotation comes exactly when a limit asks for it,
   for size, age and interval alike: a write goes into the same file as the one before
   while the file is smaller than maxSize and was started less than maxAge and less
   than rotateInterval ago, and otherwise into a new one.
   */
  lemma {:induction false} RunGroups(cfg: Config, v: LogView, calls: seq<Call>) returns (files: seq<seq<Call>>)
    requires v.segments == []
    ensures Filed(cfg, Run(cfg, v, calls), v.current, v.lastRotate, files) && Flatten(files) == calls
    ensures Exact(v) ==> Exact(Run(cfg, v, calls))
    ensures Exact(v) ==> WritesWithin(cfg, v.current, v.lastRotate, files) && CutsDue(cfg, v.current, v.lastRotate, files)
  {
    if calls == [] {
      files := [[]];
      assert Flatten([[]]) == [] + Flatten<Call>([]);
      assert v.current + "" == v.current;
    } else {
      hide Filed, WritesWithin, CutsDue;
      var front, last := calls[..|calls| - 1], calls[|calls| - 1];
      files := RunGroups(cfg, v, front);
      assert calls == front + [last];
      files := FiledAppended(cfg, Run(cfg, v, front), v.current, v.lastRotate, files, last);
    }
  }

  // ---------------------------------------------------------------- how many rotations

  predicate SizeOnly(cfg: Config) {
    cfg.maxSize > 0 && cfg.maxAge <= 0 && cfg.rotateInterval <= 0
  }

  lemma {:induction false} SegmentsAreLarge(cfg: Config, segments: seq<Segment>)
    requires forall k | 0 <= k < |segments| :: |segments[k].bytes| >= cfg.maxSize
    ensures |SegmentBytes(segments)| >= |segments| * cfg.maxSize
  {
    if segments != [] {
      SegmentsAreLarge(cfg, segments[..|segments| - 1]);
    }
  }

  /** Under size rotation a segment has at least maxSize bytes. */
  lemma LargeBySize(cfg: Config, v: LogView, initial: string, start: int, files: seq<seq<Call>>, k: nat)
    requires SizeOnly(cfg) && Filed(cfg, v, initial, start, files) && CutsDue(cfg, initial, start, files) && k < |v.segments|
    ensures |v.segments[k].bytes| >= cfg.maxSize
  {
    assert files[k + 1] != [];
  }

  lemma AllLarge(cfg: Config, v: LogView, initial: string, start: int, files: seq<seq<Call>>)
    requires SizeOnly(cfg) && Filed(cfg, v, initial, start, files) && CutsDue(cfg, initial, start, files)
    ensures |SegmentBytes(v.segments)| >= |v.segments| * cfg.maxSize
  {
    forall k | 0 <= k < |v.segments| ensures |v.segments[k].bytes| >= cfg.maxSize {
      LargeBySize(cfg, v, initial, start, files, k);
    }
    hide Filed, CutsDue;
    SegmentsAreLarge(cfg, v.segments);
  }

  /** The number of rotations is at most (initial size + bytes written) / maxSize. */
  lemma RotationsBounded(cfg: Config, v: LogView, calls: seq<Call>)
    requires v.segments == [] && SizeOnly(cfg) && Exact(v)
    ensures |Run(cfg, v, calls).segments| <= (|v.current| + |CallBytes(calls)|) / cfg.maxSize
  {
    hide Filed, CutsDue, WritesWithin, Run, SegmentBytes, CallBytes;
    var r := Run(cfg, v, calls);
    var files := RunGroups(cfg, v, calls);
    AllLarge(cfg, r, v.current, v.lastRotate, files);
    RunConserves(cfg, v, calls);
    NoSegments(v);
    DivideBound(|r.segments|, cfg.maxSize, |v.current| + |CallBytes(calls)|);
  }

  lemma NoSegments(v: LogView)
    requires v.segments == []
    ensures AllBytes(v) == v.current
  {
    assert "" + v.current == v.current;
  }

  lemma {:induction false} MulMono(a: nat, b: nat, d: nat)
    requires a <= b
    ensures a * d <= b * d
  {
    if d > 0 { MulMono(a, b, d - 1); }
  }

  lemma DivideBound(n: nat, d: int, total: nat)
    requires d > 0 && n * d <= total
    ensures n <= total / d
  {
    var q := total / d;
    assert total < q * d + d;
    if q + 1 <= n {
      MulMono(q + 1, n, d);
    }
  }
}
