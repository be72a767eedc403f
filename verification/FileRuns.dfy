/**
 Runs of a file handler on a disk that never fails: two in which bytes are lost
 and no error is returned, and one in which the size falls behind. When that
 happens in general is in Retention (RenameLosesNothing) and in FileBase (Rotate,
 Took, WritePieces).
 */
module FileRuns {
  import opened Core
  import opened Policy
  import opened FileSystem
  import opened Rotation
  import opened Backups
  import opened Retention
  import opened FileHandler

  /** The log, and which backups are gone. */
  ghost predicate Stands(base: FileBase, v: LogView, gone: set<nat>)
    reads base, base.disk, base.sink, base.bufWriter
  {
    base.Healthy() && base.View() == v && base.gone == gone
  }

  /** A handler with nothing but its log file, on a disk that never fails. */
  method Opened(cfg: Config, content: string) returns (base: FileBase)
    ensures fresh(base) && fresh(base.disk) && fresh(base.sink) && fresh(base.bufWriter) && fresh(base.counters)
    ensures Stands(base, LogView([], content, 0, |content|), {}) && base.cfg == cfg && !base.closed && base.counters.stats == NO_STATS
    ensures base.disk.Reliable() && base.disk.clock == 0 && base.disk.names == map[Active := 0]
  {
    hide FileBase.Sane, FileBase.Pruned;
    var disk := new Disk(_ => Works, 0, content);
    base := new FileBase(cfg, disk, 0);
  }

  /** A write that nothing can go wrong with. */
  method Put(base: FileBase, line: string, now: int, ghost v: LogView, ghost gone: set<nat>) returns (err: Option<Error>)
    requires Stands(base, v, gone) && base.disk.Reliable() && base.cfg.maxBackups <= 0 && base.disk.clock <= now
    modifies base, base.counters, base.sink, base.bufWriter, base.disk
    ensures err.None? && base.disk.clock == now && base.counters.stats == AddProcessed(old(base.counters.stats), 1)
    ensures Stands(base, Appended(base.cfg, v, line, now),
                   if NeedRotate(base.cfg, v.size, v.lastRotate, now) then gone + WithName(v.segments, {Backup(base.cfg.nameAt(now))}) else gone)
  {
    hide FileBase.Sane, FileBase.Pruned, FileBase.Text, FileBase.Remains, FileBase.Salvaged;
    err := base.WriteLine(line, now);
  }

  lemma SecondSurvives(a: Segment, b: Segment)
    ensures SurvivingBytes([a, b], {0}) == b.bytes && SegmentBytes([a, b]) == a.bytes + b.bytes
  {
    assert [a, b][..1] == [a] && [a][..0] == [];
    assert SurvivingBytes([a], {0}) == SurvivingBytes([], {0}) + "" == "";
    assert SegmentBytes([a]) == SegmentBytes([]) + a.bytes == a.bytes;
    assert "" + b.bytes == b.bytes;
  }

  /** With a limit of one byte, anything written is cut off by the next write. */
  lemma OverOne(cfg: Config, v: LogView, line: string, now: int)
    requires cfg.maxSize == 1 && v.current != "" && Exact(v)
    ensures NeedRotate(cfg, v.size, v.lastRotate, now)
    ensures Appended(cfg, v, line, now) == LogView(v.segments + [Segment(cfg.nameAt(now), v.current)], line, now, |line|)
  {
    assert "" + line == line;
  }

  lemma SameName(a: Segment)
    ensures WithName([], {Backup(a.stamp)}) == {} && WithName([a], {Backup(a.stamp)}) == {0}
  {
    assert [a][0] == a;
  }

  lemma LastOneReads(base: FileBase, a: Segment, b: Segment, current: string, at: int)
    requires Stands(base, LogView([a, b], current, at, |current|), {0})
    ensures base.segments == [a, b] && base.gone == {0} && base.Healthy()
    ensures base.OnDisk() == b.bytes + current && AllBytes(base.View()) == a.bytes + b.bytes + current
  {
    base.DiskReads();
    SecondSurvives(a, b);
  }

  /**
   Two rotations by size at moments with the same timestamp, in one second or with the
   clock set back in between: the second backup takes the name of the first.
   */
  method SameNameLoses(nameAt: int -> string, later: nat) returns (base: FileBase, first: Option<Error>, second: Option<Error>)
    requires nameAt(later) == nameAt(0)
    ensures first.None? && second.None? && base.Healthy()
    ensures base.segments == [Segment(nameAt(0), "a"), Segment(nameAt(0), "b")] && base.gone == {0}
    ensures base.OnDisk() == "bc" && AllBytes(base.View()) == "abc"
    ensures base.counters.stats.processed == 2
  {
    hide Stands, FileBase.Healthy, FileBase.OnDisk, AllBytes, NeedRotate, Appended, WithName;
    base := Opened(Config(1, 0, 0, 0, nameAt), "a");
    var a, b := Segment(nameAt(0), "a"), Segment(nameAt(0), "b");
    SameName(a);
    ghost var none: set<nat> := {};
    assert [] + [a] == [a] && [a] + [b] == [a, b] && none + {} == none && none + {0} == {0};
    OverOne(base.cfg, LogView([], "a", 0, 1), "b", 0);
    first := Put(base, "b", 0, LogView([], "a", 0, 1), none);
    OverOne(base.cfg, LogView([a], "b", 0, 1), "c", later);
    second := Put(base, "c", later, LogView([a], "b", 0, 1), none);
    LastOneReads(base, a, b, "c", later);
  }

  /**
   A formatter that fails after a piece: its bytes are in the log, but not in the size,
   and the write that follows comes before the rotation that is due.
   */
  method FormatErrorDelaysRotation(nameAt: int -> string)
    returns (base: FileBase, first: Option<Error>, second: Option<Error>)
    ensures first == Some(FormatFailed) && second.None? && base.Healthy()
    ensures base.View() == LogView([], "abc", 0, 1) && base.cfg.maxSize == 2
  {
    base := Opened(Config(2, 0, 0, 0, nameAt), "");
    first := Misprint(base, "ab");
    second := Put(base, "c", 0, LogView([], "ab", 0, 0), {});
  }

  method Misprint(base: FileBase, piece: string) returns (err: Option<Error>)
    requires Stands(base, LogView([], "", 0, 0), {}) && base.disk.Reliable() && base.disk.clock == 0
    requires base.cfg.maxBackups <= 0 < base.cfg.maxSize && base.cfg.maxAge <= 0 && base.cfg.rotateInterval <= 0
    modifies base, base.counters, base.sink, base.bufWriter, base.disk
    ensures err == Some(FormatFailed) && base.disk.clock == 0 && Stands(base, LogView([], piece, 0, 0), {})
  {
    hide FileBase.Sane, FileBase.Pruned, FileBase.Text, FileBase.Remains, FileBase.Salvaged;
    err := base.WritePieces([piece], true, 0);
    assert [piece][1..] == [] && piece + "" == piece && "" + piece == piece;
    assert Flatten([piece]) == piece;
  }

  /** A write after Close is accepted and counted exactly when it fits into the 4096 bytes of the buffer; it reaches no file. */
  method LostAfterClose(nameAt: int -> string, line: string) returns (base: FileBase, closing: Option<Error>, err: Option<Error>)
    ensures closing.None? && base.closed && (err.None? <==> |line| <= 4096)
    ensures base.disk.names == map[Active := 0] && 0 in base.disk.data && base.disk.data[0] == ""
    ensures base.counters.stats.processed == if err.None? then 1 else 0
  {
    base := Opened(Config(0, 0, 0, 0, nameAt), "");
    hide FileBase.Pruned, FileBase.OnActive;
    closing := base.Close();
    err := base.WriteLine(line, 0);
  }
}
