/**
 The file handler (handler/filehandler/file.go, file_sync.go, and the batched
 write of handler/file.go): rotation, size accounting and retention over an
 abstract disk. What each call does to the log as a whole is Rotation.Appended,
 and what each failure leaves behind is one of the states below.
 */
module FileHandler {
  import opened Core
  import opened Policy
  import opened FileSystem
  import opened BufferedFile
  import opened Rotation
  import opened Backups
  import opened Retention

  datatype Error =
    | FlushFailed | SyncFailed | CloseFailed | RenameFailed | ReopenFailed | OpenFailed | WriteFailed | FormatFailed

  ghost function TreeOf(disk: Disk): Tree
    reads disk
  {
    Tree(disk.names, disk.data, disk.mtime)
  }

  class FileBase {
    const disk: Disk
    const sink: SizeTrackingWriter
    const bufWriter: BufWriter
    const cfg: Config
    var file: nat
    var currentSize: int
    var lastRotateTime: int
    const counters: Counters
    var closed: bool
    ghost var segments: seq<Segment>   // every backup made, in rotation order
    ghost var times: seq<int>          // their modification times
    ghost var gone: set<nat>           // those overwritten or removed since
    ghost const clean: bool            // nothing else was in the directory at the start

    ghost predicate OnActive(h: nat)
      reads disk
    {
      h in disk.handles && Active in disk.names && disk.handles[h] == disk.names[Active]
    }

    /** In every state: nothing but the log file can be written, and the backups are kept. */
    ghost predicate Sane()
      reads this, disk, sink, bufWriter
    {
      && bufWriter.disk == sink.disk == disk && bufWriter.sink == sink && bufWriter.Wired()
      && sink.handle < disk.next && file < disk.next
      && (sink.handle in disk.handles ==> OnActive(sink.handle))
      && Kept(TreeOf(disk), disk.clock, cfg.maxBackups, segments, times, gone)
    }

    /** What the log file holds. */
    ghost function FileText(): string
      requires disk.Valid() && Active in disk.names
      reads disk
    {
      disk.data[disk.names[Active]]
    }

    /** The log's current text: the file and the buffer. */
    ghost function Text(): string
      requires Sane() && Active in disk.names
      reads this, disk, sink, bufWriter
    {
      FileText() + bufWriter.buffered
    }

    /** What is written goes to the log file. */
    ghost predicate Live()
      reads this, disk, sink, bufWriter
    {
      Sane() && !bufWriter.failed && OnActive(sink.handle)
    }

    ghost predicate RotationDue()
      reads this, disk
    {
      NeedRotate(cfg, currentSize, lastRotateTime, disk.clock)
    }

    /** With distinct names and times, the newest backups are on disk, as many as may be kept. */
    ghost predicate Pruned()
      reads this, disk
    {
      clean && disk.Reliable() && DistinctNames(segments) && DistinctTimes(times) ==>
        Retained(disk.names.Keys, cfg.maxBackups, segments, gone)
    }

    /** The same between the rename and the pruning, when one backup more may be there. */
    ghost predicate PruneDue()
      reads this, disk
    {
      clean && disk.Reliable() && DistinctNames(segments) && DistinctTimes(times) ==>
        segments != [] && OneTooMany(disk.names.Keys, cfg.maxBackups, segments, gone)
    }

    /** In working order. */
    ghost predicate Healthy()
      reads this, disk, sink, bufWriter
    {
      && Sane() && !bufWriter.failed && file == sink.handle && OnActive(file)
      && Pruned()
    }

    /**
     After a failed rename: the log file is open again, but the buffered writer is
     still on the closed one. Its buffer is empty, and the rotation is still due.
     */
    ghost predicate Stalled()
      reads this, disk, sink, bufWriter
    {
      && Sane() && !bufWriter.failed && sink.handle !in disk.handles && bufWriter.buffered == "" && OnActive(file)
      && RotationDue() && !disk.Reliable()
    }

    /** Both on closed files: after Close, or after a rotation that lost the file. */
    ghost predicate Shut()
      reads this, disk, sink, bufWriter
    {
      Sane() && !bufWriter.failed && sink.handle !in disk.handles && file !in disk.handles
    }

    /** Shut by a rotation: everything was flushed, and the rotation is still due. */
    ghost predicate Dead()
      reads this, disk, sink, bufWriter
    {
      Shut() && bufWriter.buffered == "" && RotationDue()
    }

    /** The buffered writer has failed once, and fails for good. */
    ghost predicate Broken()
      reads this, disk, sink, bufWriter
    {
      Sane() && bufWriter.failed
    }

    ghost predicate Working()
      reads this, disk, sink, bufWriter
    {
      Healthy() || Stalled()
    }

    ghost predicate Valid()
      reads this, disk, sink, bufWriter
    {
      Working() || Shut() || Broken()
    }

    ghost function View(): LogView
      requires Working()
      reads this, disk, sink, bufWriter
    {
      LogView(segments, Text(), lastRotateTime, currentSize)
    }

    /** initFileBase: the log file is open under h. */
    constructor (cfg: Config, disk: Disk, h: nat)
      requires disk.Valid() && Active in disk.names && h in disk.handles && disk.handles[h] == disk.names[Active]
      requires disk.mtime[disk.names[Active]] <= disk.clock
      ensures Healthy() && this.cfg == cfg && this.disk == disk && counters.stats == NO_STATS && !closed
      ensures View() == LogView([], disk.data[disk.names[Active]], disk.clock, |disk.data[disk.names[Active]]|) && gone == {}
      ensures clean <==> disk.names.Keys == {Active}
      ensures fresh(sink) && fresh(bufWriter) && fresh(counters)
    {
      var s := new SizeTrackingWriter(disk, h);
      var w := new BufWriter(s);
      counters := new Counters();
      this.disk, sink, bufWriter := disk, s, w;
      this.cfg := cfg;
      file, currentSize, lastRotateTime := h, |disk.data[disk.handles[h]]|, disk.clock;
      closed := false;
      segments, times, gone, clean := [], [], {}, disk.names.Keys == {Active};
    }

    /** Remove the files in turn, and stop at the first error. */
    method RemoveFiles(list: seq<Name>) returns (ghost removed: set<Name>)
      requires disk.Valid()
      requires forall n | n in list :: n in disk.names
      requires forall i, j | 0 <= i < j < |list| :: list[i] != list[j]
      modifies disk
      ensures disk.Valid() && disk.clock == old(disk.clock) && disk.handles == old(disk.handles) && disk.next == old(disk.next)
      ensures disk.data == old(disk.data) && disk.mtime == old(disk.mtime)
      ensures removed <= old(disk.names.Keys) && disk.names == old(disk.names) - removed
      ensures removed <= set n | n in list
      ensures disk.Reliable() ==> removed == set n | n in list
    {
      removed := {};
      for i := 0 to |list|
        invariant disk.Valid() && disk.clock == old(disk.clock) && disk.handles == old(disk.handles) && disk.next == old(disk.next)
        invariant disk.data == old(disk.data) && disk.mtime == old(disk.mtime)
        invariant removed == (set n | n in list[..i]) && disk.names == old(disk.names) - removed
      {
        assert list[i] !in removed;
        var ok := disk.Remove(list[i]);
        if !ok {
          return;
        }
        assert list[..i + 1] == list[..i] + [list[i]];
        removed := removed + {list[i]};
      }
      assert list[..|list|] == list;
    }

    /** cleanupOldBackups, once the log file has been renamed away. */
    method CleanupOldBackups() returns (ghost removed: set<Name>)
      requires cfg.maxBackups > 0 && disk.Valid() && Active !in disk.names
      modifies disk
      ensures disk.Valid() && disk.clock == old(disk.clock) && disk.handles == old(disk.handles) && disk.next == old(disk.next)
      ensures disk.data == old(disk.data) && disk.mtime == old(disk.mtime)
      ensures removed <= old(disk.names.Keys) && disk.names == old(disk.names) - removed
      ensures forall n | StrictlyNewest(old(TreeOf(disk)), n) :: n !in removed
      ensures disk.Reliable() ==> PrunesOldest(old(TreeOf(disk)), cfg.maxBackups, removed)
    {
      hide PrunesOldest, Doomed, StrictlyNewest;
      ghost var t := TreeOf(disk);
      var matches := disk.Glob();
      DoomedAreOldest(TreeOf(disk), cfg.maxBackups, matches);
      var toRemove := Doomed(Tree(disk.names, disk.data, disk.mtime), cfg.maxBackups, matches);
      removed := RemoveFiles(toRemove);
      forall n | StrictlyNewest(t, n) ensures n !in removed {
        NewestSpared(t, cfg.maxBackups, (set m | m in toRemove), n);
      }
    }

    /** The directory, the open handles and the time are as given. */
    ghost predicate SamePlace(names: map<Name, nat>, handles: map<nat, nat>, clock: int)
      reads disk
    {
      disk.names == names && disk.handles == handles && disk.clock == clock
    }

    /** Flush, seen from the log: the text stays what it was, and the file only grows. */
    method FlushLog() returns (ok: bool)
      requires Valid()
      modifies sink`written, bufWriter, disk
      ensures Sane() && SamePlace(old(disk.names), old(disk.handles), old(disk.clock))
      ensures ok ==> !old(Broken()) && !bufWriter.failed && bufWriter.buffered == ""
      ensures !ok ==> Broken()
      ensures Active in disk.names ==> Text() == old(Text()) && old(FileText()) <= FileText()
      ensures !old(Live()) ==> disk.data == old(disk.data)
      ensures !old(Broken()) && old(bufWriter.buffered) == "" ==> ok && disk.data == old(disk.data) && disk.mtime == old(disk.mtime)
      ensures old(Healthy()) && disk.Reliable() ==> ok
    {
      hide Kept;
      ghost var t := TreeOf(disk);
      ok := bufWriter.Flush();
      KeptAppend(t, TreeOf(disk), disk.clock, cfg.maxBackups, segments, times, gone);
    }

    /** The first steps of a rotation: flush, sync and close; the first error ends it. */
    method Release() returns (err: Option<Error>)
      requires Valid()
      modifies sink`written, bufWriter, disk
      ensures Sane() && disk.names == old(disk.names) && disk.clock == old(disk.clock)
      ensures err.None? ==> old(Working()) && Shut() && bufWriter.buffered == "" && Active in disk.names && Text() == old(Text())
      ensures err.None? ==> Pruned() && FileText() == old(Text())
      ensures err.Some? ==> err.value.FlushFailed? || err.value.SyncFailed? || err.value.CloseFailed?
      ensures err == Some(FlushFailed) ==> Broken()
      ensures err == Some(FlushFailed) && Active in disk.names ==> Text() == old(Text()) && old(FileText()) <= FileText()
      ensures err == Some(SyncFailed) && old(Working()) ==> Working() && View() == old(View())
      ensures err == Some(SyncFailed) && !old(Working()) ==> Shut() && bufWriter.buffered == ""
      ensures err == Some(CloseFailed) ==> Shut() && bufWriter.buffered == ""
      ensures err == Some(CloseFailed) ==> old(Working()) && Active in disk.names && FileText() == old(Text())
      ensures !old(Working()) ==> disk.data == old(disk.data)
      ensures old(Healthy()) && disk.Reliable() ==> err.None?
      ensures old(Shut()) && old(bufWriter.buffered) == "" ==> err == Some(SyncFailed)
      ensures old(Broken()) ==> err == Some(FlushFailed)
      ensures err.Some? && old(Working()) ==> Salvaged(err.value)
      ensures err.Some? && old(RotationDue()) ==> RotationError(err.value)
    {
      hide Kept;
      var ok := FlushLog();
      if !ok {
        return Some(FlushFailed);
      }
      ok := disk.Sync(file);
      if !ok {
        return Some(SyncFailed);
      }
      ok := disk.Close(file);
      if !ok {
        return Some(CloseFailed);
      }
      err := None;
    }

    /** The rename to the backup name, and the new segment in the books: a backup of this name is overwritten. */
    method MoveAside() returns (ok: bool)
      requires Shut() && bufWriter.buffered == "" && Active in disk.names
      modifies disk, `segments, `times, `gone
      ensures Shut() && disk.handles == old(disk.handles) && disk.clock == old(disk.clock) && disk.mtime == old(disk.mtime)
      ensures !ok ==> disk.names == old(disk.names) && segments == old(segments) && gone == old(gone)
      ensures disk.data == old(disk.data)
      ensures ok ==> Active !in disk.names && segments == old(segments) + [Segment(cfg.nameAt(disk.clock), old(Text()))]
      ensures ok ==> gone == old(gone) + WithName(old(segments), {Backup(cfg.nameAt(disk.clock))}) && |old(segments)| !in gone
      ensures ok ==> disk.names == (old(disk.names) - {Active})[Backup(cfg.nameAt(disk.clock)) := old(disk.names)[Active]]
      ensures ok ==> disk.data[disk.names[Backup(cfg.nameAt(disk.clock))]] == old(Text())
      ensures ok && old(Pruned()) ==> PruneDue()
      ensures disk.Reliable() ==> ok
    {
      hide Kept;
      ghost var t := TreeOf(disk);
      ghost var s := Segment(cfg.nameAt(disk.clock), Text());
      ghost var time := disk.mtime[disk.names[Active]];
      assert Text() == t.data[t.names[Active]];
      ok := disk.Rename(Active, Backup(cfg.nameAt(disk.clock)));
      if ok {
        KeptRename(t, TreeOf(disk), disk.clock, cfg.maxBackups, segments, times, gone, s.stamp);
        NewSegmentStays(t, disk.clock, cfg.maxBackups, segments, times, gone, s.stamp);
        gone := gone + WithName(segments, {Backup(s.stamp)});
        segments, times := segments + [s], times + [time];
        if old(Pruned()) && clean && disk.Reliable() {
          RenameRetains(t.names.Keys, disk.names.Keys, cfg.maxBackups, old(segments), old(times), s, time, old(gone));
        }
      }
    }

    /** The pruning, if there is a limit; the strictly newest backup is never taken. */
    method Prune() returns (ghost removed: set<Name>)
      requires Shut() && bufWriter.buffered == "" && Active !in disk.names
      modifies disk, `gone
      ensures Shut() && disk.clock == old(disk.clock) && disk.data == old(disk.data) && disk.mtime == old(disk.mtime)
      ensures removed <= old(disk.names.Keys) && disk.names == old(disk.names) - removed
      ensures gone == old(gone) + WithName(segments, removed) && (cfg.maxBackups <= 0 ==> removed == {})
      ensures forall n | StrictlyNewest(old(TreeOf(disk)), n) :: n !in removed
      ensures old(PruneDue()) ==> Pruned()
    {
      hide Kept, StrictlyNewest;
      ghost var t := TreeOf(disk);
      if cfg.maxBackups > 0 {
        removed := CleanupOldBackups();
        KeptRemove(t, disk.clock, cfg.maxBackups, segments, times, gone, removed);
        gone := gone + WithName(segments, removed);
        if old(PruneDue()) && clean && disk.Reliable() && DistinctNames(segments) && DistinctTimes(times) {
          Retention.PruneRetains(t, disk.clock, cfg.maxBackups, segments, times, old(gone), removed);
        }
      } else {
        removed := {};
        NothingNamed(segments, gone);
        assert disk.names - removed == disk.names;
        if PruneDue() && clean && disk.Reliable() && DistinctNames(segments) && DistinctTimes(times) {
          NothingToPrune(disk.names.Keys, cfg.maxBackups, segments, gone);
        }
      }
    }

    /** The new log file, and everything reset onto it. */
    method StartFile() returns (ok: bool)
      requires Shut() && bufWriter.buffered == "" && Active !in disk.names
      modifies `file, `currentSize, `lastRotateTime, sink, bufWriter, disk
      ensures Sane() && disk.clock == old(disk.clock) && bufWriter.buffered == "" && !bufWriter.failed
      ensures ok ==> file == sink.handle && OnActive(file)
      ensures ok ==> Text() == "" && currentSize == 0 && lastRotateTime == disk.clock
      ensures !ok ==> Shut() && currentSize == old(currentSize) && lastRotateTime == old(lastRotateTime)
      ensures !ok ==> disk.names == old(disk.names) && disk.data == old(disk.data)
      ensures ok && old(Pruned()) ==> Pruned()
      ensures disk.Reliable() ==> ok
    {
      hide Retained, Kept, DistinctNames, DistinctTimes;
      ghost var t := TreeOf(disk);
      var h: nat;
      h, ok := disk.Open(Active);
      if ok {
        WithActive(t.names.Keys, disk.names.Keys, cfg.maxBackups, segments, gone);
        KeptCreate(t, TreeOf(disk), disk.clock, cfg.maxBackups, segments, times, gone, disk.names[Active]);
        file := h;
        sink.Reset(h);
        bufWriter.Reset();
        currentSize, lastRotateTime := 0, disk.clock;
      }
    }

    /** After a failed rename: open the log file again, and stay on the old writer. */
    method Reopen() returns (ok: bool)
      requires Shut() && bufWriter.buffered == "" && Active in disk.names
      modifies `file, disk
      ensures Sane() && disk.clock == old(disk.clock) && disk.names == old(disk.names) && disk.data == old(disk.data)
      ensures sink.handle !in disk.handles
      ensures if ok then OnActive(file) else Shut()
      ensures disk.Reliable() ==> ok
    {
      hide Kept;
      var h: nat;
      h, ok := disk.Open(Active);
      if ok {
        file := h;
      }
    }

    /** What each error of a rotation leaves behind. */
    ghost predicate RotationError(e: Error)
      reads this, disk, sink, bufWriter
    {
      match e
      case FlushFailed => Broken()
      case SyncFailed => Working() || Dead()
      case RenameFailed => Stalled()
      case CloseFailed | ReopenFailed | OpenFailed => Dead()
      case WriteFailed | FormatFailed => false
    }

    /**
     Where the log's text is after a rotation that began in working order and failed:
     in the file and the buffer, in the log file, or in the backup just made.
     */
    twostate predicate Salvaged(new e: Error)
      requires old(Working())
      reads this, disk, sink, bufWriter
    {
      var stamp := cfg.nameAt(disk.clock);
      match e
      case FlushFailed =>
        Sane() && Active in disk.names && Text() == old(Text()) && old(FileText()) <= FileText() && segments == old(segments)
      case SyncFailed => Working() && View() == old(View())
      case RenameFailed => Working() && View() == old(View())
      case CloseFailed => disk.Valid() && Active in disk.names && FileText() == old(Text()) && segments == old(segments)
      case ReopenFailed => disk.Valid() && Active in disk.names && FileText() == old(Text()) && segments == old(segments)
      case OpenFailed =>
        && disk.Valid() && segments == old(segments) + [Segment(stamp, old(Text()))]
        && (Backup(stamp) in disk.names ==> disk.data[disk.names[Backup(stamp)]] == old(Text()))
        && (cfg.maxBackups <= 0 ==> Backup(stamp) in disk.names && gone == old(gone) + WithName(old(segments), {Backup(stamp)}))
      case WriteFailed | FormatFailed => false
    }

    /** But for the backup of this name, the log file is the newest of all. */
    ghost predicate ActiveIsNewest()
      reads disk
    {
      && disk.Valid() && Active in disk.names
      && forall n | n in disk.names && n != Active && n != Backup(cfg.nameAt(disk.clock)) ::
           disk.mtime[disk.names[n]] < disk.mtime[disk.names[Active]]
    }

    /** Everything that can be read back: the backups that are left, the log file and the buffer. */
    ghost function OnDisk(): string
      requires Sane() && Active in disk.names
      reads this, disk, sink, bufWriter
    {
      ReadBackups(TreeOf(disk), segments, gone) + Text()
    }

    lemma DiskReads()
      requires Sane() && Active in disk.names
      ensures OnDisk() == SurvivingBytes(segments, gone) + Text()
    {
      ReadsSurvivors(TreeOf(disk), segments, times, gone, |segments|);
      assert segments[..|segments|] == segments;
    }

    lemma GoneBefore()
      requires Sane()
      ensures |segments| !in gone
    {
    }

    /** What the books say once the log file has become a backup, some of them pruned. */
    ghost predicate Booked(before: seq<Segment>, lost: set<nat>, text: string, removed: set<Name>)
      reads this, disk
    {
      var name := Backup(cfg.nameAt(disk.clock));
      && segments == before + [Segment(cfg.nameAt(disk.clock), text)]
      && gone == lost + WithName(before, {name}) + WithName(segments, removed)
      && (cfg.maxBackups <= 0 ==> removed == {} && gone == lost + WithName(before, {name}))
    }

    /** The new backup is there with the text, unless it was pruned. */
    ghost predicate NewBackup(text: string, removed: set<Name>)
      reads disk
    {
      var name := Backup(cfg.nameAt(disk.clock));
      && disk.Valid()
      && (name in disk.names ==> disk.data[disk.names[name]] == text)
      && (name !in removed ==> name in disk.names)
    }

    /** After the rename: the pruning, and the new log file. */
    method Replace(ghost before: seq<Segment>, ghost lost: set<nat>, ghost text: string) returns (ok: bool, ghost removed: set<Name>)
      requires Shut() && bufWriter.buffered == "" && Active !in disk.names && PruneDue()
      requires segments == before + [Segment(cfg.nameAt(disk.clock), text)] && gone == lost + WithName(before, {Backup(cfg.nameAt(disk.clock))})
      requires Backup(cfg.nameAt(disk.clock)) in disk.names && disk.data[disk.names[Backup(cfg.nameAt(disk.clock))]] == text
      modifies `file, `currentSize, `lastRotateTime, `gone, sink, bufWriter, disk
      ensures Sane() && disk.clock == old(disk.clock) && Booked(before, lost, text, removed)
      ensures ok ==> Healthy() && View() == LogView(segments, "", disk.clock, 0)
      ensures !ok ==> Shut() && bufWriter.buffered == "" && currentSize == old(currentSize) && lastRotateTime == old(lastRotateTime)
      ensures !ok ==> NewBackup(text, removed)
      ensures StrictlyNewest(old(TreeOf(disk)), Backup(cfg.nameAt(disk.clock))) ==> Backup(cfg.nameAt(disk.clock)) !in removed
      ensures disk.Reliable() ==> ok
    {
      hide Kept, WithName, PruneDue, Pruned, StrictlyNewest;
      removed := Prune();
      NothingNamed(segments, lost + WithName(before, {Backup(cfg.nameAt(disk.clock))}));
      ok := StartFile();
    }

    /** The second half of a rotation, the old file being closed: rename, prune, start a new file. */
    method Renew() returns (err: Option<Error>, ghost removed: set<Name>)
      requires Shut() && bufWriter.buffered == "" && Active in disk.names && Pruned() && RotationDue()
      modifies `file, `currentSize, `lastRotateTime, `segments, `times, `gone, sink, bufWriter, disk
      ensures Valid() && disk.clock == old(disk.clock)
      ensures err.None? ==> Healthy() && View() == LogView(segments, "", disk.clock, 0)
      ensures err.Some? ==> currentSize == old(currentSize) && lastRotateTime == old(lastRotateTime)
      ensures err.Some? ==> err.value.RenameFailed? || err.value.ReopenFailed? || err.value.OpenFailed?
      ensures err == Some(RenameFailed) ==> Stalled() && Text() == old(Text())
      ensures err.Some? && err != Some(RenameFailed) ==> Dead()
      ensures err == Some(ReopenFailed) ==> Active in disk.names && FileText() == old(FileText())
      ensures err == Some(RenameFailed) || err == Some(ReopenFailed) ==> segments == old(segments) && gone == old(gone)
      ensures err.None? || err == Some(OpenFailed) ==> Booked(old(segments), old(gone), old(Text()), removed)
      ensures err == Some(OpenFailed) ==> NewBackup(old(Text()), removed)
      ensures old(ActiveIsNewest()) ==> Backup(cfg.nameAt(disk.clock)) !in removed
      ensures disk.Reliable() ==> err.None?
    {
      hide Kept, WithName, Pruned, PruneDue;
      ghost var text := Text();
      removed := {};
      var ok := MoveAside();
      if !ok {
        ok := Reopen();
        return Some(if ok then RenameFailed else ReopenFailed), {};
      }
      ok, removed := Replace(old(segments), old(gone), text);
      err := if ok then None else Some(OpenFailed);
    }

    /** All the steps of a rotation, in order; the first error ends it, but for that of the rename. */
    method ReleaseAndRenew() returns (err: Option<Error>, ghost removed: set<Name>)
      requires Valid() && RotationDue()
      modifies `file, `currentSize, `lastRotateTime, `segments, `times, `gone, sink, bufWriter, disk
      ensures Valid() && disk.clock == old(disk.clock)
      ensures err.None? ==> old(Working()) && Healthy() && View() == Rotated(cfg, old(View()), disk.clock)
      ensures err.None? ==> Booked(old(segments), old(gone), old(Text()), removed)
      ensures err.Some? ==> currentSize == old(currentSize) && lastRotateTime == old(lastRotateTime)
      ensures err.Some? ==> RotationError(err.value)
      ensures err.Some? && old(Working()) ==> Salvaged(err.value)
      ensures err.Some? && Working() ==> old(Working())
      ensures !old(Working()) ==> disk.data == old(disk.data) && disk.names == old(disk.names)
      ensures old(Healthy()) && disk.Reliable() ==> err.None?
      ensures old(Dead()) ==> err == Some(SyncFailed) && Dead()
      ensures old(Broken()) ==> err == Some(FlushFailed)
    {
      hide Kept, WithName, Pruned, ActiveIsNewest, NeedRotate;
      removed := {};
      err := Release();
      if err.None? {
        err, removed := Renew();
      }
    }

    /**
     rotate. With no error the text has become a segment and the log starts afresh;
     after an error the text is where Salvaged says. Segments go when their name is
     taken by the new backup, or when they are pruned.
     */
    method Rotate() returns (err: Option<Error>, ghost removed: set<Name>)
      requires Valid() && RotationDue()
      modifies `file, `currentSize, `lastRotateTime, `segments, `times, `gone, sink, bufWriter, disk
      ensures Valid() && disk.clock == old(disk.clock)
      ensures err.None? ==> old(Working()) && Healthy() && View() == Rotated(cfg, old(View()), disk.clock)
      ensures err.None? ==> Booked(old(segments), old(gone), old(Text()), removed)
      ensures err.None? && cfg.maxBackups <= 0 ==>
                (OnDisk() == old(OnDisk()) <==> NameIsFresh(old(segments), old(gone), cfg.nameAt(disk.clock)))
      ensures err.Some? ==> currentSize == old(currentSize) && lastRotateTime == old(lastRotateTime)
      ensures err.Some? ==> RotationError(err.value)
      ensures err.Some? && old(Working()) ==> Salvaged(err.value)
      ensures err.Some? && Working() ==> old(Working())
      ensures !old(Working()) ==> disk.data == old(disk.data) && disk.names == old(disk.names)
      ensures old(Healthy()) && disk.Reliable() ==> err.None?
      ensures old(Dead()) ==> err == Some(SyncFailed) && Dead()
      ensures old(Broken()) ==> err == Some(FlushFailed)
    {
      hide Kept, WithName, ReadBackups, SurvivingBytes, NameIsFresh, Pruned, RotationDue;
      if Active in disk.names {
        DiskReads();
      }
      ghost var text := if Active in disk.names then Text() else "";
      GoneBefore();
      err, removed := ReleaseAndRenew();
      if err.None? {
        DiskReads();
        FreshIffKept(old(segments), old(gone), cfg.nameAt(disk.clock), text);
      }
    }

    /** The buffered write, seen from the log: the text grows by what was taken of p, and so do the counters. */
    method AppendText(p: string) returns (n: nat, ok: bool)
      requires Sane()
      modifies sink`written, bufWriter, disk
      ensures Sane() && SamePlace(old(disk.names), old(disk.handles), old(disk.clock))
      ensures n <= |p| && (ok ==> n == |p|)
      ensures old(Live()) ==> Active in disk.names && Text() == old(Text()) + p[..n] && old(FileText()) <= FileText()
      ensures old(Live()) ==> sink.written - old(sink.written) + |bufWriter.buffered| - |old(bufWriter.buffered)| == n
      ensures !old(Live()) ==> disk.data == old(disk.data)
      ensures sink.handle !in old(disk.handles) ==>
                && (ok <==> !old(bufWriter.failed) && |old(bufWriter.buffered)| + |p| <= CAPACITY)
                && (ok ==> bufWriter.buffered == old(bufWriter.buffered) + p)
      ensures (!ok <==> bufWriter.failed) && (old(bufWriter.failed) ==> !ok)
      ensures old(Live()) && disk.Reliable() ==> ok
    {
      hide Kept;
      ghost var t := TreeOf(disk);
      n, ok := bufWriter.Write(p);
      KeptAppend(t, TreeOf(disk), disk.clock, cfg.maxBackups, segments, times, gone);
    }

    method Tick(now: int)
      requires Valid() && disk.clock <= now
      modifies disk`clock
      ensures Valid() && disk.clock == now
      ensures (old(Healthy()) <==> Healthy()) && (old(Stalled()) <==> Stalled()) && (old(Broken()) <==> Broken())
      ensures (old(Shut()) <==> Shut()) && (old(Dead()) ==> Dead())
      ensures Working() ==> View() == old(View())
    {
      hide Kept;
      KeptLater(TreeOf(disk), disk.clock, now, cfg.maxBackups, segments, times, gone);
      disk.clock := now;
    }

    ghost predicate DueAt(now: int)
      reads this
    {
      NeedRotate(cfg, currentSize, lastRotateTime, now)
    }

    /** rotateIfNeeded, at this moment. */
    method RotateIfNeeded(now: int) returns (err: Option<Error>)
      requires Valid() && disk.clock <= now
      modifies `file, `currentSize, `lastRotateTime, `segments, `times, `gone, sink, bufWriter, disk
      ensures Valid() && disk.clock == now
      ensures err.None? && old(Working()) ==> Healthy() && View() == MaybeRotated(cfg, old(View()), now)
      ensures err.None? && cfg.maxBackups <= 0 ==>
                gone == if old(DueAt(now)) then old(gone) + WithName(old(segments), {Backup(cfg.nameAt(now))}) else old(gone)
      ensures !old(DueAt(now)) ==> err.None? && disk.data == old(disk.data) && disk.names == old(disk.names)
      ensures !old(DueAt(now)) ==> bufWriter.buffered == old(bufWriter.buffered) && (Shut() <==> old(Shut())) && (Broken() <==> old(Broken()))
      ensures err.Some? ==> RotationError(err.value)
      ensures err.Some? && old(Working()) ==> Salvaged(err.value)
      ensures !old(Working()) ==> !Working() && disk.data == old(disk.data) && disk.names == old(disk.names)
      ensures !old(Working()) && old(DueAt(now)) ==> err.Some?
      ensures old(Dead()) ==> err == Some(SyncFailed) && Dead()
      ensures old(Broken()) ==> Broken()
      ensures old(Healthy()) && disk.Reliable() ==> err.None?
    {
      hide Sane, Pruned;
      Tick(now);
      err := None;
      if NeedRotate(cfg, currentSize, lastRotateTime, now) {
        ghost var removed;
        err, removed := Rotate();
      }
    }

    /**
     What a buffered write has done to the log: it has grown by the bytes, or, after
     an error, by a part of them; `sized` of them were added to the size. On closed
     files nothing is written, and bytes are accepted exactly as far as the buffer has
     room.
     */
    twostate predicate Added(ok: bool, bytes: string, sized: nat)
      reads this, disk, sink, bufWriter
    {
      && Valid() && !Stalled() && disk.clock == old(disk.clock) && disk.names == old(disk.names)
      && segments == old(segments) && gone == old(gone) && lastRotateTime == old(lastRotateTime)
      && (old(Healthy()) && ok ==> Healthy() && Text() == old(Text()) + bytes && currentSize == old(currentSize) + sized)
      && (old(Healthy()) && !ok ==> old(Text()) <= Text() <= old(Text()) + bytes && old(FileText()) <= FileText())
      && (old(Shut()) ==> disk.data == old(disk.data) && (ok <==> |old(bufWriter.buffered)| + |bytes| <= CAPACITY) && (ok ==> Shut()))
      && (old(Broken()) ==> Broken() && disk.data == old(disk.data) && (ok ==> bytes == ""))
      && (!ok ==> Broken())
    }

    /** What is left of the log when a write that began in working order has failed. */
    twostate predicate Remains(new e: Error, bytes: string, now: int)
      requires old(Working())
      reads this, disk, sink, bufWriter
    {
      if e.WriteFailed? then
        var r := MaybeRotated(cfg, old(View()), now);
        && Broken() && Active in disk.names && segments == r.segments
        && r.current <= Text() <= r.current + bytes
        && (!old(DueAt(now)) ==> old(FileText()) <= FileText())
      else
        Salvaged(e)
    }

    /**
     What a write has done, when it returned err. With no error the log has taken
     `bytes`, after a rotation if one was due; with an error the text is where Remains
     says. On closed files nothing is written, and exactly those bytes are accepted
     all the same, and lost, that come when no rotation is due and fit the buffer.
     */
    twostate predicate Took(new err: Option<Error>, bytes: string, now: int)
      reads this, disk, sink, bufWriter
    {
      && Valid() && disk.clock == now
      && (old(Working()) && err.None? ==> Healthy() && View() == Appended(cfg, old(View()), bytes, now))
      && (old(Working()) && (err.None? || err == Some(WriteFailed)) && cfg.maxBackups <= 0 ==>
            gone == if old(DueAt(now)) then old(gone) + WithName(old(segments), {Backup(cfg.nameAt(now))}) else old(gone))
      && (old(Working()) && err.Some? ==> Remains(err.value, bytes, now))
      && (old(Shut()) ==>
            && disk.data == old(disk.data) && disk.names == old(disk.names) && (err.None? ==> Shut())
            && (err.None? <==> !old(DueAt(now)) && |old(bufWriter.buffered)| + |bytes| <= CAPACITY))
      && (old(Broken()) ==> Broken() && disk.data == old(disk.data) && (err.None? ==> bytes == ""))
      && (err.Some? ==> if Working() then old(Working()) && View() == old(View()) else Dead() || Broken())
      && (old(Dead()) ==> Dead() && err.Some?)
    }

    /**
     What a formatter's own error leaves, after it wrote `bytes`: the log has them,
     after a rotation if one was due, but its size does not count them.
     */
    twostate predicate Misprints(bytes: string, now: int)
      reads this, disk, sink, bufWriter
    {
      && Valid() && disk.clock == now && !Stalled()
      && (old(Working()) ==> Healthy() && View() == Misprinted(cfg, old(View()), bytes, now))
      && (old(Working()) && cfg.maxBackups <= 0 ==>
            gone == if old(DueAt(now)) then old(gone) + WithName(old(segments), {Backup(cfg.nameAt(now))}) else old(gone))
      && (old(Shut()) ==>
            && Shut() && disk.data == old(disk.data) && disk.names == old(disk.names)
            && !old(DueAt(now)) && |old(bufWriter.buffered)| + |bytes| <= CAPACITY)
      && (old(Broken()) ==> Broken() && disk.data == old(disk.data) && bytes == "")
      && !old(Dead())
    }

    /** The buffered write of a formatted line, and the size counter. */
    method AppendLine(p: string) returns (ok: bool)
      requires Valid() && !Stalled()
      modifies `currentSize, sink`written, bufWriter, disk
      ensures Added(ok, p, |p|) && (old(Broken()) ==> !ok)
      ensures old(Healthy()) && disk.Reliable() ==> ok
    {
      hide Kept;
      var n: nat;
      n, ok := AppendText(p);
      TakenPart(if old(Healthy()) then old(Text()) else "", p, n);
      if ok {
        currentSize := currentSize + n;
      }
    }

    static lemma TakenPart(text: string, p: string, n: nat)
      requires n <= |p|
      ensures text <= text + p[..n] <= text + p && p[..|p|] == p
    {
      assert text + p == text + p[..n] + p[n..];
    }

    /**
     FormatTo of a WriterFormatter: it writes its pieces in turn and stops at the
     first error; it may also return an error of its own after them (`fails`). With no
     error the size is read off the two writers: what went through to the file, and
     what the buffer gained. After an error the size is not touched.
     */
    method AppendPieces(pieces: seq<string>, fails: bool) returns (err: Option<Error>)
      requires Valid() && !Stalled()
      modifies `currentSize, sink`written, bufWriter, disk
      ensures Added(err != Some(WriteFailed), Flatten(pieces), if err.None? then |Flatten(pieces)| else 0)
      ensures err.Some? ==> err.value.WriteFailed? || (err.value.FormatFailed? && fails)
      ensures fails ==> err.Some?
      ensures old(Healthy()) && disk.Reliable() ==> err == if fails then Some(FormatFailed) else None
    {
      hide Kept;
      var prevFlushed := sink.written;
      var prevBuffered := |bufWriter.buffered|;
      var ok := FormatTo(pieces);
      err := if !ok then Some(WriteFailed) else if fails then Some(FormatFailed) else None;
      if err.None? {
        var written := (sink.written - prevFlushed) + (|bufWriter.buffered| - prevBuffered);
        currentSize := currentSize + written;
      }
    }

    /** Where FormatTo stands after writing `bytes`: `text`, `file`, `before` and `held` are as it began. */
    ghost predicate Written(bytes: string, ok: bool, live: bool, text: string, file: string, before: int, held: nat)
      reads this, disk, sink, bufWriter
    {
      && Sane()
      && (live ==> Active in disk.names && file <= FileText())
      && (live && ok ==> Live() && Text() == text + bytes && sink.written + |bufWriter.buffered| - before == |bytes|)
      && (live && !ok ==> text <= Text() <= text + bytes)
      && (!live ==> !Live())
      && (!live && sink.handle !in disk.handles ==>
            if ok then |bufWriter.buffered| == held + |bytes| else bufWriter.failed)
    }

    method WritePiece(pieces: seq<string>, i: nat, ghost live: bool, ghost text: string, ghost file: string, ghost before: int, ghost held: nat)
      returns (ok: bool)
      requires i < |pieces| && Written(Flatten(pieces[..i]), true, live, text, file, before, held)
      modifies sink`written, bufWriter, disk
      ensures Written(Flatten(pieces[..i + 1]), ok, live, text, file, before, held)
      ensures SamePlace(old(disk.names), old(disk.handles), old(disk.clock))
      ensures !live ==> disk.data == old(disk.data)
      ensures (!ok <==> bufWriter.failed) && (old(bufWriter.failed) ==> !ok)
      ensures !live && sink.handle !in disk.handles && !old(bufWriter.failed) ==> (ok <==> held + |Flatten(pieces[..i + 1])| <= CAPACITY)
      ensures live && disk.Reliable() ==> ok
    {
      hide Kept;
      FlattenTake(pieces, i);
      var n: nat;
      n, ok := AppendText(pieces[i]);
      TakenPart(text + Flatten(pieces[..i]), pieces[i], n);
      assert text + Flatten(pieces[..i]) + pieces[i] == text + (Flatten(pieces[..i]) + pieces[i]);
      TakenPart(text, Flatten(pieces[..i]), |Flatten(pieces[..i])|);
    }

    method FormatTo(pieces: seq<string>) returns (ok: bool)
      requires Sane()
      modifies sink`written, bufWriter, disk
      ensures Sane() && SamePlace(old(disk.names), old(disk.handles), old(disk.clock))
      ensures old(Live()) ==> Active in disk.names && old(FileText()) <= FileText()
      ensures old(Live()) && ok ==> Text() == old(Text()) + Flatten(pieces)
      ensures old(Live()) && !ok ==> old(Text()) <= Text() <= old(Text()) + Flatten(pieces)
      ensures old(Live()) && ok ==>
                sink.written - old(sink.written) + |bufWriter.buffered| - |old(bufWriter.buffered)| == |Flatten(pieces)|
      ensures !old(Live()) ==> disk.data == old(disk.data)
      ensures sink.handle !in old(disk.handles) && !old(bufWriter.failed) ==>
                (ok <==> |old(bufWriter.buffered)| + |Flatten(pieces)| <= CAPACITY)
      ensures old(bufWriter.failed) ==> bufWriter.failed && (ok ==> pieces == [])
      ensures !old(bufWriter.failed) ==> (!ok <==> bufWriter.failed)
      ensures old(Live()) && disk.Reliable() ==> ok
    {
      hide Kept;
      ok := true;
      var i := 0;
      ghost var live := Live();
      ghost var text, file := if live then Text() else "", if live then FileText() else "";
      ghost var before, held := sink.written + |bufWriter.buffered|, |bufWriter.buffered|;
      ghost var closed := sink.handle !in disk.handles && !bufWriter.failed;
      assert text + Flatten(pieces[..0]) == text && Flatten(pieces[..0]) == "";
      assert Written("", true, live, text, file, before, held);
      assert |bufWriter.buffered| <= CAPACITY;
      hide Sane;
      while i < |pieces| && ok
        invariant i <= |pieces| && Written(Flatten(pieces[..i]), ok, live, text, file, before, held)
        invariant SamePlace(old(disk.names), old(disk.handles), old(disk.clock))
        invariant !live ==> disk.data == old(disk.data)
        invariant closed ==> (ok <==> held + |Flatten(pieces[..i])| <= CAPACITY)
        invariant old(bufWriter.failed) ==> bufWriter.failed && (ok ==> i == 0)
        invariant !old(bufWriter.failed) ==> (!ok <==> bufWriter.failed)
        invariant live && disk.Reliable() ==> ok
        decreases |pieces| - i
      {
        ok := WritePiece(pieces, i, live, text, file, before, held);
        i := i + 1;
      }
      assert pieces[..|pieces|] == pieces;
      FlattenFront(pieces, i);
    }

    static lemma FlattenTake(pieces: seq<string>, i: nat)
      requires i < |pieces|
      ensures Flatten(pieces[..i + 1]) == Flatten(pieces[..i]) + pieces[i]
    {
      FlattenSnoc(pieces[..i], pieces[i]);
      assert pieces[..i + 1] == pieces[..i] + [pieces[i]];
    }

    static lemma FlattenFront(pieces: seq<string>, i: nat)
      requires i <= |pieces|
      ensures Flatten(pieces[..i]) <= Flatten(pieces)
    {
      FlattenAppend(pieces[..i], pieces[i..]);
      assert pieces[..i] + pieces[i..] == pieces;
    }

    /** The buffered write and the counters, once the rotation check has passed. */
    method CommitLine(line: string) returns (err: Option<Error>)
      requires Valid() && !Stalled()
      modifies `currentSize, counters, sink`written, bufWriter, disk
      ensures Added(err.None?, line, |line|) && (old(Broken()) ==> err.Some?) && (err.Some? ==> err.value.WriteFailed?)
      ensures counters.stats == if err.None? then AddProcessed(old(counters.stats), 1) else old(counters.stats)
      ensures old(Healthy()) && disk.Reliable() ==> err.None?
    {
      hide Kept;
      var ok := AppendLine(line);
      if ok {
        counters.CountProcessed(1);
      }
      err := if ok then None else Some(WriteFailed);
    }

    /** The rotation check, one buffered write, and the counters: the path of a BufferFormatter. */
    method WriteLine(line: string, now: int) returns (err: Option<Error>)
      requires Valid() && disk.clock <= now
      modifies `file, `currentSize, `lastRotateTime, `segments, `times, `gone, counters, sink, bufWriter, disk
      ensures Took(err, line, now) && (old(Broken()) ==> err.Some?)
      ensures counters.stats == if err.None? then AddProcessed(old(counters.stats), 1) else old(counters.stats)
      ensures old(Healthy()) && disk.Reliable() ==> err.None?
    {
      hide Sane, Pruned;
      err := RotateIfNeeded(now);
      if err.None? {
        err := CommitLine(line);
      }
    }

    /**
     The path of a WriterFormatter. A size that was right stays right if and only if
     the call succeeds, or the formatter fails on its own before it wrote anything.
     */
    method WritePieces(pieces: seq<string>, fails: bool, now: int) returns (err: Option<Error>)
      requires Valid() && disk.clock <= now
      modifies `file, `currentSize, `lastRotateTime, `segments, `times, `gone, counters, sink, bufWriter, disk
      ensures err != Some(FormatFailed) ==> Took(err, Flatten(pieces), now)
      ensures err == Some(FormatFailed) ==> fails && Misprints(Flatten(pieces), now)
      ensures fails ==> err.Some?
      ensures old(Working()) && Exact(old(View())) && Healthy() && (err.None? || err == Some(FormatFailed)) ==>
                (Exact(View()) <==> err.None? || Flatten(pieces) == "")
      ensures counters.stats == if err.None? then AddProcessed(old(counters.stats), 1) else old(counters.stats)
      ensures old(Healthy()) && disk.Reliable() ==> err == if fails then Some(FormatFailed) else None
    {
      hide Sane, Pruned;
      if Working() {
        SizesStayExact(View(), Flatten(pieces), now);
      }
      err := RotateIfNeeded(now);
      if err.None? {
        err := AppendPieces(pieces, fails);
        if err.None? {
          counters.CountProcessed(1);
        }
      }
    }

    lemma SizesStayExact(v: LogView, bytes: string, now: int)
      ensures Exact(v) ==> Exact(Appended(cfg, v, bytes, now)) && (Exact(Misprinted(cfg, v, bytes, now)) <==> bytes == "")
    {
      if Exact(v) {
        SizeStaysExact(cfg, v, bytes, now);
      }
    }

    /** The path of any other formatter: the entry is formatted first, and that may fail. */
    method WriteFormatted(data: Option<string>, now: int) returns (err: Option<Error>)
      requires Valid() && disk.clock <= now
      modifies `file, `currentSize, `lastRotateTime, `segments, `times, `gone, counters, sink, bufWriter, disk
      ensures data.None? ==> err == Some(FormatFailed) && (old(Working()) ==> Working() && View() == old(View()))
      ensures data.Some? ==> Took(err, data.value, now)
      ensures counters.stats == if err.None? then AddProcessed(old(counters.stats), 1) else old(counters.stats)
      ensures old(Healthy()) && disk.Reliable() && data.Some? ==> err.None?
    {
      hide Kept;
      match data
      case None => err := Some(FormatFailed);
      case Some(line) => err := WriteLine(line, now);
    }

    /**
     The batch of handler/file.go: the entries are counted before the write, and one
     rotation check and one buffered write take the whole batch.
     */
    method WriteBatch(batch: string, batchCount: nat, now: int) returns (err: Option<Error>)
      requires Valid() && disk.clock <= now
      modifies `file, `currentSize, `lastRotateTime, `segments, `times, `gone, counters, sink, bufWriter, disk
      ensures Took(err, batch, now) && (old(Broken()) ==> err.Some?)
      ensures counters.stats == AddProcessed(old(counters.stats), batchCount)
      ensures old(Healthy()) && disk.Reliable() ==> err.None?
    {
      hide Kept, Sane, Healthy, Stalled, Shut, Broken, Dead;
      counters.CountProcessed(batchCount);
      err := WriteUncounted(batch, now);
    }

    method WriteUncounted(bytes: string, now: int) returns (err: Option<Error>)
      requires Valid() && disk.clock <= now
      modifies `file, `currentSize, `lastRotateTime, `segments, `times, `gone, sink, bufWriter, disk
      ensures Took(err, bytes, now) && (old(Broken()) ==> err.Some?)
      ensures old(Healthy()) && disk.Reliable() ==> err.None?
    {
      hide Sane, Pruned;
      err := RotateIfNeeded(now);
      if err.None? {
        var ok := AppendLine(bytes);
        if !ok {
          err := Some(WriteFailed);
        }
      }
    }

    /**
     process: take the queued lines one after the other until a write fails. What
     the log has become is the run of the lines written, and of no other.
     */
    method Process(queue: seq<Call>) returns (done: nat, err: Option<Error>)
      requires Working()
      requires forall i | 0 <= i < |queue| :: disk.clock <= queue[i].now
      requires forall i, j | 0 <= i < j < |queue| :: queue[i].now <= queue[j].now
      modifies `file, `currentSize, `lastRotateTime, `segments, `times, `gone, counters, sink, bufWriter, disk
      ensures Valid() && done <= |queue|
      ensures err.None? ==> done == |queue| && (Healthy() || queue == [])
      ensures Working() ==> View() == Run(cfg, old(View()), queue[..done])
      ensures err.None? ==> Working() && (old(Healthy()) ==> Healthy())
      ensures err.None? && cfg.maxBackups <= 0 && DistinctNames(segments) ==> OnDisk() == old(AllBytes(View())) + CallBytes(queue)
      ensures counters.stats == AddProcessed(old(counters.stats), done)
      ensures old(Healthy()) && disk.Reliable() ==> err.None?
    {
      hide Kept, Sane, Shut, Broken, Text, Salvaged, Remains;
      done, err := 0, None;
      ghost var v := View();
      while done < |queue| && err.None?
        invariant done <= |queue| && Valid()
        invariant done < |queue| ==> disk.clock <= queue[done].now
        invariant err.None? ==> Working() && (Healthy() || (done == 0 && !old(Healthy())))
        invariant Working() ==> View() == Run(cfg, v, queue[..done])
        invariant counters.stats == AddProcessed(old(counters.stats), done)
        invariant old(Healthy()) && disk.Reliable() ==> err.None?
        decreases |queue| - done, err.None?
      {
        err := WriteLine(queue[done].bytes, queue[done].now);
        if err.None? {
          assert queue[..done + 1][..done] == queue[..done];
          done := done + 1;
        }
      }
      assert queue[..|queue|] == queue;
      if err.None? && cfg.maxBackups <= 0 && DistinctNames(segments) {
        RunConserves(cfg, v, queue);
        BytesOnDisk();
      }
    }

    /**
     closeFile: flush, sync, close. Whatever fails, the file is closed; unless the
     flush failed, everything written is in it.
     */
    method CloseFile() returns (err: Option<Error>)
      requires Valid()
      modifies sink`written, bufWriter, disk
      ensures Shut() || Broken()
      ensures err.None? ==> Shut()
      ensures !Broken() ==> bufWriter.buffered == ""
      ensures !Broken() && old(Working()) ==> Active in disk.names && disk.data[disk.names[Active]] == old(Text())
      ensures Broken() <==> err == Some(FlushFailed)
      ensures disk.names == old(disk.names) && disk.clock == old(disk.clock)
      ensures Broken() && Active in disk.names ==> Text() == old(Text()) && old(FileText()) <= FileText()
      ensures old(Shut()) && old(bufWriter.buffered) == "" ==> err == Some(SyncFailed)
      ensures old(Healthy()) && disk.Reliable() ==> err.None?
    {
      hide Kept;
      var ok := FlushLog();
      var closing: bool;
      if !ok {
        closing := disk.Close(file);
        return Some(FlushFailed);
      }
      ok := disk.Sync(file);
      closing := disk.Close(file);
      err := if !ok then Some(SyncFailed) else if !closing then Some(CloseFailed) else None;
    }

    /** Close; a second Close changes nothing and returns no error. */
    method Close() returns (err: Option<Error>)
      requires Valid()
      modifies `closed, sink`written, bufWriter, disk
      ensures closed && Valid() && disk.names == old(disk.names) && disk.clock == old(disk.clock)
      ensures old(closed) ==> err.None? && disk.data == old(disk.data)
      ensures old(closed) ==> bufWriter.buffered == old(bufWriter.buffered)
      ensures !old(closed) ==> Shut() || Broken()
      ensures !old(closed) && err.None? ==> Shut() && bufWriter.buffered == ""
      ensures !old(closed) && err.None? && old(Working()) ==> Active in disk.names && disk.data[disk.names[Active]] == old(Text())
      ensures old(Healthy()) && disk.Reliable() ==> err.None?
    {
      hide Kept;
      err := None;
      if !closed {
        closed := true;
        err := CloseFile();
      }
    }

    /**
     Byte conservation on disk: with distinct backup names and no pruning, the backups
     in rotation order, the log file and the buffer are all the bytes of the log.
     */
    lemma BytesOnDisk()
      requires Working() && cfg.maxBackups <= 0 && DistinctNames(segments)
      ensures OnDisk() == AllBytes(View())
    {
      DiskReads();
      AllSurvive(segments);
    }

    /**
     Retention: with a limit, no errors, distinct names and times, and nothing else
     matching the pattern, the backups on disk are the newest segments, as many as
     the limit allows, each with its bytes.
     */
    lemma Survivors()
      requires Healthy() && cfg.maxBackups > 0 && clean && disk.Reliable() && DistinctNames(segments) && DistinctTimes(times)
      ensures |disk.names.Keys - {Active}| == if |segments| < cfg.maxBackups then |segments| else cfg.maxBackups
      ensures forall k | 0 <= k < |segments| ::
                Backup(segments[k].stamp) in disk.names <==> |segments| - cfg.maxBackups <= k
      ensures forall k | 0 <= k < |segments| && |segments| - cfg.maxBackups <= k ::
                disk.data[disk.names[Backup(segments[k].stamp)]] == segments[k].bytes
    {
      var t := TreeOf(disk);
      var lost := Excess(cfg.maxBackups, |segments|);
      DistinctIsOrderly(t, disk.clock, segments, times);
      NewestCount(segments, times, lost);
      forall k | 0 <= k < |segments|
        ensures Backup(segments[k].stamp) in disk.names <==> lost <= k
        ensures lost <= k ==> disk.data[disk.names[Backup(segments[k].stamp)]] == segments[k].bytes
      {
        if lost <= k {
          assert Present(t, segments, times, k);
        } else {
          assert Backup(segments[k].stamp) !in Newest(segments, lost);
        }
      }
    }
  }
}
