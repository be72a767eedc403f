/**
 The handler's books against the disk through one rotation: the rename, the
 pruning and the new log file (rotate and cleanupOldBackups of
 handler/filehandler/file.go).
 */
module Retention {
  import opened FileSystem
  import opened Rotation
  import opened Backups

  ghost predicate DistinctNames(segments: seq<Segment>) {
    forall j, k | 0 <= j < k < |segments| :: segments[j].stamp != segments[k].stamp
  }

  ghost predicate DistinctTimes(times: seq<int>) {
    forall j, k | 0 <= j < k < |times| :: times[j] != times[k]
  }

  /** Modification times follow the order of the segments, and none is in the future. */
  ghost predicate Timely(t: Tree, clock: int, times: seq<int>)
    requires WellFormed(t)
  {
    var latest := if Active in t.names then t.mtime[t.names[Active]] else clock;
    && latest <= clock
    && (forall k | 0 <= k < |times| :: times[k] <= latest)
    && (forall j, k | 0 <= j < k < |times| :: times[j] <= times[k])
  }

  /** What holds of the backups at every moment, whatever has failed. */
  ghost predicate Kept(t: Tree, clock: int, maxBackups: int, segments: seq<Segment>, times: seq<int>, gone: set<nat>) {
    && Backed(t, segments, times, gone)
    && Timely(t, clock, times)
    && (maxBackups <= 0 && DistinctNames(segments) ==> gone == {})
  }

  lemma KeptLater(t: Tree, clock: int, later: int, maxBackups: int, segments: seq<Segment>, times: seq<int>, gone: set<nat>)
    requires Kept(t, clock, maxBackups, segments, times, gone) && clock <= later
    ensures Kept(t, later, maxBackups, segments, times, gone)
  {
  }

  /** Writing to the log file. */
  lemma KeptAppend(t: Tree, t': Tree, clock: int, maxBackups: int, segments: seq<Segment>, times: seq<int>, gone: set<nat>)
    requires Kept(t, clock, maxBackups, segments, times, gone)
    requires t'.names == t.names && t'.data.Keys == t.data.Keys && t'.mtime.Keys == t.mtime.Keys
    requires forall f | f in t.data && (Active in t.names ==> f != t.names[Active]) :: t'.data[f] == t.data[f] && t'.mtime[f] == t.mtime[f]
    requires forall f | f in t.mtime :: t'.mtime[f] == t.mtime[f] || t'.mtime[f] == clock
    ensures Kept(t', clock, maxBackups, segments, times, gone)
  {
    BackedAppend(t, t', segments, times, gone);
  }

  lemma NoneOverwritten(segments: seq<Segment>, s: Segment)
    requires DistinctNames(segments + [s])
    ensures DistinctNames(segments) && WithName(segments, {Backup(s.stamp)}) == {}
  {
    var segments' := segments + [s];
    assert segments'[|segments|] == s;
    forall j, k | 0 <= j < k < |segments| ensures segments[j].stamp != segments[k].stamp {
      assert segments'[j] == segments[j] && segments'[k] == segments[k];
    }
    forall k | 0 <= k < |segments| ensures segments[k].stamp != s.stamp {
      assert segments'[k] == segments[k];
    }
  }

  /** The log file becomes a backup. */
  lemma KeptRename(t: Tree, t': Tree, clock: int, maxBackups: int, segments: seq<Segment>, times: seq<int>, gone: set<nat>, stamp: string)
    requires Kept(t, clock, maxBackups, segments, times, gone) && Active in t.names
    requires t' == t.(names := (t.names - {Active})[Backup(stamp) := t.names[Active]])
    ensures Kept(t', clock, maxBackups, segments + [Segment(stamp, t.data[t.names[Active]])], times + [t.mtime[t.names[Active]]],
                 gone + WithName(segments, {Backup(stamp)}))
  {
    BackedRename(t, t', segments, times, gone, stamp);
    var s := Segment(stamp, t.data[t.names[Active]]);
    if DistinctNames(segments + [s]) {
      NoneOverwritten(segments, s);
    }
  }

  lemma NewSegmentStays(t: Tree, clock: int, maxBackups: int, segments: seq<Segment>, times: seq<int>, gone: set<nat>, stamp: string)
    requires Kept(t, clock, maxBackups, segments, times, gone)
    ensures |segments| !in gone + WithName(segments, {Backup(stamp)})
  {
  }

  lemma NothingNamed(segments: seq<Segment>, gone: set<nat>)
    ensures gone + WithName(segments, {}) == gone
  {
  }

  /** Backups are removed, when there is a limit. */
  lemma KeptRemove(t: Tree, clock: int, maxBackups: int, segments: seq<Segment>, times: seq<int>, gone: set<nat>, removed: set<Name>)
    requires Kept(t, clock, maxBackups, segments, times, gone) && Active !in t.names
    requires maxBackups > 0 || removed == {}
    ensures Kept(t.(names := t.names - removed), clock, maxBackups, segments, times, gone + WithName(segments, removed))
  {
    BackedRemove(t, segments, times, gone, removed);
    if removed == {} {
      assert gone + WithName(segments, removed) == gone;
    }
  }

  /** The log file is created again, at this moment. */
  lemma KeptCreate(t: Tree, t': Tree, clock: int, maxBackups: int, segments: seq<Segment>, times: seq<int>, gone: set<nat>, f: nat)
    requires Kept(t, clock, maxBackups, segments, times, gone) && Active !in t.names && f !in t.data
    requires t' == Tree(t.names[Active := f], t.data[f := ""], t.mtime[f := clock])
    ensures Kept(t', clock, maxBackups, segments, times, gone)
  {
    BackedCreate(t, t', segments, times, gone, f, clock);
  }

  /** With distinct modification times the backups are in the order of their times. */
  lemma DistinctIsOrderly(t: Tree, clock: int, segments: seq<Segment>, times: seq<int>)
    requires WellFormed(t) && Timely(t, clock, times) && |times| == |segments|
    requires DistinctNames(segments) && DistinctTimes(times)
    ensures Orderly(segments, times)
  {
  }

  lemma NewestSnoc(segments: seq<Segment>, s: Segment, lost: nat)
    requires lost <= |segments|
    ensures Newest(segments + [s], lost) == Newest(segments, lost) + {Backup(s.stamp)}
  {
    var segments' := segments + [s];
    assert segments'[|segments|] == s;
    forall n | n in Newest(segments, lost) ensures n in Newest(segments', lost) {
      var k :| lost <= k < |segments| && n == Backup(segments[k].stamp);
      assert segments'[k] == segments[k];
    }
  }

  /** Between the rename and the pruning: the newest segments, one more than may stay. */
  ghost predicate OneTooMany(names: set<Name>, maxBackups: int, segments: seq<Segment>, gone: set<nat>)
    requires segments != []
  {
    && names == Newest(segments, Excess(maxBackups, |segments| - 1))
    && (forall k :: k in gone <==> 0 <= k < Excess(maxBackups, |segments| - 1))
  }

  lemma DistinctFront(before: seq<int>, time: int)
    requires DistinctTimes(before + [time])
    ensures DistinctTimes(before)
  {
    var times := before + [time];
    forall j, k | 0 <= j < k < |before| ensures before[j] != before[k] {
      assert times[j] == before[j] && times[k] == before[k];
    }
  }

  /** If the newest segments were on disk, so they are after a rename, one more of them. */
  lemma RenameRetains(names: set<Name>, names': set<Name>, maxBackups: int, segments: seq<Segment>, times: seq<int>,
                      s: Segment, time: int, gone: set<nat>)
    requires names' == (names - {Active}) + {Backup(s.stamp)}
    requires DistinctNames(segments) && DistinctTimes(times) ==> Retained(names, maxBackups, segments, gone)
    ensures DistinctNames(segments + [s]) && DistinctTimes(times + [time]) ==>
              OneTooMany(names', maxBackups, segments + [s], gone + WithName(segments, {Backup(s.stamp)}))
  {
    if DistinctNames(segments + [s]) && DistinctTimes(times + [time]) {
      NoneOverwritten(segments, s);
      DistinctFront(times, time);
      NewestSnoc(segments, s, Excess(maxBackups, |segments|));
    }
  }

  /** The pruning leaves the newest segments, as many as the limit allows. */
  lemma PruneRetains(t: Tree, clock: int, maxBackups: int, segments: seq<Segment>, times: seq<int>, gone: set<nat>, removed: set<Name>)
    requires Kept(t, clock, maxBackups, segments, times, gone) && Active !in t.names && DistinctNames(segments) && DistinctTimes(times)
    requires segments != [] && OneTooMany(t.names.Keys, maxBackups, segments, gone)
    requires PrunesOldest(t, maxBackups, removed)
    ensures Retained(t.names.Keys - removed, maxBackups, segments, gone + WithName(segments, removed))
  {
    DistinctIsOrderly(t, clock, segments, times);
    Backups.PruneRetains(t, maxBackups, segments, times, gone, gone + WithName(segments, removed), removed);
  }

  lemma WithActive(names: set<Name>, names': set<Name>, maxBackups: int, segments: seq<Segment>, gone: set<nat>)
    requires names' == names + {Active}
    ensures Retained(names', maxBackups, segments, gone) == Retained(names, maxBackups, segments, gone)
  {
    assert names' - {Active} == names - {Active};
  }

  /** With no limit there is nothing to prune. */
  lemma NothingToPrune(names: set<Name>, maxBackups: int, segments: seq<Segment>, gone: set<nat>)
    requires maxBackups <= 0 && Active !in names && segments != [] && OneTooMany(names, maxBackups, segments, gone)
    ensures Retained(names, maxBackups, segments, gone)
  {
    assert names - {Active} == names;
  }

  // ---------------------------------------------------------------- what can be read back

  /** Read the backups that are still there, in rotation order. */
  function ReadBackups(t: Tree, segments: seq<Segment>, gone: set<nat>): string {
    if segments == [] then "" else
    var last := |segments| - 1;
    var n := Backup(segments[last].stamp);
    ReadBackups(t, segments[..last], gone)
    + if last !in gone && n in t.names && t.names[n] in t.data then t.data[t.names[n]] else ""
  }

  /** The bytes of the segments that are not gone. */
  function SurvivingBytes(segments: seq<Segment>, gone: set<nat>): string {
    if segments == [] then "" else
    var last := |segments| - 1;
    SurvivingBytes(segments[..last], gone) + if last !in gone then segments[last].bytes else ""
  }

  /** The disk gives back exactly the segments that are not gone. */
  lemma {:induction false} ReadsSurvivors(t: Tree, segments: seq<Segment>, times: seq<int>, gone: set<nat>, n: nat)
    requires Backed(t, segments, times, gone) && n <= |segments|
    ensures ReadBackups(t, segments[..n], gone) == SurvivingBytes(segments[..n], gone)
  {
    if n > 0 {
      ReadsSurvivors(t, segments, times, gone, n - 1);
      assert segments[..n][..n - 1] == segments[..n - 1];
      if n - 1 !in gone {
        assert Present(t, segments, times, n - 1);
      }
    }
  }

  /** While nothing is gone these are all bytes. */
  lemma {:induction false} AllSurvive(segments: seq<Segment>)
    ensures SurvivingBytes(segments, {}) == SegmentBytes(segments)
  {
    if segments != [] {
      AllSurvive(segments[..|segments| - 1]);
    }
  }

  ghost predicate NoBytes(segments: seq<Segment>, which: set<nat>) {
    forall k | 0 <= k < |segments| && k in which :: segments[k].bytes == ""
  }

  /** When more segments go, bytes are lost unless these were empty. */
  lemma {:induction false} LosingMore(segments: seq<Segment>, gone: set<nat>, more: set<nat>)
    ensures |SurvivingBytes(segments, gone + more)| <= |SurvivingBytes(segments, gone)|
    ensures |SurvivingBytes(segments, gone + more)| == |SurvivingBytes(segments, gone)| <==> NoBytes(segments, more - gone)
    ensures NoBytes(segments, more - gone) ==> SurvivingBytes(segments, gone + more) == SurvivingBytes(segments, gone)
  {
    if segments != [] {
      var last := |segments| - 1;
      LosingMore(segments[..last], gone, more);
      assert forall k | 0 <= k < last :: segments[..last][k] == segments[k];
      if NoBytes(segments, more - gone) {
        assert NoBytes(segments[..last], more - gone);
      } else if NoBytes(segments[..last], more - gone) {
        assert last in more - gone && segments[last].bytes != "";
      }
    }
  }

  lemma SurvivingSnoc(segments: seq<Segment>, gone: set<nat>, s: Segment)
    requires |segments| !in gone
    ensures SurvivingBytes(segments + [s], gone) == SurvivingBytes(segments, gone) + s.bytes
  {
    assert (segments + [s])[..|segments|] == segments;
  }

  /** The segments a rename to this backup name would overwrite. */
  ghost predicate NameIsFresh(segments: seq<Segment>, gone: set<nat>, stamp: string) {
    forall k | 0 <= k < |segments| && k !in gone && segments[k].stamp == stamp :: segments[k].bytes == ""
  }

  lemma FreshIffKept(segments: seq<Segment>, gone: set<nat>, stamp: string, text: string)
    requires |segments| !in gone
    ensures SurvivingBytes(segments + [Segment(stamp, text)], gone + WithName(segments, {Backup(stamp)}))
         == SurvivingBytes(segments, gone) + text
       <==> NameIsFresh(segments, gone, stamp)
  {
    var more := WithName(segments, {Backup(stamp)});
    SurvivingSnoc(segments, gone + more, Segment(stamp, text));
    LosingMore(segments, gone, more);
    assert NameIsFresh(segments, gone, stamp) <==> NoBytes(segments, more - gone);
  }

  /**
   Backup names can repeat. The rename loses no bytes if and only if no backup with
   content that is still on disk has the same name: what can then be read from the
   backups is what could be read before, and the text of the log file.
   */
  lemma RenameLosesNothing(t: Tree, t': Tree, segments: seq<Segment>, times: seq<int>, gone: set<nat>, stamp: string)
    requires Backed(t, segments, times, gone) && Active in t.names
    requires t' == t.(names := (t.names - {Active})[Backup(stamp) := t.names[Active]])
    ensures var text := t.data[t.names[Active]];
            var after := ReadBackups(t', segments + [Segment(stamp, text)], gone + WithName(segments, {Backup(stamp)}));
            after == ReadBackups(t, segments, gone) + text <==> NameIsFresh(segments, gone, stamp)
  {
    var s, more := Segment(stamp, t.data[t.names[Active]]), WithName(segments, {Backup(stamp)});
    BackedRename(t, t', segments, times, gone, stamp);
    ReadsSurvivors(t, segments, times, gone, |segments|);
    ReadsSurvivors(t', segments + [s], times + [t.mtime[t.names[Active]]], gone + more, |segments| + 1);
    assert segments[..|segments|] == segments && (segments + [s])[..|segments| + 1] == segments + [s];
    SurvivingSnoc(segments, gone + more, s);
    LosingMore(segments, gone, more);
    assert NameIsFresh(segments, gone, stamp) <==> NoBytes(segments, more - gone);
  }
}
