/**
 The backups on disk: which of the segments made so far are still there, and
 what pruning the oldest files leaves (cleanupOldBackups).
 */
module Backups {
  import opened FileSystem
  import opened Rotation

  /** The directory and the files: what Disk holds. */
  datatype Tree = Tree(names: map<Name, nat>, data: map<nat, string>, mtime: map<nat, int>)

  ghost predicate WellFormed(t: Tree) {
    && t.mtime.Keys == t.data.Keys
    && (forall n | n in t.names :: t.names[n] in t.data)
    && (forall a, b | a in t.names && b in t.names && a != b :: t.names[a] != t.names[b])
  }

  /** The backup of segment k is on disk, with its bytes and its modification time. */
  ghost predicate Present(t: Tree, segments: seq<Segment>, times: seq<int>, k: nat)
    requires WellFormed(t) && k < |segments| == |times|
  {
    var n := Backup(segments[k].stamp);
    n in t.names && t.data[t.names[n]] == segments[k].bytes && t.mtime[t.names[n]] == times[k]
  }

  /** Segment k has no file of its own any more: its name is free, or has become that of a later segment. */
  ghost predicate Vanished(t: Tree, segments: seq<Segment>, gone: set<nat>, k: nat)
    requires k < |segments|
  {
    Backup(segments[k].stamp) in t.names ==>
      exists j | k < j < |segments| :: j !in gone && segments[j].stamp == segments[k].stamp
  }

  /** Every segment is on disk except the gone ones, overwritten or removed, and those are not. */
  ghost predicate Backed(t: Tree, segments: seq<Segment>, times: seq<int>, gone: set<nat>) {
    && WellFormed(t) && |times| == |segments|
    && (forall k | 0 <= k < |segments| && k !in gone :: Present(t, segments, times, k))
    && (forall j, k | 0 <= j < k < |segments| && j !in gone && k !in gone :: segments[j].stamp != segments[k].stamp)
    && (forall k | k in gone :: k < |segments| && Vanished(t, segments, gone, k))
  }

  ghost function WithName(segments: seq<Segment>, names: set<Name>): set<nat> {
    set k | 0 <= k < |segments| && Backup(segments[k].stamp) in names
  }

  /** Writing to the log file touches no backup. */
  lemma BackedAppend(t: Tree, t': Tree, segments: seq<Segment>, times: seq<int>, gone: set<nat>)
    requires Backed(t, segments, times, gone)
    requires t'.names == t.names && t'.data.Keys == t.data.Keys && t'.mtime.Keys == t.mtime.Keys
    requires forall f | f in t.data && (Active in t.names ==> f != t.names[Active]) :: t'.data[f] == t.data[f] && t'.mtime[f] == t.mtime[f]
    ensures Backed(t', segments, times, gone)
  {
    forall k | 0 <= k < |segments| && k !in gone ensures Present(t', segments, times, k) {
      assert Present(t, segments, times, k);
    }
    forall k | k in gone ensures Vanished(t', segments, gone, k) {
      assert Vanished(t, segments, gone, k);
    }
  }

  /** The log file becomes the newest backup. */
  lemma BackedRename(t: Tree, t': Tree, segments: seq<Segment>, times: seq<int>, gone: set<nat>, stamp: string)
    requires Backed(t, segments, times, gone) && Active in t.names
    requires t' == t.(names := (t.names - {Active})[Backup(stamp) := t.names[Active]])
    ensures Backed(t', segments + [Segment(stamp, t.data[t.names[Active]])], times + [t.mtime[t.names[Active]]],
                   gone + WithName(segments, {Backup(stamp)}))
  {
    var segments', times' := segments + [Segment(stamp, t.data[t.names[Active]])], times + [t.mtime[t.names[Active]]];
    var gone' := gone + WithName(segments, {Backup(stamp)});
    forall k | 0 <= k < |segments'| && k !in gone' ensures Present(t', segments', times', k) {
      if k < |segments| {
        assert segments'[k] == segments[k] && times'[k] == times[k];
        assert Present(t, segments, times, k);
        assert k !in WithName(segments, {Backup(stamp)});
      }
    }
    forall k | k in gone' ensures k < |segments'| && Vanished(t', segments', gone', k) {
      assert segments'[k] == segments[k];
      if segments[k].stamp == stamp {
        assert |segments| !in gone' && segments'[|segments|].stamp == stamp;
      } else if Backup(segments[k].stamp) in t.names {
        assert k in gone && Vanished(t, segments, gone, k);
        var j :| k < j < |segments| && j !in gone && segments[j].stamp == segments[k].stamp;
        assert j !in gone' && segments'[j] == segments[j];
      }
    }
  }

  /** Some backups are removed. */
  lemma BackedRemove(t: Tree, segments: seq<Segment>, times: seq<int>, gone: set<nat>, removed: set<Name>)
    requires Backed(t, segments, times, gone)
    ensures Backed(t.(names := t.names - removed), segments, times, gone + WithName(segments, removed))
  {
    var t', gone' := t.(names := t.names - removed), gone + WithName(segments, removed);
    forall k | 0 <= k < |segments| && k !in gone' ensures Present(t', segments, times, k) {
      assert Present(t, segments, times, k);
    }
    forall k | k in gone' ensures k < |segments| && Vanished(t', segments, gone', k) {
      if Backup(segments[k].stamp) in t'.names {
        assert k in gone && Vanished(t, segments, gone, k);
        var j :| k < j < |segments| && j !in gone && segments[j].stamp == segments[k].stamp;
        assert j !in WithName(segments, removed);
      }
    }
  }

  /** The log file is created again. */
  lemma BackedCreate(t: Tree, t': Tree, segments: seq<Segment>, times: seq<int>, gone: set<nat>, f: nat, now: int)
    requires Backed(t, segments, times, gone) && Active !in t.names && f !in t.data
    requires t' == Tree(t.names[Active := f], t.data[f := ""], t.mtime[f := now])
    ensures Backed(t', segments, times, gone)
  {
    forall k | 0 <= k < |segments| && k !in gone ensures Present(t', segments, times, k) {
      assert Present(t, segments, times, k);
    }
    forall k | k in gone ensures Vanished(t', segments, gone, k) {
      assert Vanished(t, segments, gone, k);
    }
  }

  // ---------------------------------------------------------------- pruning

  /** Modification time, by name. */
  function Time(t: Tree, n: Name): int
    requires n in t.names && t.names[n] in t.mtime
  {
    t.mtime[t.names[n]]
  }

  ghost predicate Listed(t: Tree, list: seq<Name>) {
    && (forall n | n in list :: n in t.names && t.names[n] in t.mtime)
    && (forall i, j | 0 <= i < j < |list| :: list[i] != list[j])
  }

  ghost predicate OldestFirst(t: Tree, list: seq<Name>)
    requires Listed(t, list)
  {
    forall i, j | 0 <= i < j < |list| :: Time(t, list[i]) <= Time(t, list[j])
  }

  /** One file put in its place among sorted ones. */
  function Insert(t: Tree, n: Name, list: seq<Name>): (r: seq<Name>)
    requires forall m | m in [n] + list :: m in t.names && t.names[m] in t.mtime
    ensures |r| == |list| + 1 && (forall m :: m in r <==> m == n || m in list)
  {
    if list == [] then [n]
    else if Time(t, n) <= Time(t, list[0]) then [n] + list
    else [list[0]] + Insert(t, n, list[1..])
  }

  /** sort.Slice by modification time; the order among equal times is arbitrary. */
  function SortByTime(t: Tree, list: seq<Name>): (r: seq<Name>)
    requires forall m | m in list :: m in t.names && t.names[m] in t.mtime
    ensures |r| == |list| && (forall m :: m in r <==> m in list)
  {
    if list == [] then [] else
    assert list == [list[0]] + list[1..];
    Insert(t, list[0], SortByTime(t, list[1..]))
  }

  lemma {:induction false} InsertSorted(t: Tree, n: Name, list: seq<Name>)
    requires Listed(t, list) && OldestFirst(t, list) && n in t.names && t.names[n] in t.mtime && n !in list
    ensures Listed(t, Insert(t, n, list)) && OldestFirst(t, Insert(t, n, list))
  {
    if list != [] && Time(t, n) > Time(t, list[0]) {
      InsertSorted(t, n, list[1..]);
      var r := Insert(t, n, list[1..]);
      assert Insert(t, n, list) == [list[0]] + r;
      forall m | m in r ensures m != list[0] && Time(t, list[0]) <= Time(t, m) {}
    }
  }

  lemma {:induction false} SortSorts(t: Tree, list: seq<Name>)
    requires Listed(t, list)
    ensures Listed(t, SortByTime(t, list)) && OldestFirst(t, SortByTime(t, list))
  {
    if list != [] {
      SortSorts(t, list[1..]);
      InsertSorted(t, list[0], SortByTime(t, list[1..]));
    }
  }

  /** How many of n backups are to go. */
  function Excess(maxBackups: int, n: nat): nat {
    if maxBackups > 0 && n > maxBackups then n - maxBackups else 0
  }

  /**
   With the log file renamed away, so that only backups are listed: `removed` are as
   many as exceed maxBackups, and none of them is newer than any that stays.
   */
  ghost predicate PrunesOldest(t: Tree, maxBackups: int, removed: set<Name>)
    requires WellFormed(t)
  {
    var all := t.names.Keys;
    && removed <= all && |removed| == Excess(maxBackups, |all|)
    && (forall a, b | a in removed && b in all - removed :: Time(t, a) <= Time(t, b))
  }

  lemma {:induction false} ElementsCount(list: seq<Name>)
    requires forall i, j | 0 <= i < j < |list| :: list[i] != list[j]
    ensures |set n | n in list| == |list|
  {
    if list != [] {
      var front, last := list[..|list| - 1], list[|list| - 1];
      ElementsCount(front);
      assert (set n | n in list) == (set n | n in front) + {last};
      assert last !in front;
    }
  }

  lemma FirstIsOlder(t: Tree, list: seq<Name>, m: nat, a: Name, b: Name)
    requires Listed(t, list) && OldestFirst(t, list) && m <= |list|
    requires a in list[..m] && b in list && b !in list[..m]
    ensures Time(t, a) <= Time(t, b)
  {
    var i :| 0 <= i < m && list[i] == a;
    var j :| 0 <= j < |list| && list[j] == b;
    assert forall l | 0 <= l < m :: list[l] in list[..m];
  }

  /** Removing the first of the sorted matches prunes the oldest. */
  lemma FirstAreOldest(t: Tree, maxBackups: int, list: seq<Name>, m: nat)
    requires WellFormed(t) && Listed(t, list) && OldestFirst(t, list)
    requires (forall n :: n in list <==> n in t.names) && m == Excess(maxBackups, |list|)
    ensures PrunesOldest(t, maxBackups, set n | n in list[..m])
  {
    assert (set n | n in list) == t.names.Keys;
    ElementsCount(list);
    ElementsCount(list[..m]);
    hide OldestFirst;
    forall a, b | a in (set n | n in list[..m]) && b in t.names.Keys - (set n | n in list[..m])
      ensures Time(t, a) <= Time(t, b)
    {
      FirstIsOlder(t, list, m, a, b);
    }
  }

  /** What cleanupOldBackups is to remove, of the files the pattern matches. */
  function Doomed(t: Tree, maxBackups: int, matches: seq<Name>): seq<Name>
    requires forall m | m in matches :: m in t.names && t.names[m] in t.mtime
  {
    var backups := SortByTime(t, matches);
    if maxBackups > 0 && |backups| > maxBackups then backups[..|backups| - maxBackups] else []
  }

  lemma DoomedAreOldest(t: Tree, maxBackups: int, matches: seq<Name>)
    requires WellFormed(t) && Listed(t, matches) && (forall n :: n in matches <==> n in t.names)
    ensures var list := Doomed(t, maxBackups, matches);
            && (forall n | n in list :: n in t.names)
            && (forall i, j | 0 <= i < j < |list| :: list[i] != list[j])
            && PrunesOldest(t, maxBackups, set n | n in list)
  {
    SortSorts(t, matches);
    var backups, list := SortByTime(t, matches), Doomed(t, maxBackups, matches);
    hide SortByTime, PrunesOldest, OldestFirst;
    FirstAreOldest(t, maxBackups, backups, |list|);
    assert list == backups[..|list|];
  }

  /** Nothing else listed is as new as n. */
  ghost predicate StrictlyNewest(t: Tree, n: Name)
    requires WellFormed(t)
  {
    n in t.names && forall m | m in t.names && m != n :: Time(t, m) < Time(t, n)
  }

  /** Pruning never takes the strictly newest backup. */
  lemma NewestSpared(t: Tree, maxBackups: int, doomed: set<Name>, n: Name)
    requires WellFormed(t) && maxBackups > 0 && PrunesOldest(t, maxBackups, doomed) && StrictlyNewest(t, n)
    ensures n !in doomed
  {
    SmallerMisses(doomed, t.names.Keys);
    var b :| b in t.names.Keys - doomed;
    var own, other := Time(t, n), Time(t, b);
    assert n in doomed ==> own <= other;
  }

  lemma SmallerMisses(a: set<Name>, b: set<Name>)
    requires a <= b && |a| < |b|
    ensures exists x :: x in b - a
  {
    assert b * a == a;
    assert |b - a| == |b| - |b * a|;
  }

  // ---------------------------------------------------------------- the survivors of a run

  /** Distinct backup names, and modification times that increase from segment to segment. */
  ghost predicate Orderly(segments: seq<Segment>, times: seq<int>) {
    |times| == |segments|
    && forall j, k | 0 <= j < k < |segments| :: segments[j].stamp != segments[k].stamp && times[j] < times[k]
  }

  /** The directory holds the log file and the newest segments, as many as may stay. */
  ghost predicate Retained(names: set<Name>, maxBackups: int, segments: seq<Segment>, gone: set<nat>) {
    var lost := Excess(maxBackups, |segments|);
    && (forall k :: k in gone <==> 0 <= k < lost)
    && names - {Active} == Newest(segments, lost)
  }

  ghost function Newest(segments: seq<Segment>, lost: nat): set<Name> {
    set k | lost <= k < |segments| :: Backup(segments[k].stamp)
  }

  lemma {:induction false} NewestCount(segments: seq<Segment>, times: seq<int>, lost: nat)
    requires Orderly(segments, times) && lost <= |segments|
    ensures |Newest(segments, lost)| == |segments| - lost
    decreases |segments| - lost
  {
    if lost < |segments| {
      NewestCount(segments, times, lost + 1);
      var n := Backup(segments[lost].stamp);
      assert Newest(segments, lost) == {n} + Newest(segments, lost + 1);
      assert n !in Newest(segments, lost + 1);
    } else {
      assert Newest(segments, lost) == {};
    }
  }

  /**
   One more backup and the pruning after it: if the newest segments were on disk
   before, the newest are there afterwards.
   */
  lemma PruneRetains(t: Tree, maxBackups: int, segments: seq<Segment>, times: seq<int>, old_gone: set<nat>, gone: set<nat>, removed: set<Name>)
    requires segments != [] && Orderly(segments, times) && Backed(t, segments, times, old_gone) && Active !in t.names
    requires (forall k :: k in old_gone <==> 0 <= k < Excess(maxBackups, |segments| - 1))
    requires t.names.Keys == Newest(segments, Excess(maxBackups, |segments| - 1))
    requires PrunesOldest(t, maxBackups, removed) && gone == old_gone + WithName(segments, removed)
    ensures Retained(t.names.Keys - removed, maxBackups, segments, gone)
  {
    PruneCount(t.names.Keys, maxBackups, segments, times, removed);
    if |removed| == 0 {
      NothingGoes(t.names.Keys, segments, removed);
    } else {
      PruneOne(t, maxBackups, segments, times, old_gone, removed);
    }
    RetainedFrom(t.names.Keys - removed, maxBackups, segments, gone);
  }

  lemma PruneOne(t: Tree, maxBackups: int, segments: seq<Segment>, times: seq<int>, old_gone: set<nat>, removed: set<Name>)
    requires segments != [] && Orderly(segments, times) && Backed(t, segments, times, old_gone) && Active !in t.names
    requires (forall k :: k in old_gone <==> 0 <= k < Excess(maxBackups, |segments| - 1))
    requires t.names.Keys == Newest(segments, Excess(maxBackups, |segments| - 1))
    requires removed <= t.names.Keys && |removed| == 1 == Excess(maxBackups, |segments|) - Excess(maxBackups, |segments| - 1)
    requires forall a, b | a in removed && b in t.names.Keys - removed :: Time(t, a) <= Time(t, b)
    ensures t.names.Keys - removed == Newest(segments, Excess(maxBackups, |segments|))
    ensures forall k :: k in old_gone + WithName(segments, removed) <==> 0 <= k < Excess(maxBackups, |segments|)
  {
    var before := Excess(maxBackups, |segments| - 1);
    OldestIsFirst(t, segments, times, old_gone, before, removed);
    OneMore(old_gone, old_gone + {before}, before);
  }

  lemma OneMore(old_gone: set<nat>, gone: set<nat>, n: nat)
    requires (forall k :: k in old_gone <==> 0 <= k < n) && gone == old_gone + {n}
    ensures forall k :: k in gone <==> 0 <= k < n + 1
  {
  }

  lemma PruneCount(names: set<Name>, maxBackups: int, segments: seq<Segment>, times: seq<int>, removed: set<Name>)
    requires segments != [] && Orderly(segments, times)
    requires names == Newest(segments, Excess(maxBackups, |segments| - 1))
    requires |removed| == Excess(maxBackups, |names|)
    ensures |removed| == Excess(maxBackups, |segments|) - Excess(maxBackups, |segments| - 1)
  {
    NewestCount(segments, times, Excess(maxBackups, |segments| - 1));
  }

  lemma NothingGoes(names: set<Name>, segments: seq<Segment>, removed: set<Name>)
    requires |removed| == 0
    ensures names - removed == names && WithName(segments, removed) == {}
  {
    assert removed == {};
  }

  lemma RetainedFrom(names: set<Name>, maxBackups: int, segments: seq<Segment>, gone: set<nat>)
    requires Active !in names && names == Newest(segments, Excess(maxBackups, |segments|))
    requires forall k :: k in gone <==> 0 <= k < Excess(maxBackups, |segments|)
    ensures Retained(names, maxBackups, segments, gone)
  {
    assert names - {Active} == names;
  }

  lemma OldestIsFirst(t: Tree, segments: seq<Segment>, times: seq<int>, old_gone: set<nat>, k: nat, removed: set<Name>)
    requires k < |segments| && Orderly(segments, times) && Backed(t, segments, times, old_gone) && Active !in t.names
    requires (forall j :: j in old_gone <==> 0 <= j < k) && t.names.Keys == Newest(segments, k)
    requires removed <= t.names.Keys && |removed| == 1
    requires forall a, b | a in removed && b in t.names.Keys - removed :: Time(t, a) <= Time(t, b)
    ensures removed == {Backup(segments[k].stamp)}
    ensures WithName(segments, removed) == {k}
    ensures Newest(segments, k) - removed == Newest(segments, k + 1)
  {
    var first := Backup(segments[k].stamp);
    var x :| x in removed;
    assert removed == {x} by {
      assert |removed - {x}| == 0;
    }
    if x != first {
      var j :| k <= j < |segments| && x == Backup(segments[j].stamp);
      assert first in Newest(segments, k);
      LaterIsNewer(t, segments, times, old_gone, k, j);
    }
  }

  lemma LaterIsNewer(t: Tree, segments: seq<Segment>, times: seq<int>, gone: set<nat>, j: nat, k: nat)
    requires j < k < |segments| && Orderly(segments, times) && Backed(t, segments, times, gone) && j !in gone && k !in gone
    ensures Backup(segments[j].stamp) in t.names && Backup(segments[k].stamp) in t.names
    ensures Time(t, Backup(segments[j].stamp)) < Time(t, Backup(segments[k].stamp))
  {
    assert Present(t, segments, times, j) && Present(t, segments, times, k);
  }
}
