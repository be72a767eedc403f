/**
 An abstract file system in place of the os package: a directory of names, file
 contents and modification times, open handles, and a plan of which operations
 fail, a write perhaps after a part. One directory, the one the log file is in.
 */
module FileSystem {

  /** The log file, a backup with the timestamp in its name, or another file the backup pattern matches. */
  datatype Name = Active | Backup(stamp: string) | Stray(text: string)

  /** What becomes of an operation; a failing write puts some bytes into the file first. */
  datatype Outcome = Works | Fails(short: nat)

  class Disk {
    const plan: nat -> Outcome   // for the n-th operation
    var ops: nat                 // operations so far
    var clock: int
    var names: map<Name, nat>    // the directory: which file a name is
    var data: map<nat, string>
    var mtime: map<nat, int>
    var handles: map<nat, nat>   // the open handles: which file each is on
    var next: nat                // fresh file and handle numbers

    ghost predicate Valid()
      reads this
    {
      && mtime.Keys == data.Keys
      && (forall f | f in data :: f < next)
      && (forall n | n in names :: names[n] in data)
      && (forall h | h in handles :: h < next && handles[h] in data)
      && (forall a, b | a in names && b in names && a != b :: names[a] != names[b])
    }

    /** No operation ever fails. */
    ghost predicate Reliable() {
      forall n :: plan(n).Works?
    }

    /** A directory with nothing but the log file, open under handle 0. */
    constructor (plan: nat -> Outcome, clock: int, content: string)
      ensures Valid() && this.plan == plan && this.clock == clock
      ensures names == map[Active := 0] && data == map[0 := content] && handles == map[0 := 0] && mtime == map[0 := clock]
    {
      this.plan, this.clock := plan, clock;
      ops, next := 0, 1;
      names, data, mtime, handles := map[Active := 0], map[0 := content], map[0 := clock], map[0 := 0];
    }

    /** os.OpenFile with O_CREATE and O_APPEND. */
    method Open(n: Name) returns (h: nat, ok: bool)
      requires Valid()
      modifies this
      ensures Valid() && clock == old(clock) && next >= old(next)
      ensures Reliable() ==> ok
      ensures !ok ==> names == old(names) && data == old(data) && mtime == old(mtime) && handles == old(handles)
      ensures ok ==> n in names && old(next) <= h < next && handles == old(handles)[h := names[n]]
      ensures ok && n in old(names) ==> names == old(names) && data == old(data) && mtime == old(mtime)
      ensures ok && n !in old(names) ==>
                && names[n] !in old(data) && names == old(names)[n := names[n]]
                && data == old(data)[names[n] := ""] && mtime == old(mtime)[names[n] := clock]
    {
      ok := plan(ops).Works?;
      ops := ops + 1;
      h := next;
      if ok {
        if n !in names {
          Create(n);
          h := next;
        }
        handles := handles[h := names[n]];
        next := next + 1;
      }
    }

    /** A new, empty file. */
    method Create(n: Name)
      requires Valid() && n !in names
      modifies `data, `mtime, `names, `next
      ensures Valid() && next == old(next) + 1 && names == old(names)[n := old(next)]
      ensures data == old(data)[old(next) := ""] && mtime == old(mtime)[old(next) := clock] && old(next) !in old(data)
    {
      data, mtime, names, next := data[next := ""], mtime[next := clock], names[n := next], next + 1;
    }

    /** Write on a handle: all of p, or an error after some part of it. A closed handle is an error. */
    method Write(h: nat, p: string) returns (n: nat, ok: bool)
      requires Valid()
      modifies this
      ensures Valid() && clock == old(clock) && next == old(next) && names == old(names) && handles == old(handles)
      ensures n <= |p| && (ok ==> h in handles && n == |p|)
      ensures h in handles ==> data == old(data)[handles[h] := old(data)[handles[h]] + p[..n]]
      ensures h !in handles || n == 0 ==> n == 0 && data == old(data) && mtime == old(mtime)
      ensures n > 0 ==> mtime == old(mtime)[handles[h] := clock]
      ensures h in handles && Reliable() ==> ok
    {
      ok := h in handles && plan(ops).Works?;
      n := if ok then |p| else if h !in handles then 0 else if plan(ops).short < |p| then plan(ops).short else |p|;
      ops := ops + 1;
      assert p[..0] == "" && p[..|p|] == p;
      if n > 0 {
        var f := handles[h];
        data, mtime := data[f := data[f] + p[..n]], mtime[f := clock];
      } else if h in handles {
        assert data[handles[h]] + p[..0] == data[handles[h]];
      }
    }

    method Sync(h: nat) returns (ok: bool)
      requires Valid()
      modifies this
      ensures Valid() && clock == old(clock) && next == old(next)
      ensures names == old(names) && data == old(data) && mtime == old(mtime) && handles == old(handles)
      ensures (ok ==> h in handles) && (h in handles && Reliable() ==> ok)
    {
      ok := h in handles && plan(ops).Works?;
      ops := ops + 1;
    }

    method Close(h: nat) returns (ok: bool)
      requires Valid()
      modifies this
      ensures Valid() && clock == old(clock) && next == old(next) && names == old(names) && data == old(data) && mtime == old(mtime)
      ensures handles == old(handles) - {h}
      ensures (ok ==> h in old(handles)) && (h in old(handles) && Reliable() ==> ok)
    {
      ok := h in handles && plan(ops).Works?;
      ops := ops + 1;
      handles := handles - {h};
    }

    /** os.Rename: replaces the file the new name had, if any. */
    method Rename(from: Name, to: Name) returns (ok: bool)
      requires Valid() && from != to
      modifies this
      ensures Valid() && clock == old(clock) && next == old(next) && data == old(data) && mtime == old(mtime) && handles == old(handles)
      ensures ok ==> from in old(names) && names == (old(names) - {from})[to := old(names)[from]]
      ensures !ok ==> names == old(names)
      ensures from in old(names) && Reliable() ==> ok
    {
      ok := from in names && plan(ops).Works?;
      ops := ops + 1;
      if ok {
        names := (names - {from})[to := names[from]];
      }
    }

    method Remove(n: Name) returns (ok: bool)
      requires Valid()
      modifies this
      ensures Valid() && clock == old(clock) && next == old(next) && data == old(data) && mtime == old(mtime) && handles == old(handles)
      ensures names == if ok then old(names) - {n} else old(names)
      ensures n in old(names) && Reliable() ==> ok
    {
      ok := n in names && plan(ops).Works?;
      ops := ops + 1;
      if ok {
        names := names - {n};
      }
    }

    /** filepath.Glob with the backup pattern: every name but the log file's own, each once. */
    method Glob() returns (matches: seq<Name>)
      ensures forall n :: n in matches <==> n in names && n != Active
      ensures forall i, j | 0 <= i < j < |matches| :: matches[i] != matches[j]
    {
      matches := [];
      var left := names.Keys - {Active};
      while left != {}
        invariant forall n :: n in matches <==> n in names && n != Active && n !in left
        invariant left <= names.Keys - {Active}
        invariant forall i, j | 0 <= i < j < |matches| :: matches[i] != matches[j]
        decreases |left|
      {
        var n :| n in left;
        matches := matches + [n];
        left := left - {n};
      }
    }
  }
}
