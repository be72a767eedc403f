/**
 The two writers between a file handler and its file: bufio.Writer with its
 4096-byte buffer, over the size-tracking writer (handler/filehandler/file.go).
 */
module BufferedFile {
  import opened Core
  import opened FileSystem

  const CAPACITY: nat := 4096

  class SizeTrackingWriter {
    const disk: Disk
    var handle: nat
    var written: nat

    constructor (disk: Disk, handle: nat)
      ensures this.disk == disk && this.handle == handle && written == 0
    {
      this.disk, this.handle, written := disk, handle, 0;
    }

    ghost predicate Open()
      reads this, disk
    {
      disk.Valid() && handle in disk.handles
    }

    /** What the file under the handle holds. */
    ghost function Sunk(): string
      requires Open()
      reads this, disk
    {
      disk.data[disk.handles[handle]]
    }

    /** The counter grows by what reached the file, of a failed write too. */
    method Write(p: string) returns (n: nat, ok: bool)
      requires disk.Valid()
      modifies this`written, disk
      ensures SameDirectory(disk, old(disk.names), old(disk.handles), old(disk.clock), old(disk.next))
      ensures n <= |p| && written == old(written) + n && (ok ==> Open() && n == |p|)
      ensures if Open() then Sunk() == old(Sunk()) + p[..n] else n == 0 && disk.data == old(disk.data)
      ensures Confined(disk, handle, old(disk.data), old(disk.mtime))
      ensures old(Open()) && disk.Reliable() ==> ok
    {
      n, ok := disk.Write(handle, p);
      written := written + n;
    }

    method Reset(h: nat)
      modifies this
      ensures handle == h && written == 0
    {
      handle, written := h, 0;
    }
  }

  ghost predicate SameDirectory(disk: Disk, names: map<Name, nat>, handles: map<nat, nat>, clock: int, next: nat)
    reads disk
  {
    disk.Valid() && disk.names == names && disk.handles == handles && disk.clock == clock && disk.next == next
  }

  /** What changed is file f, if there is one, and if so just now. */
  ghost predicate OnlyFile(f: Option<nat>, data': map<nat, string>, mtime': map<nat, int>, data: map<nat, string>, mtime: map<nat, int>,
                           clock: int)
  {
    && data'.Keys == data.Keys == mtime.Keys == mtime'.Keys
    && (forall g | g in data && f != Some(g) :: data'[g] == data[g] && mtime'[g] == mtime[g])
    && (forall g | g in data :: mtime'[g] == mtime[g] || mtime'[g] == clock)
  }

  lemma OnlyFileTwice(f: Option<nat>, data'': map<nat, string>, mtime'': map<nat, int>, data': map<nat, string>, mtime': map<nat, int>,
                      data: map<nat, string>, mtime: map<nat, int>, clock: int)
    requires OnlyFile(f, data', mtime', data, mtime, clock) && OnlyFile(f, data'', mtime'', data', mtime', clock)
    ensures OnlyFile(f, data'', mtime'', data, mtime, clock)
  {
  }

  function Under(handles: map<nat, nat>, handle: nat): Option<nat> {
    if handle in handles then Some(handles[handle]) else None
  }

  /** What changed is the file under the handle, if it is open at all. */
  ghost predicate Confined(disk: Disk, handle: nat, data: map<nat, string>, mtime: map<nat, int>)
    reads disk
  {
    disk.Valid() && OnlyFile(Under(disk.handles, handle), disk.data, disk.mtime, data, mtime, disk.clock)
  }

  class BufWriter {
    const sink: SizeTrackingWriter
    const disk: Disk
    var buffered: string
    var failed: bool          // bufio keeps the first error for good

    constructor (sink: SizeTrackingWriter)
      ensures this.sink == sink && disk == sink.disk && buffered == "" && !failed
    {
      this.sink, disk, buffered, failed := sink, sink.disk, "", false;
    }

    ghost predicate Wired()
      reads this, sink, disk
    {
      disk == sink.disk && disk.Valid() && |buffered| <= CAPACITY
    }

    /** The file under the writer is open. */
    ghost predicate Attached()
      reads this, sink, disk
    {
      Wired() && sink.Open()
    }

    /** Everything written so far: in the file and in the buffer. */
    ghost function Text(): string
      requires Attached()
      reads this, sink, disk
    {
      sink.Sunk() + buffered
    }

    /** The text has become `text`, the file has only grown, and the counter has kept up. */
    ghost predicate Carried(text: string, written: int, sunk: string)
      reads this, sink, disk
    {
      && Attached() && Text() == text
      && sunk <= sink.Sunk() && sink.written - written == |sink.Sunk()| - |sunk|
    }

    /** Flush: after an error the rest that was not written stays in the buffer. */
    method Flush() returns (ok: bool)
      requires Wired()
      modifies this, sink`written, disk
      ensures Wired() && SameDirectory(disk, old(disk.names), old(disk.handles), old(disk.clock), old(disk.next))
      ensures Confined(disk, sink.handle, old(disk.data), old(disk.mtime))
      ensures (ok <==> !failed) && (old(failed) ==> !ok) && (ok ==> buffered == "") && |buffered| <= |old(buffered)|
      ensures old(Attached()) ==> Carried(old(Text()), old(sink.written), old(sink.Sunk()))
      ensures !old(Attached()) ==> buffered == old(buffered) && disk.data == old(disk.data) && (ok <==> !old(failed) && buffered == "")
      ensures old(failed) || old(buffered) == "" ==>
                disk.data == old(disk.data) && disk.mtime == old(disk.mtime) && failed == old(failed) && buffered == old(buffered)
      ensures old(Attached()) && !old(failed) && disk.Reliable() ==> ok
    {
      ok := !failed;
      if ok && buffered != "" {
        ghost var sunk := if sink.Open() then sink.Sunk() else "";
        var n: nat;
        n, ok := sink.Write(buffered);
        assert sunk + buffered[..n] + buffered[n..] == sunk + (buffered[..n] + buffered[n..]);
        assert buffered[..n] + buffered[n..] == buffered;
        buffered := buffered[n..];
        failed := !ok;
      }
    }

    /** One round of Write's loop: p does not fit, so a part of it goes on its way to the file. */
    method Advance(p: string) returns (n: nat)
      requires Wired() && !failed && |p| > CAPACITY - |buffered|
      modifies this, sink`written, disk
      ensures Wired() && SameDirectory(disk, old(disk.names), old(disk.handles), old(disk.clock), old(disk.next))
      ensures Confined(disk, sink.handle, old(disk.data), old(disk.mtime))
      ensures n <= |p|
      ensures old(Attached()) ==> Carried(old(Text()) + p[..n], old(sink.written), old(sink.Sunk()))
      ensures !failed ==> n > 0 || |buffered| < old(|buffered|)
      ensures !old(Attached()) ==> failed && disk.data == old(disk.data)
      ensures old(Attached()) && disk.Reliable() ==> !failed
    {
      if buffered == "" {
        ghost var sunk := if sink.Open() then sink.Sunk() else "";
        var wrote: bool;
        n, wrote := sink.Write(p);
        failed := !wrote;
        assert sunk + p[..n] + "" == sunk + "" + p[..n];
      } else {
        n := CAPACITY - |buffered|;
        ghost var sunk := if sink.Open() then sink.Sunk() else "";
        assert sunk + buffered + p[..n] == sunk + (buffered + p[..n]);
        buffered := buffered + p[..n];
        var _ := Flush();
      }
    }

    /**
     Write: while p does not fit, fill the buffer and flush it, or write p straight
     through when the buffer is empty; the rest is buffered. The text grows by what is
     taken, whether or not there is an error. On a closed file what fits is still
     accepted into the buffer.
     */
    method Write(p: string) returns (n: nat, ok: bool)
      requires Wired()
      modifies this, sink`written, disk
      ensures Wired() && SameDirectory(disk, old(disk.names), old(disk.handles), old(disk.clock), old(disk.next))
      ensures Confined(disk, sink.handle, old(disk.data), old(disk.mtime))
      ensures n <= |p| && (ok ==> n == |p|)
      ensures old(Attached()) ==> Carried(old(Text()) + p[..n], old(sink.written), old(sink.Sunk()))
      ensures !old(Attached()) ==> disk.data == old(disk.data)
      ensures !old(Attached()) ==> (ok <==> !old(failed) && |old(buffered)| + |p| <= CAPACITY)
      ensures !old(Attached()) && ok ==> buffered == old(buffered) + p
      ensures (!ok <==> failed) && (old(failed) ==> !ok && disk.data == old(disk.data))
      ensures old(Attached()) && !old(failed) && disk.Reliable() ==> ok
    {
      hide Confined;
      n := Spill(p);
      ok := !failed;
      if ok {
        if old(Attached()) {
          JoinRest(old(Text()), sink.Sunk(), buffered, p, n);
        } else {
          assert p[0..] == p;
        }
        buffered := buffered + p[n..];
        n := |p|;
        assert p[..n] == p;
      }
    }

    static lemma JoinRest(text: string, sunk: string, buffered: string, p: string, n: nat)
      requires n <= |p| && sunk + buffered == text + p[..n]
      ensures sunk + (buffered + p[n..]) == text + p
    {
      assert sunk + (buffered + p[n..]) == sunk + buffered + p[n..];
      assert text + p[..n] + p[n..] == text + (p[..n] + p[n..]);
      assert p[..n] + p[n..] == p;
    }

    /** Advance by what is left of p after n. */
    method Round(p: string, n: nat, ghost text: string, ghost written: int, ghost sunk: string,
                 ghost data: map<nat, string>, ghost mtime: map<nat, int>)
      returns (m: nat)
      requires Wired() && !failed && n <= |p| && |p| - n > CAPACITY - |buffered|
      requires Confined(disk, sink.handle, data, mtime)
      requires Attached() ==> Carried(text + p[..n], written, sunk)
      modifies this, sink`written, disk
      ensures Wired() && SameDirectory(disk, old(disk.names), old(disk.handles), old(disk.clock), old(disk.next))
      ensures Confined(disk, sink.handle, data, mtime)
      ensures n <= m <= |p|
      ensures old(Attached()) ==> Carried(text + p[..m], written, sunk)
      ensures !failed ==> m > n || |buffered| < old(|buffered|)
      ensures !old(Attached()) ==> failed && disk.data == old(disk.data)
      ensures old(Attached()) && disk.Reliable() ==> !failed
    {
      hide OnlyFile;
      ghost var before, times := disk.data, disk.mtime;
      var k := Advance(p[n..]);
      OnlyFileTwice(Under(disk.handles, sink.handle), disk.data, disk.mtime, before, times, data, mtime, disk.clock);
      JoinTake(text, p, n, k);
      m := n + k;
    }

    /** Write's loop. */
    method Spill(p: string) returns (n: nat)
      requires Wired()
      modifies this, sink`written, disk
      ensures Wired() && SameDirectory(disk, old(disk.names), old(disk.handles), old(disk.clock), old(disk.next))
      ensures Confined(disk, sink.handle, old(disk.data), old(disk.mtime))
      ensures n <= |p| && (!failed ==> |buffered| + |p| - n <= CAPACITY)
      ensures old(Attached()) ==> Carried(old(Text()) + p[..n], old(sink.written), old(sink.Sunk()))
      ensures !old(Attached()) ==> disk.data == old(disk.data) && (failed <==> old(failed) || |old(buffered)| + |p| > CAPACITY)
      ensures !old(Attached()) && !failed ==> n == 0 && buffered == old(buffered)
      ensures old(Attached()) && !old(failed) && disk.Reliable() ==> !failed
      ensures old(failed) ==> failed && disk.data == old(disk.data)
    {
      n := 0;
      ghost var attached := Attached();
      ghost var text, written, sunk := if attached then Text() else "", sink.written, if attached then sink.Sunk() else "";
      ghost var data, mtime := disk.data, disk.mtime;
      assert text + p[..0] == text;
      hide Carried;
      while |p| - n > CAPACITY - |buffered| && !failed
        invariant n <= |p|
        invariant Wired() && SameDirectory(disk, old(disk.names), old(disk.handles), old(disk.clock), old(disk.next))
        invariant Confined(disk, sink.handle, data, mtime)
        invariant attached ==> Carried(text + p[..n], written, sunk)
        invariant !attached ==> !Attached() && disk.data == data
        invariant !attached ==> (n == 0 && failed == old(failed) && buffered == old(buffered)) || (failed && |old(buffered)| + |p| > CAPACITY)
        invariant attached && !old(failed) && disk.Reliable() ==> !failed
        invariant old(failed) ==> failed && disk.data == data
        decreases !failed, |p| - n, |buffered|
      {
        n := Round(p, n, text, written, sunk, data, mtime);
      }
    }

    static lemma JoinTake(text: string, p: string, n: nat, k: nat)
      requires n + k <= |p|
      ensures text + p[..n] + p[n..][..k] == text + p[..n + k]
    {
      assert p[..n] + p[n..][..k] == p[..n + k];
    }

    method Reset()
      modifies this
      ensures buffered == "" && !failed
    {
      buffered, failed := "", false;
    }
  }
}
