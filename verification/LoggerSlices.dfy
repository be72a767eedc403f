/**
 Builders and loggers (logger/logger.go): field slices that share their backing
 arrays, and why a logger's fields never change all the same.
 */
module LoggerSlices {
  import opened Core

  /** A slice from the start of an array; its capacity is the array's length. */
  datatype Slice = Slice(arr: array<Field>, len: nat)
  {
    ghost predicate Valid() {
      len <= arr.Length
    }

    /** What a holder of the slice sees. */
    ghost function View(): seq<Field>
      requires Valid()
      reads arr
    {
      arr[..len]
    }
  }

  /** What an append leaves in the array it is given: the new fields after the slice, if there is room. */
  ghost function Overwritten(cells: seq<Field>, len: nat, added: seq<Field>): seq<Field>
    requires len <= |cells|
  {
    if len + |added| <= |cells| then cells[..len] + added + cells[len + |added|..] else cells
  }

  /**
   The first n cells do not notice the append: there is no room for it, or they lie
   within the slice, or what they show behind it is what is written there.
   */
  ghost predicate Unnoticed(cells: seq<Field>, len: nat, added: seq<Field>, n: nat)
    requires len <= |cells| && n <= |cells|
  {
    || len + |added| > |cells|
    || n <= len
    || if n <= len + |added| then cells[len..n] == added[..n - len] else cells[len..len + |added|] == added
  }

  lemma KeptIffUnnoticed(cells: seq<Field>, len: nat, added: seq<Field>, n: nat)
    requires len <= |cells| && n <= |cells|
    ensures Overwritten(cells, len, added)[..n] == cells[..n] <==> Unnoticed(cells, len, added, n)
  {
    var cells', end := Overwritten(cells, len, added), len + |added|;
    if end <= |cells| && n > len {
      var upto := if n <= end then n else end;
      assert cells'[len..upto] == added[..upto - len];
      assert cells'[..n] == cells'[..len] + cells'[len..upto] + cells'[upto..n];
      assert cells[..n] == cells[..len] + cells[len..upto] + cells[upto..n];
      assert cells'[..n][len..upto] == cells'[len..upto] && cells[..n][len..upto] == cells[len..upto];
      assert cells'[..len] == cells[..len] && cells'[upto..n] == cells[upto..n];
      assert added[..|added|] == added;
    }
  }

  /** A new array that begins with what the slice shows. */
  method Moved(s: Slice, capacity: nat) returns (arr: array<Field>)
    requires s.Valid() && s.len <= capacity
    ensures fresh(arr) && arr.Length == capacity && arr[..s.len] == s.View()
  {
    arr := new Field[capacity](_ => NO_FIELD);
    for i := 0 to s.len
      invariant arr[..i] == s.arr[..i]
    {
      arr[i] := s.arr[i];
    }
  }

  /**
   append: in place when the capacity allows, over whatever was there; otherwise
   into a new array with some room to spare. Whoever else holds a slice, of this
   array or of another, sees the same as before if and only if it is of another
   array or does not notice.
   */
  method Append(s: Slice, added: seq<Field>, room: nat) returns (r: Slice)
    requires s.Valid()
    modifies s.arr
    ensures r.Valid() && r.len == s.len + |added| && r.View() == old(s.View()) + added
    ensures s.arr[..] == Overwritten(old(s.arr[..]), s.len, added)
    ensures if s.len + |added| <= s.arr.Length then r.arr == s.arr else fresh(r.arr) && r.arr.Length == r.len + room
    ensures forall v: Slice | old(allocated(v)) && v.Valid() ::
              v.View() == old(v.View()) <==> v.arr != s.arr || Unnoticed(old(s.arr[..]), s.len, added, v.len)
  {
    hide Unnoticed;
    ghost var cells := s.arr[..];
    if s.len + |added| <= s.arr.Length {
      r := Slice(s.arr, s.len + |added|);
    } else {
      var arr := Moved(s, s.len + |added| + room);
      r := Slice(arr, s.len + |added|);
    }
    for i := 0 to |added|
      invariant r.arr[..s.len] == cells[..s.len]
      invariant r.arr[s.len..s.len + i] == added[..i]
      invariant if r.arr == s.arr then s.arr[s.len + i..] == cells[s.len + i..] else s.arr[..] == cells
    {
      r.arr[s.len + i] := added[i];
    }
    assert r.arr[..r.len] == r.arr[..s.len] + r.arr[s.len..r.len];
    assert s.arr[..] == Overwritten(cells, s.len, added);
    forall v: Slice | old(allocated(v)) && v.Valid()
      ensures v.View() == old(v.View()) <==> v.arr != s.arr || Unnoticed(cells, s.len, added, v.len)
    {
      if v.arr == s.arr {
        KeptIffUnnoticed(cells, s.len, added, v.len);
        assert v.View() == s.arr[..][..v.len] && old(v.View()) == cells[..v.len];
      }
    }
  }

  const NO_FIELD := Field("", StringType, 0, NotANumber, "", "", "")

  /** `made` is what was added before the logger was made. */
  class Logger {
    const fields: Slice
    ghost const made: seq<Field>

    constructor (fields: Slice, ghost made: seq<Field>)
      ensures this.fields == fields && this.made == made
    {
      this.fields, this.made := fields, made;
    }

    /** With: an array of its own, of exactly the right length. */
    method With(added: seq<Field>) returns (l: Logger)
      requires fields.Valid()
      ensures fresh(l) && fresh(l.fields.arr) && l.fields.arr.Length == l.fields.len
      ensures l.fields.View() == fields.View() + added && l.made == fields.View() + added
    {
      var arr := Moved(fields, fields.len + |added|);
      for i := 0 to |added|
        invariant arr[..fields.len] == fields.arr[..fields.len]
        invariant arr[fields.len..fields.len + i] == added[..i]
      {
        arr[fields.len + i] := added[i];
      }
      assert arr[..] == arr[..fields.len] + arr[fields.len..];
      l := new Logger(Slice(arr, fields.len + |added|), fields.View() + added);
    }
  }

  /** A builder, and every logger made from it or from one of its loggers. */
  class Builder {
    var fields: Slice
    ghost var added: seq<Field>
    ghost var loggers: set<Logger>

    /** The arrays that the loggers look at. */
    ghost function Arrays(): set<array<Field>>
      reads this
    {
      set l | l in loggers :: l.fields.arr
    }

    /**
     Every logger still sees what was added before it was made. A logger may share
     the builder's array, but only a front of what the builder has filled.
     */
    ghost predicate Valid()
      reads this, fields.arr, Arrays()
    {
      && fields.Valid() && fields.View() == added
      && (forall l | l in loggers ::
            && l.fields.Valid() && l.fields.View() == l.made
            && (l.fields.arr == fields.arr ==> l.fields.len <= fields.len))
    }

    constructor ()
      ensures Valid() && added == [] && loggers == {}
      ensures fresh(fields.arr) && fields.arr.Length == 0
    {
      var none := new Field[0];
      fields, added, loggers := Slice(none, 0), [], {};
    }

    /** WithFields: no logger made earlier notices. */
    method WithFields(more: seq<Field>, room: nat)
      requires Valid()
      modifies this, fields.arr
      ensures Valid() && added == old(added) + more && loggers == old(loggers)
      ensures forall l | l in loggers :: l.fields.View() == old(l.fields.View())
      ensures if |added| <= old(fields.arr.Length) then fields.arr == old(fields.arr)
              else fresh(fields.arr) && fields.arr.Length == |added| + room
    {
      ghost var before := fields;
      fields := Append(fields, more, room);
      added := added + more;
      forall l | l in loggers ensures l.fields.View() == old(l.fields.View()) && (l.fields.arr == fields.arr ==> l.fields.len <= fields.len) {
        if l.fields.arr == before.arr {
          assert l.fields.View() == before.arr[..before.len][..l.fields.len];
        }
      }
    }

    /** Build: the logger shares the builder's array. */
    method Build() returns (l: Logger)
      requires Valid()
      modifies this
      ensures Valid() && added == old(added) && loggers == old(loggers) + {l} && fields == old(fields)
      ensures l.fields == fields && l.fields.View() == added == l.made
    {
      l := new Logger(fields, added);
      loggers := loggers + {l};
    }

    /** With on one of the loggers. */
    method With(l: Logger, more: seq<Field>) returns (r: Logger)
      requires Valid() && l in loggers
      modifies this
      ensures Valid() && added == old(added) && loggers == old(loggers) + {r} && fields == old(fields)
      ensures r.fields.View() == l.made + more == r.made
    {
      r := l.With(more);
      loggers := loggers + {r};
    }
  }

  /**
   Why a builder must not be copied by value: the copy keeps the old length over the
   same array, and its next append lands in fields a logger is looking at.
   */
  method CopiedBuilderOverwrites(e: Field, f: Field, g: Field) returns (before: seq<Field>, after: seq<Field>)
    ensures before == [e, f] && after == [e, g]
  {
    var b := new Builder();
    b.WithFields([e], 1);
    var copied := b.fields;
    b.WithFields([f], 0);
    var l := b.Build();
    before := l.fields.arr[..l.fields.len];
    assert copied.arr[..1] == before[..1] == [e];
    var r := Append(copied, [g], 0);
    assert r.arr == l.fields.arr && r.View() == [e] + [g];
    after := l.fields.arr[..l.fields.len];
  }
}
