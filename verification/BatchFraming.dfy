/**
 Framing: a record is one line, so a batch of records written in one call falls
 apart into the records again.
 */
module BatchFraming {
  import opened Core
  import opened JsonFormatter
  import opened JsonRoundTrip
  import opened JsonRecord

  /** No control bytes; in particular no newline. */
  predicate Clean(s: string) {
    forall i | 0 <= i < |s| :: s[i] >= ' '
  }

  lemma EscapeByteClean(c: char)
    ensures Clean(EscapeByte(c))
  {
  }

  lemma {:induction false} EscapeClean(s: string)
    ensures Clean(Escape(s))
  {
    if s != "" {
      hide EscapeByte;
      EscapeClean(s[1..]);
      EscapeByteClean(s[0]);
    }
  }

  lemma {:induction false} DigitTextClean(ds: seq<Digit>)
    ensures Clean(DigitText(ds))
  {
    if ds != [] { DigitTextClean(ds[1..]); }
  }

  lemma IntTextClean(n: int)
    ensures Clean(IntText(n))
  {
    DigitTextClean(DigitsOf(if n < 0 then -n else n));
  }

  lemma FloatTextClean(f: Float)
    ensures Clean(FloatText(f))
  {
    if f.Finite? {
      DigitTextClean(DigitsOf(f.whole));
      DigitTextClean(f.fraction);
    }
  }

  lemma FieldValueClean(f: Field)
    requires f.kind.TimeType? ==> Safe(f.timeText)
    ensures Clean(FieldValueText(f))
  {
    hide Escape, IntText, FloatText;
    EscapeClean(f.str);
    EscapeClean(f.StringValueOfRest());
    IntTextClean(f.int64);
    FloatTextClean(f.float);
  }

  lemma FieldClean(f: Field)
    requires f.kind.TimeType? ==> Safe(f.timeText)
    ensures Clean(FieldText(f))
  {
    hide FieldValueText, Escape;
    EscapeClean(f.key);
    FieldValueClean(f);
  }

  lemma {:induction false} FieldsClean(fields: seq<Field>)
    requires forall f | f in fields && f.kind.TimeType? :: Safe(f.timeText)
    ensures Clean(FieldsText(fields))
  {
    if fields != [] {
      FieldsClean(fields[..|fields| - 1]);
      FieldClean(fields[|fields| - 1]);
    }
  }

  lemma FunctionClean(name: string)
    ensures Clean(FunctionText(name))
  {
    hide Escape;
    EscapeClean(name);
  }

  lemma CleanPieces(a: string, b: string, c: string, d: string, e: string, f: string)
    requires Clean(a) && Clean(b) && Clean(c) && Clean(d) && Clean(e) && Clean(f)
    ensures Clean(a + b + c + d + e + f)
  {
  }

  /** What an encoder prints around the caller's parts. */
  lemma CallerFrameClean()
    ensures Clean(",\"caller\":{\"file\":\"") && Clean("\",\"line\":") && Clean("}")
  {
  }

  lemma CallerClean(c: CallerInfo)
    ensures Clean(CallerText(c))
  {
    hide Clean, Escape, IntText, FunctionText;
    EscapeClean(c.shortFile);
    IntTextClean(c.line);
    FunctionClean(c.funcName);
    CallerFrameClean();
    CleanPieces(",\"caller\":{\"file\":\"", Escape(c.shortFile), "\",\"line\":", IntText(c.line), FunctionText(c.funcName), "}");
  }

  lemma CleanFour(a: string, b: string, c: string, d: string)
    requires Clean(a) && Clean(b) && Clean(c) && Clean(d)
    ensures Clean(a + b + c + d)
  {
  }

  lemma SafeIsClean(s: string)
    requires Safe(s)
    ensures Clean(s)
  {
  }

  lemma HeadFrameClean()
    ensures Clean("{\"time\":\"") && Clean("\"") && Clean(",\"level\":\"") && Clean(",\"message\":\"")
  {
  }

  lemma HeadClean(e: Entry)
    requires Safe(e.timeText)
    ensures Clean(HeadText(e))
  {
    hide Clean, Escape, LevelName, Safe;
    EscapeClean(e.message);
    LevelNameSafe(e.level);
    SafeIsClean(e.timeText);
    SafeIsClean(LevelName(e.level));
    HeadFrameClean();
    CleanPieces("{\"time\":\"", e.timeText, "\"", ",\"level\":\"", LevelName(e.level), "\"");
    CleanFour("{\"time\":\"" + e.timeText + "\"" + ",\"level\":\"" + LevelName(e.level) + "\"", ",\"message\":\"", Escape(e.message), "\"");
  }

  /** A line: clean, and ended by its only newline. */
  predicate IsLine(s: string) {
    s != "" && s[|s| - 1] == '\n' && Clean(s[..|s| - 1])
  }

  /** A formatted record is one line, for any message, keys and string values. */
  lemma RecordIsLine(includeCaller: bool, e: Entry)
    requires SafeTimes(e)
    ensures IsLine(Render(includeCaller, e))
  {
    HeadClean(e);
    CallerClean(e.caller);
    FieldsClean(e.fields);
    var body := HeadText(e) + OptionalCallerText(includeCaller, e.caller) + FieldsText(e.fields);
    assert Clean(body + "}");
    assert Render(includeCaller, e)[..|Render(includeCaller, e)| - 1] == body + "}";
  }

  /** Cut a text after every newline. */
  function SplitLines(s: string): seq<string>
    decreases |s|
  {
    if s == "" then [] else
    var n := LineLength(s);
    [s[..n]] + SplitLines(s[n..])
  }

  /** The length of the first line, its newline included. */
  function LineLength(s: string): (n: nat)
    requires s != ""
    ensures 0 < n <= |s|
  {
    if s[0] == '\n' || |s| == 1 then 1 else 1 + LineLength(s[1..])
  }

  lemma {:induction false} FirstLine(line: string, rest: string)
    requires IsLine(line)
    ensures LineLength(line + rest) == |line|
  {
    if |line| > 1 {
      assert line[0] == line[..|line| - 1][0];
      assert line[1..][..|line[1..]| - 1] == line[..|line| - 1][1..];
      FirstLine(line[1..], rest);
      assert (line + rest)[1..] == line[1..] + rest;
    }
  }

  /** The lines of a batch are what was put into it, in order. */
  lemma {:induction false} SplitBatch(lines: seq<string>)
    requires forall i | 0 <= i < |lines| :: IsLine(lines[i])
    ensures SplitLines(Flatten(lines)) == lines
  {
    if lines != [] {
      var rest := Flatten(lines[1..]);
      SplitBatch(lines[1..]);
      FirstLine(lines[0], rest);
      assert (lines[0] + rest)[..|lines[0]|] == lines[0] && (lines[0] + rest)[|lines[0]|..] == rest;
      assert lines == [lines[0]] + lines[1..];
    }
  }

  /** The records of a batch: what process accumulates before one Write. */
  function Batch(includeCaller: bool, entries: seq<Entry>): seq<string> {
    seq(|entries|, i requires 0 <= i < |entries| => Render(includeCaller, entries[i]))
  }

  /** However many records are written as one batch, the batch splits back into them. */
  lemma BatchSplits(includeCaller: bool, entries: seq<Entry>)
    requires forall e | e in entries :: SafeTimes(e)
    ensures SplitLines(Flatten(Batch(includeCaller, entries))) == Batch(includeCaller, entries)
  {
    hide Render, IsLine, SafeTimes;
    forall i | 0 <= i < |entries| ensures IsLine(Batch(includeCaller, entries)[i]) {
      RecordIsLine(includeCaller, entries[i]);
    }
    SplitBatch(Batch(includeCaller, entries));
  }

  lemma BatchSnoc(includeCaller: bool, entries: seq<Entry>, i: nat)
    requires i < |entries|
    ensures Flatten(Batch(includeCaller, entries[..i + 1]))
         == Flatten(Batch(includeCaller, entries[..i])) + Render(includeCaller, entries[i])
  {
    hide Render;
    assert Batch(includeCaller, entries[..i + 1]) == Batch(includeCaller, entries[..i]) + [Render(includeCaller, entries[i])];
    FlattenSnoc(Batch(includeCaller, entries[..i]), Render(includeCaller, entries[i]));
  }

  /**
   The batch loop of process: each received entry is formatted onto the end of
   batchBuf, which is written once when the queue is empty.
   */
  method FormatBatch(includeCaller: bool, entries: seq<Entry>, batchBuf: Buffer) returns (batchCount: nat)
    modifies batchBuf
    ensures batchBuf.data == Flatten(Batch(includeCaller, entries)) && batchCount == |entries|
  {
    hide Render;
    batchBuf.Reset();
    batchCount := 0;
    assert Batch(includeCaller, entries[..0]) == [];
    while batchCount < |entries|
      invariant batchCount <= |entries|
      invariant batchBuf.data == Flatten(Batch(includeCaller, entries[..batchCount]))
    {
      var entry := entries[batchCount];
      FormatJSONToBuffer(includeCaller, entry, batchBuf);
      BatchSnoc(includeCaller, entries, batchCount);
      batchCount := batchCount + 1;
    }
    assert entries[..|entries|] == entries;
  }
}
