/**
 The JSON encoder (formatter/json.go): the buffer methods as the source writes
 them, each proved against a function that says what it appends.
 */
module JsonFormatter {
  import opened Core

  /** bytes.Buffer, as far as the encoder uses it. */
  class Buffer {
    var data: string

    constructor ()
      ensures data == ""
    {
      data := "";
    }

    method WriteByte(c: char)
      modifies this
      ensures data == old(data) + [c]
    {
      data := data + [c];
    }

    method WriteString(s: string)
      modifies this
      ensures data == old(data) + s
    {
      data := data + s;
    }

    method Reset()
      modifies this
      ensures data == ""
    {
      data := "";
    }
  }

  lemma Onto(s: string, a: string, b: string)
    ensures s + a + b == s + (a + b)
  {
  }

  lemma Onto3(s: string, a: string, b: string, c: string)
    ensures s + a + b + c == s + (a + b + c)
  {
    Onto(s, a, b);
    Onto(s, a + b, c);
  }

  lemma Onto4(s: string, a: string, b: string, c: string, d: string)
    ensures s + a + b + c + d == s + (a + b + c + d)
  {
    Onto3(s, a, b, c);
    Onto(s, a + b + c, d);
  }

  lemma Onto5(s: string, a: string, b: string, c: string, d: string, e: string)
    ensures s + a + b + c + d + e == s + (a + b + c + d + e)
  {
    Onto4(s, a, b, c, d);
    Onto(s, a + b + c + d, e);
  }

  lemma Onto9(s: string, a: string, b: string, c: string, d: string, e: string, f: string, g: string, h: string, i: string)
    ensures s + a + b + c + d + e + f + g + h + i == s + (a + b + c + d + e + f + g + h + i)
  {
    Onto5(s, a, b, c, d, e);
    Onto(s, a + b + c + d + e, f);
    Onto(s, a + b + c + d + e + f, g);
    Onto(s, a + b + c + d + e + f + g, h);
    Onto(s, a + b + c + d + e + f + g + h, i);
  }

  // ---------------------------------------------------------------- strings

  const HEX_CHARS: string := "0123456789abcdef"

  /** A byte that may stand for itself inside a JSON string. */
  predicate Plain(c: char) {
    c >= ' ' && c != '"' && c != '\\'
  }

  /** The escape of one byte (section 7 of RFC 8259). */
  function EscapeByte(c: char): string {
    if Plain(c) then [c]
    else if c == '"' then "\\\""
    else if c == '\\' then "\\\\"
    else if c == '\n' then "\\n"
    else if c == '\r' then "\\r"
    else if c == '\t' then "\\t"
    else "\\u00" + [HEX_CHARS[c as int / 16], HEX_CHARS[c as int % 16]]
  }

  /** Escaping byte by byte. */
  function Escape(s: string): string {
    if s == "" then "" else EscapeByte(s[0]) + Escape(s[1..])
  }

  lemma {:induction false} EscapeAppend(a: string, b: string)
    ensures Escape(a + b) == Escape(a) + Escape(b)
  {
    if a == "" {
      assert a + b == b;
    } else {
      assert (a + b)[1..] == a[1..] + b;
      EscapeAppend(a[1..], b);
    }
  }

  lemma EscapeNext(s: string, i: nat)
    requires i < |s|
    ensures Escape(s[..i + 1]) == Escape(s[..i]) + EscapeByte(s[i])
  {
    assert s[..i + 1] == s[..i] + [s[i]];
    EscapeAppend(s[..i], [s[i]]);
    assert Escape([s[i]]) == EscapeByte(s[i]) + Escape("");
  }

  /** The escape sequence of a byte that may not stand for itself. */
  method AppendEscape(buf: Buffer, c: char)
    requires !Plain(c)
    modifies buf
    ensures buf.data == old(buf.data) + EscapeByte(c)
  {
    if c == '"' {
      buf.WriteString("\\\"");
    } else if c == '\\' {
      buf.WriteString("\\\\");
    } else if c == '\n' {
      buf.WriteString("\\n");
    } else if c == '\r' {
      buf.WriteString("\\r");
    } else if c == '\t' {
      buf.WriteString("\\t");
    } else {
      buf.WriteString("\\u00");
      buf.WriteByte(HEX_CHARS[c as int / 16]);
      buf.WriteByte(HEX_CHARS[c as int % 16]);
      var x, y := HEX_CHARS[c as int / 16], HEX_CHARS[c as int % 16];
      assert [x] + [y] == [x, y];
      Onto3(old(buf.data), "\\u00", [x], [y]);
      Onto("\\u00", [x], [y]);
    }
  }

  /** A plain byte extends the stretch that is still to be copied. */
  lemma Extend(data: string, base: string, s: string, start: nat, i: nat)
    requires start <= i < |s| && Plain(s[i])
    requires data + s[start..i] == base + Escape(s[..i])
    ensures data + s[start..i + 1] == base + Escape(s[..i + 1])
  {
    EscapeNext(s, i);
    assert s[start..i + 1] == s[start..i] + [s[i]];
    Onto(data, s[start..i], [s[i]]);
    Onto(base, Escape(s[..i]), [s[i]]);
  }

  method Flush(buf: Buffer, s: string, start: nat, end: nat)
    requires start <= end <= |s|
    modifies buf
    ensures buf.data == old(buf.data) + s[start..end]
  {
    if start < end {
      buf.WriteString(s[start..end]);
    }
  }

  /** The flush loop: unescaped stretches are copied whole, from `start` to `i`. */
  method AppendJSONString(buf: Buffer, s: string)
    modifies buf
    ensures buf.data == old(buf.data) + Escape(s)
  {
    ghost var base := buf.data;
    var start := 0;
    for i := 0 to |s|
      invariant start <= i
      invariant buf.data + s[start..i] == base + Escape(s[..i])
    {
      var c := s[i];
      if c >= ' ' && c != '"' && c != '\\' {
        Extend(buf.data, base, s, start, i);
        continue;
      }
      Flush(buf, s, start, i);
      AppendEscape(buf, c);
      start := i + 1;
      EscapeNext(s, i);
      Onto(base, Escape(s[..i]), EscapeByte(c));
      assert s[start..i + 1] == "";
    }
    assert s[..|s|] == s;
    Flush(buf, s, start, |s|);
  }

  // ---------------------------------------------------------------- numbers

  function DigitChar(d: Digit): char {
    '0' + d as char
  }

  function DigitText(ds: seq<Digit>): string {
    if ds == [] then "" else [DigitChar(ds[0])] + DigitText(ds[1..])
  }

  function DigitsOf(n: nat): seq<Digit> {
    if n < 10 then [n] else DigitsOf(n / 10) + [n % 10]
  }

  /** strconv.AppendInt with base 10. */
  function IntText(n: int): string {
    if n < 0 then "-" + DigitText(DigitsOf(-n)) else DigitText(DigitsOf(n))
  }

  /** strconv.AppendFloat with format 'f' and precision -1. */
  function FloatText(f: Float): string {
    match f
    case Finite(negative, whole, fraction) =>
      (if negative then "-" else "") + DigitText(DigitsOf(whole))
      + if fraction == [] then "" else "." + DigitText(fraction)
    case NotANumber => "NaN"
    case Infinite(negative) => if negative then "-Inf" else "+Inf"
  }

  // ---------------------------------------------------------------- records

  /** core.Entry as the formatter sees it; `timeText` is the time in the configured layout. */
  datatype Entry = Entry(timeText: string, level: Level, message: string, fields: seq<Field>, caller: CallerInfo)

  function Quoted(s: string): string {
    "\"" + s + "\""
  }

  function FieldValueText(f: Field): string {
    match f.kind
    case StringType => Quoted(Escape(f.str))
    case IntType => IntText(f.int64)
    case Int64Type => IntText(f.int64)
    case Float64Type => FloatText(f.float)
    case BoolType => if f.int64 == 1 then "true" else "false"
    case TimeType => Quoted(f.timeText)
    case DurationType => IntText(f.int64)
    case ErrorType => Quoted(Escape(f.str))
    case _ => Quoted(Escape(f.StringValueOfRest()))
  }

  function FieldText(f: Field): string {
    ",\"" + Escape(f.key) + "\":" + FieldValueText(f)
  }

  function FieldsText(fs: seq<Field>): string {
    if fs == [] then "" else FieldsText(fs[..|fs| - 1]) + FieldText(fs[|fs| - 1])
  }

  function FunctionText(name: string): string {
    if name == "" then "" else ",\"function\":\"" + Escape(name) + "\""
  }

  function CallerText(c: CallerInfo): string {
    ",\"caller\":{\"file\":\"" + Escape(c.shortFile) + "\",\"line\":" + IntText(c.line) + FunctionText(c.funcName) + "}"
  }

  function HeadText(e: Entry): string {
    "{\"time\":\"" + e.timeText + "\"" + ",\"level\":\"" + LevelName(e.level) + "\"" + ",\"message\":\"" + Escape(e.message) + "\""
  }

  /** The caller member, if it is enabled and known. */
  function OptionalCallerText(includeCaller: bool, c: CallerInfo): string {
    if includeCaller && c.defined then CallerText(c) else ""
  }

  /** The bytes of one record. */
  function Render(includeCaller: bool, e: Entry): string {
    HeadText(e) + OptionalCallerText(includeCaller, e.caller) + FieldsText(e.fields) + "}\n"
  }

  method AppendQuoted(buf: Buffer, s: string)
    modifies buf
    ensures buf.data == old(buf.data) + Quoted(s)
  {
    buf.WriteByte('"');
    buf.WriteString(s);
    buf.WriteByte('"');
    Onto3(old(buf.data), "\"", s, "\"");
  }

  method AppendQuotedString(buf: Buffer, s: string)
    modifies buf
    ensures buf.data == old(buf.data) + Quoted(Escape(s))
  {
    buf.WriteByte('"');
    AppendJSONString(buf, s);
    buf.WriteByte('"');
    Onto3(old(buf.data), "\"", Escape(s), "\"");
  }

  method AppendJSONFieldValue(buf: Buffer, f: Field)
    modifies buf
    ensures buf.data == old(buf.data) + FieldValueText(f)
  {
    match f.kind
    case StringType => AppendQuotedString(buf, f.str);
    case IntType => buf.WriteString(IntText(f.int64));
    case Int64Type => buf.WriteString(IntText(f.int64));
    case Float64Type => buf.WriteString(FloatText(f.float));
    case BoolType => buf.WriteString(if f.int64 == 1 then "true" else "false");
    case TimeType => AppendQuoted(buf, f.timeText);
    case DurationType => buf.WriteString(IntText(f.int64));
    case ErrorType => AppendQuotedString(buf, f.str);
    case _ => AppendQuotedString(buf, f.StringValueOfRest());
  }

  method AppendFunction(buf: Buffer, name: string)
    modifies buf
    ensures buf.data == old(buf.data) + FunctionText(name)
  {
    if name != "" {
      buf.WriteString(",\"function\":\"");
      AppendJSONString(buf, name);
      buf.WriteByte('"');
      Onto3(old(buf.data), ",\"function\":\"", Escape(name), "\"");
    }
  }

  method AppendCaller(buf: Buffer, c: CallerInfo)
    modifies buf
    ensures buf.data == old(buf.data) + CallerText(c)
  {
    buf.WriteString(",\"caller\":{\"file\":\"");
    AppendJSONString(buf, c.shortFile);
    buf.WriteString("\",\"line\":");
    buf.WriteString(IntText(c.line));
    AppendFunction(buf, c.funcName);
    Onto5(old(buf.data), ",\"caller\":{\"file\":\"", Escape(c.shortFile), "\",\"line\":", IntText(c.line), FunctionText(c.funcName));
    ghost var before := ",\"caller\":{\"file\":\"" + Escape(c.shortFile) + "\",\"line\":" + IntText(c.line) + FunctionText(c.funcName);
    buf.WriteByte('}');
    Onto(old(buf.data), before, "}");
  }

  method AppendHead(buf: Buffer, e: Entry)
    modifies buf
    ensures buf.data == old(buf.data) + HeadText(e)
  {
    buf.WriteString("{\"time\":\"");
    buf.WriteString(e.timeText);
    buf.WriteByte('"');
    buf.WriteString(",\"level\":\"");
    buf.WriteString(LevelName(e.level));
    buf.WriteByte('"');
    buf.WriteString(",\"message\":\"");
    AppendJSONString(buf, e.message);
    buf.WriteByte('"');
    Onto9(old(buf.data), "{\"time\":\"", e.timeText, "\"", ",\"level\":\"", LevelName(e.level), "\"", ",\"message\":\"", Escape(e.message), "\"");
  }

  method AppendField(buf: Buffer, f: Field)
    modifies buf
    ensures buf.data == old(buf.data) + FieldText(f)
  {
    buf.WriteString(",\"");
    AppendJSONString(buf, f.key);
    buf.WriteString("\":");
    AppendJSONFieldValue(buf, f);
    Onto3(old(buf.data), ",\"", Escape(f.key), "\":");
    Onto(old(buf.data), ",\"" + Escape(f.key) + "\":", FieldValueText(f));
  }

  method AppendFields(buf: Buffer, fields: seq<Field>)
    modifies buf
    ensures buf.data == old(buf.data) + FieldsText(fields)
  {
    for i := 0 to |fields|
      invariant buf.data == old(buf.data) + FieldsText(fields[..i])
    {
      assert fields[..i + 1][..i] == fields[..i];
      AppendField(buf, fields[i]);
      Onto(old(buf.data), FieldsText(fields[..i]), FieldText(fields[i]));
    }
    assert fields[..|fields|] == fields;
  }

  method AppendOptionalCaller(buf: Buffer, includeCaller: bool, c: CallerInfo)
    modifies buf
    ensures buf.data == old(buf.data) + OptionalCallerText(includeCaller, c)
  {
    if includeCaller && c.defined {
      AppendCaller(buf, c);
    }
  }

  /** formatJSONToBuffer: one record, appended to the buffer. */
  method FormatJSONToBuffer(includeCaller: bool, e: Entry, buf: Buffer)
    modifies buf
    ensures buf.data == old(buf.data) + Render(includeCaller, e)
  {
    ghost var base := buf.data;
    AppendHead(buf, e);
    AppendOptionalCaller(buf, includeCaller, e.caller);
    AppendFields(buf, e.fields);
    buf.WriteString("}\n");
    RenderOnto(base, includeCaller, e);
  }

  lemma RenderOnto(base: string, includeCaller: bool, e: Entry)
    ensures base + HeadText(e) + OptionalCallerText(includeCaller, e.caller) + FieldsText(e.fields) + "}\n"
         == base + Render(includeCaller, e)
  {
    Onto4(base, HeadText(e), OptionalCallerText(includeCaller, e.caller), FieldsText(e.fields), "}\n");
  }
}
