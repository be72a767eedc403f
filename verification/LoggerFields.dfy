/**
 The field constructors and the level parser of the logger package (logger/field.go,
 logger/level.go): what a caller puts into a field is what a reader of the record gets
 out of it, and two records that print the same were logged with the same values.
 */
module LoggerFields {
  import opened Core
  import opened JsonFormatter
  import opened JsonReader
  import opened JsonRoundTrip
  import opened JsonRecord

  const ZERO := Finite(false, 0, [])

  function String(key: string, val: string): Field {
    Field(key, StringType, 0, ZERO, val, "", "")
  }

  function Int(key: string, val: int): Field {
    Field(key, IntType, val, ZERO, "", "", "")
  }

  function Int64(key: string, val: int): Field {
    Field(key, Int64Type, val, ZERO, "", "", "")
  }

  function Float64(key: string, val: Float): Field {
    Field(key, Float64Type, 0, val, "", "", "")
  }

  function Bool(key: string, val: bool): Field {
    Field(key, BoolType, if val then 1 else 0, ZERO, "", "", "")
  }

  /** `printed` is the time as RFC 3339 prints it, `nanos` the same in nanoseconds. */
  function Time(key: string, nanos: int, printed: string): Field {
    Field(key, TimeType, nanos, ZERO, "", printed, "")
  }

  function Duration(key: string, nanos: int): Field {
    Field(key, DurationType, nanos, ZERO, "", "", "")
  }

  /** Err: no error at all has an empty message. */
  function Err(message: Option<string>): Field {
    Field("error", ErrorType, 0, ZERO, if message.Some? then message.value else "", "", "")
  }

  /** The dynamic type of a value given to Any; `printed` is what fmt prints for any other. */
  datatype AnyValue =
    | AString(text: string) | AnInt(n: int) | AnInt64(n: int) | AFloat64(float: Float) | ABool(b: bool)
    | ADuration(nanos: int) | ATime(nanos: int, printed: string) | AnError(message: string) | Another(printed: string)

  function Any(key: string, val: AnyValue): Field {
    match val
    case AString(s) => String(key, s)
    case AnInt(n) => Int(key, n)
    case AnInt64(n) => Int64(key, n)
    case AFloat64(float) => Float64(key, float)
    case ABool(b) => Bool(key, b)
    case ADuration(nanos) => Duration(key, nanos)
    case ATime(nanos, printed) => Time(key, nanos, printed)
    case AnError(message) => Field(key, ErrorType, 0, ZERO, message, "", "")
    case Another(printed) => Field(key, AnyType, 0, ZERO, "", "", printed)
  }

  /** What a reader is to find for such a value. */
  function Meaning(val: AnyValue): Json
    requires val.AFloat64? ==> val.float.Finite?
  {
    match val
    case AString(s) => JString(s)
    case AnInt(n) => Integer(n)
    case AnInt64(n) => Integer(n)
    case AFloat64(float) => JNumber(float.negative, float.whole, float.fraction, 0)
    case ABool(b) => JBool(b)
    case ADuration(nanos) => Integer(nanos)
    case ATime(_, printed) => JString(printed)
    case AnError(message) => JString(message)
    case Another(printed) => JString(printed)
  }

  function Integer(n: int): Json {
    JNumber(n < 0, if n < 0 then -n else n, [], 0)
  }

  /** A value of whatever type is read back as what it was, and a float that is no number is refused. */
  lemma AnyReads(key: string, val: AnyValue)
    requires val.ATime? ==> Safe(val.printed)
    ensures if val.AFloat64? && !val.float.Finite? then Refused(FieldValueText(Any(key, val)))
            else Reads(FieldValueText(Any(key, val)), Meaning(val))
    ensures Any(key, val).key == key
  {
    hide Reads, Refused, FieldValueText;
    FieldReads(Any(key, val));
  }

  /** The typed constructors do as Any does with a value of their type. */
  lemma TypedReads(key: string, val: string, n: int, b: bool, float: Float, printed: string, message: Option<string>)
    requires Safe(printed) && float.Finite?
    ensures Reads(FieldValueText(String(key, val)), JString(val))
    ensures Reads(FieldValueText(Int(key, n)), Integer(n)) && Reads(FieldValueText(Int64(key, n)), Integer(n))
    ensures Reads(FieldValueText(Duration(key, n)), Integer(n)) && Reads(FieldValueText(Bool(key, b)), JBool(b))
    ensures Reads(FieldValueText(Float64(key, float)), JNumber(float.negative, float.whole, float.fraction, 0))
    ensures Reads(FieldValueText(Time(key, n, printed)), JString(printed))
    ensures Reads(FieldValueText(Err(message)), JString(if message.Some? then message.value else "")) && Err(message).key == "error"
  {
    hide Reads, FieldValueText;
    AnyReads(key, AString(val));
    AnyReads(key, AnInt(n));
    AnyReads(key, AnInt64(n));
    AnyReads(key, ADuration(n));
    AnyReads(key, ABool(b));
    AnyReads(key, AFloat64(float));
    AnyReads(key, ATime(n, printed));
    FieldReads(Err(message));
  }

  // ---------------------------------------------------------------- what a record tells

  predicate Printable(e: Entry) {
    SafeTimes(e) && forall f | f in e.fields :: Sound(f)
  }

  /** The members after the head: the caller if it is printed, and the fields. */
  function Rest(includeCaller: bool, e: Entry): seq<(string, Json)>
    requires forall f | f in e.fields :: Sound(f)
  {
    (if includeCaller && e.caller.defined then [("caller", CallerJson(e.caller))] else []) + FieldMembers(e.fields)
  }

  lemma HeadAndRest(includeCaller: bool, e: Entry)
    requires forall f | f in e.fields :: Sound(f)
    ensures var m := Members(includeCaller, e);
            && |m| >= 3 && m[0].1 == JString(e.timeText) && m[1].1 == JString(LevelName(e.level)) && m[2].1 == JString(e.message)
            && m[3..] == Rest(includeCaller, e)
  {
  }

  /** A field is never printed as an object, so it is not taken for the caller. */
  lemma SameFields(includeCaller: bool, a: Entry, b: Entry)
    requires Printable(a) && Printable(b) && Rest(includeCaller, a) == Rest(includeCaller, b)
    ensures (includeCaller && a.caller.defined) == (includeCaller && b.caller.defined)
    ensures includeCaller && a.caller.defined ==> CallerJson(a.caller) == CallerJson(b.caller)
    ensures FieldMembers(a.fields) == FieldMembers(b.fields)
  {
    var ra, rb := Rest(includeCaller, a), Rest(includeCaller, b);
    var p, q := includeCaller && a.caller.defined, includeCaller && b.caller.defined;
    if a.fields != [] { FirstMember(a.fields); }
    if b.fields != [] { FirstMember(b.fields); }
    assert !p ==> ra == FieldMembers(a.fields);
    assert !q ==> rb == FieldMembers(b.fields);
    assert p ==> ra[0].1 == CallerJson(a.caller) && ra[1..] == FieldMembers(a.fields);
    assert q ==> rb[0].1 == CallerJson(b.caller) && rb[1..] == FieldMembers(b.fields);
  }

  lemma FirstMember(fields: seq<Field>)
    requires fields != [] && forall f | f in fields :: Sound(f)
    ensures FieldMembers(fields) != [] && !FieldMembers(fields)[0].1.JObject?
  {
    assert FieldMembers(fields)[0].1 == FieldJson(fields[0]);
  }

  lemma SameCaller(a: CallerInfo, b: CallerInfo)
    requires CallerJson(a) == CallerJson(b)
    ensures a.shortFile == b.shortFile && a.line == b.line && a.funcName == b.funcName
  {
    var ma, mb := CallerJson(a).members, CallerJson(b).members;
    assert ma[0].1 == JString(a.shortFile) && mb[0].1 == JString(b.shortFile);
    assert ma[1].1 == IntJson(a.line) && mb[1].1 == IntJson(b.line);
    if a.funcName != "" { assert ma[2].1 == JString(a.funcName); }
    if b.funcName != "" { assert mb[2].1 == JString(b.funcName); }
  }

  /**
   Nothing is lost in print: two entries whose records are the same text agree in the
   time as printed, in the level, in the message, in the caller if it is printed, and
   field by field in key and value; two fields of the same type agree in what this
   type stores.
   */
  lemma SamePrintSameEntry(includeCaller: bool, a: Entry, b: Entry)
    requires Printable(a) && Printable(b) && Render(includeCaller, a) == Render(includeCaller, b)
    ensures a.timeText == b.timeText && a.message == b.message && ParseLevel(LevelName(a.level)) == ParseLevel(LevelName(b.level))
    ensures Known(a.level) && Known(b.level) ==> a.level == b.level
    ensures includeCaller ==> a.caller.defined == b.caller.defined
    ensures includeCaller && a.caller.defined ==>
              a.caller.shortFile == b.caller.shortFile && a.caller.line == b.caller.line && a.caller.funcName == b.caller.funcName
    ensures |a.fields| == |b.fields|
    ensures forall i | 0 <= i < |a.fields| ::
              a.fields[i].key == b.fields[i].key && FieldJson(a.fields[i]) == FieldJson(b.fields[i])
              && (a.fields[i].kind == b.fields[i].kind ==> SameValue(a.fields[i], b.fields[i]))
  {
    RoundTrip(includeCaller, a);
    RoundTrip(includeCaller, b);
    HeadAndRest(includeCaller, a);
    HeadAndRest(includeCaller, b);
    hide Render, ReadText, Members, Rest, ParseLevel, LevelName;
    SameFields(includeCaller, a, b);
    if includeCaller && a.caller.defined { SameCaller(a.caller, b.caller); }
    if Known(a.level) && Known(b.level) { LevelParsed(a.level); LevelParsed(b.level); }
    hide CallerJson, FieldJson;
    forall i | 0 <= i < |a.fields|
      ensures a.fields[i].key == b.fields[i].key && FieldJson(a.fields[i]) == FieldJson(b.fields[i])
      ensures a.fields[i].kind == b.fields[i].kind ==> SameValue(a.fields[i], b.fields[i])
    {
      assert FieldMembers(a.fields)[i] == FieldMembers(b.fields)[i];
      if a.fields[i].kind == b.fields[i].kind { TellsValue(a.fields[i], b.fields[i]); }
    }
  }

  /** The same in the one attribute this type of field uses. */
  predicate SameValue(a: Field, b: Field) {
    match a.kind
    case StringType => a.str == b.str
    case IntType => a.int64 == b.int64
    case Int64Type => a.int64 == b.int64
    case Float64Type => a.float == b.float
    case BoolType => (a.int64 == 1) == (b.int64 == 1)
    case TimeType => a.timeText == b.timeText
    case DurationType => a.int64 == b.int64
    case ErrorType => a.str == b.str
    case AnyType => a.anyText == b.anyText
    case UnknownType => true
  }

  lemma TellsValue(a: Field, b: Field)
    requires Sound(a) && Sound(b) && a.kind == b.kind && FieldJson(a) == FieldJson(b)
    ensures SameValue(a, b)
  {
  }

  // ---------------------------------------------------------------- levels

  function UpperChar(c: char): char {
    if 'a' <= c <= 'z' then c - ('a' - 'A') else c
  }

  /** strings.ToUpper, on ASCII letters. */
  function Upper(s: string): string {
    seq(|s|, i requires 0 <= i < |s| => UpperChar(s[i]))
  }

  function ParseLevel(s: string): Level {
    var u := Upper(s);
    if u == "DEBUG" then DEBUG_LEVEL
    else if u == "INFO" then INFO_LEVEL
    else if u == "WARN" || u == "WARNING" then WARN_LEVEL
    else if u == "ERROR" then ERROR_LEVEL
    else if u == "FATAL" then FATAL_LEVEL
    else if u == "PANIC" then PANIC_LEVEL
    else INFO_LEVEL
  }

  predicate Known(l: Level) {
    DEBUG_LEVEL <= l <= PANIC_LEVEL
  }

  /** The printed name of a level is parsed as this level; any other level reads as Info. */
  lemma LevelParsed(l: Level)
    ensures ParseLevel(LevelName(l)) == if Known(l) then l else INFO_LEVEL
  {
    assert Upper(LevelName(l)) == LevelName(l);
  }
}
