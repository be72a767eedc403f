/**
 A reference reader for the JSON texts of RFC 8259: objects (section 4), numbers
 (section 6), strings (section 7) and the literals, with insignificant white
 space wherever section 2 allows it. Arrays are not read. A \uXXXX escape is read
 when it denotes a one-byte character.
 */
module JsonReader {
  import opened Core

  datatype Json =
    | JString(text: string)
    | JNumber(negative: bool, whole: nat, fraction: seq<Digit>, exponent: int)
    | JBool(value: bool)
    | JNull
    | JObject(members: seq<(string, Json)>)

  datatype Parsed<+T> = Parsed(value: T, rest: string) | Rejected

  // ---------------------------------------------------------------- white space

  predicate IsSpace(c: char) {
    c == ' ' || c == '\t' || c == '\n' || c == '\r'
  }

  function SkipSpace(s: string): (r: string)
    ensures |r| <= |s|
    ensures r != "" ==> !IsSpace(r[0])
  {
    if s != "" && IsSpace(s[0]) then SkipSpace(s[1..]) else s
  }

  // ---------------------------------------------------------------- strings

  function HexValue(c: char): Option<nat> {
    if '0' <= c <= '9' then Some((c as int) - ('0' as int))
    else if 'a' <= c <= 'f' then Some((c as int) - ('a' as int) + 10)
    else if 'A' <= c <= 'F' then Some((c as int) - ('A' as int) + 10)
    else None
  }

  /** The character of the four hexadecimal digits at the start of s. */
  function ReadHex(s: string): (r: Parsed<char>)
    ensures r.Parsed? ==> |r.rest| == |s| - 4
  {
    if |s| < 4 || HexValue(s[0]) != Some(0) || HexValue(s[1]) != Some(0) then Rejected else
    match (HexValue(s[2]), HexValue(s[3]))
    case (Some(h), Some(l)) => if h < 8 then Parsed((16 * h + l) as char, s[4..]) else Rejected
    case _ => Rejected
  }

  /** The character denoted by the escape after a backslash. */
  function ReadEscape(s: string): (r: Parsed<char>)
    ensures r.Parsed? ==> |r.rest| < |s|
  {
    if s == "" then Rejected
    else if s[0] == '"' || s[0] == '\\' || s[0] == '/' then Parsed(s[0], s[1..])
    else if s[0] == 'b' then Parsed(8 as char, s[1..])
    else if s[0] == 'f' then Parsed(12 as char, s[1..])
    else if s[0] == 'n' then Parsed('\n', s[1..])
    else if s[0] == 'r' then Parsed('\r', s[1..])
    else if s[0] == 't' then Parsed('\t', s[1..])
    else if s[0] == 'u' then ReadHex(s[1..])
    else Rejected
  }

  /** The rest of a string after its opening quote, up to the first unescaped quote. */
  function ReadString(s: string): (r: Parsed<string>)
    ensures r.Parsed? ==> |r.rest| < |s|
    decreases |s|
  {
    if s == "" || s[0] < ' ' then Rejected
    else if s[0] == '"' then Parsed("", s[1..])
    else
      var first := if s[0] == '\\' then ReadEscape(s[1..]) else Parsed(s[0], s[1..]);
      if first.Rejected? then Rejected else
      match ReadString(first.rest)
      case Rejected => Rejected
      case Parsed(tail, rest) => Parsed([first.value] + tail, rest)
  }

  // ---------------------------------------------------------------- numbers

  predicate IsDigit(c: char) {
    '0' <= c <= '9'
  }

  function ReadDigits(s: string): (r: (seq<Digit>, string))
    ensures |r.1| == |s| - |r.0|
  {
    if s == "" || !IsDigit(s[0]) then ([], s) else
    var (ds, rest) := ReadDigits(s[1..]);
    ([((s[0] as int) - ('0' as int)) as Digit] + ds, rest)
  }

  function Value(ds: seq<Digit>): nat {
    if ds == [] then 0 else 10 * Value(ds[..|ds| - 1]) + ds[|ds| - 1]
  }

  /** The part after an optional point: at least one digit. */
  function ReadFraction(s: string): (r: Parsed<seq<Digit>>)
    ensures r.Parsed? ==> |r.rest| <= |s|
  {
    if s == "" || s[0] != '.' then Parsed([], s) else
    var (ds, rest) := ReadDigits(s[1..]);
    if ds == [] then Rejected else Parsed(ds, rest)
  }

  function ReadExponent(s: string): (r: Parsed<int>)
    ensures r.Parsed? ==> |r.rest| <= |s|
  {
    if s == "" || (s[0] != 'e' && s[0] != 'E') then Parsed(0, s) else
    var signed := |s| > 1 && (s[1] == '+' || s[1] == '-');
    var (ds, rest) := ReadDigits(if signed then s[2..] else s[1..]);
    if ds == [] then Rejected
    else
      var magnitude: int := Value(ds);
      Parsed(if signed && s[1] == '-' then -magnitude else magnitude, rest)
  }

  /** A number after its sign. */
  function ReadUnsigned(negative: bool, s: string): (r: Parsed<Json>)
    ensures r.Parsed? ==> |r.rest| < |s|
  {
    var (ds, rest) := ReadDigits(s);
    if ds == [] || (ds[0] == 0 && |ds| > 1) then Rejected else
    match ReadFraction(rest)
    case Rejected => Rejected
    case Parsed(fraction, rest) =>
      match ReadExponent(rest)
      case Rejected => Rejected
      case Parsed(exponent, rest) => Parsed(JNumber(negative, Value(ds), fraction, exponent), rest)
  }

  function ReadNumber(s: string): (r: Parsed<Json>)
    ensures r.Parsed? ==> |r.rest| < |s|
  {
    if s != "" && s[0] == '-' then ReadUnsigned(true, s[1..]) else ReadUnsigned(false, s)
  }

  // ---------------------------------------------------------------- values

  function ReadLiteral(s: string, word: string, v: Json): (r: Parsed<Json>)
    requires word != ""
    ensures r.Parsed? ==> |r.rest| < |s|
  {
    if |word| <= |s| && s[..|word|] == word then Parsed(v, s[|word|..]) else Rejected
  }

  function ReadValue(s: string): (r: Parsed<Json>)
    ensures r.Parsed? ==> |r.rest| < |s|
    decreases |s|, 1
  {
    if s == "" then Rejected
    else if s[0] == '"' then
      match ReadString(s[1..])
      case Rejected => Rejected
      case Parsed(text, rest) => Parsed(JString(text), rest)
    else if s[0] == '{' then ReadObject(s[1..])
    else if s[0] == 't' then ReadLiteral(s, "true", JBool(true))
    else if s[0] == 'f' then ReadLiteral(s, "false", JBool(false))
    else if s[0] == 'n' then ReadLiteral(s, "null", JNull)
    else ReadNumber(s)
  }

  /** An object after its opening brace. */
  function ReadObject(s: string): (r: Parsed<Json>)
    ensures r.Parsed? ==> |r.rest| <= |s|
    decreases |s|, 1
  {
    var t := SkipSpace(s);
    if t != "" && t[0] == '}' then Parsed(JObject([]), t[1..]) else
    match ReadMembers(t)
    case Rejected => Rejected
    case Parsed(members, rest) => Parsed(JObject(members), rest)
  }

  /** One or more members separated by commas, and the closing brace. */
  function ReadMembers(s: string): (r: Parsed<seq<(string, Json)>>)
    ensures r.Parsed? ==> |r.rest| < |s|
    decreases |s|, 0
  {
    var s := SkipSpace(s);
    if s == "" || s[0] != '"' then Rejected else
    match ReadString(s[1..])
    case Rejected => Rejected
    case Parsed(key, rest) =>
      var t := SkipSpace(rest);
      if t == "" || t[0] != ':' then Rejected else
      match ReadValue(SkipSpace(t[1..]))
      case Rejected => Rejected
      case Parsed(v, rest) =>
        var u := SkipSpace(rest);
        if u == "" then Rejected
        else if u[0] == '}' then Parsed([(key, v)], u[1..])
        else if u[0] != ',' then Rejected
        else
          match ReadMembers(u[1..])
          case Rejected => Rejected
          case Parsed(members, rest) => Parsed([(key, v)] + members, rest)
  }

  /** A whole JSON text. */
  function ReadText(s: string): Option<Json> {
    match ReadValue(SkipSpace(s))
    case Rejected => None
    case Parsed(v, rest) => if SkipSpace(rest) == "" then Some(v) else None
  }
}
