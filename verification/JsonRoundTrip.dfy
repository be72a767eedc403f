/**
 The encoder against the reader: what formatJSONToBuffer appends is one JSON
 object whose members, in order, are the entry's data.
 */
module JsonRoundTrip {
  import opened Core
  import opened JsonFormatter
  import opened JsonReader

  // ---------------------------------------------------------------- strings

  lemma {:induction false} EscapePlain(s: string)
    requires forall i | 0 <= i < |s| :: Plain(s[i])
    ensures Escape(s) == s
  {
    if s != "" {
      EscapePlain(s[1..]);
    }
  }

  lemma HexDigit(d: nat)
    requires d < 16
    ensures HexValue(HEX_CHARS[d]) == Some(d)
  {
  }

  lemma ControlEscape(c: char, tail: string)
    requires c < ' '
    ensures ReadHex("00" + [HEX_CHARS[c as int / 16], HEX_CHARS[c as int % 16]] + tail) == Parsed(c, tail)
  {
    var x, y := HEX_CHARS[c as int / 16], HEX_CHARS[c as int % 16];
    var s := "00" + [x, y] + tail;
    HexDigit(c as int / 16);
    HexDigit(c as int % 16);
    assert s[0] == '0' && s[1] == '0' && s[2] == x && s[3] == y && s[4..] == tail;
  }

  /** The escape of a byte that needs one, without the backslash, is read back as that byte. */
  lemma ReadEscapeOf(c: char, tail: string)
    requires !Plain(c)
    ensures ReadEscape(EscapeByte(c)[1..] + tail) == Parsed(c, tail)
  {
    var s := EscapeByte(c)[1..] + tail;
    if EscapeByte(c)[1] != 'u' {
      assert s[0] == EscapeByte(c)[1] && s[1..] == tail;
    } else {
      hide ReadHex;
      ControlEscape(c, tail);
      assert s[1..] == "00" + [HEX_CHARS[c as int / 16], HEX_CHARS[c as int % 16]] + tail;
    }
  }

  /** The escape of one byte is read back as that byte. */
  lemma ReadOne(c: char, tail: string)
    ensures ReadString(EscapeByte(c) + tail)
         == match ReadString(tail) case Rejected => Rejected case Parsed(t, rest) => Parsed([c] + t, rest)
  {
    hide ReadEscape, HEX_CHARS;
    var s := EscapeByte(c) + tail;
    if Plain(c) {
      assert s[1..] == tail;
    } else {
      ReadEscapeOf(c, tail);
      assert s[0] == '\\' && s[1..] == EscapeByte(c)[1..] + tail;
    }
  }

  /** A string is read back up to its closing quote, whatever follows. */
  lemma {:induction false} ReadEscaped(s: string, rest: string)
    ensures ReadString(Escape(s) + "\"" + rest) == Parsed(s, rest)
  {
    if s == "" {
      assert Escape(s) + "\"" + rest == "\"" + rest;
      assert ("\"" + rest)[1..] == rest;
    } else {
      ReadEscaped(s[1..], rest);
      ReadOne(s[0], Escape(s[1..]) + "\"" + rest);
      assert Escape(s) + "\"" + rest == EscapeByte(s[0]) + (Escape(s[1..]) + "\"" + rest);
      assert s == [s[0]] + s[1..];
    }
  }

  /** Escaping loses nothing. */
  lemma EscapeInjective(a: string, b: string)
    requires Escape(a) == Escape(b)
    ensures a == b
  {
    ReadEscaped(a, "");
    ReadEscaped(b, "");
  }

  // ---------------------------------------------------------------- numbers

  predicate NoDigitFirst(s: string) {
    s == "" || !IsDigit(s[0])
  }

  lemma ReadDigit(d: Digit, tail: string)
    ensures ReadDigits([DigitChar(d)] + tail) == ([d] + ReadDigits(tail).0, ReadDigits(tail).1)
  {
    assert ([DigitChar(d)] + tail)[1..] == tail;
  }

  lemma {:induction false} ReadDigitText(ds: seq<Digit>, rest: string)
    requires NoDigitFirst(rest)
    ensures ReadDigits(DigitText(ds) + rest) == (ds, rest)
  {
    if ds == [] {
      assert DigitText(ds) + rest == rest;
    } else {
      hide ReadDigits, DigitChar;
      ReadDigitText(ds[1..], rest);
      Onto([DigitChar(ds[0])], DigitText(ds[1..]), rest);
      ReadDigit(ds[0], DigitText(ds[1..]) + rest);
      assert ds == [ds[0]] + ds[1..];
    }
  }

  lemma {:induction false} ValueOfDigits(n: nat)
    ensures DigitsOf(n) != [] && Value(DigitsOf(n)) == n
    ensures DigitsOf(n)[0] == 0 ==> |DigitsOf(n)| == 1
  {
    if n >= 10 {
      ValueOfDigits(n / 10);
      var ds := DigitsOf(n);
      assert ds[..|ds| - 1] == DigitsOf(n / 10);
    } else {
      assert DigitsOf(n)[..0] == [];
    }
  }

  /** What may follow a number in a JSON text without being read as part of it. */
  predicate Terminated(s: string) {
    s == "" || !(IsDigit(s[0]) || s[0] == '.' || s[0] == 'e' || s[0] == 'E')
  }

  function FractionText(fraction: seq<Digit>): string {
    if fraction == [] then "" else "." + DigitText(fraction)
  }

  lemma AfterFirst(c: char, s: string)
    ensures ([c] + s)[0] == c && ([c] + s)[1..] == s
  {
  }

  lemma ReadFractionText(fraction: seq<Digit>, rest: string)
    requires Terminated(rest)
    ensures ReadFraction(FractionText(fraction) + rest) == Parsed(fraction, rest)
  {
    if fraction == [] {
      assert FractionText(fraction) + rest == rest;
    } else {
      hide ReadDigits, DigitText;
      ReadDigitText(fraction, rest);
      Onto(".", DigitText(fraction), rest);
      AfterFirst('.', DigitText(fraction) + rest);
    }
  }

  lemma ReadUnsignedText(negative: bool, whole: nat, fraction: seq<Digit>, rest: string)
    requires Terminated(rest)
    ensures ReadUnsigned(negative, DigitText(DigitsOf(whole)) + (FractionText(fraction) + rest))
         == Parsed(JNumber(negative, whole, fraction, 0), rest)
  {
    ValueOfDigits(whole);
    ReadDigitText(DigitsOf(whole), FractionText(fraction) + rest);
    ReadFractionText(fraction, rest);
  }

  lemma DigitFirst(n: nat, rest: string)
    ensures var s := DigitText(DigitsOf(n)) + rest; s != "" && IsDigit(s[0])
  {
    ValueOfDigits(n);
    var ds := DigitsOf(n);
    assert DigitText(ds) == [DigitChar(ds[0])] + DigitText(ds[1..]);
  }

  /** A value that starts like a number is read as one. */
  lemma ReadsAsNumber(s: string)
    requires s != "" && (IsDigit(s[0]) || s[0] == '-')
    ensures ReadValue(s) == ReadNumber(s)
  {
    hide ReadNumber;
  }

  lemma ReadNumberText(negative: bool, whole: nat, fraction: seq<Digit>, rest: string)
    requires Terminated(rest)
    ensures ReadValue((if negative then "-" else "") + (DigitText(DigitsOf(whole)) + (FractionText(fraction) + rest)))
         == Parsed(JNumber(negative, whole, fraction, 0), rest)
  {
    hide ReadUnsigned, ReadValue, DigitText, DigitsOf, FractionText;
    var digits := DigitText(DigitsOf(whole)) + (FractionText(fraction) + rest);
    ReadUnsignedText(negative, whole, fraction, rest);
    DigitFirst(whole, FractionText(fraction) + rest);
    if negative {
      AfterFirst('-', digits);
      ReadsAsNumber("-" + digits);
    } else {
      assert "" + digits == digits;
      ReadsAsNumber(digits);
    }
  }

  // ---------------------------------------------------------------- values

  /** The text is read as v, whatever terminator follows it. */
  ghost predicate Reads(text: string, v: Json) {
    forall rest | Terminated(rest) :: ReadValue(text + rest) == Parsed(v, rest)
  }

  /** The text is not a JSON value, whatever follows it. */
  ghost predicate Refused(text: string) {
    forall rest :: ReadValue(text + rest).Rejected?
  }

  lemma ReadsString(s: string)
    ensures Reads(Quoted(Escape(s)), JString(s))
  {
    forall rest | Terminated(rest) ensures ReadValue(Quoted(Escape(s)) + rest) == Parsed(JString(s), rest) {
      ReadEscaped(s, rest);
      assert (Quoted(Escape(s)) + rest)[1..] == Escape(s) + "\"" + rest;
    }
  }

  lemma ReadsSafe(s: string)
    requires Safe(s)
    ensures Reads(Quoted(s), JString(s))
  {
    EscapePlain(s);
    ReadsString(s);
  }

  lemma IntTextOnto(n: int, rest: string)
    ensures var m: nat := if n < 0 then -n else n;
            IntText(n) + rest == (if n < 0 then "-" else "") + (DigitText(DigitsOf(m)) + (FractionText([]) + rest))
  {
    assert FractionText([]) + rest == rest;
    if n < 0 { Onto("-", DigitText(DigitsOf(-n)), rest); } else { Onto("", DigitText(DigitsOf(n)), rest); }
  }

  lemma ReadsInt(n: int)
    ensures Reads(IntText(n), IntJson(n))
  {
    forall rest | Terminated(rest) ensures ReadValue(IntText(n) + rest) == Parsed(IntJson(n), rest) {
      IntTextOnto(n, rest);
      ReadNumberText(n < 0, if n < 0 then -n else n, [], rest);
    }
  }

  lemma FloatTextOnto(f: Float, rest: string)
    requires f.Finite?
    ensures FloatText(f) + rest
         == (if f.negative then "-" else "") + (DigitText(DigitsOf(f.whole)) + (FractionText(f.fraction) + rest))
  {
    hide DigitText, DigitsOf;
    var sign, digits := if f.negative then "-" else "", DigitText(DigitsOf(f.whole));
    assert FloatText(f) == sign + digits + FractionText(f.fraction);
    Onto(sign + digits, FractionText(f.fraction), rest);
    Onto(sign, digits, FractionText(f.fraction) + rest);
  }

  lemma ReadsFloat(f: Float)
    requires f.Finite?
    ensures Reads(FloatText(f), JNumber(f.negative, f.whole, f.fraction, 0))
  {
    hide FloatText, ReadValue, DigitText, DigitsOf, FractionText;
    forall rest | Terminated(rest)
      ensures ReadValue(FloatText(f) + rest) == Parsed(JNumber(f.negative, f.whole, f.fraction, 0), rest)
    {
      ReadNumberText(f.negative, f.whole, f.fraction, rest);
      FloatTextOnto(f, rest);
    }
  }

  lemma ReadsBool(b: bool)
    ensures Reads(if b then "true" else "false", JBool(b))
  {
    forall rest | Terminated(rest) ensures ReadValue((if b then "true" else "false") + rest) == Parsed(JBool(b), rest) {
      var word := if b then "true" else "false";
      var s := word + rest;
      assert s[..|word|] == word && s[|word|..] == rest;
    }
  }

  /** NaN and the infinities are no JSON numbers. */
  lemma NonFiniteRefused(f: Float)
    requires !f.Finite?
    ensures Refused(FloatText(f))
  {
    forall rest ensures ReadValue(FloatText(f) + rest).Rejected? {
      var s := FloatText(f) + rest;
      if f == Infinite(true) {
        assert s[0] == '-' && s[1..][0] == 'I';
        assert ReadDigits(s[1..]).0 == [];
      } else {
        assert ReadDigits(s).0 == [];
      }
    }
  }

  // ---------------------------------------------------------------- what an entry means

  /** A text with no quote, backslash or control byte. */
  predicate Safe(s: string) {
    forall i | 0 <= i < |s| :: Plain(s[i])
  }

  function IntJson(n: int): Json {
    JNumber(n < 0, if n < 0 then -n else n, [], 0)
  }

  predicate Sound(f: Field) {
    f.kind.Float64Type? ==> f.float.Finite?
  }

  function FieldJson(f: Field): Json
    requires Sound(f)
  {
    match f.kind
    case StringType => JString(f.str)
    case IntType => IntJson(f.int64)
    case Int64Type => IntJson(f.int64)
    case Float64Type => JNumber(f.float.negative, f.float.whole, f.float.fraction, 0)
    case BoolType => JBool(f.int64 == 1)
    case TimeType => JString(f.timeText)
    case DurationType => IntJson(f.int64)
    case ErrorType => JString(f.str)
    case AnyType => JString(f.anyText)
    case UnknownType => JString("")
  }

  lemma FieldReads(f: Field)
    requires f.kind.TimeType? ==> Safe(f.timeText)
    ensures Sound(f) ==> Reads(FieldValueText(f), FieldJson(f))
    ensures !Sound(f) ==> Refused(FieldValueText(f))
  {
    match f.kind
    case StringType => ReadsString(f.str);
    case IntType => ReadsInt(f.int64);
    case Int64Type => ReadsInt(f.int64);
    case Float64Type => if Sound(f) { ReadsFloat(f.float); } else { NonFiniteRefused(f.float); }
    case BoolType => ReadsBool(f.int64 == 1);
    case TimeType => ReadsSafe(f.timeText);
    case DurationType => ReadsInt(f.int64);
    case ErrorType => ReadsString(f.str);
    case _ => ReadsString(f.StringValueOfRest());
  }

  // ---------------------------------------------------------------- objects

  /** A key and the text of its value. */
  type Item = (string, string)

  function ItemText(item: Item): string {
    "\"" + Escape(item.0) + "\":" + item.1
  }

  function ItemsText(items: seq<Item>): string
    requires items != []
  {
    if |items| == 1 then ItemText(items[0]) else ItemText(items[0]) + "," + ItemsText(items[1..])
  }

  /** What follows a value inside an object. */
  predicate Follows(s: string) {
    s != "" && (s[0] == ',' || s[0] == '}')
  }

  lemma RegroupItem(key: string, text: string, tail: string)
    ensures "\"" + key + "\":" + text + tail == "\"" + (key + "\"" + (":" + (text + tail)))
  {
    assert "\":" == "\"" + ":";
  }

  /** The key and the colon are read, and the value is next. */
  lemma ReadKey(item: Item, tail: string)
    ensures var s := ItemText(item) + tail;
            && s != "" && s[0] == '"'
            && ReadString(s[1..]) == Parsed(item.0, ":" + (item.1 + tail))
  {
    var after := ":" + (item.1 + tail);
    RegroupItem(Escape(item.0), item.1, tail);
    ReadEscaped(item.0, after);
    assert ("\"" + (Escape(item.0) + "\"" + after))[1..] == Escape(item.0) + "\"" + after;
  }

  /** A value text does not begin with white space. */
  lemma ReadsNoSpace(text: string, v: Json, tail: string)
    requires Reads(text, v) && Follows(tail)
    ensures SkipSpace(text + tail) == text + tail
  {
    assert ReadValue(text + tail) == Parsed(v, tail);
    assert IsSpace((text + tail)[0]) ==> ReadDigits(text + tail).0 == [];
  }

  /** A member once its key is read. */
  lemma ReadMember(s: string, key: string, rest: string)
    requires s != "" && s[0] == '"' && ReadString(s[1..]) == Parsed(key, ":" + rest) && SkipSpace(rest) == rest
    ensures ReadMembers(s) ==
      match ReadValue(rest)
      case Rejected => Rejected
      case Parsed(v, rest) =>
        var u := SkipSpace(rest);
        if u == "" then Rejected
        else if u[0] == '}' then Parsed([(key, v)], u[1..])
        else if u[0] != ',' then Rejected
        else
          match ReadMembers(u[1..])
          case Rejected => Rejected
          case Parsed(members, rest) => Parsed([(key, v)] + members, rest)
  {
    assert (":" + rest)[1..] == rest;
  }

  /** One member: what follows its value decides how the object goes on. */
  lemma ReadItem(item: Item, v: Json, tail: string)
    requires Reads(item.1, v) && Follows(tail)
    ensures ReadMembers(ItemText(item) + tail)
         == if tail[0] == '}' then Parsed([(item.0, v)], tail[1..])
            else match ReadMembers(tail[1..])
                 case Rejected => Rejected
                 case Parsed(ms, rest) => Parsed([(item.0, v)] + ms, rest)
  {
    ReadKey(item, tail);
    ReadsNoSpace(item.1, v, tail);
    ReadMember(ItemText(item) + tail, item.0, item.1 + tail);
    assert ReadValue(item.1 + tail) == Parsed(v, tail);
  }

  lemma RefuseItem(item: Item, tail: string)
    requires Refused(item.1) && item.1 != "" && !IsSpace(item.1[0])
    ensures ReadMembers(ItemText(item) + tail).Rejected?
  {
    ReadKey(item, tail);
    ReadMember(ItemText(item) + tail, item.0, item.1 + tail);
    assert ReadValue(item.1 + tail).Rejected?;
  }

  /** Each item's text is read as the value at its place. */
  ghost predicate AllRead(items: seq<Item>, values: seq<Json>) {
    |items| == |values| && forall i | 0 <= i < |items| :: Reads(items[i].1, values[i])
  }

  function Named(items: seq<Item>, values: seq<Json>): seq<(string, Json)>
    requires |items| == |values|
  {
    if items == [] then [] else [(items[0].0, values[0])] + Named(items[1..], values[1..])
  }

  lemma ReadLastItem(item: Item, v: Json, rest: string)
    requires Reads(item.1, v)
    ensures ReadMembers(ItemsText([item]) + ("}" + rest)) == Parsed(Named([item], [v]), rest)
  {
    BraceTail(rest);
    ReadItem(item, v, "}" + rest);
    assert ReadMembers(ItemText(item) + ("}" + rest)) == Parsed([(item.0, v)], rest);
    NamedOne(item, v);
    assert ItemsText([item]) == ItemText(item);
  }

  lemma NamedOne(item: Item, v: Json)
    ensures Named([item], [v]) == [(item.0, v)]
  {
    assert [item][1..] == [] && [v][1..] == [];
    var tail: seq<(string, Json)> := Named([item][1..], [v][1..]);
    assert tail == [];
  }

  lemma ReadFirstItem(items: seq<Item>, v: Json, tail: string)
    requires |items| > 1 && Reads(items[0].1, v)
    ensures ReadMembers(ItemsText(items) + tail)
         == match ReadMembers(ItemsText(items[1..]) + tail)
            case Rejected => Rejected
            case Parsed(ms, rest) => Parsed([(items[0].0, v)] + ms, rest)
  {
    var later := ItemsText(items[1..]) + tail;
    ReadItem(items[0], v, "," + later);
    CommaTail(later);
    RegroupComma(ItemText(items[0]), ItemsText(items[1..]), tail);
  }

  lemma BraceTail(s: string)
    ensures ("}" + s)[1..] == s && ("}" + s)[0] == '}'
  {
  }

  lemma CommaTail(s: string)
    ensures ("," + s)[1..] == s && ("," + s)[0] == ','
  {
  }

  lemma RegroupComma(a: string, b: string, tail: string)
    ensures a + "," + b + tail == a + ("," + (b + tail))
  {
    Onto(a + ",", b, tail);
    Onto(a, ",", b + tail);
  }

  lemma {:induction false} ReadItems(items: seq<Item>, values: seq<Json>, rest: string)
    requires items != [] && AllRead(items, values)
    ensures ReadMembers(ItemsText(items) + ("}" + rest)) == Parsed(Named(items, values), rest)
  {
    if |items| == 1 {
      assert items == [items[0]] && values == [values[0]];
      ReadLastItem(items[0], values[0], rest);
    } else {
      ReadItems(items[1..], values[1..], rest);
      ReadFirstItem(items, values[0], "}" + rest);
    }
  }

  /** The items before some text, with the comma between. */
  function Before(items: seq<Item>, text: string): string {
    if items == [] then text else ItemText(items[0]) + ("," + Before(items[1..], text))
  }

  /** An item that is not read makes the whole object unreadable. */
  lemma {:induction false} RefuseItems(items: seq<Item>, values: seq<Json>, bad: Item, more: string)
    requires AllRead(items, values)
    requires Refused(bad.1) && bad.1 != "" && !IsSpace(bad.1[0])
    ensures ReadMembers(Before(items, ItemText(bad) + more)).Rejected?
  {
    if items == [] {
      RefuseItem(bad, more);
    } else {
      var tail := Before(items[1..], ItemText(bad) + more);
      RefuseItems(items[1..], values[1..], bad, more);
      CommaTail(tail);
      ReadItem(items[0], values[0], "," + tail);
    }
  }

  lemma ReadsBrace(inner: string)
    ensures ReadValue("{" + inner) == ReadObject(inner)
  {
    hide ReadObject;
    AfterFirst('{', inner);
  }

  /** The braces around the members. */
  lemma ReadsObject(items: seq<Item>, values: seq<Json>)
    requires items != [] && AllRead(items, values)
    ensures Reads("{" + ItemsText(items) + "}", JObject(Named(items, values)))
  {
    hide ReadValue, ReadMembers, ItemsText, SkipSpace, Named;
    var text := "{" + ItemsText(items) + "}";
    forall rest | Terminated(rest) ensures ReadValue(text + rest) == Parsed(JObject(Named(items, values)), rest) {
      ReadItems(items, values, rest);
      ItemsStart(items, "}" + rest);
      ReadsBrace(ItemsText(items) + ("}" + rest));
      Onto("{" + ItemsText(items), "}", rest);
      Onto("{", ItemsText(items), "}" + rest);
    }
  }

  lemma ItemsStart(items: seq<Item>, rest: string)
    requires items != []
    ensures var s := ItemsText(items) + rest; s != "" && s[0] == '"' && SkipSpace(s) == s
  {
    assert ItemText(items[0])[0] == '"';
  }
}
