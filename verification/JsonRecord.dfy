/**
 A formatted record is one JSON object with exactly the entry's members, in
 order, if and only if every float in it is finite.
 */
module JsonRecord {
  import opened Core
  import opened JsonFormatter
  import opened JsonReader
  import opened JsonRoundTrip

  // ---------------------------------------------------------------- meaning

  function CallerJson(c: CallerInfo): Json {
    JObject([("file", JString(c.shortFile)), ("line", IntJson(c.line))]
            + if c.funcName == "" then [] else [("function", JString(c.funcName))])
  }

  function FieldMembers(fields: seq<Field>): seq<(string, Json)>
    requires forall f | f in fields :: Sound(f)
  {
    seq(|fields|, i requires 0 <= i < |fields| => (fields[i].key, FieldJson(fields[i])))
  }

  /** The members an entry's record should have. */
  function Members(includeCaller: bool, e: Entry): seq<(string, Json)>
    requires forall f | f in e.fields :: Sound(f)
  {
    [("time", JString(e.timeText)), ("level", JString(LevelName(e.level))), ("message", JString(e.message))]
    + (if includeCaller && e.caller.defined then [("caller", CallerJson(e.caller))] else [])
    + FieldMembers(e.fields)
  }

  /** The layouts in use yield times without quotes, backslashes or control bytes. */
  predicate SafeTimes(e: Entry) {
    Safe(e.timeText) && forall f | f in e.fields && f.kind.TimeType? :: Safe(f.timeText)
  }

  // ---------------------------------------------------------------- the record as items

  function CallerItems(c: CallerInfo): seq<Item> {
    [("file", Quoted(Escape(c.shortFile))), ("line", IntText(c.line))]
    + if c.funcName == "" then [] else [("function", Quoted(Escape(c.funcName)))]
  }

  function CallerObject(c: CallerInfo): string {
    "{" + ItemsText(CallerItems(c)) + "}"
  }

  function HeadItems(e: Entry): seq<Item> {
    [("time", Quoted(e.timeText)), ("level", Quoted(LevelName(e.level))), ("message", Quoted(Escape(e.message)))]
  }

  function OptionalCallerItems(includeCaller: bool, c: CallerInfo): seq<Item> {
    if includeCaller && c.defined then [("caller", CallerObject(c))] else []
  }

  function FieldItem(f: Field): Item {
    (f.key, FieldValueText(f))
  }

  function FieldItems(fields: seq<Field>): seq<Item> {
    seq(|fields|, i requires 0 <= i < |fields| => FieldItem(fields[i]))
  }

  function Items(includeCaller: bool, e: Entry): seq<Item> {
    HeadItems(e) + OptionalCallerItems(includeCaller, e.caller) + FieldItems(e.fields)
  }

  /** Items each preceded by a comma. */
  function Tail(items: seq<Item>): string {
    if items == [] then "" else "," + ItemText(items[0]) + Tail(items[1..])
  }

  lemma {:induction false} ItemsThenTail(items: seq<Item>, more: seq<Item>)
    requires items != []
    ensures ItemsText(items + more) == ItemsText(items) + Tail(more)
  {
    hide ItemText;
    if |items| > 1 {
      ItemsThenTail(items[1..], more);
      assert (items + more)[1..] == items[1..] + more;
      Onto(ItemText(items[0]) + ",", ItemsText(items[1..]), Tail(more));
    } else if more == [] {
      assert items + more == items;
    } else {
      assert (items + more)[1..] == more;
      TailIsItems(more);
      Onto(ItemText(items[0]), ",", ItemsText(more));
    }
  }

  lemma {:induction false} TailIsItems(items: seq<Item>)
    requires items != []
    ensures Tail(items) == "," + ItemsText(items)
  {
    if |items| > 1 {
      TailIsItems(items[1..]);
      Onto(",", ItemText(items[0]), "," + ItemsText(items[1..]));
      Onto(ItemText(items[0]), ",", ItemsText(items[1..]));
    } else {
      assert Tail(items[1..]) == "";
      assert "," + ItemText(items[0]) + "" == "," + ItemText(items[0]);
    }
  }

  lemma {:induction false} TailAppend(a: seq<Item>, b: seq<Item>)
    ensures Tail(a + b) == Tail(a) + Tail(b)
  {
    hide ItemText;
    if a == [] {
      assert a + b == b;
    } else {
      TailAppend(a[1..], b);
      TailCons(a[0], a[1..] + b);
      TailCons(a[0], a[1..]);
      assert a == [a[0]] + a[1..] && a + b == [a[0]] + (a[1..] + b);
      Onto("," + ItemText(a[0]), Tail(a[1..]), Tail(b));
    }
  }

  lemma TailCons(item: Item, items: seq<Item>)
    ensures Tail([item] + items) == "," + ItemText(item) + Tail(items)
  {
    assert ([item] + items)[1..] == items;
  }

  lemma TailOne(item: Item)
    ensures Tail([item]) == "," + ItemText(item)
  {
    TailIsItems([item]);
  }

  lemma FieldIsTail(f: Field)
    ensures FieldText(f) == Tail([FieldItem(f)])
  {
    TailOne(FieldItem(f));
    assert ",\"" == "," + "\"";
    Onto3(",", "\"", Escape(f.key), "\":");
    Onto(",", "\"" + Escape(f.key) + "\":", FieldValueText(f));
  }

  lemma FieldItemsLast(fields: seq<Field>)
    requires fields != []
    ensures FieldItems(fields) == FieldItems(fields[..|fields| - 1]) + [FieldItem(fields[|fields| - 1])]
  {
    hide FieldItem;
  }

  lemma {:induction false} FieldsAreTail(fields: seq<Field>)
    ensures FieldsText(fields) == Tail(FieldItems(fields))
  {
    if fields == [] {
      assert FieldItems(fields) == [];
    } else {
      hide Tail, FieldText, FieldItem, FieldItems;
      var front, last := fields[..|fields| - 1], fields[|fields| - 1];
      FieldsAreTail(front);
      FieldIsTail(last);
      FieldItemsLast(fields);
      TailAppend(FieldItems(front), [FieldItem(last)]);
    }
  }

  /** A member with a plain key and a quoted value. */
  lemma QuotedItem(key: string, text: string)
    requires Safe(key)
    ensures ItemText((key, Quoted(text))) == "\"" + key + "\":\"" + text + "\""
  {
    EscapePlain(key);
    assert "\":\"" == "\":" + "\"";
    Onto("\"" + key, "\":", "\"");
    Onto("\"" + key + "\":", "\"" + text, "\"");
    Onto("\"" + key + "\":", "\"", text);
  }

  lemma ThreeItems(a: Item, b: Item, c: Item)
    ensures ItemsText([a, b, c]) == ItemText(a) + "," + (ItemText(b) + "," + ItemText(c))
  {
    assert [a, b, c][1..] == [b, c];
    TwoItems(b, c);
  }

  lemma TwoItems(a: Item, b: Item)
    ensures ItemsText([a, b]) == ItemText(a) + "," + ItemText(b)
  {
    assert [a, b][1..] == [b];
    assert ItemsText([b]) == ItemText(b);
  }

  lemma HeadIsItems(e: Entry)
    ensures HeadText(e) == "{" + ItemsText(HeadItems(e))
  {
    var t, l, m := e.timeText, LevelName(e.level), Escape(e.message);
    QuotedItem("time", t);
    QuotedItem("level", l);
    QuotedItem("message", m);
    var items := HeadItems(e);
    ThreeItems(items[0], items[1], items[2]);
    HeadPieces(t, l, m);
  }

  lemma HeadPieces(t: string, l: string, m: string)
    ensures "{\"time\":\"" + t + "\"" + ",\"level\":\"" + l + "\"" + ",\"message\":\"" + m + "\""
         == "{" + ("\"" + "time" + "\":\"" + t + "\"" + "," + ("\"" + "level" + "\":\"" + l + "\"" + "," + ("\"" + "message" + "\":\"" + m + "\"")))
  {
    assert "{\"time\":\"" == "{" + ("\"" + "time" + "\":\"");
    assert ",\"level\":\"" == "," + ("\"" + "level" + "\":\"");
    assert ",\"message\":\"" == "," + ("\"" + "message" + "\":\"");
    HeadRegroup("{", "\"" + "time" + "\":\"", t, "\"" + "level" + "\":\"", l, "\"" + "message" + "\":\"", m, "\"", ",");
  }

  lemma HeadRegroup(a: string, k1: string, t: string, k2: string, l: string, k3: string, m: string, q: string, c: string)
    ensures (a + k1) + t + q + (c + k2) + l + q + (c + k3) + m + q == a + (k1 + t + q + c + (k2 + l + q + c + (k3 + m + q)))
  {
  }

  /** The items of the caller object, printed. */
  lemma CallerItemsText(c: CallerInfo)
    ensures var file := ItemText(("file", Quoted(Escape(c.shortFile))));
            var line := ItemText(("line", IntText(c.line)));
            var func := ItemText(("function", Quoted(Escape(c.funcName))));
            ItemsText(CallerItems(c)) == if c.funcName == "" then file + "," + line else file + "," + (line + "," + func)
  {
    var items := CallerItems(c);
    if c.funcName == "" {
      assert items == [items[0], items[1]];
      TwoItems(items[0], items[1]);
    } else {
      assert items == [items[0], items[1], items[2]];
      ThreeItems(items[0], items[1], items[2]);
    }
  }

  lemma PlainItem(key: string, text: string)
    requires Safe(key)
    ensures ItemText((key, text)) == "\"" + key + "\":" + text
  {
    EscapePlain(key);
  }

  lemma CallerIsTail(c: CallerInfo)
    ensures CallerText(c) == Tail([("caller", CallerObject(c))])
  {
    hide ItemsText, Tail, ItemText, Escape, IntText;
    var file, line, func := Escape(c.shortFile), IntText(c.line), Escape(c.funcName);
    TailOne(("caller", CallerObject(c)));
    PlainItem("caller", CallerObject(c));
    PlainItem("line", line);
    QuotedItem("file", file);
    QuotedItem("function", func);
    CallerItemsText(c);
    if c.funcName == "" { CallerShort(file, line); } else { CallerLong(file, line, func); }
  }

  lemma CallerShort(file: string, line: string)
    ensures ",\"caller\":{\"file\":\"" + file + "\",\"line\":" + line + "" + "}"
         == "," + ("\"" + "caller" + "\":" + ("{" + ("\"" + "file" + "\":\"" + file + "\"" + "," + ("\"" + "line" + "\":" + line)) + "}"))
  {
  }

  lemma CallerLong(file: string, line: string, func: string)
    ensures ",\"caller\":{\"file\":\"" + file + "\",\"line\":" + line + (",\"function\":\"" + func + "\"") + "}"
         == "," + ("\"" + "caller" + "\":" + ("{" + ("\"" + "file" + "\":\"" + file + "\"" + ","
            + (("\"" + "line" + "\":" + line) + "," + ("\"" + "function" + "\":\"" + func + "\""))) + "}"))
  {
    assert ",\"caller\":{\"file\":\"" == "," + ("\"" + "caller" + "\":" + ("{" + ("\"" + "file" + "\":\"")));
    assert "\",\"line\":" == "\"" + "," + ("\"" + "line" + "\":");
    assert ",\"function\":\"" == "," + ("\"" + "function" + "\":\"");
    CallerRegroup(",", "\"" + "caller" + "\":", "{", "\"" + "file" + "\":\"", file, "\"" + ",", "\"" + "line" + "\":", line,
                  ",", "\"" + "function" + "\":\"", func, "\"", "}");
    CallerRegroupTail("\"" + "file" + "\":\"" + file, "\"", ",", ("\"" + "line" + "\":" + line) + "," + ("\"" + "function" + "\":\"" + func + "\""));
  }

  lemma CallerRegroupTail(a: string, b: string, c: string, d: string)
    ensures a + b + c + d == a + (b + c) + d
  {
  }

  /** Moving the brackets of the caller object. */
  lemma CallerRegroup(a: string, b: string, c: string, d: string, file: string, e: string, f: string, line: string,
                      g: string, h: string, func: string, i: string, j: string)
    ensures (a + (b + (c + d))) + file + (e + f) + line + ((g + h) + func + i) + j
         == a + (b + ((c + (d + file + e + ((f + line) + g + (h + func + i)))) + j))
  {
  }

  /** The record is the items in braces, and a newline. */
  lemma RenderIsItems(includeCaller: bool, e: Entry)
    ensures Render(includeCaller, e) == "{" + ItemsText(Items(includeCaller, e)) + "}\n"
  {
    var head, caller, fields := HeadItems(e), OptionalCallerItems(includeCaller, e.caller), FieldItems(e.fields);
    HeadIsItems(e);
    if includeCaller && e.caller.defined { CallerIsTail(e.caller); }
    FieldsAreTail(e.fields);
    ItemsThenTail(head, caller);
    ItemsThenTail(head + caller, fields);
    Onto("{", ItemsText(head), Tail(caller));
    Onto("{", ItemsText(head + caller), Tail(fields));
  }

  // ---------------------------------------------------------------- reading it back

  lemma {:induction false} NamedAppend(a: seq<Item>, v: seq<Json>, b: seq<Item>, w: seq<Json>)
    requires |a| == |v| && |b| == |w|
    ensures Named(a + b, v + w) == Named(a, v) + Named(b, w)
  {
    if a == [] {
      assert a + b == b && v + w == w;
    } else {
      hide Named;
      NamedAppend(a[1..], v[1..], b, w);
      assert a == [a[0]] + a[1..] && v == [v[0]] + v[1..];
      NamedCons(a[0], v[0], a[1..], v[1..]);
      assert a + b == [a[0]] + (a[1..] + b) && v + w == [v[0]] + (v[1..] + w);
      NamedCons(a[0], v[0], a[1..] + b, v[1..] + w);
      AppendCons((a[0].0, v[0]), Named(a[1..], v[1..]), Named(b, w));
    }
  }

  lemma AppendCons<T>(x: T, a: seq<T>, b: seq<T>)
    ensures [x] + (a + b) == [x] + a + b
  {
  }

  lemma NamedCons(item: Item, v: Json, items: seq<Item>, values: seq<Json>)
    requires |items| == |values|
    ensures Named([item] + items, [v] + values) == [(item.0, v)] + Named(items, values)
  {
    assert ([item] + items)[1..] == items && ([v] + values)[1..] == values;
  }

  function HeadValues(e: Entry): seq<Json> {
    [JString(e.timeText), JString(LevelName(e.level)), JString(e.message)]
  }

  function OptionalCallerValues(includeCaller: bool, c: CallerInfo): seq<Json> {
    if includeCaller && c.defined then [CallerJson(c)] else []
  }

  function FieldValues(fields: seq<Field>): seq<Json>
    requires forall f | f in fields :: Sound(f)
  {
    seq(|fields|, i requires 0 <= i < |fields| => FieldJson(fields[i]))
  }

  lemma LevelNameSafe(l: Level)
    ensures Safe(LevelName(l))
  {
  }

  lemma HeadReads(e: Entry)
    requires Safe(e.timeText)
    ensures AllRead(HeadItems(e), HeadValues(e))
  {
    ReadsSafe(e.timeText);
    LevelNameSafe(e.level);
    ReadsSafe(LevelName(e.level));
    ReadsString(e.message);
  }

  function CallerValues(c: CallerInfo): seq<Json> {
    [JString(c.shortFile), IntJson(c.line)] + if c.funcName == "" then [] else [JString(c.funcName)]
  }

  lemma CallerItemsRead(c: CallerInfo)
    ensures AllRead(CallerItems(c), CallerValues(c))
  {
    hide Escape, IntText, Reads;
    ReadsString(c.shortFile);
    ReadsInt(c.line);
    ReadsString(c.funcName);
  }

  lemma CallerReads(c: CallerInfo)
    ensures Reads(CallerObject(c), CallerJson(c))
  {
    hide Escape, IntText, Reads, AllRead, Named;
    CallerItemsRead(c);
    ReadsObject(CallerItems(c), CallerValues(c));
    CallerNamed(c, CallerValues(c));
  }

  lemma CallerNamed(c: CallerInfo, values: seq<Json>)
    requires values == [JString(c.shortFile), IntJson(c.line)] + if c.funcName == "" then [] else [JString(c.funcName)]
    ensures JObject(Named(CallerItems(c), values)) == CallerJson(c)
  {
    var items := CallerItems(c);
    NamedOne(items[0], values[0]);
    NamedOne(items[1], values[1]);
    NamedAppend([items[0]], [values[0]], [items[1]], [values[1]]);
    var two, twoValues := [items[0]] + [items[1]], [values[0]] + [values[1]];
    if c.funcName == "" {
      assert items == two && values == twoValues;
    } else {
      NamedOne(items[2], values[2]);
      NamedAppend(two, twoValues, [items[2]], [values[2]]);
      assert items == two + [items[2]] && values == twoValues + [values[2]];
    }
  }

  lemma FieldsRead(fields: seq<Field>)
    requires forall f | f in fields :: Sound(f) && (f.kind.TimeType? ==> Safe(f.timeText))
    ensures AllRead(FieldItems(fields), FieldValues(fields))
  {
    forall i | 0 <= i < |fields| ensures Reads(FieldItems(fields)[i].1, FieldValues(fields)[i]) {
      FieldReads(fields[i]);
    }
  }

  lemma {:induction false} FieldsNamed(fields: seq<Field>)
    requires forall f | f in fields :: Sound(f)
    ensures Named(FieldItems(fields), FieldValues(fields)) == FieldMembers(fields)
  {
    if fields != [] {
      hide FieldItem, FieldJson, FieldValueText;
      FieldsNamed(fields[1..]);
      assert FieldItems(fields)[1..] == FieldItems(fields[1..]);
      assert FieldValues(fields)[1..] == FieldValues(fields[1..]);
      assert FieldMembers(fields) == [(fields[0].key, FieldJson(fields[0]))] + FieldMembers(fields[1..]);
    }
  }

  /** The values of the items that precede the fields. */
  lemma FrontReads(includeCaller: bool, e: Entry) returns (items: seq<Item>, values: seq<Json>)
    requires Safe(e.timeText)
    ensures items == HeadItems(e) + OptionalCallerItems(includeCaller, e.caller)
    ensures values == HeadValues(e) + OptionalCallerValues(includeCaller, e.caller)
    ensures AllRead(items, values)
  {
    HeadReads(e);
    CallerReads(e.caller);
    items := HeadItems(e) + OptionalCallerItems(includeCaller, e.caller);
    values := HeadValues(e) + OptionalCallerValues(includeCaller, e.caller);
  }

  lemma FrontNamed(includeCaller: bool, e: Entry)
    ensures Named(HeadItems(e) + OptionalCallerItems(includeCaller, e.caller),
                  HeadValues(e) + OptionalCallerValues(includeCaller, e.caller))
         == [("time", JString(e.timeText)), ("level", JString(LevelName(e.level))), ("message", JString(e.message))]
          + if includeCaller && e.caller.defined then [("caller", CallerJson(e.caller))] else []
  {
    var items, values := HeadItems(e), HeadValues(e);
    NamedOne(items[0], values[0]);
    NamedOne(items[1], values[1]);
    NamedOne(items[2], values[2]);
    NamedAppend([items[0]], [values[0]], [items[1]], [values[1]]);
    NamedAppend([items[0]] + [items[1]], [values[0]] + [values[1]], [items[2]], [values[2]]);
    assert items == [items[0]] + [items[1]] + [items[2]] && values == [values[0]] + [values[1]] + [values[2]];
    NamedAppend(items, values, OptionalCallerItems(includeCaller, e.caller), OptionalCallerValues(includeCaller, e.caller));
    if includeCaller && e.caller.defined { NamedOne(("caller", CallerObject(e.caller)), CallerJson(e.caller)); }
  }

  lemma AllReadAppend(a: seq<Item>, v: seq<Json>, b: seq<Item>, w: seq<Json>)
    requires AllRead(a, v) && AllRead(b, w)
    ensures AllRead(a + b, v + w)
  {
    hide Reads;
  }

  /** A record whose floats are finite is read back as the entry's members. */
  lemma RoundTrip(includeCaller: bool, e: Entry)
    requires SafeTimes(e) && forall f | f in e.fields :: Sound(f)
    ensures ReadText(Render(includeCaller, e)) == Some(JObject(Members(includeCaller, e)))
  {
    hide Render, ReadText, Reads, ItemsText, AllRead, Sound, FieldItems, FieldValues, OptionalCallerItems, OptionalCallerValues;
    var items, values := FrontReads(includeCaller, e);
    var fields, fieldValues := FieldItems(e.fields), FieldValues(e.fields);
    FieldsRead(e.fields);
    FieldsNamed(e.fields);
    FrontNamed(includeCaller, e);
    NamedAppend(items, values, fields, fieldValues);
    AllReadAppend(items, values, fields, fieldValues);
    RenderIsItems(includeCaller, e);
    ReadsObject(items + fields, values + fieldValues);
    ReadLine("{" + ItemsText(items + fields) + "}", JObject(Members(includeCaller, e)));
    assert "}\n" == "}" + "\n";
    Onto("{" + ItemsText(items + fields), "}", "\n");
  }

  /** A value and the newline that ends the record. */
  lemma ReadLine(text: string, v: Json)
    requires Reads(text, v) && text != "" && !IsSpace(text[0])
    ensures ReadText(text + "\n") == Some(v)
  {
    assert ReadValue(text + "\n") == Parsed(v, "\n");
    assert SkipSpace("\n"[1..]) == "";
  }

  // ---------------------------------------------------------------- floats that are no numbers

  lemma {:induction false} BeforeIsItems(items: seq<Item>, text: string)
    requires items != []
    ensures Before(items, text) == ItemsText(items) + ("," + text)
  {
    if |items| == 1 {
      assert Before(items[1..], text) == text;
    } else {
      BeforeIsItems(items[1..], text);
      Onto(ItemText(items[0]), ",", ItemsText(items[1..]));
      Onto(ItemText(items[0]), "," + ItemsText(items[1..]), "," + text);
      Onto(",", ItemsText(items[1..]), "," + text);
    }
  }

  lemma {:induction false} FirstUnsound(fields: seq<Field>) returns (k: nat)
    requires exists f | f in fields :: !Sound(f)
    ensures k < |fields| && !Sound(fields[k]) && forall i | 0 <= i < k :: Sound(fields[i])
  {
    if !Sound(fields[0]) {
      k := 0;
    } else {
      assert exists f | f in fields[1..] :: !Sound(f) by {
        var f :| f in fields && !Sound(f);
        assert f in fields[1..];
      }
      k := FirstUnsound(fields[1..]);
      assert forall i | 0 <= i < k :: fields[i + 1] == fields[1..][i];
      k := k + 1;
      assert forall i | 1 <= i < k :: fields[i] == fields[1..][i - 1];
    }
  }

  /** The record around its k-th field. */
  lemma RenderAround(includeCaller: bool, e: Entry, k: nat)
    requires k < |e.fields|
    ensures Render(includeCaller, e)
         == "{" + Before(HeadItems(e) + OptionalCallerItems(includeCaller, e.caller) + FieldItems(e.fields[..k]),
                         ItemText(FieldItem(e.fields[k])) + (Tail(FieldItems(e.fields[k + 1..])) + "}\n"))
  {
    var front := HeadItems(e) + OptionalCallerItems(includeCaller, e.caller) + FieldItems(e.fields[..k]);
    RenderIsItems(includeCaller, e);
    SplitFields(e.fields, k);
    assert Items(includeCaller, e) == front + ([FieldItem(e.fields[k])] + FieldItems(e.fields[k + 1..]));
    TextAround(front, FieldItem(e.fields[k]), FieldItems(e.fields[k + 1..]));
  }

  lemma SplitFields(fields: seq<Field>, k: nat)
    requires k < |fields|
    ensures FieldItems(fields) == FieldItems(fields[..k]) + ([FieldItem(fields[k])] + FieldItems(fields[k + 1..]))
  {
  }

  lemma TextAround(front: seq<Item>, bad: Item, post: seq<Item>)
    requires front != []
    ensures "{" + ItemsText(front + ([bad] + post)) + "}\n" == "{" + Before(front, ItemText(bad) + (Tail(post) + "}\n"))
  {
    ItemsThenTail(front, [bad] + post);
    TailCons(bad, post);
    BeforeIsItems(front, ItemText(bad) + (Tail(post) + "}\n"));
    Around(ItemsText(front), ItemText(bad), Tail(post), "}\n");
    Onto("{", ItemsText(front) + ("," + ItemText(bad) + Tail(post)), "}\n");
  }

  lemma Around(a: string, b: string, c: string, d: string)
    ensures a + ("," + b + c) + d == a + ("," + (b + (c + d)))
  {
    Onto(",", b, c);
    Onto("," + b, c, d);
    Onto(",", b, c + d);
    Onto(a, "," + b + c, d);
  }

  lemma NonFiniteText(f: Field)
    requires !Sound(f)
    ensures var t := FieldValueText(f); t != "" && !IsSpace(t[0])
  {
  }

  lemma ItemStart(item: Item)
    ensures ItemText(item) != "" && ItemText(item)[0] == '"'
  {
  }

  lemma NotRead(includeCaller: bool, e: Entry, k: nat)
    requires SafeTimes(e) && k < |e.fields|
    requires !Sound(e.fields[k]) && forall i | 0 <= i < k :: Sound(e.fields[i])
    ensures ReadText(Render(includeCaller, e)) == None
  {
    hide Render, ReadText, Reads, ItemText, Tail, FieldItems, FieldValues, OptionalCallerItems, OptionalCallerValues;
    var items, values := FrontReads(includeCaller, e);
    var front, bad := e.fields[..k], FieldItem(e.fields[k]);
    FieldsRead(front);
    AllReadAppend(items, values, FieldItems(front), FieldValues(front));
    FieldReads(e.fields[k]);
    NonFiniteText(e.fields[k]);
    var more := Tail(FieldItems(e.fields[k + 1..])) + "}\n";
    RenderAround(includeCaller, e, k);
    RefuseItems(items + FieldItems(front), values + FieldValues(front), bad, more);
    var inner := Before(items + FieldItems(front), ItemText(bad) + more);
    assert inner == ItemText((items + FieldItems(front))[0]) + ("," + Before((items + FieldItems(front))[1..], ItemText(bad) + more));
    ItemStart((items + FieldItems(front))[0]);
    RefuseBraces(inner);
  }

  lemma RefuseBraces(inner: string)
    requires inner != "" && inner[0] == '"' && ReadMembers(inner).Rejected?
    ensures ReadText("{" + inner) == None
  {
    assert ("{" + inner)[1..] == inner;
    assert SkipSpace(inner) == inner;
    assert ReadObject(inner).Rejected?;
    assert SkipSpace("{" + inner) == "{" + inner;
    assert ReadValue("{" + inner).Rejected?;
  }

  /**
   The law of the encoder. For every entry whose times are rendered without
   quotes, backslashes or control bytes, the record is a JSON text exactly when
   every float field is finite, and then it is the object with the members time,
   level, message, the caller if there is one, and each field, in this order.
   */
  lemma RecordIsObject(includeCaller: bool, e: Entry)
    requires SafeTimes(e)
    ensures ReadText(Render(includeCaller, e)).Some? <==> forall f | f in e.fields :: Sound(f)
    ensures (forall f | f in e.fields :: Sound(f)) ==>
              ReadText(Render(includeCaller, e)) == Some(JObject(Members(includeCaller, e)))
  {
    if forall f | f in e.fields :: Sound(f) {
      RoundTrip(includeCaller, e);
    } else {
      var k := FirstUnsound(e.fields);
      NotRead(includeCaller, e, k);
    }
  }
}
