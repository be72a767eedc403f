/**
 Values shared by every part of the model: log levels, fields, caller
 information and the record a caller asks to be logged (core/entry.go,
 core/field.go).
 */
module Core {

  datatype Option<+T> = None | Some(value: T)

  // core.Level is an int8.
  type Level = l: int | -128 <= l < 128

  const DEBUG_LEVEL: Level := 0
  const INFO_LEVEL: Level := 1
  const WARN_LEVEL: Level := 2
  const ERROR_LEVEL: Level := 3
  const FATAL_LEVEL: Level := 4
  const PANIC_LEVEL: Level := 5

  function LevelName(l: Level): string
  {
    match l
    case 0 => "DEBUG"
    case 1 => "INFO"
    case 2 => "WARN"
    case 3 => "ERROR"
    case 4 => "FATAL"
    case 5 => "PANIC"
    case _ => "UNKNOWN"
  }

  type Digit = d: int | 0 <= d < 10

  /** A float64 as strconv renders it with format 'f' and the shortest precision. */
  datatype Float =
    | Finite(negative: bool, whole: nat, fraction: seq<Digit>)
    | NotANumber
    | Infinite(negative: bool)

  datatype FieldType =
    StringType | IntType | Int64Type | Float64Type | BoolType | TimeType | DurationType | ErrorType | AnyType | UnknownType

  /**
   core.Field. `timeText` and `anyText` stand for what the time and fmt packages
   print for a TimeType and an AnyType value.
   */
  datatype Field = Field(
    key: string, kind: FieldType, int64: int, float: Float, str: string,
    timeText: string, anyText: string)
  {
    function StringValueOfRest(): string {
      if kind.AnyType? then anyText else ""
    }
  }

  datatype CallerInfo = CallerInfo(file: string, shortFile: string, line: int, funcName: string, defined: bool)

  const NO_CALLER := CallerInfo("", "", 0, "", false)

  /** The concatenation of a sequence of sequences. */
  function Flatten<T>(parts: seq<seq<T>>): seq<T>
  {
    if parts == [] then [] else parts[0] + Flatten(parts[1..])
  }

  lemma Associative<T>(a: seq<T>, b: seq<T>, c: seq<T>)
    ensures a + (b + c) == a + b + c
  {
  }

  lemma FlattenCons<T>(x: seq<T>, parts: seq<seq<T>>)
    ensures Flatten([x] + parts) == x + Flatten(parts)
  {
    assert ([x] + parts)[1..] == parts;
  }

  lemma {:induction false} FlattenAppend<T>(a: seq<seq<T>>, b: seq<seq<T>>)
    ensures Flatten(a + b) == Flatten(a) + Flatten(b)
  {
    if a == [] {
      assert a + b == b;
    } else {
      hide Flatten;
      FlattenAppend(a[1..], b);
      FlattenCons(a[0], a[1..] + b);
      FlattenCons(a[0], a[1..]);
      assert a == [a[0]] + a[1..];
      Associative([a[0]], a[1..], b);
      Associative(a[0], Flatten(a[1..]), Flatten(b));
    }
  }

  lemma FlattenSnoc<T>(a: seq<seq<T>>, x: seq<T>)
    ensures Flatten(a + [x]) == Flatten(a) + x
  {
    FlattenAppend(a, [x]);
    assert Flatten([x]) == x + Flatten([]);
  }
}
