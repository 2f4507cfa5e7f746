/**
 * The JSON/YAML values the configuration, payload and status code passes
 * around as Python dicts, lists and scalars.
 */
module JsonValue {
  import opened Wrappers
  import opened Text

  datatype Json =
    | Null
    | Bool(b: bool)
    | Int(i: int)
    | Float(x: real)
    | Str(s: string)
    | Arr(items: seq<Json>)
    | Obj(fields: map<string, Json>)

  /** `json.loads`: `None` stands for a `JSONDecodeError`. */
  type JsonDecoder = string -> Option<Json>

  /** `d.get(key, default)`. */
  function Get(d: map<string, Json>, key: string, default: Json): (r: Json)
    ensures key in d ==> r == d[key]
    ensures key !in d ==> r == default
  {
    if key in d then d[key] else default
  }

  /** `int(x)` on a finite float: the fraction is dropped, rounding toward zero. */
  function Truncate(x: real): (r: int)
    ensures 0.0 <= x ==> 0 <= r && r as real <= x < r as real + 1.0
    ensures x < 0.0 ==> r <= 0 && r as real - 1.0 < x <= r as real
  {
    if 0.0 <= x then x.Floor else -((-x).Floor)
  }

  /**
   * `int(value)` on a JSON value, with `ValueError`/`TypeError` as `None`:
   * integers stay, booleans become 0 or 1, floats are truncated toward zero,
   * text is parsed, everything else fails.
   */
  function PyInt(value: Json): (r: Option<int>)
    ensures value.Int? ==> r == Some(value.i)
    ensures value.Bool? ==> r == Some(if value.b then 1 else 0)
    ensures value.Float? ==> r.Some? && -1.0 < value.x - r.value as real < 1.0
    ensures value.Float? && 0.0 <= value.x ==> 0 <= r.value && r.value as real <= value.x
    ensures value.Float? && value.x < 0.0 ==> r.value <= 0 && value.x <= r.value as real
    ensures value.Str? ==> r == ParseInt(value.s)
    ensures value.Null? || value.Arr? || value.Obj? ==> r == None
  {
    match value
    case Int(i) => Some(i)
    case Float(x) => Some(Truncate(x))
    case Bool(b) => Some(if b then 1 else 0)
    case Str(s) => ParseInt(s)
    case _ => None
  }

  /** A float that carries a whole number converts back to that number. */
  lemma PyIntOfWholeFloat(i: int)
    ensures PyInt(Float(i as real)) == Some(i)
  {
  }

  /** `int(str(i)) == i` for text that carries a rendered integer. */
  lemma PyIntOfText(i: int)
    ensures PyInt(Str(IntToString(i))) == Some(i)
  {
    ParseIntOfIntToString(i);
  }
}
