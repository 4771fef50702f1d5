/** Values shared by every component: optional values, the outcome of a call
    that may raise, and the JSON-like values that tools exchange. */
module Values {

  /** Python's `Optional[T]`. */
  datatype Option<+T> = None | Some(value: T) {
    function GetOr(default: T): T {
      match this
      case Some(v) => v
      case None => default
    }
  }

  /** The outcome of a call that may raise: its value, or the text of the
      exception it raised (`str(e)`). */
  datatype Fallible<+T> = Ok(value: T) | Raises(msg: string)

  /** JSON-like values: what `json.loads` produces and what tool arguments,
      results and schemas are made of. Floating-point numbers are not modelled. */
  datatype Json =
    | JNull
    | JBool(b: bool)
    | JInt(i: int)
    | JStr(s: string)
    | JArr(items: seq<Json>)
    | JObj(fields: map<string, Json>)

  /** Python truthiness of a JSON-like value: `not v`. */
  predicate Falsy(v: Json) {
    match v
    case JNull => true
    case JBool(b) => !b
    case JInt(i) => i == 0
    case JStr(s) => s == ""
    case JArr(xs) => xs == []
    case JObj(m) => m == map[]
  }

  /** No element occurs twice: the keys of a Python dict, listed in order. */
  predicate Distinct<T(==)>(s: seq<T>) {
    forall i, j :: 0 <= i < j < |s| ==> s[i] != s[j]
  }

  /** Python's `{}`. */
  function EmptyObject(): (v: Json)
    ensures v.JObj? && Falsy(v)
  {
    JObj(map[])
  }

  /** Python's `d or {}` for an optional string-to-string mapping. */
  function OrEmpty(d: Option<map<string, string>>): (m: map<string, string>)
    ensures d.None? ==> m == map[]
    ensures d.Some? ==> m == d.value
  {
    d.GetOr(map[])
  }

  /** Python's `s or default` for an optional string: `None` and `""` are falsy. */
  function StrOr(s: Option<string>, default: string): (r: string)
    ensures (s.None? || s.value == "") ==> r == default
    ensures s.Some? && s.value != "" ==> r == s.value
  {
    if s.Some? && s.value != "" then s.value else default
  }

  /** Python's `v or default` for a JSON-like value. */
  function JsonOr(v: Json, default: Json): (r: Json)
    ensures Falsy(v) ==> r == default
    ensures !Falsy(v) ==> r == v
  {
    if Falsy(v) then default else v
  }
}
