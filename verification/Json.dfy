/** Parsed JSON values, as `json.loads` returns them, and the field checks the readers share. */
module Json {
  import opened Common

  datatype Json =
    | JNull
    | JBool(b: bool)
    | JInt(n: int)
    | JFloat(bits: nat)          // by its IEEE 754 binary64 pattern
    | JStr(s: string)
    | JArr(items: seq<Json>)
    | JObj(fields: map<string, Json>)

  type Doc = map<string, Json>

  /** `raw.get(key)`: a missing key reads as null. */
  function Field(d: Doc, key: string): Json {
    if key in d then d[key] else JNull
  }

  /** `value == 1` in Python, where `1.0` and `True` also equal 1. */
  predicate IsOne(j: Json) {
    j == JInt(1) || j == JFloat(ONE_POINT_ZERO) || j == JBool(true)
  }

  const ONE_POINT_ZERO := 0x3FF0_0000_0000_0000

  /** `isinstance(value, str) and value`. */
  predicate IsText(j: Json) {
    j.JStr? && j.s != ""
  }

  function OptString(j: Json): Option<string> {
    if j.JStr? then Some(j.s) else None
  }

  function FromOptString(s: Option<string>): Json {
    if s.Some? then JStr(s.value) else JNull
  }

  /** A string, or absent: the type `str | None`. */
  predicate IsOptString(j: Json) {
    j.JStr? || j == JNull
  }
}
