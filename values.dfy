/** JSON values as `json.loads` produces them, with the few Python built-ins
    the dashboard pipeline applies to them: truthiness, `int()`, `str()` and
    integer clamping. */
module Values {

  datatype Option<+T> = None | Some(value: T)

  /** A decoded JSON value. Floating-point numbers are not modelled. */
  datatype Json =
    | JNull
    | JBool(b: bool)
    | JInt(i: int)
    | JStr(s: string)
    | JArr(items: seq<Json>)
    | JObj(fields: map<string, Json>)

  /** The exceptions the pipeline can raise. */
  datatype Error =
    | JsonDecodeError   // json.loads rejected the text
    | TypeError         // an operation applied to a value of the wrong type
    | ValueError        // int() of a string that is not a decimal integer

  datatype Result<+T> = Ok(value: T) | Err(error: Error)

  /** The Python built-ins the pipeline calls whose behaviour is not modelled
      here: the JSON decoder (None when it raises JSONDecodeError), `str()`
      of an arbitrary value, and `int()` of a string (None when it raises
      ValueError). */
  datatype Builtins = Builtins(
    loads: string -> Option<Json>,
    str: Json -> string,
    parseInt: string -> Option<int>)

  /** Python's truth value of a decoded JSON value. */
  predicate Truthy(v: Json)
    ensures !Truthy(v) <==>
      v == JNull || v == JBool(false) || v == JInt(0) || v == JStr("") || v == JArr([]) || v == JObj(map[])
  {
    match v
    case JNull => false
    case JBool(b) => b
    case JInt(i) => i != 0
    case JStr(s) => s != ""
    case JArr(items) => items != []
    case JObj(fields) => fields != map[]
  }

  /** `d.get(k)`: the value at `k`, or None (JNull) when `k` is absent. */
  function Get(d: map<string, Json>, k: string): (r: Json)
    ensures k !in d ==> r == JNull
    ensures k in d ==> r == d[k]
  {
    if k in d then d[k] else JNull
  }

  /** Python `int(v)` for a decoded JSON value: integers pass, booleans
      become 0 or 1, strings are parsed, anything else raises TypeError. */
  function Int(v: Json, py: Builtins): (r: Result<int>)
    ensures r.Ok? <==> (v.JInt? || v.JBool? || (v.JStr? && py.parseInt(v.s).Some?))
    ensures v.JInt? ==> r == Ok(v.i)
    ensures r.Err? ==> r.error == (if v.JStr? then ValueError else TypeError)
  {
    match v
    case JInt(i) => Ok(i)
    case JBool(b) => Ok(if b then 1 else 0)
    case JStr(s) =>
      (match py.parseInt(s)
       case Some(n) => Ok(n)
       case None => Err(ValueError))
    case _ => Err(TypeError)
  }

  /** `max(lo, min(hi, x))`. */
  function Clamp(x: int, lo: int, hi: int): (r: int)
    requires lo <= hi
    ensures lo <= r <= hi
    ensures lo <= x <= hi ==> r == x
    ensures x < lo ==> r == lo
    ensures hi < x ==> r == hi
  {
    if x < lo then lo else if hi < x then hi else x
  }

  /** Python `int(q)` of the exact quotient `q = n / d`: truncation toward
      zero, unlike Dafny's Euclidean `/`. */
  function TruncDiv(n: int, d: int): (r: int)
    requires d > 0
    ensures n >= 0 ==> 0 <= r && r * d <= n < r * d + d
    ensures n < 0 ==> r <= 0 && r * d - d < n <= r * d
  {
    if n >= 0 then DivBounds(n, d); n / d
    else DivBounds(-n, d); -((-n) / d)
  }

  /** Euclidean division of a non-negative numerator brackets it. */
  lemma DivBounds(n: int, d: int)
    requires 0 <= n && 0 < d
    ensures 0 <= n / d && (n / d) * d <= n < (n / d) * d + d
  {
    assert n == (n / d) * d + n % d;
  }
}
