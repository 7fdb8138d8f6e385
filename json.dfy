/** JSON documents as the Python code sees them after `json.loads`, and the
    few Python operations on them that the pipeline depends on: truthiness,
    `dict.get`, the `in` operator, `len`, integer addition and f-string
    formatting.  Each operation that raises in Python on a value of the wrong
    type returns `Raised` here. */
module JsonValue {
  import opened Results
  import opened Text

  /** A JSON value.  `JFloat(num, den)` is the number num/den, used for the
      ratios the stages compute; objects are maps, so their key order is not
      kept. */
  datatype Json =
    | JNull
    | JBool(b: bool)
    | JInt(n: int)
    | JFloat(num: int, den: nat)
    | JStr(s: string)
    | JArr(items: seq<Json>)
    | JObj(fields: map<string, Json>)

  const EmptyObj: Json := JObj(map[])

  /** Python truthiness: `bool(j)`. */
  predicate Truthy(j: Json) {
    match j
    case JNull => false
    case JBool(b) => b
    case JInt(n) => n != 0
    case JFloat(num, _) => num != 0
    case JStr(s) => s != []
    case JArr(a) => a != []
    case JObj(m) => m != map[]
  }

  /** `d.get(k, default)` on a value known to be a dict. */
  function Lookup(m: map<string, Json>, k: string, default: Json): (r: Json)
    ensures k in m ==> r == m[k]
    ensures k !in m ==> r == default
  {
    if k in m then m[k] else default
  }

  /** `j.get(k, default)`: raises unless `j` is a dict. */
  function Get(j: Json, k: string, default: Json): (r: Result<Json>)
    ensures r.Ok? <==> j.JObj?
    ensures r.Ok? ==> r.value == Lookup(j.fields, k, default)
  {
    if j.JObj? then Ok(Lookup(j.fields, k, default)) else Raised
  }

  /** The value of field `k`, or `JNull` when absent or when `j` is no dict;
      used to read back the documents the model builds. */
  function Field(j: Json, k: string): Json {
    if j.JObj? && k in j.fields then j.fields[k] else JNull
  }

  /** `needle in j` for a string `needle`: key membership for a dict, element
      membership for a list, substring test for a string, a TypeError
      otherwise. */
  function PyIn(needle: string, j: Json): (r: Result<bool>)
    ensures j.JStr? ==> r == Ok(Contains(j.s, needle))
    ensures j.JObj? ==> r == Ok(needle in j.fields)
  {
    match j
    case JObj(m) => Ok(needle in m)
    case JArr(a) => Ok(JStr(needle) in a)
    case JStr(s) => Ok(Contains(s, needle))
    case _ => Raised
  }

  /** The integer `n + j` adds to `n` (bool is a subclass of int); any other
      type raises a TypeError. */
  function AsInt(j: Json): Result<int> {
    match j
    case JInt(n) => Ok(n)
    case JBool(b) => Ok(if b then 1 else 0)
    case _ => Raised
  }

  /** `len(j)` */
  function Len(j: Json): Result<nat> {
    match j
    case JStr(s) => Ok(|s|)
    case JArr(a) => Ok(|a|)
    case JObj(m) => Ok(|m|)
    case _ => Raised
  }

  /** `j > 0` */
  function Positive(j: Json): Result<bool> {
    match j
    case JInt(n) => Ok(n > 0)
    case JBool(b) => Ok(b)
    case JFloat(num, _) => Ok(num > 0)
    case _ => Raised
  }

  /** The number a numeric value stands for, as numerator and denominator. */
  function Ratio(j: Json): Result<(int, nat)> {
    match j
    case JInt(n) => Ok((n, 1))
    case JBool(b) => Ok((if b then 1 else 0, 1))
    case JFloat(num, den) => Ok((num, den))
    case _ => Raised
  }

  /** `a / b` (true division); a zero divisor raises ZeroDivisionError. */
  function Divide(a: Json, b: Json): (r: Result<Json>)
    ensures a.JInt? && b.JInt? && b.n > 0 ==> r == Ok(JFloat(a.n, b.n))
    ensures r.Ok? ==> (Ratio(a).Ok? && Ratio(b).Ok? && Ratio(b).value.0 != 0 && r.value.JFloat?
                       && r.value.num * Ratio(b).value.0 * Ratio(a).value.1
                          == Ratio(a).value.0 * Ratio(b).value.1 * r.value.den)
  {
    var x :- Ratio(a);
    var y :- Ratio(b);
    if y.0 == 0 then Raised
    else if y.0 > 0 then Ok(JFloat(x.0 * y.1, x.1 * y.0))
    else Ok(JFloat(-x.0 * y.1, x.1 * -y.0))
  }

  /** `type(j).__name__` */
  function TypeName(j: Json): string {
    match j
    case JNull => "NoneType"
    case JBool(_) => "bool"
    case JInt(_) => "int"
    case JFloat(_, _) => "float"
    case JStr(_) => "str"
    case JArr(_) => "list"
    case JObj(_) => "dict"
  }

  /** Iterating over a string: one one-character string per character. */
  function Chars(s: string): (cs: seq<Json>)
    ensures |cs| == |s| && forall i :: 0 <= i < |s| ==> cs[i] == JStr([s[i]])
  {
    seq(|s|, i requires 0 <= i < |s| => JStr([s[i]]))
  }

  /** `f"{j}"` for the scalar values the code formats; lists, dicts and
      floats are rendered schematically. */
  function Show(j: Json): string {
    match j
    case JNull => "None"
    case JBool(b) => if b then "True" else "False"
    case JInt(n) => IntToString(n)
    case JFloat(num, den) => IntToString(num) + "/" + IntToString(den)
    case JStr(s) => s
    case JArr(_) => "[...]"
    case JObj(_) => "{...}"
  }
}
