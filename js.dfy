/** JavaScript-level values as the relay, the ingestion route and the dashboards see them:
    parsed JSON documents, ECMAScript numbers (which may be NaN), and the truthiness rule that
    the `if (x)`, `x || d` and `&&` tests of the source apply to them. */
module Js {

  import opened Wrappers

  /** A parsed JSON document. Object members are kept as a map: `JSON.parse` keeps the last
      of duplicated names, so a name has one value. */
  datatype Json =
    | JNull
    | JBool(b: bool)
    | JNum(n: real)
    | JStr(s: string)
    | JArr(items: seq<Json>)
    | JObj(fields: map<string, Json>)

  /** An ECMAScript number produced by `Number(..)`/`parseFloat(..)`: a finite value or NaN.
      (Infinities are not modelled.) */
  datatype Num = Finite(val: real) | NaN

  /** Truthiness of a JSON value: `null`, `false`, `0` and `""` are falsy; every array and
      every object, even an empty one, is truthy. */
  predicate Truthy(j: Json)
  {
    match j
    case JNull => false
    case JBool(b) => b
    case JNum(n) => n != 0.0
    case JStr(s) => s != ""
    case JArr(_) => true
    case JObj(_) => true
  }

  /** Truthiness of a possibly missing value; a missing property reads as `undefined`. */
  predicate Present(v: Option<Json>)
  {
    v.Some? && Truthy(v.value)
  }

  /** Truthiness of a number: 0 and NaN are falsy. */
  predicate NumTruthy(x: Num)
  {
    x.Finite? && x.val != 0.0
  }

  /** `x || 0` on a number. */
  function OrZero(x: Num): (r: Num)
    ensures r.Finite?
    ensures NumTruthy(x) ==> r == x
    ensures !NumTruthy(x) ==> r == Finite(0.0)
  {
    if NumTruthy(x) then x else Finite(0.0)
  }

  /** IEEE addition restricted to finite values and NaN: NaN absorbs. */
  function Add(x: Num, y: Num): (r: Num)
    ensures r.Finite? <==> x.Finite? && y.Finite?
    ensures r.Finite? ==> r.val == x.val + y.val
  {
    if x.Finite? && y.Finite? then Finite(x.val + y.val) else NaN
  }

  function Sub(x: Num, y: Num): (r: Num)
    ensures r.Finite? <==> x.Finite? && y.Finite?
    ensures r.Finite? ==> r.val == x.val - y.val
  {
    if x.Finite? && y.Finite? then Finite(x.val - y.val) else NaN
  }

  /** `x > 0`: false for NaN. */
  predicate Positive(x: Num)
  {
    x.Finite? && x.val > 0.0
  }

  /** `x <= 0`: also false for NaN. */
  predicate NonPositive(x: Num)
  {
    x.Finite? && x.val <= 0.0
  }

  /** `x >= 0`: false for NaN. */
  predicate NonNegative(x: Num)
  {
    x.Finite? && x.val >= 0.0
  }

  lemma AddAssociative(x: Num, y: Num, z: Num)
    ensures Add(Add(x, y), z) == Add(x, Add(y, z))
  {
  }

  /** A number produced by `Number(v)` for a possibly missing JSON value. Strings are
      converted by `parseNumeric` (the engine's StringToNumber, which maps "" to 0). */
  function NumberOf(v: Option<Json>, parseNumeric: string -> Num): (r: Num)
    ensures v == None ==> r == NaN
    ensures v == Some(JNull) ==> r == Finite(0.0)
    ensures forall n :: v == Some(JNum(n)) ==> r == Finite(n)
  {
    match v
    case None => NaN
    case Some(j) =>
      match j
      case JNull => Finite(0.0)
      case JBool(b) => if b then Finite(1.0) else Finite(0.0)
      case JNum(n) => Finite(n)
      case JStr(s) => parseNumeric(s)
      case JArr(items) => ArrayNumber(items, parseNumeric)
      case JObj(_) => NaN
  }

  /** `Number(array)` converts the comma-joined text of the elements: no element gives 0, two
      or more give a text with a comma, which is NaN, and a single element gives the number
      of its own text. */
  function ArrayNumber(items: seq<Json>, parseNumeric: string -> Num): Num
    decreases items, 1
  {
    if |items| == 0 then Finite(0.0)
    else if |items| == 1 then ElementNumber(items[0], parseNumeric)
    else NaN
  }

  /** The number of an array element's text: `null` is written as "", booleans as words,
      numbers as themselves, and an object as "[object Object]". */
  function ElementNumber(e: Json, parseNumeric: string -> Num): Num
    decreases e, 0
  {
    match e
    case JNull => Finite(0.0)
    case JBool(_) => NaN
    case JNum(n) => Finite(n)
    case JStr(s) => parseNumeric(s)
    case JArr(inner) => ArrayNumber(inner, parseNumeric)
    case JObj(_) => NaN
  }

  /** Property access `o.name`: `None` stands for `undefined`. Only objects have named
      properties here (the `length` of arrays and strings is handled by `LengthPositive`). */
  function Get(j: Json, name: string): (r: Option<Json>)
    ensures r.Some? <==> j.JObj? && name in j.fields
    ensures r.Some? ==> r.value == j.fields[name]
  {
    if j.JObj? && name in j.fields then Some(j.fields[name]) else None
  }

  /** `x.length > 0` for a value received as JSON: an array with an element, a non-empty
      string, or an object whose `length` member is positive once the comparison has converted
      it with `Number(..)` (so `"5"`, `true` and `[5]` count as positive). Other values have no
      `length`, and `undefined > 0` is false. */
  predicate LengthPositive(j: Json, parseNumeric: string -> Num)
  {
    match j
    case JArr(items) => |items| > 0
    case JStr(s) => |s| > 0
    case JObj(m) => "length" in m && Positive(NumberOf(Some(m["length"]), parseNumeric))
    case _ => false
  }

}
