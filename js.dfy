/** The JavaScript values the modelled code inspects: numbers (with NaN and the
    infinities, but exact arithmetic instead of IEEE-754 rounding), parsed JSON
    values, truthiness, and `String.prototype.trim`. */
module Js {
  import opened Wrappers

  /** A JavaScript number. Finite values are exact reals. */
  datatype Num = NaN | PosInf | NegInf | Fin(v: real)

  /** `Number.isInteger(n)`: false for NaN and the infinities. */
  predicate IsInteger(n: Num) {
    n.Fin? && n.v.Floor as real == n.v
  }

  /** `n > c` for a finite constant `c`: false for NaN. */
  predicate GreaterThan(n: Num, c: real) {
    n.PosInf? || (n.Fin? && n.v > c)
  }

  /** `n < c` for a finite constant `c`: false for NaN. */
  predicate LessThan(n: Num, c: real) {
    n.NegInf? || (n.Fin? && n.v < c)
  }

  /** `a / b` on two finite numbers: a zero divisor (always +0 where the
      modelled code divides) gives a signed infinity, or NaN for 0 / 0. */
  function Divide(a: real, b: real): (q: Num)
    ensures b != 0.0 ==> q.Fin? && q.v * b == a
    ensures b == 0.0 && a > 0.0 ==> q == PosInf
    ensures b == 0.0 && a < 0.0 ==> q == NegInf
    ensures b == 0.0 && a == 0.0 ==> q == NaN
  {
    if b != 0.0 then Fin(a / b)
    else if a > 0.0 then PosInf
    else if a < 0.0 then NegInf
    else NaN
  }

  function Sign(n: Num): int {
    match n
    case NaN => 0
    case PosInf => 1
    case NegInf => -1
    case Fin(v) => if v > 0.0 then 1 else if v < 0.0 then -1 else 0
  }

  /** `x * y`: NaN absorbs, an infinity times zero is NaN, otherwise an
      infinity carries the product of the signs. */
  function Multiply(x: Num, y: Num): (p: Num)
    ensures p.Fin? <==> x.Fin? && y.Fin?
    ensures p.Fin? ==> p.v == x.v * y.v
    ensures p.NaN? <==> x.NaN? || y.NaN? || (!p.Fin? && (Sign(x) == 0 || Sign(y) == 0))
    ensures !p.Fin? && !p.NaN? ==> Sign(p) == Sign(x) * Sign(y)
  {
    if x.NaN? || y.NaN? then NaN
    else if x.Fin? && y.Fin? then Fin(x.v * y.v)
    else if Sign(x) * Sign(y) > 0 then PosInf
    else if Sign(x) * Sign(y) < 0 then NegInf
    else NaN
  }

  /** A value as `JSON.parse` returns it (or as a request body holds it). */
  datatype Json =
    | JNull
    | JBool(b: bool)
    | JNum(x: real)
    | JStr(s: string)
    | JArr(items: seq<Json>)
    | JObj(fields: map<string, Json>)

  /** What `JSON.stringify` writes for a number: the non-finite ones become null. */
  function NumToJson(n: Num): (j: Json)
    ensures j.JNum? <==> n.Fin?
    ensures n.Fin? ==> j == JNum(n.v)
  {
    if n.Fin? then JNum(n.v) else JNull
  }

  /** Reading `obj.key`: None stands for `undefined`. */
  function Get(obj: map<string, Json>, key: string): Option<Json> {
    if key in obj then Some(obj[key]) else None
  }

  /** `body.key` on a parsed request body: a missing key, or any value that is
      not an object, reads as `undefined` (reading from null throws, which the
      callers handle before reaching here). */
  function Member(body: Json, key: string): (v: Option<Json>)
    ensures v.Some? <==> body.JObj? && key in body.fields
    ensures v.Some? ==> v.value == body.fields[key]
  {
    if body.JObj? then Get(body.fields, key) else None
  }

  /** `Number(v)` for `undefined` (None) or a JSON value. Numeric text is read by
      `parseNumeric`, which stands for the StringToNumber grammar; an array
      converts through its comma-joined text. */
  function ToNumber(v: Option<Json>, parseNumeric: string -> Num): (n: Num)
    ensures v.None? ==> n == NaN
    ensures v == Some(JNull) ==> n == Fin(0.0)
    ensures v.Some? && v.value.JNum? ==> n == Fin(v.value.x)
    ensures v.Some? && v.value.JStr? ==> n == parseNumeric(v.value.s)
    ensures v.Some? && v.value.JBool? ==> n == (if v.value.b then Fin(1.0) else Fin(0.0))
    ensures v.Some? && v.value.JArr? ==> n == ArrayToNumber(v.value.items, parseNumeric)
    ensures v.Some? && v.value.JObj? ==> n == NaN
  {
    match v
    case None => NaN
    case Some(JNull) => Fin(0.0)
    case Some(JBool(b)) => if b then Fin(1.0) else Fin(0.0)
    case Some(JNum(x)) => Fin(x)
    case Some(JStr(s)) => parseNumeric(s)
    case Some(JArr(items)) => ArrayToNumber(items, parseNumeric)
    case Some(JObj(_)) => NaN
  }

  /** `Number(a)` for an array `a`: `Number(String(a))`. An empty array is "" and
      so 0; one element converts as its own text; two or more contain a comma. */
  function ArrayToNumber(items: seq<Json>, parseNumeric: string -> Num): Num
    decreases items
  {
    if |items| == 0 then Fin(0.0)
    else if |items| > 1 then NaN
    else match items[0]
      case JNull => Fin(0.0)
      case JBool(_) => NaN
      case JNum(x) => Fin(x)
      case JStr(s) => parseNumeric(s)
      case JArr(inner) => ArrayToNumber(inner, parseNumeric)
      case JObj(_) => NaN
  }

  /** `v ?? null`. */
  function OrNull(v: Option<Json>): (j: Json)
    ensures v.Some? && v.value != JNull ==> j == v.value
    ensures v.None? ==> j == JNull
  {
    v.GetOr(JNull)
  }

  /** JavaScript truthiness of a JSON value or `undefined` (None). */
  predicate Truthy(v: Option<Json>) {
    match v
    case None => false
    case Some(JNull) => false
    case Some(JBool(b)) => b
    case Some(JNum(x)) => x != 0.0
    case Some(JStr(s)) => s != ""
    case Some(JArr(_)) => true
    case Some(JObj(_)) => true
  }

  /** The characters `String.prototype.trim` removes: WhiteSpace (tab, vertical
      tab, form feed, space, no-break space, the Unicode space separators and
      the byte order mark) and LineTerminator (line feed, carriage return, the
      line and paragraph separators). */
  predicate IsTrimmable(c: char) {
    || ('\t' <= c <= '\r')
    || c == ' '
    || c == '\U{00A0}'
    || c == '\U{1680}'
    || ('\U{2000}' <= c <= '\U{200A}')
    || c == '\U{2028}' || c == '\U{2029}' || c == '\U{202F}' || c == '\U{205F}'
    || c == '\U{3000}'
    || c == '\U{FEFF}'
  }

  function TrimStart(s: string): (r: string)
    ensures |r| <= |s| && r == s[|s| - |r|..]
    ensures r == [] || !IsTrimmable(r[0])
    ensures forall i :: 0 <= i < |s| - |r| ==> IsTrimmable(s[i])
  {
    if s != [] && IsTrimmable(s[0]) then TrimStart(s[1..]) else s
  }

  function TrimEnd(s: string): (r: string)
    ensures |r| <= |s| && r == s[..|r|]
    ensures r == [] || !IsTrimmable(r[|r| - 1])
    ensures forall i :: |r| <= i < |s| ==> IsTrimmable(s[i])
  {
    if s != [] && IsTrimmable(s[|s| - 1]) then TrimEnd(s[..|s| - 1]) else s
  }

  /** `String.prototype.trim`: the text left after removing whitespace at both ends. */
  function Trim(s: string): string {
    TrimEnd(TrimStart(s))
  }
}
