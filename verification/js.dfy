/** The few pieces of JavaScript value semantics the game rules depend on:
    optional values, numeric slots that may be `undefined` or `NaN`, the
    `x || d` default idiom, Math.round/floor/ceil, and the string tests
    (`startsWith`, `includes`, ASCII `toLowerCase`). */
module Js {

  datatype Option<+T> = None | Some(value: T) {
    function GetOr(default: T): T {
      match this
      case Some(v) => v
      case None => default
    }
  }

  /** A numeric slot of a JavaScript object: absent, `NaN`, or a number. */
  datatype Value = Undefined | NaN | Num(n: real)

  /** `a === b`: `NaN` is not equal to itself. */
  predicate StrictEq(a: Value, b: Value) {
    match (a, b)
    case (Undefined, Undefined) => true
    case (Num(x), Num(y)) => x == y
    case _ => false
  }

  /** JavaScript truthiness of a numeric slot (`undefined`, `NaN` and `0` are falsy). */
  predicate Truthy(v: Value) {
    v.Num? && v.n != 0.0
  }

  /** `v || d` for a numeric default `d`. */
  function Or(v: Value, d: real): real {
    if Truthy(v) then v.n else d
  }

  /** `v ?? d`: only `undefined` is replaced. */
  function Coalesce(v: Value, d: Value): Value {
    if v.Undefined? then d else v
  }

  /** `v + a`, `v * f`: arithmetic on a missing slot yields `NaN`. */
  function Plus(v: Value, a: real): Value {
    if v.Num? then Num(v.n + a) else NaN
  }

  function Minus(v: Value, a: real): Value {
    if v.Num? then Num(v.n - a) else NaN
  }

  function Times(v: Value, f: real): Value {
    if v.Num? then Num(v.n * f) else NaN
  }

  /** `a * b` on two numeric slots. */
  function Product(a: Value, b: Value): Value {
    if a.Num? && b.Num? then Num(a.n * b.n) else NaN
  }

  /** `a > 0` and `a < b` with a number on one side: `undefined` and `NaN` compare false. */
  predicate Positive(v: Value) {
    v.Num? && v.n > 0.0
  }

  predicate Below(x: real, v: Value) {
    v.Num? && x < v.n
  }

  /** `Math.min(a, b)` on two numeric slots. */
  function MinValue(a: Value, b: Value): Value {
    if a.Num? && b.Num? then Num(if a.n <= b.n then a.n else b.n) else NaN
  }

  /** `Math.floor(v)` on a numeric slot. */
  function FloorValue(v: Value): Value {
    if v.Num? then Num(v.n.Floor as real) else NaN
  }

  /** A number with no fractional part. */
  predicate Whole(x: real) {
    x.Floor as real == x
  }

  function Min(a: real, b: real): real {
    if a <= b then a else b
  }

  function Max(a: real, b: real): real {
    if a >= b then a else b
  }

  /** `Math.round`: halves round up, towards positive infinity. */
  function Round(x: real): int {
    (x + 0.5).Floor
  }

  /** `a % b` on whole numbers with a positive divisor. JavaScript's
      remainder truncates: it agrees with Dafny's `%` on a non-negative
      dividend and takes the sign of a negative one, where Dafny's `%` is
      never negative. */
  function Rem(a: int, b: int): (r: int)
    requires b > 0
    ensures a >= 0 ==> r == a % b
    ensures a < 0 ==> r == -Rem(-a, b)
    decreases if a < 0 then 1 else 0
  {
    if a >= 0 then a % b else -((-a) % b)
  }

  /** `Math.ceil` */
  function Ceil(x: real): int {
    -((-x).Floor)
  }

  /** Scaling a non-negative amount by a larger factor never gives less. */
  lemma MulMonotone(a: real, x: real, y: real)
    requires a >= 0.0 && x <= y
    ensures a * x <= a * y
  {
    assert a * y - a * x == a * (y - x);
  }

  lemma FloorMonotone(x: real, y: real)
    requires x <= y
    ensures x.Floor <= y.Floor
  {
  }

  /** Subtracting a whole number moves the floor by exactly that number. */
  lemma FloorShift(x: real, n: int)
    ensures (x - n as real).Floor == x.Floor - n
  {
    var f := x.Floor;
    assert f as real <= x < f as real + 1.0;
    assert (f - n) as real <= x - n as real < (f - n) as real + 1.0;
  }

  /** A ratio with a positive denominator reaches one exactly when the
      numerator reaches the denominator. */
  lemma RatioReachesOne(k: real, m: real)
    requires m > 0.0
    ensures k / m >= 1.0 <==> k >= m
    ensures k >= 0.0 ==> k / m >= 0.0
  {
    var q := k / m;
    assert q * m == k;
    assert k - m == (q - 1.0) * m;
  }

  predicate StartsWith(s: string, prefix: string) {
    |prefix| <= |s| && s[..|prefix|] == prefix
  }

  /** `s.includes(part)` */
  predicate Includes(s: string, part: string)
    decreases |s|
  {
    StartsWith(s, part) || (|s| > 0 && Includes(s[1..], part))
  }

  /** ASCII case folding of `toLowerCase`. */
  function LowerChar(c: char): char {
    if 'A' <= c <= 'Z' then (c as int + 32) as char else c
  }
}
