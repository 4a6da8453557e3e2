/**
 * The small part of JavaScript's value semantics the calculators depend on:
 * the `number | ""` state of a numeric input field, truthiness, `Math.max`,
 * the truncating `%` operator and `Number.prototype.toFixed(1)`.
 * Numbers are exact reals; binary floating point is not modelled.
 */
module JsValues {

  /** The state of an `<input type="number">`: `""` while blank, otherwise the number typed. */
  datatype NumberInput = Blank | Val(r: real)

  /** JavaScript truthiness of a `number | ""` value: `""` and `0` are falsy, every other number is truthy. */
  function Truthy(v: NumberInput): (t: bool)
    ensures t <==> v != Blank && v != Val(0.0)
  {
    match v
    case Blank => false
    case Val(x) => x != 0.0
  }

  /** JavaScript truthiness of a string: only the empty string is falsy. */
  function StringTruthy(s: string): (t: bool)
    ensures t <==> s != ""
  {
    |s| != 0
  }

  /** True when `s` begins with `prefix`. */
  predicate StartsWith(s: string, prefix: string) {
    |prefix| <= |s| && s[..|prefix|] == prefix
  }

  /** True when `s` ends with `suffix`. */
  predicate EndsWith(s: string, suffix: string) {
    |suffix| <= |s| && s[|s| - |suffix|..] == suffix
  }

  /** `Math.max(a, b)` on numbers that are not NaN. */
  function MathMax(a: real, b: real): (m: real)
    ensures m >= a && m >= b
    ensures m == a || m == b
  {
    if a >= b then a else b
  }

  /**
   * The quotient of `n / d` rounded toward zero: the multiple `q * d` lies
   * between zero and `n`, less than one divisor away from `n`.
   */
  function TruncDiv(n: real, d: real): (q: int)
    requires d > 0.0
    ensures n >= 0.0 ==> 0 <= q && q as real * d <= n < q as real * d + d
    ensures n < 0.0 ==> q <= 0 && q as real * d - d < n <= q as real * d
  {
    FloorBounds(n, d);
    if n >= 0.0 then (n / d).Floor else -((-n) / d).Floor
  }

  /**
   * JavaScript's `n % d`: the remainder of the truncating division, whose sign
   * follows the dividend (`-10 % 180` is `-10`, unlike Dafny's Euclidean `%`).
   */
  function JsRem(n: real, d: real): (r: real)
    requires d > 0.0
    ensures n >= 0.0 ==> 0.0 <= r < d
    ensures n < 0.0 ==> -d < r <= 0.0
    ensures n == TruncDiv(n, d) as real * d + r
  {
    FloorBounds(n, d);
    n - TruncDiv(n, d) as real * d
  }

  /** `Floor` rounds the quotient down by less than one, stated for the divisions `JsRem` performs. */
  lemma FloorBounds(n: real, d: real)
    requires d > 0.0
    ensures n >= 0.0 ==> 0.0 <= n - (n / d).Floor as real * d < d
    ensures n < 0.0 ==> 0.0 <= (-n) - ((-n) / d).Floor as real * d < d
  {
    if n >= 0.0 {
      FloorRem(n, d);
    } else {
      FloorRem(-n, d);
    }
  }

  lemma FloorRem(a: real, d: real)
    requires d > 0.0
    ensures 0.0 <= a - (a / d).Floor as real * d < d
  {
    var x := a / d;
    var k := x.Floor;
    var kd := k as real * d;
    assert x * d == a;
    MulLeq(k as real, x, d);
    assert kd <= a;
    MulLt(x, k as real + 1.0, d);
    assert (k as real + 1.0) * d == kd + d;
    assert a < kd + d;
  }

  lemma MulLeq(x: real, y: real, d: real)
    requires d > 0.0 && x <= y
    ensures x * d <= y * d
  {}

  lemma MulLt(x: real, y: real, d: real)
    requires d > 0.0 && x < y
    ensures x * d < y * d
  {}

  /**
   * The remainder is determined by the ECMAScript description alone: whenever
   * `n == q * d + r` for an integer `q` and an `r` of the dividend's sign with
   * magnitude below `d`, `r` is `JsRem(n, d)`.
   */
  lemma JsRemUnique(n: real, d: real, q: int, r: real)
    requires d > 0.0
    requires n == q as real * d + r
    requires n >= 0.0 ==> 0.0 <= r < d
    requires n < 0.0 ==> -d < r <= 0.0
    ensures r == JsRem(n, d)
  {
    var q' := TruncDiv(n, d);
    var r' := JsRem(n, d);
    var k := q - q';
    SubMul(q as real, q' as real, d);
    assert k as real * d == r' - r;
    ZeroMultiple(k, d, r' - r);
  }

  lemma SubMul(x: real, y: real, d: real)
    ensures (x - y) * d == x * d - y * d
  {}

  /** The only integer multiple of `d` strictly between `-d` and `d` is zero. */
  lemma ZeroMultiple(k: int, d: real, m: real)
    requires d > 0.0
    requires m == k as real * d
    requires -d < m < d
    ensures k == 0
  {}

  /** Adding one divisor to a dividend of constant sign leaves the remainder unchanged. */
  lemma JsRemShift(n: real, d: real)
    requires d > 0.0
    requires n >= 0.0 || n + d < 0.0
    ensures JsRem(n + d, d) == JsRem(n, d)
  {
    var q := TruncDiv(n, d);
    var r := JsRem(n, d);
    assert n + d == (q + 1) as real * d + r;
    JsRemUnique(n + d, d, q + 1, r);
  }

  /** The decimal `x.toFixed(1)` prints: a sign and a whole number of tenths. */
  datatype Fixed1 = Fixed1(negative: bool, tenths: nat) {

    /** The number the printed decimal denotes. */
    function Value(): real {
      if negative then -(tenths as real / 10.0) else tenths as real / 10.0
    }
  }

  /**
   * `x.toFixed(1)` for `|x| < 1e21`: the sign of `x`, then the count of tenths
   * closest to `|x|`, the larger one when two are equally close.
   */
  function ToFixed1(x: real): (f: Fixed1)
    ensures f.negative <==> x < 0.0
    ensures -0.05 <= f.Value() - x <= 0.05
  {
    var a := if x < 0.0 then -x else x;
    var n := (a * 10.0 + 0.5).Floor;
    Fixed1(x < 0.0, n)
  }

  /**
   * The ECMAScript rule pins the count down: any `n` with `n / 10` above
   * `|x| - 1/20` and at most `|x| + 1/20` is the count `ToFixed1` prints.
   */
  lemma ToFixed1Unique(x: real, n: int)
    requires var a := if x < 0.0 then -x else x; a - 0.05 < n as real / 10.0 <= a + 0.05
    ensures n == ToFixed1(x).tenths
  {}
}
