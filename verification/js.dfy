/** JavaScript semantics that the gauges rely on: dynamically typed update
    payloads, truthiness, property access, the truncating `%` operator,
    `Math.min`/`Math.max` clamping and `Number.prototype.toString` for the
    whole numbers printed on dials. */
module Js {

  datatype Option<T> = None | Some(value: T)

  /** The values a flight-state payload can carry. NaN, null and strings
      are not modelled. */
  datatype JsValue = Undef | Bool(b: bool) | Num(n: real) | Obj(fields: map<string, JsValue>)

  /** `if (v)` and `v || d`: undefined, false and 0 are falsy, everything else is truthy. */
  predicate Truthy(v: JsValue) {
    match v
    case Undef => false
    case Bool(b) => b
    case Num(n) => n != 0.0
    case Obj(_) => true
  }

  /** `v.key`: a missing field, or any field of a number or boolean, reads as undefined. */
  function Get(v: JsValue, key: string): JsValue {
    if v.Obj? && key in v.fields then v.fields[key] else Undef
  }

  predicate NumberOrMissing(v: JsValue) {
    v.Undef? || v.Num?
  }

  /** `v || d` for a field that is either a number or missing. */
  function NumberOr(v: JsValue, d: real): (r: real)
    requires NumberOrMissing(v)
    ensures Truthy(v) ==> r == v.n
    ensures !Truthy(v) ==> r == d
  {
    if v.Num? && v.n != 0.0 then v.n else d
  }

  function Min(a: real, b: real): real { if a <= b then a else b }

  function Max(a: real, b: real): real { if a >= b then a else b }

  /** `Math.max(lo, Math.min(hi, v))`, the clamp every gauge uses. */
  function Clamp(lo: real, hi: real, v: real): (r: real)
    requires lo <= hi
    ensures lo <= r <= hi
    ensures lo <= v <= hi ==> r == v
    ensures v < lo ==> r == lo
    ensures v > hi ==> r == hi
  {
    Max(lo, Min(hi, v))
  }

  lemma ClampIdempotent(lo: real, hi: real, v: real)
    requires lo <= hi
    ensures Clamp(lo, hi, Clamp(lo, hi, v)) == Clamp(lo, hi, v)
  {
  }

  predicate IsInteger(q: real) {
    q.Floor as real == q
  }

  /** a and b differ by a whole number of m. */
  predicate Congruent(a: real, b: real, m: real)
    requires m > 0.0
  {
    IsInteger((a - b) / m)
  }

  /** The quotient behind JavaScript's `%`: rounds toward zero. */
  function Trunc(q: real): (t: int)
    ensures q >= 0.0 ==> t as real <= q < t as real + 1.0
    ensures q < 0.0 ==> t as real - 1.0 < q <= t as real
  {
    if q >= 0.0 then q.Floor else -((-q).Floor)
  }

  /** JavaScript's `x % m` for m > 0: the remainder keeps the sign of x and
      is never renormalised into [0, m). */
  function JsRem(x: real, m: real): (r: real)
    requires m > 0.0
    ensures -m < r < m
    ensures x >= 0.0 ==> r >= 0.0
    ensures x <= 0.0 ==> r <= 0.0
    ensures -m < x < m ==> r == x
    ensures Congruent(r, x, m)
  {
    var t := Trunc(x / m);
    RemBounds(x, m, t);
    RemCongruent(x, m, t);
    x - m * t as real
  }

  /** Taking any whole number of m away from x stays congruent to x. */
  lemma RemCongruent(x: real, m: real, t: int)
    requires m > 0.0
    ensures Congruent(x - m * t as real, x, m)
  {
    var r := x - m * t as real;
    assert r - x == -(t as real) * m;
    assert (r - x) / m == -(t as real) by {
      CancelDivisor(-(t as real), m);
    }
    IntegerIsInteger(-t);
  }

  /** The bounds of x − m·t when t is x/m rounded toward zero. */
  lemma RemBounds(x: real, m: real, t: int)
    requires m > 0.0
    requires x / m >= 0.0 ==> t as real <= x / m < t as real + 1.0
    requires x / m < 0.0 ==> t as real - 1.0 < x / m <= t as real
    ensures -m < x - m * t as real < m
    ensures x >= 0.0 ==> x - m * t as real >= 0.0
    ensures x <= 0.0 ==> x - m * t as real <= 0.0
    ensures -m < x < m ==> x - m * t as real == x
  {
    var q := x / m;
    var f := q - t as real;
    var r := x - m * t as real;
    assert r == f * m by {
      QuotientFacts(x, m);
      Distribute(q, t as real, m);
    }
    assert -1.0 < f < 1.0 && (x >= 0.0 ==> f >= 0.0) && (x <= 0.0 ==> f <= 0.0) by {
      QuotientFacts(x, m);
    }
    BoundedProduct(r, f, m);
    assert -m < x < m ==> t == 0 by {
      QuotientFacts(x, m);
    }
  }

  lemma IntegerIsInteger(k: int)
    ensures IsInteger(k as real)
  {
  }

  lemma QuotientFacts(x: real, m: real)
    requires m > 0.0
    ensures (x / m) * m == x
    ensures x >= 0.0 ==> x / m >= 0.0
    ensures x <= 0.0 ==> x / m <= 0.0
    ensures -m < x < m ==> -1.0 < x / m < 1.0
  {
    var q := x / m;
    if -m < x < m {
      if q >= 1.0 {
        MulMonotone(1.0, q, m);
        assert false;
      }
      if q <= -1.0 {
        MulMonotone(q, -1.0, m);
        assert false;
      }
    }
  }

  lemma MulMonotone(a: real, b: real, m: real)
    requires a <= b && m > 0.0
    ensures a * m <= b * m
  {
  }

  lemma Distribute(q: real, t: real, m: real)
    ensures q * m - m * t == (q - t) * m
  {
  }

  lemma CancelDivisor(k: real, m: real)
    requires m > 0.0
    ensures (k * m) / m == k
  {
  }

  lemma BoundedProduct(r: real, f: real, m: real)
    requires m > 0.0 && -1.0 < f < 1.0 && r == f * m
    ensures -m < r < m
    ensures f >= 0.0 ==> r >= 0.0
    ensures f <= 0.0 ==> r <= 0.0
  {
  }

  /** `x % 360` followed by `if (x < 0) x += 360`: the heading wrap. */
  function Wrap360(x: real): (r: real)
    ensures 0.0 <= r < 360.0
    ensures Congruent(r, x, 360.0)
    ensures 0.0 <= x < 360.0 ==> r == x
  {
    var t := JsRem(x, 360.0);
    if t < 0.0 then
      CongruentShift(t, x);
      t + 360.0
    else t
  }

  lemma CongruentShift(t: real, x: real)
    requires Congruent(t, x, 360.0)
    ensures Congruent(t + 360.0, x, 360.0)
  {
    var q := (t - x) / 360.0;
    assert (t + 360.0 - x) / 360.0 == q + 1.0;
    assert (q + 1.0).Floor == q.Floor + 1;
  }

  lemma Wrap360Idempotent(x: real)
    ensures Wrap360(Wrap360(x)) == Wrap360(x)
  {
  }

  lemma CongruentSymmetric(a: real, b: real)
    requires Congruent(a, b, 360.0)
    ensures Congruent(b, a, 360.0)
  {
    var q := (a - b) / 360.0;
    assert (b - a) / 360.0 == -q;
    IntegerIsInteger(-(q.Floor));
  }

  lemma CongruentTransitive(a: real, b: real, c: real)
    requires Congruent(a, b, 360.0) && Congruent(b, c, 360.0)
    ensures Congruent(a, c, 360.0)
  {
    var p := (a - b) / 360.0;
    var q := (b - c) / 360.0;
    assert (a - c) / 360.0 == p + q;
    IntegerIsInteger(p.Floor + q.Floor);
  }

  /** Two angles in [0, 360) that are congruent modulo 360 are equal. */
  lemma CongruentInTurnIsEqual(a: real, b: real)
    requires 0.0 <= a < 360.0 && 0.0 <= b < 360.0
    requires Congruent(a, b, 360.0)
    ensures a == b
  {
    var q := (a - b) / 360.0;
    assert -1.0 < q < 1.0;
    assert q.Floor == 0 || q.Floor == -1;
    if q.Floor == -1 {
      assert false;
    }
  }

  /** JavaScript's `a % m` on whole numbers (truncating). */
  function IntRem(a: int, m: int): (r: int)
    requires m > 0
    ensures -m < r < m
    ensures a >= 0 ==> r >= 0
    ensures a <= 0 ==> r <= 0
  {
    if a >= 0 then a % m else -((-a) % m)
  }

  function Abs(a: int): nat { if a < 0 then -a else a }

  function Digit(d: nat): char
    requires d < 10
  {
    "0123456789"[d]
  }

  /** `n.toString()` for a whole number n >= 0. */
  function NatToString(n: nat): (s: string)
    ensures 1 <= |s|
    ensures forall k :: 0 <= k < |s| ==> '0' <= s[k] <= '9'
    ensures 1 < |s| ==> s[0] != '0'
    decreases n
  {
    if n < 10 then [Digit(n)] else NatToString(n / 10) + [Digit(n % 10)]
  }

  /** Reads back a decimal numeral; the reference against which NatToString is checked. */
  function ParseNat(s: string): nat
    requires forall k :: 0 <= k < |s| ==> '0' <= s[k] <= '9'
  {
    if |s| == 0 then 0 else 10 * ParseNat(s[..|s| - 1]) + (s[|s| - 1] - '0') as nat
  }

  lemma {:induction false} ParseNatToString(n: nat)
    ensures ParseNat(NatToString(n)) == n
    decreases n
  {
    var s := NatToString(n);
    if n < 10 {
      assert s == [Digit(n)];
    } else {
      ParseNatToString(n / 10);
      assert s[..|s| - 1] == NatToString(n / 10);
      assert s[|s| - 1] == Digit(n % 10);
    }
  }
}
