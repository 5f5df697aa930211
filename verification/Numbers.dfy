/** Exact integers of the numeric tower: square root by Newton's method, the division
    family built on truncating division, and arithmetic shifts. */
module Numbers {
  import opened Wrappers

  // ---- representation ----

  /** Exact integers; a `Big` is an arbitrary-precision integer. */
  datatype Number = Fixnum(value: int) | Big(value: int)

  datatype NumError = DivisionByZero

  predicate FitsI64(n: int) {
    -0x8000_0000_0000_0000 <= n < 0x8000_0000_0000_0000
  }

  /** A number is held as a fixnum exactly when it fits 64 bits. */
  predicate Canonical(x: Number) {
    x.Fixnum? <==> FitsI64(x.value)
  }

  function Simplify(n: int): (r: Number)
    ensures Canonical(r) && r.value == n
  {
    if FitsI64(n) then Fixnum(n) else Big(n)
  }

  function Abs(n: int): (r: int)
    ensures r >= 0
  {
    if n < 0 then -n else n
  }

  // ---- products ----

  lemma ProductPositive(a: int, b: int)
    requires a >= 1 && b >= 1
    ensures a * b >= a && a * b >= b
  {
    assert a * b - a == a * (b - 1) && a * b - b == (a - 1) * b;
    assert a * (b - 1) >= 0 && (a - 1) * b >= 0;
  }

  lemma NegatedProduct(a: int, b: int)
    ensures a * -b == -(a * b) && -a * b == -(a * b)
  {
  }

  lemma MultipleIsFar(b: int, d: int)
    requires b != 0 && d != 0
    ensures Abs(b * d) >= Abs(b)
  {
    ProductPositive(Abs(b), Abs(d));
    NegatedProduct(b, d);
    NegatedProduct(-b, d);
  }

  /** Remainders less than `|b|` apart come from the same quotient. */
  lemma SameQuotient(b: int, q: int, p: int, gap: int)
    requires b != 0 && b * q == b * p + gap && -Abs(b) < gap < Abs(b)
    ensures q == p
  {
    var d := q - p;
    assert b * d == gap;
    assert d != 0 ==> Abs(b * d) >= Abs(b) by {
      if d != 0 { MultipleIsFar(b, d); }
    }
  }

  // ---- truncating division, as the big-integer library gives it ----

  function TruncQuotient(a: int, b: int): int
    requires b != 0
  {
    if (a < 0) == (b < 0) then Abs(a) / Abs(b) else -(Abs(a) / Abs(b))
  }

  function TruncRemainder(a: int, b: int): int
    requires b != 0
  {
    if a < 0 then -(Abs(a) % Abs(b)) else Abs(a) % Abs(b)
  }

  lemma SignedProduct(a: int, b: int, q: int, m: int)
    requires Abs(a) == Abs(b) * q + m
    ensures a == b * (if (a < 0) == (b < 0) then q else -q) + (if a < 0 then -m else m)
  {
    NegatedProduct(b, q);
  }

  /** Truncation rounds toward zero: the remainder is short and has the dividend's sign. */
  lemma Truncates(a: int, b: int)
    requires b != 0
    ensures a == b * TruncQuotient(a, b) + TruncRemainder(a, b)
    ensures Abs(TruncRemainder(a, b)) < Abs(b)
    ensures (a >= 0 ==> TruncRemainder(a, b) >= 0) && (a <= 0 ==> TruncRemainder(a, b) <= 0)
  {
    var q, m := Abs(a) / Abs(b), Abs(a) % Abs(b);
    assert Abs(a) == Abs(b) * q + m && 0 <= m < Abs(b);
    SignedProduct(a, b, q, m);
  }

  lemma ExactQuotient(b: int, q: int)
    requires b != 0
    ensures TruncQuotient(b * q, b) == q
  {
    Truncates(b * q, b);
    SameQuotient(b, q, TruncQuotient(b * q, b), TruncRemainder(b * q, b));
  }

  function Quotient(x: Number, y: Number): (r: Result<Number, NumError>)
    ensures r.Err? <==> y.value == 0
  {
    if y.value == 0 then Err(DivisionByZero) else Ok(Simplify(TruncQuotient(x.value, y.value)))
  }

  function Remainder(x: Number, y: Number): (r: Result<Number, NumError>)
    ensures r.Err? <==> y.value == 0
  {
    if y.value == 0 then Err(DivisionByZero) else Ok(Simplify(TruncRemainder(x.value, y.value)))
  }

  /** A remainder shorter than the divisor, on the dividend's side. */
  predicate WithDividendSign(r: int, a: int, b: int) {
    Abs(r) < Abs(b) && (a >= 0 ==> r >= 0) && (a <= 0 ==> r <= 0)
  }

  /** `quotient` and `remainder` divide exactly, the remainder has the dividend's sign,
      and no other quotient leaves such a remainder. */
  lemma TruncatedDivision(x: Number, y: Number, q: int)
    requires y.value != 0
    ensures var d, m := Quotient(x, y).value, Remainder(x, y).value;
            && Canonical(d) && Canonical(m)
            && x.value == y.value * d.value + m.value && WithDividendSign(m.value, x.value, y.value)
            && (WithDividendSign(x.value - y.value * q, x.value, y.value) <==> q == d.value)
  {
    var a, b := x.value, y.value;
    Truncates(a, b);
    if WithDividendSign(a - b * q, a, b) {
      SameQuotient(b, q, TruncQuotient(a, b), TruncRemainder(a, b) - (a - b * q));
    }
  }

  // ---- flooring division ----

  function FloorRemainder(a: int, b: int): int
    requires b != 0
  {
    var r := TruncRemainder(a, b);
    if (r < 0 && b > 0) || (r > 0 && b < 0) then r + b else r
  }

  function Modulo(x: Number, y: Number): (r: Result<Number, NumError>)
    ensures r.Err? <==> y.value == 0
  {
    if y.value == 0 then Err(DivisionByZero) else Ok(Simplify(FloorRemainder(x.value, y.value)))
  }

  function FloorQuotient(x: Number, y: Number): (r: Result<Number, NumError>)
    ensures r.Err? <==> y.value == 0
  {
    if y.value == 0 then Err(DivisionByZero)
    else Ok(Simplify(TruncQuotient(x.value - FloorRemainder(x.value, y.value), y.value)))
  }

  /** A remainder between zero and the divisor, on the divisor's side. */
  predicate WithDivisorSign(r: int, b: int) {
    if b > 0 then 0 <= r < b else b < r <= 0
  }

  /** `floor-quotient` and `modulo` divide exactly, the remainder has the divisor's
      sign, and no other quotient leaves such a remainder. */
  lemma FloorDivision(x: Number, y: Number, q: int)
    requires y.value != 0
    ensures var d, m := FloorQuotient(x, y).value, Modulo(x, y).value;
            && Canonical(d) && Canonical(m)
            && x.value == y.value * d.value + m.value && WithDivisorSign(m.value, y.value)
            && (WithDivisorSign(x.value - y.value * q, y.value) <==> q == d.value)
  {
    var a, b := x.value, y.value;
    Truncates(a, b);
    var f := FloorRemainder(a, b);
    var p := if f == TruncRemainder(a, b) then TruncQuotient(a, b) else TruncQuotient(a, b) - 1;
    assert b * (TruncQuotient(a, b) - 1) == b * TruncQuotient(a, b) - b;
    assert a - f == b * p;
    ExactQuotient(b, p);
    if WithDivisorSign(a - b * q, b) { SameQuotient(b, q, p, f - (a - b * q)); }
  }

  // ---- Euclidean division ----

  function EuclidQuotient(a: int, b: int): int
    requires b != 0
  {
    var q := TruncQuotient(a, b);
    if a - q * b < 0 then (if b > 0 then q - 1 else q + 1) else q
  }

  function EuclidDiv(x: Number, y: Number): (r: Result<Number, NumError>)
    ensures r.Err? <==> y.value == 0
  {
    if y.value == 0 then Err(DivisionByZero) else Ok(Simplify(EuclidQuotient(x.value, y.value)))
  }

  function EuclidMod(x: Number, y: Number): (r: Result<Number, NumError>)
    ensures r.Err? <==> y.value == 0
  {
    match EuclidDiv(x, y)
    case Err(e) => Err(e)
    case Ok(d) => Ok(Simplify(x.value - d.value * y.value))
  }

  lemma EuclidRange(a: int, b: int)
    requires b != 0
    ensures 0 <= a - b * EuclidQuotient(a, b) < Abs(b)
  {
    Truncates(a, b);
    var q := TruncQuotient(a, b);
    assert b * (q - 1) == b * q - b && b * (q + 1) == b * q + b;
  }

  /** `div` and `mod`: the remainder lies in `[0, |y|)`, and no other quotient puts it there. */
  lemma EuclideanDivision(x: Number, y: Number, q: int)
    requires y.value != 0
    ensures var d, m := EuclidDiv(x, y).value, EuclidMod(x, y).value;
            && Canonical(d) && Canonical(m)
            && x.value == y.value * d.value + m.value && 0 <= m.value < Abs(y.value)
            && (0 <= x.value - y.value * q < Abs(y.value) <==> q == d.value)
  {
    var a, b := x.value, y.value;
    var d := EuclidQuotient(a, b);
    EuclidRange(a, b);
    assert d * b == b * d;
    if 0 <= a - b * q < Abs(b) { SameQuotient(b, q, d, (a - b * d) - (a - b * q)); }
  }

  // ---- centred division ----

  function CentredQuotient(a: int, b: int): int
    requires b != 0
  {
    var d := EuclidQuotient(a, b);
    var m := a - d * b;
    if m * 2 > Abs(b) || (m * 2 == Abs(b) && Abs(b) % 2 == 0) then (if b > 0 then d + 1 else d - 1) else d
  }

  function EuclidDiv0(x: Number, y: Number): (r: Result<Number, NumError>)
    ensures r.Err? <==> y.value == 0
  {
    if y.value == 0 then Err(DivisionByZero) else Ok(Simplify(CentredQuotient(x.value, y.value)))
  }

  function EuclidMod0(x: Number, y: Number): (r: Result<Number, NumError>)
    ensures r.Err? <==> y.value == 0
  {
    match EuclidDiv0(x, y)
    case Err(e) => Err(e)
    case Ok(d) => Ok(Simplify(x.value - d.value * y.value))
  }

  predicate Centred(r: int, b: int) {
    -Abs(b) <= 2 * r < Abs(b)
  }

  lemma CentredRange(a: int, b: int)
    requires b != 0
    ensures Centred(a - b * CentredQuotient(a, b), b)
  {
    var e := EuclidQuotient(a, b);
    EuclidRange(a, b);
    assert e * b == b * e;
    assert b * (e + 1) == b * e + b && b * (e - 1) == b * e - b;
  }

  lemma CentredOnce(a: int, b: int, q: int, d: int)
    requires b != 0 && Centred(a - b * q, b) && Centred(a - b * d, b)
    ensures q == d
  {
    SameQuotient(b, q, d, (a - b * d) - (a - b * q));
  }

  /** `div0` and `mod0`: the remainder lies in `[-|y|/2, |y|/2)`, and no other quotient puts it there. */
  lemma CentredDivision(x: Number, y: Number, q: int)
    requires y.value != 0
    ensures var d, m := EuclidDiv0(x, y).value, EuclidMod0(x, y).value;
            && Canonical(d) && Canonical(m)
            && x.value == y.value * d.value + m.value && Centred(m.value, y.value)
            && (Centred(x.value - y.value * q, y.value) <==> q == d.value)
  {
    var a, b := x.value, y.value;
    var d := CentredQuotient(a, b);
    CentredRange(a, b);
    assert d * b == b * d;
    if Centred(a - b * q, b) { CentredOnce(a, b, q, d); }
  }

  // ---- square root ----

  ghost function Pow2(k: nat): (r: nat)
    ensures r > 0
  {
    if k == 0 then 1 else 2 * Pow2(k - 1)
  }

  lemma {:induction false} Pow2Adds(j: nat, k: nat)
    ensures Pow2(j + k) == Pow2(j) * Pow2(k)
    decreases j
  {
    if j > 0 {
      Pow2Adds(j - 1, k);
      assert Pow2(j + k) == 2 * Pow2(j - 1 + k);
    }
  }

  /** Bits in the binary representation. */
  function Bits(n: nat): nat {
    if n == 0 then 0 else 1 + Bits(n / 2)
  }

  lemma {:induction false} BitsBound(n: nat)
    ensures n < Pow2(Bits(n))
  {
    if n > 0 { BitsBound(n / 2); }
  }

  function ShiftLeft(n: int, k: nat): (r: int)
    ensures r == n * Pow2(k)
    decreases k
  {
    if k == 0 then n
    else
      assert n * Pow2(k) == 2 * (n * Pow2(k - 1));
      2 * ShiftLeft(n, k - 1)
  }

  /** `x` is not below the square root of `n`. */
  ghost predicate Above(x: int, n: nat) {
    x >= 1 && (x + 1) * (x + 1) > n
  }

  lemma SquareGrows(a: int, b: int)
    requires 0 <= a <= b
    ensures a * a <= b * b
  {
    assert b * b - a * a == (b - a) * (b + a);
    assert (b - a) * (b + a) >= 0;
  }

  lemma GuessAbove(n: nat, x: int)
    requires x == Pow2(Bits(n) / 2 + 1)
    ensures Above(x, n)
  {
    BitsBound(n);
    var h, b := Bits(n) / 2 + 1, Bits(n);
    Pow2Adds(h, h);
    Pow2Adds(b, h + h - b);
    ProductPositive(Pow2(b), Pow2(h + h - b));
    assert x * x >= Pow2(b) > n;
    SquareGrows(x, x + 1);
  }

  function NewtonStep(x: int, n: nat): int
    requires x >= 1
  {
    (x + n / x) / 2
  }

  lemma MeansCompare(x: int, t: int)
    ensures (x + t) * (x + t) >= 4 * (x * t)
  {
    assert (x + t) * (x + t) - 4 * (x * t) == (x - t) * (x - t);
    assert (x - t) * (x - t) >= 0;
  }

  /** Arithmetic and geometric means: a Newton step stays above the root. */
  lemma StepAbove(x: int, n: nat, y: int)
    requires x >= 1 && n >= 1 && y == NewtonStep(x, n)
    ensures Above(y, n)
  {
    var q := n / x;
    assert n == x * q + n % x;
    assert x * (q + 1) == x * q + x;
    assert n < x * (q + 1);
    MeansCompare(x, q + 1);
    SquareGrows(x + (q + 1), 2 * (y + 1));
    assert (2 * (y + 1)) * (2 * (y + 1)) == 4 * ((y + 1) * (y + 1));
    if x == 1 { assert q == n; }
  }

  /** Where a step no longer descends, the root is reached. */
  lemma StopsAtRoot(x: int, n: nat, y: int)
    requires x >= 1 && y == NewtonStep(x, n) && y >= x
    ensures x * x <= n
  {
    var q := n / x;
    assert q >= x;
    assert n == x * q + n % x;
    assert x * q - x * x == x * (q - x);
    assert x * (q - x) >= 0;
  }

  lemma RootFound(x: int, n: nat, y: int)
    requires Above(x, n) && y == NewtonStep(x, n) && y >= x
    ensures x * x <= n < x * x + 2 * x + 1
  {
    StopsAtRoot(x, n, y);
    assert (x + 1) * (x + 1) == x * x + 2 * x + 1;
  }

  /** The root and what is left of `n`; nothing for a negative `n`. */
  method ExactIntegerSqrt(x: Number) returns (r: Option<(Number, Number)>)
    ensures r.None? <==> x.value < 0
    ensures r.Some? ==> var (s, rest) := r.value;
                        && Canonical(s) && Canonical(rest)
                        && 0 <= s.value && x.value == s.value * s.value + rest.value
                        && 0 <= rest.value < 2 * s.value + 1
  {
    var n := x.value;
    if n < 0 {
      return None;
    }
    if n == 0 {
      return Some((Fixnum(0), Fixnum(0)));
    }
    var g := ShiftLeft(1, Bits(n) / 2 + 1);
    GuessAbove(n, g);
    var y := NewtonStep(g, n);
    while y < g
      invariant Above(g, n) && y == NewtonStep(g, n)
      decreases g
    {
      StepAbove(g, n, y);
      g := y;
      y := NewtonStep(g, n);
    }
    RootFound(g, n, y);
    r := Some((Simplify(g), Simplify(n - g * g)));
  }

  /** Only the floor of the square root leaves such a rest. */
  lemma SqrtUnique(n: nat, s: nat, t: nat)
    requires s * s <= n < s * s + 2 * s + 1 && t * t <= n < t * t + 2 * t + 1
    ensures s == t
  {
    assert (s + 1) * (s + 1) == s * s + 2 * s + 1 && (t + 1) * (t + 1) == t * t + 2 * t + 1;
    if s < t { SquareGrows(s + 1, t); }
    if t < s { SquareGrows(t + 1, s); }
  }

  // ---- shifts ----

  /** The library's right shift of a non-negative number. */
  function ShiftRight(n: nat, k: nat): (r: nat)
    ensures r == n / Pow2(k)
    decreases k
  {
    if k == 0 then n
    else
      HalfOfQuotient(n, Pow2(k - 1));
      ShiftRight(n, k - 1) / 2
  }

  /** A quotient is pinned by the interval the dividend falls in. */
  lemma QuotientIs(n: int, p: int, q: int)
    requires p > 0 && q * p <= n < (q + 1) * p
    ensures n / p == q
  {
    assert n == p * (n / p) + n % p;
    assert p * q == q * p && (q + 1) * p == p * q + p;
    SameQuotient(p, n / p, q, (n - q * p) - n % p);
  }

  lemma HalfOfQuotient(n: int, p: nat)
    requires p > 0
    ensures n / p / 2 == n / (2 * p)
  {
    var q := n / p;
    var h := q / 2;
    assert n == p * q + n % p;
    assert q == 2 * h + q % 2;
    assert p * q == 2 * (h * p) + (q % 2) * p;
    assert h * (2 * p) == 2 * (h * p) && (h + 1) * (2 * p) == 2 * (h * p) + 2 * p;
    assert (q % 2) * p <= p;
    QuotientIs(n, 2 * p, h);
  }

  function ArithShiftRight(n: int, k: nat): int {
    if n >= 0 then ShiftRight(n, k) else -(ShiftRight(-n - 1, k) as int) - 1
  }

  lemma Brackets(n: int, p: int)
    requires p > 0
    ensures (n / p) * p <= n < (n / p + 1) * p
  {
    assert n == p * (n / p) + n % p;
    assert (n / p) * p == p * (n / p) && (n / p + 1) * p == p * (n / p) + p;
  }

  /** Division of the complement, the way two's complement shifts. */
  lemma ComplementDivides(n: int, p: int)
    requires p > 0
    ensures n / p == -((-n - 1) / p) - 1
  {
    var c := -n - 1;
    var q := c / p;
    Brackets(c, p);
    NegatedProduct(q, p);
    assert (-q - 1) * p == -(q * p) - p && (q + 1) * p == q * p + p;
    assert (-q - 1 + 1) * p == -(q * p);
    QuotientIs(n, p, -q - 1);
  }

  /** Shifting right divides by a power of two, rounding down, for either sign. */
  lemma ShiftFloors(n: int, k: nat)
    ensures ArithShiftRight(n, k) == n / Pow2(k)
    ensures ArithShiftRight(n, k) * Pow2(k) <= n < (ArithShiftRight(n, k) + 1) * Pow2(k)
  {
    Brackets(n, Pow2(k));
    if n < 0 { ComplementDivides(n, Pow2(k)); }
  }

  function ArithShift(x: Number, count: Number): (r: Option<Number>)
    ensures r.None? <==> !FitsI64(count.value)
  {
    if !FitsI64(count.value) then None
    else if count.value >= 0 then Some(Simplify(ShiftLeft(x.value, count.value)))
    else Some(Simplify(ArithShiftRight(x.value, -count.value)))
  }

  lemma ShiftMeaning(x: Number, count: Number)
    requires FitsI64(count.value)
    ensures var r := ArithShift(x, count).value;
            && Canonical(r)
            && r.value == if count.value >= 0 then x.value * Pow2(count.value) else x.value / Pow2(-count.value)
  {
    if count.value < 0 { ShiftFloors(x.value, -count.value); }
  }

  /** Shifting right by the same count undoes a left shift. */
  lemma ShiftBack(n: int, k: nat)
    ensures ArithShiftRight(ShiftLeft(n, k), k) == n
  {
    var m, p := ShiftLeft(n, k), Pow2(k);
    ShiftFloors(m, k);
    assert (n + 1) * p == m + p;
    QuotientIs(m, p, n);
  }

  lemma {:induction false} ShiftsAdd(n: int, j: nat, k: nat)
    ensures ArithShiftRight(ArithShiftRight(n, j), k) == ArithShiftRight(n, j + k)
    decreases k
  {
    ShiftFloors(n, j);
    ShiftFloors(n / Pow2(j), k);
    ShiftFloors(n, j + k);
    QuotientsNest(n, j, k);
  }

  lemma {:induction false} QuotientsNest(n: int, j: nat, k: nat)
    ensures n / Pow2(j) / Pow2(k) == n / Pow2(j + k)
    decreases k
  {
    if k == 0 {
      assert n / Pow2(j) / 1 == n / Pow2(j);
    } else {
      QuotientsNest(n, j, k - 1);
      HalfOfQuotient(n / Pow2(j), Pow2(k - 1));
      HalfOfQuotient(n, Pow2(j + k - 1));
      assert Pow2(j + k) == 2 * Pow2(j + k - 1);
    }
  }
}
