// types/decimal.go: fixed-point numbers with 18 decimals, held as integers scaled by 10^18.

module Decimal {

  type Dec = int  // the scaled integer

  const UNIT: int := 1_000_000_000_000_000_000
  const HALF: int := 500_000_000_000_000_000

  function Abs(x: int): nat {
    if x < 0 then -x else x
  }

  // big.Int Quo: division that truncates toward zero.
  function QuoT(a: int, b: int): int
    requires b != 0
  {
    if (a < 0) == (b < 0) then Abs(a) / Abs(b) else -(Abs(a) / Abs(b))
  }

  // chopPrecisionAndRound: drop 18 digits with banker's rounding.
  function ChopRound(d: int): int
    decreases d < 0
  {
    if d < 0 then -ChopRound(-d)
    else
      var quo, rem := d / UNIT, d % UNIT;
      if rem < HALF then quo
      else if rem > HALF then quo + 1
      else if quo % 2 == 0 then quo
      else quo + 1
  }

  // chopPrecisionAndTruncate
  function ChopTruncate(d: int): int {
    QuoT(d, UNIT)
  }

  function Mul(a: Dec, b: Dec): Dec { ChopRound(a * b) }

  function MulTruncate(a: Dec, b: Dec): Dec { ChopTruncate(a * b) }

  function MulInt(a: Dec, i: int): Dec { a * i }

  function Quo(a: Dec, b: Dec): Dec
    requires b != 0
  {
    ChopRound(QuoT(a * UNIT * UNIT, b))
  }

  function QuoTruncate(a: Dec, b: Dec): Dec
    requires b != 0
  {
    ChopTruncate(QuoT(a * UNIT * UNIT, b))
  }

  function NewDec(i: int): Dec { i * UNIT }

  function RoundInt(d: Dec): int { ChopRound(d) }

  function Ceil(d: Dec): Dec {
    var quo := QuoT(d, UNIT);
    var rem := d - quo * UNIT;
    if rem <= 0 then quo * UNIT else (quo + 1) * UNIT
  }

  // ---------- Rounding ----------

  // r is d / 10^18 rounded to nearest, ties to even.
  ghost predicate NearestEven(d: int, r: int) {
    2 * Abs(d - r * UNIT) < UNIT || (2 * Abs(d - r * UNIT) == UNIT && r % 2 == 0)
  }

  lemma ChopRoundIsNearestEven(d: int, r: int)
    ensures NearestEven(d, r) <==> r == ChopRound(d)
  {
    var n := Abs(d);
    assert ChopRound(d) == if d < 0 then -ChopRound(n) else ChopRound(n);
  }

  lemma ChopRoundOdd(d: int)
    ensures ChopRound(-d) == -ChopRound(d)
  {}

  lemma ChopRoundMonotone(a: int, b: int)
    requires a <= b
    ensures ChopRound(a) <= ChopRound(b)
  {
    ChopRoundIsNearestEven(a, ChopRound(a));
    ChopRoundIsNearestEven(b, ChopRound(b));
  }

  // Rounding keeps whole values, so it cannot cross them.
  lemma ChopRoundWhole(d: int, r: int)
    ensures ChopRound(r * UNIT) == r
    ensures d <= r * UNIT ==> ChopRound(d) <= r
    ensures d >= r * UNIT ==> ChopRound(d) >= r
  {
    ChopRoundIsNearestEven(r * UNIT, r);
    if d <= r * UNIT { ChopRoundMonotone(d, r * UNIT); }
    if d >= r * UNIT { ChopRoundMonotone(r * UNIT, d); }
  }

  lemma MulOrder(a: int, b: int, c: int)
    requires a <= b && 0 <= c
    ensures a * c <= b * c
  {}

  lemma MulMonotone(a: Dec, b: Dec, c: Dec)
    requires a <= b && 0 <= c
    ensures Mul(a, c) <= Mul(b, c) && Mul(c, a) <= Mul(c, b)
  {
    MulOrder(a, b, c);
    ChopRoundMonotone(a * c, b * c);
    assert c * a == a * c && c * b == b * c;
  }

  // Mul is the exact product rounded to nearest, ties to even, and odd in each factor.
  lemma MulIsNearestEven(a: Dec, b: Dec)
    ensures NearestEven(a * b, Mul(a, b))
    ensures Mul(-a, b) == -Mul(a, b) && Mul(a, b) == Mul(b, a)
  {
    ChopRoundIsNearestEven(a * b, Mul(a, b));
    assert -a * b == -(a * b);
    assert a * b == b * a;
    ChopRoundOdd(a * b);
  }

  // ---------- Truncated division ----------

  lemma QuoTBounds(a: int, b: int)
    requires b != 0
    ensures Abs(a - QuoT(a, b) * b) < Abs(b)
    ensures Abs(QuoT(a, b) * b) <= Abs(a)
  {
    var n: int, m: int := Abs(a), Abs(b);
    DivBounds(n, m);
    SignedProducts(n / m, m);
  }

  lemma SignedProducts(q: int, m: int)
    ensures (-q) * m == -(q * m) && q * (-m) == -(q * m) && (-q) * (-m) == q * m
  {}

  lemma Distribute(x: int, y: int, z: int)
    ensures (x + y) * z == x * z + y * z
  {}

  lemma Regroup(x: int, y: int, z: int)
    ensures x * (y * z) == (x * y) * z
  {}

  lemma DivBounds(n: int, m: int)
    requires 0 <= n && 0 < m
    ensures 0 <= (n / m) * m <= n < (n / m) * m + m
  {}

  lemma DivUnique(n: int, m: int, q: int)
    requires 0 < m && q * m <= n < q * m + m
    ensures n / m == q
  {
    var k := n / m;
    assert k * m <= n < k * m + m;
    assert (k + 1) * m == k * m + m && (q + 1) * m == q * m + m;
    if k < q { MulOrder(k + 1, q, m); }
    if q < k { MulOrder(q + 1, k, m); }
  }

  // Dividing twice is dividing once by the product.
  lemma DivDiv(n: nat, b: int, c: int)
    requires 0 < b && 0 < c
    ensures 0 < b * c && (n / b) / c == n / (b * c)
  {
    var q := (n / b) / c;
    var x := n / b;
    assert x * b <= n < x * b + b;
    assert q * c <= x < q * c + c;
    MulOrder(q * c, x, b);
    MulOrder(x + 1, q * c + c, b);
    Regroup(q, c, b);
    Distribute(q * c, c, b);
    Distribute(x, 1, b);
    DivUnique(n, b * c, q);
  }

  lemma DivCancel(n: nat, b: int, c: int)
    requires 0 < b && 0 < c
    ensures 0 < b * c && (n * c) / (b * c) == n / b
  {
    var q := n / b;
    assert q * b <= n < q * b + b;
    MulOrder(q * b, n, c);
    MulOrder(n + 1, q * b + b, c);
    Distribute(n, 1, c);
    Regroup(q, b, c);
    Distribute(q * b, b, c);
    MulLess(0, b, c);
    DivUnique(n * c, b * c, q);
  }

  // Although it divides twice, QuoTruncate is the one truncated quotient.
  lemma QuoTruncateIsExact(a: Dec, b: Dec)
    requires b != 0
    ensures QuoTruncate(a, b) == QuoT(a * UNIT, b)
  {
    var n, m := Abs(a), Abs(b);
    assert Abs(a * UNIT) == n * UNIT && Abs(a * UNIT * UNIT) == n * UNIT * UNIT;
    DivDiv(n * UNIT * UNIT, m, UNIT);
    DivCancel(n * UNIT, m, UNIT);
    var t := QuoT(a * UNIT * UNIT, b);
    assert Abs(t) == (n * UNIT * UNIT) / m;
    assert (n * UNIT * UNIT) / m / UNIT == (n * UNIT) / m;
    if t == 0 {
      assert (n * UNIT) / m == 0;
    }
  }

  // Quo is within 1/2 + 10^-18 units of the true quotient a * 10^18 / b.
  lemma QuoError(a: Dec, b: Dec)
    requires b != 0
    ensures Abs(2 * UNIT * (Quo(a, b) * b - a * UNIT)) <= (UNIT + 2) * Abs(b)
  {
    var t := QuoT(a * UNIT * UNIT, b);
    QuoTBounds(a * UNIT * UNIT, b);
    ChopRoundIsNearestEven(t, Quo(a, b));
    RoundedError(a, b, t, Quo(a, b));
  }

  lemma RoundedError(a: int, b: int, t: int, q: int)
    requires Abs(a * UNIT * UNIT - t * b) < Abs(b) && NearestEven(t, q)
    ensures Abs(2 * UNIT * (q * b - a * UNIT)) <= (UNIT + 2) * Abs(b)
  {
    var e := 2 * (t - q * UNIT);
    ScaleError(e, b, UNIT);
    Expand(t, q, b);
    AddErrors(a, t * b, q * b, e * b, Abs(b));
  }

  lemma Expand(t: int, q: int, b: int)
    ensures (2 * (t - q * UNIT)) * b == 2 * (t * b) - 2 * UNIT * (q * b)
  {
    assert (t - q * UNIT) * b == t * b - (q * UNIT) * b;
    assert (q * UNIT) * b == UNIT * (q * b);
  }

  lemma AddErrors(a: int, t: int, q: int, e: int, b: nat)
    requires Abs(a * UNIT * UNIT - t) < b && e == 2 * t - 2 * UNIT * q && Abs(e) <= UNIT * b
    ensures Abs(2 * UNIT * (q - a * UNIT)) <= (UNIT + 2) * b
  {}

  lemma ScaleError(e: int, b: int, c: nat)
    requires Abs(e) <= c
    ensures Abs(e * b) <= c * Abs(b)
  {
    MulOrder(Abs(e), c, Abs(b));
    assert Abs(e * b) == Abs(e) * Abs(b);
  }

  // Ceil is the least whole value at or above d.
  lemma CeilIsLeast(d: Dec, w: int)
    ensures Ceil(d) % UNIT == 0 && Ceil(d) >= d
    ensures w * UNIT >= d ==> w * UNIT >= Ceil(d)
  {}

  // ---------- Truncated multiplication ----------

  lemma MulTruncateBounds(a: Dec, b: Dec)
    requires 0 <= a && 0 <= b
    ensures 0 <= MulTruncate(a, b) && MulTruncate(a, b) * UNIT <= a * b < MulTruncate(a, b) * UNIT + UNIT
  {
    MulOrder(0, a, b);
    var p := a * b;
    assert p == (p / UNIT) * UNIT + p % UNIT;
  }

  // ---------- Ratios of whole numbers ----------

  lemma DivMonotone(a: int, b: int, m: int)
    requires 0 <= a <= b && 0 < m
    ensures 0 <= a / m <= b / m
  {
    DivBounds(a, m);
    DivBounds(b, m);
    FromProducts(a / m, b / m, m);
    FromProducts(0, a / m, m);
  }

  lemma FromProducts(x: int, y: int, m: int)
    requires 0 < m && x * m < y * m + m
    ensures x <= y
  {
    assert (y + 1) * m == y * m + m;
    if x > y { MulOrder(y + 1, x, m); }
  }

  lemma QuoMonotone(x: int, x': int, y: int)
    requires 0 <= x <= x' && 0 < y
    ensures 0 <= Quo(NewDec(x), NewDec(y)) <= Quo(NewDec(x'), NewDec(y))
  {
    var n, n', m := NewDec(x) * UNIT * UNIT, NewDec(x') * UNIT * UNIT, NewDec(y);
    DivMonotone(n, n', m);
    ChopRoundWhole(n / m, 0);
    ChopRoundMonotone(n / m, n' / m);
  }

  lemma QuoAtMostOne(x: int, y: int)
    requires 0 <= x <= y && 0 < y
    ensures Quo(NewDec(x), NewDec(y)) <= UNIT
  {
    var m := NewDec(y);
    QuoMonotone(x, y, y);
    DivUnique(m * UNIT * UNIT, m, UNIT * UNIT);
    ChopRoundWhole(UNIT * UNIT, UNIT);
  }

  // Quotients compare as the fractions do, by cross multiplication.
  lemma DivOrder(n: int, m: int, n': int, m': int)
    requires 0 <= n && 0 <= n' && 0 < m && 0 < m' && n * m' <= n' * m
    ensures 0 <= n / m <= n' / m'
  {
    DivBounds(n, m);
    DivBounds(n', m');
    DivMonotone(0, n, m);
    var p, q := n / m, n' / m';
    MulOrder(p * m, n, m');
    MulLess(n', q * m' + m', m);
    CrossTerms(p, q, m, m');
    FromProducts(p, q, m * m');
  }

  lemma CrossTerms(p: int, q: int, m: int, m': int)
    ensures p * m * m' == p * (m * m') && (q * m' + m') * m == q * (m * m') + m * m'
  {}

  lemma MulLess(a: int, b: int, c: int)
    requires a < b && c > 0
    ensures a * c < b * c
  {
    MulOrder(a + 1, b, c);
  }

  lemma QuoOrder(a: Dec, b: Dec, a': Dec, b': Dec)
    requires 0 <= a && 0 <= a' && 0 < b && 0 < b' && a * b' <= a' * b
    ensures 0 <= Quo(a, b) <= Quo(a', b')
  {
    var n, n' := a * UNIT * UNIT, a' * UNIT * UNIT;
    assert n * b' == (a * b') * (UNIT * UNIT) && n' * b == (a' * b) * (UNIT * UNIT);
    DivOrder(n, b, n', b');
    ChopRoundWhole(n / b, 0);
    ChopRoundMonotone(n / b, n' / b');
  }

  // The least value, with 18 digits more, that rounds to q or above.
  function Cut(q: Dec): int {
    q * UNIT - HALF + if q % 2 == 0 then 0 else 1
  }

  lemma ChopRoundAtLeast(d: int, q: Dec)
    ensures ChopRound(d) >= q <==> d >= Cut(q)
  {
    ChopRoundIsNearestEven(d, ChopRound(d));
  }

  // Exactly when a quotient, truncated and then rounded, reaches a value.
  lemma QuoAtLeast(a: Dec, b: Dec, q: Dec)
    requires a >= 0 && b > 0
    ensures Quo(a, b) >= q <==> a * UNIT * UNIT >= Cut(q) * b
  {
    var n, m := a * UNIT * UNIT, Cut(q);
    ChopRoundAtLeast(n / b, q);
    DivBounds(n, b);
    if n / b >= m {
      MulOrder(m, n / b, b);
    } else {
      MulOrder(n / b + 1, m, b);
      Distribute(n / b, 1, b);
    }
  }

  // A quotient is less than one unit in the last place off.
  lemma QuoNear(a: Dec, b: Dec)
    requires b > 0
    ensures (Quo(a, b) - 1) * b < a * UNIT < (Quo(a, b) + 1) * b
  {
    QuoError(a, b);
    Distribute(Quo(a, b), 1, b);
    Distribute(Quo(a, b), -1, b);
  }

  // The same for the quotient of two whole numbers.
  lemma QuoOfInts(x: int, y: int)
    requires y > 0
    ensures Abs(2 * UNIT * (Quo(NewDec(x), NewDec(y)) * y - x * UNIT)) <= (UNIT + 2) * y
  {
    var q := Quo(NewDec(x), NewDec(y));
    QuoError(NewDec(x), NewDec(y));
    Regroup(q, y, UNIT);
  }

  lemma Rotate(a: int, b: int, c: int)
    ensures (b * c) * a == (a * b) * c
  {}

  lemma ScaledGap(a: int, b: int, k: nat, n: nat)
    ensures 2 * Abs(a - b * UNIT) <= n ==> 2 * Abs(a * k - UNIT * (b * k)) <= n * k
    ensures Abs(2 * UNIT * (a - b * UNIT)) <= n ==> Abs(2 * UNIT * (a * k - UNIT * (b * k))) <= n * k
  {
    var g := a - b * UNIT;
    assert g * k == a * k - UNIT * (b * k) by { Distribute(a, -(b * UNIT), k); Regroup(UNIT, b, k); }
    if 2 * Abs(g) <= n { ScaleError(2 * g, k, n); Regroup(2, g, k); }
    if Abs(2 * UNIT * g) <= n { ScaleError(2 * UNIT * g, k, n); Regroup(2 * UNIT, g, k); }
  }
}
