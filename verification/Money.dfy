/** Decimal amounts and scaled integers. A finite decimal is coefficient * 10^exponent, and
    `scaleb` rounds its result, half to even, to the context's 28 digits. */
module Money {
  import opened Wrappers

  const PRECISION: nat := 28

  datatype Decimal = Decimal(coeff: int, exp: int)

  function Pow10(n: nat): (p: nat)
    ensures p > 0
  {
    if n == 0 then 1 else 10 * Pow10(n - 1)
  }

  function Abs(n: int): nat {
    if n < 0 then -n else n
  }

  /** roundTiesToEven, section 4.3.1 of IEEE 754-2008, of the quotient n / d. */
  function HalfEven(n: int, d: int): int
    requires d > 0
  {
    var q, r := n / d, n % d;
    if 2 * r < d || (2 * r == d && q % 2 == 0) then q else q + 1
  }

  /** How many digits a coefficient has beyond the precision. */
  function Excess(n: nat): nat {
    if n < Pow10(PRECISION) then 0 else 1 + Excess(n / 10)
  }

  /** The context's rounding of a result. */
  function Fixed(d: Decimal): Decimal {
    var k := Excess(Abs(d.coeff));
    if k == 0 then d
    else
      var c := HalfEven(d.coeff, Pow10(k));
      if Abs(c) == Pow10(PRECISION) then Decimal(c / 10, d.exp + k + 1) else Decimal(c, d.exp + k)
  }

  function ScaleB(d: Decimal, n: int): Decimal {
    Fixed(Decimal(d.coeff, d.exp + n))
  }

  /** `to_integral_value(ROUND_HALF_EVEN)` */
  function Integral(d: Decimal): int {
    if d.exp >= 0 then d.coeff * Pow10(d.exp) else HalfEven(d.coeff, Pow10(-d.exp))
  }

  predicate IsIntegral(d: Decimal) {
    d.exp >= 0 || d.coeff % Pow10(-d.exp) == 0
  }

  datatype MoneyError = MoneyPrecisionError

  function ToMinorUnits(amount: Decimal, scale: int, exact: bool): Result<int, MoneyError> {
    var scaled := ScaleB(amount, scale);
    if exact && !IsIntegral(scaled) then Err(MoneyPrecisionError) else Ok(Integral(scaled))
  }

  function FromMinorUnits(value: int, scale: int): Decimal {
    ScaleB(Decimal(value, 0), -scale)
  }

  // ------------------------------------------------------------- values and their order

  /** The coefficient of `d` written at an exponent no greater than its own. */
  function At(d: Decimal, e: int): int
    requires e <= d.exp
  {
    d.coeff * Pow10(d.exp - e)
  }

  function Least(a: int, b: int): int {
    if a < b then a else b
  }

  predicate Same(a: Decimal, b: Decimal) {
    At(a, Least(a.exp, b.exp)) == At(b, Least(a.exp, b.exp))
  }

  predicate AtMost(a: Decimal, b: Decimal) {
    At(a, Least(a.exp, b.exp)) <= At(b, Least(a.exp, b.exp))
  }

  predicate Fits(d: Decimal) {
    Abs(d.coeff) < Pow10(PRECISION)
  }

  /** The amount is a whole number of units of 10^-scale. */
  predicate Representable(d: Decimal, scale: int) {
    IsIntegral(Decimal(d.coeff, d.exp + scale))
  }

  // ------------------------------------------------------------- arithmetic

  lemma {:induction false} Pow10Add(a: nat, b: nat)
    ensures Pow10(a + b) == Pow10(a) * Pow10(b)
  {
    if a > 0 {
      Pow10Add(a - 1, b);
      assert Pow10(a + b) == 10 * Pow10(a - 1 + b);
    }
  }

  /** Quotients of a larger numerator are no smaller; equal only with remainders in order. */
  lemma QuotientOrder(q: int, r: int, q': int, r': int, d: int)
    requires 0 <= r < d && 0 <= r' < d && q * d + r <= q' * d + r'
    ensures q <= q' && (q == q' ==> r <= r')
  {
    assert (q - q') * d == q * d - q' * d;
    if q > q' {
      MulGrows(q - q', d);
    }
  }

  lemma MulGrows(x: int, d: int)
    requires x >= 1 && d > 0
    ensures x * d >= d
  {
  }

  lemma DivUnique(n: int, d: int, q: int, r: int)
    requires d > 0 && n == q * d + r && 0 <= r < d
    ensures n / d == q && n % d == r
  {
    var q', r' := n / d, n % d;
    assert q' * d + r' == n;
    QuotientOrder(q, r, q', r', d);
    QuotientOrder(q', r', q, r, d);
  }

  /** Scaling numerator and denominator together does not change the rounded quotient. */
  lemma HalfEvenScales(n: int, d: int, t: int)
    requires d > 0 && t > 0
    ensures d * t > 0 && HalfEven(n * t, d * t) == HalfEven(n, d)
    ensures (n * t) % (d * t) == 0 <==> n % d == 0
  {
    var q, r := n / d, n % d;
    QuotientScales(q, d, r, t);
    RemainderScales(r, d, t);
    DivUnique(n * t, d * t, q, r * t);
  }

  lemma QuotientScales(q: int, d: int, r: int, t: int)
    ensures (q * d + r) * t == q * (d * t) + r * t
  {
    MulAssoc(q, d, t);
    MulSpreads(q * d, r, t);
  }

  lemma MulSpreads(x: int, y: int, t: int)
    ensures (x + y) * t == x * t + y * t
  {
  }

  lemma RemainderScales(r: int, d: int, t: int)
    requires 0 <= r < d && t > 0
    ensures 0 <= r * t < d * t && (r * t == 0 <==> r == 0)
    ensures (2 * r < d <==> 2 * (r * t) < d * t) && (2 * r == d <==> 2 * (r * t) == d * t)
  {
    MulOrder(r, d, t);
    MulAssoc(2, r, t);
    if r > 0 { MulGrows(r, t); }
    if 2 * r < d { MulOrder(2 * r, d, t); }
    if 2 * r > d { MulOrder(d, 2 * r, t); }
  }

  lemma HalfEvenMonotone(m: int, n: int, d: int)
    requires d > 0 && m <= n
    ensures HalfEven(m, d) <= HalfEven(n, d)
  {
    var q, r, q', r' := m / d, m % d, n / d, n % d;
    assert q * d + r == m && q' * d + r' == n;
    QuotientOrder(q, r, q', r', d);
  }

  /** The result is within half a unit, and exactly half a unit away only when it is even. */
  lemma HalfEvenNearest(n: int, d: int)
    requires d > 0
    ensures 2 * Abs(HalfEven(n, d) * d - n) <= d
    ensures 2 * Abs(HalfEven(n, d) * d - n) == d ==> HalfEven(n, d) % 2 == 0
    ensures n % d == 0 <==> HalfEven(n, d) * d == n
  {
    var q, r := n / d, n % d;
    assert n == q * d + r;
    assert (q + 1) * d == q * d + d;
  }

  /** An integral value, and its rounding, seen at any lower exponent. */
  lemma IntegralAt(d: Decimal, e: int)
    requires e <= d.exp && e <= 0
    ensures Integral(d) == HalfEven(At(d, e), Pow10(-e))
    ensures IsIntegral(d) <==> At(d, e) % Pow10(-e) == 0
  {
    if d.exp >= 0 {
      hide Pow10;
      Pow10Add(d.exp, -e);
      MulAssoc(d.coeff, Pow10(d.exp), Pow10(-e));
      DivUnique(At(d, e), Pow10(-e), d.coeff * Pow10(d.exp), 0);
    } else {
      hide Pow10, HalfEven;
      Pow10Add(-d.exp, d.exp - e);
      HalfEvenScales(d.coeff, Pow10(-d.exp), Pow10(d.exp - e));
    }
  }

  lemma {:induction false} ExcessExact(n: nat)
    ensures Excess(n) == 0 <==> n < Pow10(PRECISION)
    ensures n < Pow10(PRECISION + Excess(n))
    ensures Excess(n) > 0 ==> Pow10(PRECISION + Excess(n) - 1) <= n
  {
    if n >= Pow10(PRECISION) {
      ExcessExact(n / 10);
    }
  }

  lemma {:induction false} Pow10Order(a: nat, b: nat)
    requires Pow10(a) < Pow10(b)
    ensures a < b
  {
    if a >= b {
      Pow10Add(b, a - b);
      MulGrows(Pow10(a - b), Pow10(b));
    }
  }

  /** Two decimals may be compared at any exponent below both of theirs. */
  lemma SameAt(a: Decimal, b: Decimal, e: int)
    requires e <= a.exp && e <= b.exp
    ensures Same(a, b) <==> At(a, e) == At(b, e)
    ensures AtMost(a, b) <==> At(a, e) <= At(b, e)
  {
    var m := Least(a.exp, b.exp);
    Lower(a, m, e);
    Lower(b, m, e);
    var x, y, t := At(a, m), At(b, m), Pow10(m - e);
    assert x == y ==> x * t == y * t;
    assert (x - y) * t == x * t - y * t;
    if x > y {
      MulGrows(x - y, t);
    } else if y > x {
      MulGrows(y - x, t);
      assert (y - x) * t == y * t - x * t;
    }
  }

  lemma Lower(d: Decimal, m: int, e: int)
    requires e <= m <= d.exp
    ensures At(d, e) == At(d, m) * Pow10(m - e)
  {
    hide Pow10;
    Pow10Add(d.exp - m, m - e);
    MulAssoc(d.coeff, Pow10(d.exp - m), Pow10(m - e));
  }

  lemma SameShift(a: Decimal, b: Decimal, s: int)
    ensures Same(a, b) <==> Same(Decimal(a.coeff, a.exp + s), Decimal(b.coeff, b.exp + s))
  {
  }

  // ------------------------------------------------------------- the context's rounding

  lemma HalfEvenBound(n: int, d: int, b: int)
    requires d > 0 && b >= 0 && -(b * d) <= n <= b * d
    ensures -b <= HalfEven(n, d) <= b
  {
    DivUnique(b * d, d, b, 0);
    assert (-b) * d == -(b * d);
    DivUnique(-(b * d), d, -b, 0);
    HalfEvenMonotone(n, b * d, d);
    HalfEvenMonotone(-(b * d), n, d);
  }

  lemma FixedDrops(d: Decimal, k: nat)
    requires k == Excess(Abs(d.coeff)) && k > 0
    ensures Fits(Fixed(d)) && Fixed(d).exp >= d.exp && At(Fixed(d), d.exp) == HalfEven(d.coeff, Pow10(k)) * Pow10(k)
  {
    hide Pow10, Excess;
    ExcessExact(Abs(d.coeff));
    Pow10Add(PRECISION, k);
    HalfEvenBound(d.coeff, Pow10(k), Pow10(PRECISION));
    var c := HalfEven(d.coeff, Pow10(k));
    if Abs(c) == Pow10(PRECISION) {
      CarryKeeps(c, k);
    }
  }

  /** Rounding to the context leaves 28 digits; it keeps the value exactly when the digits it
      drops are zeros. */
  lemma FixedKeepsValue(d: Decimal)
    ensures Fits(Fixed(d)) && Fixed(d).exp >= d.exp
    ensures Same(Fixed(d), d) <==> d.coeff % Pow10(Excess(Abs(d.coeff))) == 0
    ensures Fits(d) ==> Fixed(d) == d && d.coeff % Pow10(Excess(Abs(d.coeff))) == 0
  {
    var k := Excess(Abs(d.coeff));
    assert Pow10(0) == 1;
    hide Pow10, Excess;
    if k > 0 {
      FixedDrops(d, k);
      HalfEvenNearest(d.coeff, Pow10(k));
      assert At(d, d.exp) == d.coeff;
    }
    ExcessExact(Abs(d.coeff));
  }

  lemma MulAssoc(x: int, y: int, z: int)
    ensures x * (y * z) == (x * y) * z
  {
  }

  lemma TenDivides(c: int, t: int)
    requires c == 10 * t || c == 10 * (-t)
    ensures (c / 10) * 10 == c && Abs(c / 10) == Abs(t)
  {
  }

  lemma CarryKeeps(c: int, k: nat)
    requires Abs(c) == Pow10(PRECISION)
    ensures (c / 10) * Pow10(k + 1) == c * Pow10(k) && Abs(c / 10) < Pow10(PRECISION)
  {
    TenDivides(c, Pow10(PRECISION - 1));
    MulAssoc(c / 10, 10, Pow10(k));
  }

  /** An integral decimal has the value of its integer. */
  lemma IntegralSame(d: Decimal)
    ensures IsIntegral(d) <==> Same(Decimal(Integral(d), 0), d)
  {
    var e := Least(d.exp, 0);
    IntegralAt(d, e);
    HalfEvenNearest(At(d, e), Pow10(-e));
  }

  // ------------------------------------------------------------- conversions

  /** Exact conversion, for any amount at all: when it succeeds, the integer is the amount
      exactly when the digits beyond the 28th are zeros; otherwise it has been rounded silently. */
  lemma ExactIsFaithfulIff(amount: Decimal, scale: int)
    requires ToMinorUnits(amount, scale, true).Ok?
    ensures Same(Decimal(ToMinorUnits(amount, scale, true).value, -scale), amount)
            <==> amount.coeff % Pow10(Excess(Abs(amount.coeff))) == 0
  {
    var raw, n := Decimal(amount.coeff, amount.exp + scale), ToMinorUnits(amount, scale, true).value;
    var scaled := Fixed(raw);
    FixedKeepsValue(raw);
    IntegralSame(scaled);
    SameShift(Decimal(n, -scale), amount, scale);
    var e := Least(0, raw.exp);
    SameAt(Decimal(n, 0), scaled, e);
    SameAt(scaled, raw, e);
    SameAt(Decimal(n, 0), raw, e);
  }

  /** `n` lies within half of `p` of a multiple of `u`. */
  predicate NearWhole(n: int, u: int, p: int)
    requires u > 0
  {
    2 * (n % u) <= p || 2 * (u - n % u) <= p
  }

  /** Exact conversion, for any amount at all, succeeds exactly when the scaled amount has no
      fraction, or is a whole number of units to within half the last digit the context keeps. */
  lemma ExactSucceedsIff(amount: Decimal, scale: int)
    ensures var e := amount.exp + scale;
            ToMinorUnits(amount, scale, true).Ok?
            <==> e >= 0 || NearWhole(amount.coeff, Pow10(-e), Pow10(Excess(Abs(amount.coeff))))
  {
    var raw := Decimal(amount.coeff, amount.exp + scale);
    hide Pow10, Fixed, Excess, HalfEven, NearWhole;
    FixedKeepsValue(raw);
    if raw.exp < 0 {
      FractionKept(raw);
    }
  }

  lemma FractionKept(raw: Decimal)
    requires raw.exp < 0
    ensures IsIntegral(Fixed(raw)) <==> NearWhole(raw.coeff, Pow10(-raw.exp), Pow10(Excess(Abs(raw.coeff))))
  {
    hide Pow10, Fixed, Excess, HalfEven, Rounded, IsIntegral, NearWhole;
    FixedIsRounded(raw);
    IntegralAt(Fixed(raw), raw.exp);
    RoundedDivides(raw.coeff, -raw.exp);
  }

  lemma RoundedDivides(n: int, m: nat)
    ensures Rounded(n) % Pow10(m) == 0 <==> NearWhole(n, Pow10(m), Pow10(Excess(Abs(n))))
  {
    hide Pow10, Excess, HalfEven, NearWhole;
    var k := Excess(Abs(n));
    if k >= m {
      ShiftedIsDivisible(HalfEven(n, Pow10(k)), k, m);
      Pow10Monotone(m, k);
      CoarseIsNear(n, Pow10(m), Pow10(k));
    } else {
      Pow10Add(m - k, k);
      TenTimes(m - k);
      HalfEvenScales(HalfEven(n, Pow10(k)), Pow10(m - k), Pow10(k));
      KeptIsWholeIff(n, Pow10(k), 5 * Pow10(m - k - 1));
    }
  }

  lemma CoarseIsNear(n: int, u: int, p: int)
    requires 0 < u <= p
    ensures NearWhole(n, u, p)
  {
  }

  lemma KeptIsWholeIff(n: int, p: int, w: int)
    requires p > 0 && w > 0
    ensures 2 * w * p > 0
    ensures HalfEven(n, p) % (2 * w) == 0 <==> NearWhole(n, 2 * w * p, p)
  {
    hide HalfEven, NearWhole;
    MulOrder(0, 2 * w, p);
    var c, u := HalfEven(n, p), 2 * w * p;
    if NearWhole(n, u, p) {
      NearIsKept(n, p, w);
    }
    if c % (2 * w) == 0 {
      KeptIsNear(n, p, w, c / (2 * w));
    }
  }

  lemma NearIsKept(n: int, p: int, w: int)
    requires p > 0 && w > 0 && 2 * w * p > 0 && NearWhole(n, 2 * w * p, p)
    ensures HalfEven(n, p) % (2 * w) == 0
  {
    hide HalfEven;
    var u, r := 2 * w * p, n % (2 * w * p);
    var q := if 2 * r <= p then n / u else n / u + 1;
    Quotient(n, u);
    MulSpreads(n / u, 1, u);
    MulAssoc(q, 2 * w, p);
    EvenMultiple(q, w);
    NearestUnique(n, p, q * (2 * w));
    DivUnique(q * (2 * w), 2 * w, q, 0);
  }

  lemma Quotient(n: int, u: int)
    requires u > 0
    ensures n == (n / u) * u + n % u && 0 <= n % u < u
  {
  }

  lemma KeptIsNear(n: int, p: int, w: int, q: int)
    requires p > 0 && w > 0 && 2 * w * p > 0 && HalfEven(n, p) == q * (2 * w)
    ensures NearWhole(n, 2 * w * p, p)
  {
    hide HalfEven;
    var u, r := 2 * w * p, n % (2 * w * p);
    var t := q - n / u;
    HalfEvenNearest(n, p);
    Quotient(n, u);
    MulAssoc(q, 2 * w, p);
    MulSpreads(n / u, t, u);
    MulKeepsOrder(1, 2 * w, p);
    if t < 0 {
      MulKeepsOrder(t, -1, u);
    } else if t > 1 {
      MulKeepsOrder(2, t, u);
    }
  }

  /** For amounts of at most 28 digits exact conversion succeeds exactly when the amount is a
      whole number of units, the integer is then the amount, and converting back gives it again. */
  lemma ExactConversion(amount: Decimal, scale: int)
    requires Fits(amount)
    ensures ToMinorUnits(amount, scale, true).Ok? <==> Representable(amount, scale)
    ensures ToMinorUnits(amount, scale, true).Ok? ==>
              var n := ToMinorUnits(amount, scale, true).value;
              Same(Decimal(n, -scale), amount) && Same(FromMinorUnits(n, scale), amount)
  {
    hide Pow10, Fixed, Excess, Same, At;
    var raw := Decimal(amount.coeff, amount.exp + scale);
    FixedKeepsValue(raw);
    FixedKeepsValue(amount);
    if ToMinorUnits(amount, scale, true).Ok? {
      var n := ToMinorUnits(amount, scale, true).value;
      ExactIsFaithfulIff(amount, scale);
      IntegralIsShort(raw);
      FixedKeepsValue(Decimal(n, -scale));
      var e := Least(amount.exp, -scale);
      SameAt(Decimal(n, -scale), amount, e);
      SameAt(FromMinorUnits(n, scale), Decimal(n, -scale), e);
      SameAt(FromMinorUnits(n, scale), amount, e);
    }
  }

  lemma MulOrder(x: int, y: int, t: int)
    requires x < y && t > 0
    ensures x * t < y * t
  {
  }

  /** A coefficient of 28 digits followed by `j` zeros has at most `j` digits too many. */
  lemma ExcessOfShifted(c: int, j: nat)
    requires Abs(c) < Pow10(PRECISION)
    ensures Excess(Abs(c * Pow10(j))) <= j
  {
    hide Pow10, Excess;
    var t := Pow10(j);
    var k := Excess(Abs(c * t));
    ExcessExact(Abs(c * t));
    AbsMul(c, t);
    MulOrder(Abs(c), Pow10(PRECISION), t);
    Pow10Add(PRECISION, j);
    if k > 0 {
      Pow10Order(PRECISION + k - 1, PRECISION + j);
    }
  }

  lemma ShiftedIsDivisible(c: int, j: nat, k: nat)
    requires k <= j
    ensures (c * Pow10(j)) % Pow10(k) == 0
  {
    Pow10Add(j - k, k);
    MulAssoc(c, Pow10(j - k), Pow10(k));
    DivUnique(c * Pow10(j), Pow10(k), c * Pow10(j - k), 0);
  }

  /** The integer of an integral decimal of 28 digits has only zeros beyond its 28th. */
  lemma IntegralIsShort(d: Decimal)
    requires Fits(d) && IsIntegral(d)
    ensures Integral(d) % Pow10(Excess(Abs(Integral(d)))) == 0
  {
    if d.exp >= 0 {
      ExcessOfShifted(d.coeff, d.exp);
      ShiftedIsDivisible(d.coeff, d.exp, Excess(Abs(Integral(d))));
    } else {
      HalfEvenNearest(d.coeff, Pow10(-d.exp));
      AbsMul(Integral(d), Pow10(-d.exp));
      AbsGrows(Abs(Integral(d)), Pow10(-d.exp));
      ExcessExact(Abs(Integral(d)));
    }
  }

  lemma AbsMul(n: int, t: nat)
    ensures Abs(n * t) == Abs(n) * t
  {
  }

  lemma AbsGrows(n: nat, t: nat)
    requires t > 0
    ensures n * t >= n
  {
    assert n * t == n * (t - 1) + n;
    assert n * (t - 1) >= 0;
  }

  /** Converting an integer's amount back does not round again. */
  lemma BackConverted(n: int, scale: int)
    ensures var d := FromMinorUnits(n, scale);
            d.exp + scale >= 0 && ToMinorUnits(d, scale, true) == Ok(At(Decimal(d.coeff, d.exp + scale), 0))
  {
    hide Pow10, Fixed, Excess;
    FixedKeepsValue(Decimal(n, -scale));
    var d := FromMinorUnits(n, scale);
    FixedKeepsValue(Decimal(d.coeff, d.exp + scale));
  }

  /** Integer to amount to integer always succeeds, and is the identity exactly for integers
      whose digits beyond the 28th are zeros. */
  lemma IntegerRoundTrip(n: int, scale: int)
    ensures ToMinorUnits(FromMinorUnits(n, scale), scale, true).Ok?
    ensures ToMinorUnits(FromMinorUnits(n, scale), scale, true) == Ok(n) <==> n % Pow10(Excess(Abs(n))) == 0
    ensures Abs(n) < Pow10(PRECISION) ==> ToMinorUnits(FromMinorUnits(n, scale), scale, true) == Ok(n)
  {
    var d := FromMinorUnits(n, scale);
    var back := Decimal(d.coeff, d.exp + scale);
    FixedKeepsValue(Decimal(n, -scale));
    BackConverted(n, scale);
    hide ToMinorUnits, Fixed, Excess;
    SameShift(d, Decimal(n, -scale), scale);
    SameAt(back, Decimal(n, 0), 0);
  }

  // ------------------------------------------------- rounding to 28 digits keeps the order

  /** A coefficient rounded to 28 digits, with zeros for the digits dropped. */
  function Rounded(n: int): int {
    HalfEven(n, Pow10(Excess(Abs(n)))) * Pow10(Excess(Abs(n)))
  }

  lemma FixedIsRounded(d: Decimal)
    ensures Fixed(d).exp >= d.exp && At(Fixed(d), d.exp) == Rounded(d.coeff)
  {
    FixedKeepsValue(d);
    var k := Excess(Abs(d.coeff));
    if k > 0 {
      FixedDrops(d, k);
    } else {
      DivUnique(d.coeff, 1, d.coeff, 0);
    }
  }

  lemma Pow10Monotone(a: nat, b: nat)
    requires a <= b
    ensures Pow10(a) <= Pow10(b)
  {
    if Pow10(b) < Pow10(a) {
      Pow10Order(b, a);
    }
  }

  lemma ExcessIs(n: nat, k: nat)
    requires k > 0 && Pow10(PRECISION + k - 1) <= n < Pow10(PRECISION + k)
    ensures Excess(n) == k
  {
    hide Pow10;
    ExcessExact(n);
    Pow10Monotone(PRECISION, PRECISION + k - 1);
    Pow10Order(PRECISION + k - 1, PRECISION + Excess(n));
    Pow10Order(PRECISION + Excess(n) - 1, PRECISION + k);
  }

  lemma {:induction false} ExcessMonotone(m: nat, n: nat)
    requires m <= n
    ensures Excess(m) <= Excess(n)
  {
    if m >= Pow10(PRECISION) {
      ExcessMonotone(m / 10, n / 10);
    }
  }

  /** Appending zeros does not change what is rounded away. */
  lemma RoundedShifts(n: int, j: nat)
    ensures Rounded(n * Pow10(j)) == Rounded(n) * Pow10(j)
  {
    var k, t := Excess(Abs(n)), Pow10(j);
    AbsMul(n, t);
    if k == 0 {
      ExcessExact(Abs(n));
      ExcessOfShifted(n, j);
      DivUnique(n, 1, n, 0);
      ShiftedIsDivisible(n, j, Excess(Abs(n * t)));
      HalfEvenNearest(n * t, Pow10(Excess(Abs(n * t))));
    } else {
      ShiftedExcess(Abs(n), k, j);
      Pow10Add(k, j);
      HalfEvenScales(n, Pow10(k), t);
      MulAssoc(HalfEven(n, Pow10(k)), Pow10(k), t);
    }
  }

  lemma ShiftedExcess(n: nat, k: nat, j: nat)
    requires k > 0 && k == Excess(n)
    ensures Excess(n * Pow10(j)) == k + j
  {
    var t := Pow10(j);
    ExcessExact(n);
    Pow10Add(PRECISION + k - 1, j);
    Pow10Add(PRECISION + k, j);
    MulKeepsOrder(Pow10(PRECISION + k - 1), n, t);
    MulOrder(n, Pow10(PRECISION + k), t);
    ExcessIs(n * t, k + j);
  }

  lemma MulKeepsOrder(x: int, y: int, t: int)
    requires x <= y && t > 0
    ensures x * t <= y * t
  {
    if x < y { MulOrder(x, y, t); }
  }

  lemma QuotientRemainder(n: int, d: int)
    requires d > 0
    ensures n == (n / d) * d + n % d && 0 <= n % d < d
  {
  }

  lemma HalfEvenNegates(n: int, d: int)
    requires d > 0
    ensures HalfEven(-n, d) == -HalfEven(n, d)
  {
    var q, r := n / d, n % d;
    QuotientRemainder(n, d);
    MulNegates(q, d);
    MulNegates(q + 1, d);
    MulSpreads(q, 1, d);
    if r == 0 {
      DivUnique(-n, d, -q, 0);
    } else {
      DivUnique(-n, d, -(q + 1), d - r);
    }
  }

  lemma RoundedNegates(n: int)
    ensures Rounded(-n) == -Rounded(n)
  {
    hide Pow10, Excess, HalfEven;
    HalfEvenNegates(n, Pow10(Excess(Abs(n))));
    MulNegates(HalfEven(n, Pow10(Excess(Abs(n)))), Pow10(Excess(Abs(n))));
  }

  lemma MulNegates(x: int, t: int)
    ensures (-x) * t == -(x * t)
  {
  }

  /** A rounded number stays within the powers of ten around it. */
  lemma RoundedBounds(n: nat)
    ensures 0 <= Rounded(n) <= Pow10(PRECISION + Excess(n))
    ensures Excess(n) > 0 ==> Pow10(PRECISION + Excess(n) - 1) <= Rounded(n)
  {
    hide Pow10, Excess;
    var k := Excess(n);
    ExcessExact(n);
    Pow10Add(PRECISION, k);
    HalfEvenBetween(n, Pow10(k), 0, Pow10(PRECISION));
    if k > 0 {
      Pow10Add(PRECISION - 1, k);
      HalfEvenBetween(n, Pow10(k), Pow10(PRECISION - 1), Pow10(PRECISION));
    }
  }

  /** Rounding does not leave an interval between multiples of the unit. */
  lemma HalfEvenBetween(n: int, d: int, low: int, high: int)
    requires d > 0 && low * d <= n <= high * d
    ensures low * d <= HalfEven(n, d) * d <= high * d
  {
    DivUnique(low * d, d, low, 0);
    DivUnique(high * d, d, high, 0);
    HalfEvenMonotone(low * d, n, d);
    HalfEvenMonotone(n, high * d, d);
    MulKeepsOrder(low, HalfEven(n, d), d);
    MulKeepsOrder(HalfEven(n, d), high, d);
  }

  lemma RoundedGrows(m: nat, n: nat)
    requires m <= n
    ensures Rounded(m) <= Rounded(n)
  {
    ExcessMonotone(m, n);
    if Excess(m) == Excess(n) {
      HalfEvenMonotone(m, n, Pow10(Excess(n)));
      MulKeepsOrder(HalfEven(m, Pow10(Excess(n))), HalfEven(n, Pow10(Excess(n))), Pow10(Excess(n)));
    } else {
      RoundedBounds(m);
      RoundedBounds(n);
      Pow10Monotone(PRECISION + Excess(m), PRECISION + Excess(n) - 1);
    }
  }

  lemma RoundedMonotone(m: int, n: int)
    requires m <= n
    ensures Rounded(m) <= Rounded(n)
  {
    hide Pow10, Rounded;
    RoundedNegates(m);
    RoundedNegates(n);
    if 0 <= m {
      RoundedGrows(m, n);
    } else if n < 0 {
      RoundedGrows(-n, -m);
    } else {
      RoundedBounds(n);
      RoundedBounds(-m);
    }
  }

  /** Rounding to the context preserves the order of decimals, whatever their exponents. */
  lemma FixedMonotone(a: Decimal, b: Decimal)
    requires AtMost(a, b)
    ensures AtMost(Fixed(a), Fixed(b))
  {
    var e := Least(a.exp, b.exp);
    FixedSeenAt(a, e);
    FixedSeenAt(b, e);
    RoundedMonotone(At(a, e), At(b, e));
    hide Fixed, Rounded;
    SameAt(Fixed(a), Fixed(b), e);
  }

  lemma FixedSeenAt(d: Decimal, e: int)
    requires e <= d.exp
    ensures e <= Fixed(d).exp && At(Fixed(d), e) == Rounded(At(d, e))
  {
    FixedIsRounded(d);
    RoundedShifts(d.coeff, d.exp - e);
    hide Fixed, Rounded;
    Lower(Fixed(d), d.exp, e);
  }

  lemma AtMostShifts(a: Decimal, b: Decimal, s: int)
    ensures AtMost(a, b) <==> AtMost(Decimal(a.coeff, a.exp + s), Decimal(b.coeff, b.exp + s))
  {
    hide Pow10;
  }

  lemma IntegralMonotone(a: Decimal, b: Decimal)
    requires AtMost(a, b)
    ensures Integral(a) <= Integral(b)
  {
    hide Pow10, Integral, HalfEven;
    var e := Least(Least(a.exp, b.exp), 0);
    SameAt(a, b, e);
    IntegralAt(a, e);
    IntegralAt(b, e);
    HalfEvenMonotone(At(a, e), At(b, e), Pow10(-e));
  }

  /** Inexact conversion preserves the order of amounts, of any length. */
  lemma InexactIsMonotone(a: Decimal, b: Decimal, scale: int)
    requires AtMost(a, b)
    ensures ToMinorUnits(a, scale, false).value <= ToMinorUnits(b, scale, false).value
  {
    hide Pow10, AtMost, Fixed, Integral;
    AtMostShifts(a, b, scale);
    FixedMonotone(Decimal(a.coeff, a.exp + scale), Decimal(b.coeff, b.exp + scale));
    IntegralMonotone(ScaleB(a, scale), ScaleB(b, scale));
  }

  // ------------------------------------------------- when rounding twice is rounding once

  /** `c * d` is a multiple of the fine unit `d` nearest to `n`; the coarse unit is `2 * w * d`. */
  predicate FineNearest(n: int, c: int, d: int) {
    2 * Abs(c * d - n) <= d
  }

  /** The number lies strictly nearer to `q` units than to any other multiple. */
  lemma NearestIs(n: int, u: int, q: int)
    requires u > 0 && 2 * Abs(n - q * u) < u
    ensures HalfEven(n, u) == q
  {
    if n >= q * u {
      DivUnique(n, u, q, n - q * u);
    } else {
      MulSpreads(q, -1, u);
      DivUnique(n, u, q - 1, n - (q - 1) * u);
    }
  }

  lemma HalfwayIs(n: int, u: int, q: int)
    requires u > 0 && 2 * (n - q * u) == u
    ensures HalfEven(n, u) == if q % 2 == 0 then q else q + 1
  {
    DivUnique(n, u, q, n - q * u);
  }

  /** Rounding `n` to the fine unit first leads the coarse rounding astray exactly when it lands
      halfway between two coarse multiples, on a halfway point that `n` is not, and the even one
      of the two is on the other side. `y` is the fine multiple, `q` the coarse one below it. */
  lemma TwiceIsOnce(n: int, c: int, d: int, w: int)
    requires d > 0 && w > 0 && FineNearest(n, c, d)
    ensures var u, q := 2 * w * d, c / (2 * w);
            HalfEven(c * d, u) == HalfEven(n, u)
            <==> c % (2 * w) != w || n == c * d || (n < c * d <==> q % 2 == 0)
  {
    var u, q, r := 2 * w * d, c / (2 * w), c % (2 * w);
    PlaceOf(c, d, w, q, r);
    MulKeepsOrder(0, r, d);
    MulSpreads(q, 1, u);
    if r < w {
      MulKeepsOrder(r + 1, w, d);
      MulSpreads(r, 1, d);
      NearBelow(n, c * d, d, u, q);
    } else if r > w {
      MulKeepsOrder(w + 1, r, d);
      MulKeepsOrder(r + 1, 2 * w, d);
      MulSpreads(w, 1, d);
      MulSpreads(r, 1, d);
      NearAbove(n, c * d, d, u, q);
    } else {
      MulKeepsOrder(1, w, d);
      HalfwayIs(c * d, u, q);
      if n < c * d {
        NearestIs(n, u, q);
      } else if n > c * d {
        NearestIs(n, u, q + 1);
      }
    }
  }

  lemma NearBelow(n: int, x: int, d: int, u: int, q: int)
    requires d > 0 && u > 0 && 2 * Abs(x - n) <= d && q * u <= x && 2 * (x - q * u) + 2 * d <= u
    ensures HalfEven(n, u) == q == HalfEven(x, u)
  {
    NearestIs(n, u, q);
    NearestIs(x, u, q);
  }

  lemma NearAbove(n: int, x: int, d: int, u: int, q: int)
    requires d > 0 && u > 0 && 2 * Abs(x - n) <= d && x <= (q + 1) * u && 2 * ((q + 1) * u - x) + 2 * d <= u
    ensures HalfEven(n, u) == q + 1 == HalfEven(x, u)
  {
    NearestIs(n, u, q + 1);
    NearestIs(x, u, q + 1);
  }

  /** The fine multiple `c` in terms of the coarse one below it. */
  lemma PlaceOf(c: int, d: int, w: int, q: int, r: int)
    requires c == 2 * w * q + r
    ensures c * d == q * (2 * w * d) + r * d && 2 * w * d == 2 * (w * d)
  {
    MulSpreads(2 * w * q, r, d);
    MulAssoc(q, 2 * w, d);
    MulAssoc(2, w, d);
    assert 2 * w * q == q * (2 * w);
  }

  /** `r` units are nearest to `x`: off by at most half a unit, and by half only if `r` is even. */
  predicate Nearest(x: int, u: int, r: int) {
    2 * Abs(r * u - x) <= u && (2 * Abs(r * u - x) == u ==> r % 2 == 0)
  }

  lemma NearestUnique(x: int, u: int, r: int)
    requires u > 0
    ensures Nearest(x, u, r) <==> r == HalfEven(x, u)
  {
    HalfEvenNearest(x, u);
    if Nearest(x, u, r) {
      MulSpreads(r, -1, u);
      if 2 * Abs(r * u - x) < u {
        NearestIs(x, u, r);
      } else if x > r * u {
        HalfwayIs(x, u, r);
      } else {
        HalfwayIs(x, u, r - 1);
      }
    }
  }

  /** The exponent at which both the unit and the amount are integers. */
  function Common(d: Decimal): int {
    Least(d.exp, 0)
  }

  /** What the 28-digit context does to the scaled amount leaves the nearest unit the same. If it
      drops digits of whole units, then what they hold is at most half a unit, or lacks at most
      half a unit to the next kept digit; when the amount has no fraction they are zeros. If it
      drops only digits below the unit, it does not land on a halfway point that the amount is not
      and from which the even unit lies away from the amount. */
  predicate RoundsOnce(raw: Decimal) {
    var n, k := raw.coeff, Excess(Abs(raw.coeff));
    var c, m := HalfEven(n, Pow10(k)), Abs(raw.exp + k);
    k == 0 || raw.exp + k == 0
    || if raw.exp >= 0 then n % Pow10(k) == 0
       else if raw.exp + k > 0 then
         2 * (n % Pow10(k)) <= Pow10(-raw.exp) || 2 * (Pow10(k) - n % Pow10(k)) <= Pow10(-raw.exp)
       else c % Pow10(m) != 5 * Pow10(m - 1) || n == Rounded(n) || (n < Rounded(n) <==> (c / Pow10(m)) % 2 == 0)
  }

  /** Inexact conversion is nearest, off by at most half a unit with ties to the even integer,
      exactly when the context's rounding and its own do not add up. For amounts of at most 28
      digits they never do. */
  lemma InexactIsNearest(amount: Decimal, scale: int)
    ensures var raw, r := Decimal(amount.coeff, amount.exp + scale), ToMinorUnits(amount, scale, false);
            && r.Ok?
            && (Nearest(At(raw, Common(raw)), Pow10(-Common(raw)), r.value) <==> RoundsOnce(raw))
            && (Fits(amount) ==> RoundsOnce(raw))
  {
    hide Pow10, Fixed, Nearest, RoundsOnce, HalfEven, Integral;
    var raw := Decimal(amount.coeff, amount.exp + scale);
    ExcessExact(Abs(raw.coeff));
    NearestUnique(At(raw, Common(raw)), Pow10(-Common(raw)), Integral(Fixed(raw)));
    IntegralAt(raw, Common(raw));
    RoundsOnceIff(raw);
    if Fits(amount) { ShortRoundsOnce(raw); }
  }

  lemma ShortRoundsOnce(raw: Decimal)
    requires Excess(Abs(raw.coeff)) == 0
    ensures RoundsOnce(raw)
  {
  }

  lemma RoundsOnceIff(raw: Decimal)
    ensures Integral(Fixed(raw)) == Integral(raw) <==> RoundsOnce(raw)
  {
    hide Pow10, Fixed;
    var k := Excess(Abs(raw.coeff));
    if k == 0 {
      ExcessExact(Abs(raw.coeff));
      FixedKeepsValue(raw);
    } else if raw.exp + k > 0 {
      CoarseRoundsOnce(raw, k);
    } else {
      FineRoundsOnce(raw, k);
    }
  }

  /** The integer of the rounded amount, at the common exponent. */
  lemma IntegralOfFixed(raw: Decimal)
    ensures Integral(Fixed(raw)) == HalfEven(Rounded(At(raw, Common(raw))), Pow10(-Common(raw)))
  {
    hide Pow10, Fixed, Rounded, Integral, HalfEven;
    FixedSeenAt(raw, Common(raw));
    IntegralAt(Fixed(raw), Common(raw));
  }

  lemma FineRoundsOnce(raw: Decimal, k: nat)
    requires k == Excess(Abs(raw.coeff)) && k > 0 && raw.exp + k <= 0
    ensures Integral(Fixed(raw)) == Integral(raw) <==> RoundsOnce(raw)
  {
    hide Pow10, Fixed, HalfEven, Excess, Integral, Rounded;
    WhereRounded(raw);
    if raw.exp + k == 0 {
      SameUnit(raw.coeff, k);
    } else {
      FinerUnit(raw.coeff, k, -raw.exp - k);
    }
  }

  lemma WhereRounded(raw: Decimal)
    requires raw.exp <= 0
    ensures Integral(Fixed(raw)) == HalfEven(Rounded(raw.coeff), Pow10(-raw.exp))
    ensures Integral(raw) == HalfEven(raw.coeff, Pow10(-raw.exp))
  {
    assert Pow10(0) == 1;
    hide Pow10, Fixed, Rounded, Integral, HalfEven;
    IntegralOfFixed(raw);
    IntegralAt(raw, raw.exp);
  }

  lemma SameUnit(n: int, k: nat)
    requires k == Excess(Abs(n))
    ensures HalfEven(Rounded(n), Pow10(k)) == HalfEven(n, Pow10(k))
  {
    hide Pow10, HalfEven, Excess;
    HalfEvenOfMultiple(HalfEven(n, Pow10(k)), Pow10(k));
  }

  lemma FinerUnit(n: int, k: nat, m: nat)
    requires k == Excess(Abs(n)) && m > 0
    ensures var c := HalfEven(n, Pow10(k));
            HalfEven(Rounded(n), Pow10(m + k)) == HalfEven(n, Pow10(m + k))
            <==> c % Pow10(m) != 5 * Pow10(m - 1) || n == Rounded(n) || (n < Rounded(n) <==> (c / Pow10(m)) % 2 == 0)
  {
    TenTimes(m);
    hide Pow10, HalfEven, Excess;
    HalfEvenNearest(n, Pow10(k));
    Pow10Add(m, k);
    TwiceIsOnce(n, HalfEven(n, Pow10(k)), Pow10(k), 5 * Pow10(m - 1));
  }

  lemma TenTimes(m: nat)
    requires m > 0
    ensures Pow10(m) == 2 * (5 * Pow10(m - 1))
  {
  }

  lemma HalfEvenOfMultiple(c: int, d: int)
    requires d > 0
    ensures HalfEven(c * d, d) == c
  {
    DivUnique(c * d, d, c, 0);
  }

  lemma CoarseRoundsOnce(raw: Decimal, k: nat)
    requires k == Excess(Abs(raw.coeff)) && k > 0 && raw.exp + k > 0
    ensures Integral(Fixed(raw)) == Integral(raw) <==> RoundsOnce(raw)
  {
    hide Pow10, Fixed, HalfEven, Excess, Integral;
    HalfEvenDistance(raw.coeff, Pow10(k));
    if raw.exp >= 0 {
      CoarseInteger(raw);
    } else {
      CoarseFraction(raw, k);
    }
  }

  /** Where the fraction is dropped whole, the rounded amount may be off by half a unit. */
  lemma CoarseFraction(raw: Decimal, k: nat)
    requires k == Excess(Abs(raw.coeff)) && raw.exp < 0 < raw.exp + k
    ensures Integral(Fixed(raw)) == Integral(raw)
            <==> 2 * Abs(HalfEven(raw.coeff, Pow10(k)) * Pow10(k) - raw.coeff) <= Pow10(-raw.exp)
  {
    assert Pow10(0) == 1;
    hide Pow10, Fixed, HalfEven, Excess, Integral;
    var c, m, u := HalfEven(raw.coeff, Pow10(k)), raw.exp + k, Pow10(-raw.exp);
    FixedIsRounded(raw);
    Pow10Add(m, -raw.exp);
    MulAssoc(c, Pow10(m), u);
    TenTimes(m);
    IntegralOfFixed(raw);
    IntegralAt(raw, raw.exp);
    HalfEvenOfMultiple(c * Pow10(m), u);
    NearestUnique(raw.coeff, u, c * Pow10(m));
    EvenMultiple(c, 5 * Pow10(m - 1));
  }

  /** How far the rounded quotient is: what is above a multiple, or what lacks to the next. */
  lemma HalfEvenDistance(n: int, d: int)
    requires d > 0
    ensures Abs(HalfEven(n, d) * d - n) == if n % d <= d - n % d then n % d else d - n % d
  {
    QuotientRemainder(n, d);
    MulSpreads(n / d, 1, d);
  }

  lemma EvenMultiple(c: int, w: int)
    ensures (c * (2 * w)) % 2 == 0
  {
    MulAssoc(c, 2, w);
    assert c * (2 * w) == 2 * (c * w);
  }

  /** Among whole units, the amount is its own nearest. */
  lemma CoarseInteger(raw: Decimal)
    requires raw.exp >= 0
    ensures Integral(Fixed(raw)) == Integral(raw) <==> 2 * Abs(Rounded(raw.coeff) - raw.coeff) <= 1
  {
    assert Pow10(0) == 1;
    hide Pow10, Fixed, HalfEven, Excess, Rounded;
    var t := Pow10(raw.exp);
    FixedIsRounded(raw);
    Lower(Fixed(raw), raw.exp, 0);
    if Rounded(raw.coeff) < raw.coeff { MulOrder(Rounded(raw.coeff), raw.coeff, t); }
    if Rounded(raw.coeff) > raw.coeff { MulOrder(raw.coeff, Rounded(raw.coeff), t); }
  }

  lemma AlmostOneAndAHalf(p: nat)
    requires p + 2 == PRECISION
    ensures Fixed(Decimal(15 * Pow10(p + 1) - 1, -(p + 2))) == Decimal(15 * Pow10(p), -(p + 1))
  {
    var n := 15 * Pow10(p + 1) - 1;
    TenTimes(p + 1);
    TenTimes(p + 2);
    TenTimes(p + 3);
    hide Pow10, Excess, Fixed, HalfEven;
    ExcessIs(n, 1);
    JustBelow(15 * Pow10(p));
    OneDigitDropped(n, -(p + 2));
  }

  lemma OneDigitDropped(n: int, e: int)
    requires Excess(Abs(n)) == 1 && Abs(HalfEven(n, 10)) != Pow10(PRECISION)
    ensures Fixed(Decimal(n, e)) == Decimal(HalfEven(n, 10), e + 1)
  {
    assert Pow10(1) == 10;
    hide Excess, HalfEven;
  }

  lemma JustBelow(c: int)
    ensures HalfEven(10 * c - 1, 10) == c
  {
    DivUnique(10 * c - 1, 10, c - 1, 9);
  }

  /** An amount of 29 digits that is off by more: 1.4999... first becomes 1.5, and then 2. */
  lemma DoubleRoundingMisses(p: nat)
    requires p + 2 == PRECISION
    ensures ToMinorUnits(Decimal(15 * Pow10(p + 1) - 1, -(p + 2)), 0, false) == Ok(2)
    ensures Integral(Decimal(15 * Pow10(p + 1) - 1, -(p + 2))) == 1
  {
    hide Pow10, Fixed, Integral;
    AlmostOneAndAHalf(p);
    OneAndAHalf(p + 1);
    LessThanOneAndAHalf(p + 2);
  }

  lemma OneAndAHalf(e: int)
    requires e > 0
    ensures Integral(Decimal(15 * Pow10(e - 1), -e)) == 2
  {
    TenTimes(e);
    hide Pow10;
    DivUnique(15 * Pow10(e - 1), Pow10(e), 1, 5 * Pow10(e - 1));
  }

  lemma LessThanOneAndAHalf(e: int)
    requires e > 0
    ensures Integral(Decimal(15 * Pow10(e - 1) - 1, -e)) == 1
  {
    TenTimes(e);
    hide Pow10;
    DivUnique(15 * Pow10(e - 1) - 1, Pow10(e), 1, 5 * Pow10(e - 1) - 1);
  }

  /** Beyond 28 digits `exact` does not refuse: one unit past 10^28, at scale 0, is converted to
      10^28 without an error. */
  lemma ExactRoundsSilently()
    ensures ToMinorUnits(Decimal(Pow10(PRECISION) + 1, 0), 0, true) == Ok(Pow10(PRECISION))
    ensures !Same(Decimal(Pow10(PRECISION), 0), Decimal(Pow10(PRECISION) + 1, 0))
  {
    var t := Pow10(PRECISION - 1);
    var n := Pow10(PRECISION) + 1;
    assert Pow10(PRECISION) == 10 * t;
    Pow10Grows(PRECISION - 1);
    assert Excess(n / 10) == 0 && Excess(n) == 1;
    assert Pow10(1) == 10 * Pow10(0);
    DivUnique(n, 10, t, 1);
    assert HalfEven(n, 10) == t;
    assert Fixed(Decimal(n, 0)) == Decimal(t, 1);
    assert Integral(Decimal(t, 1)) == t * Pow10(1);
  }

  lemma {:induction false} Pow10Grows(n: nat)
    ensures Pow10(n) >= n + 1
  {
    if n > 0 {
      Pow10Grows(n - 1);
    }
  }
}
