/** Return correlation of two candle series, over the reals, with the square root as a parameter. */
module Correlation {
  import opened TimeOrder

  datatype Candle = Candle(timestamp: int, close: real)

  datatype Correlated = Correlated(value: real, periods: nat)

  /** `Undefined` is the code's `None`; `ZeroDivision` is its exception. */
  datatype Outcome = Undefined | ZeroDivision | Value(result: Correlated)

  ghost predicate IsSquareRoot(root: real -> real) {
    forall x :: x >= 0.0 ==> root(x) >= 0.0 && root(x) * root(x) == x
  }

  // ------------------------------------------------------------- alignment

  /** The closes by timestamp; of candles with the same timestamp the last counts. */
  function ByTime(candles: seq<Candle>): map<int, real> {
    if candles == [] then map[]
    else
      var last := candles[|candles| - 1];
      ByTime(candles[..|candles| - 1])[last.timestamp := last.close]
  }

  function ClosesAt(m: map<int, real>, times: seq<int>): (r: seq<real>)
    requires forall i :: 0 <= i < |times| ==> times[i] in m
    ensures |r| == |times| && forall i :: 0 <= i < |r| ==> r[i] == m[times[i]]
  {
    seq(|times|, i requires 0 <= i < |times| => m[times[i]])
  }

  /** The timestamps of the candles that the other series has too. */
  function Shared(candles: seq<Candle>, other: map<int, real>): (r: seq<int>)
    ensures forall t :: t in r <==> t in ByTime(candles) && t in other
  {
    if candles == [] then []
    else
      var rest, t := Shared(candles[..|candles| - 1], other), candles[|candles| - 1].timestamp;
      if t in other then rest + [t] else rest
  }

  /** The common timestamps, ascending. */
  function Common(candlesA: seq<Candle>, candlesB: seq<Candle>): (r: seq<int>)
    ensures forall t :: t in r <==> t in ByTime(candlesA) && t in ByTime(candlesB)
    ensures forall i :: 0 <= i < |r| ==> r[i] in ByTime(candlesA) && r[i] in ByTime(candlesB)
    ensures Ascending(r)
  {
    var r := Sorted(Shared(candlesA, ByTime(candlesB)));
    assert forall i :: 0 <= i < |r| ==> r[i] in r;
    r
  }

  // ------------------------------------------------------------- statistics

  predicate Divisible(prices: seq<real>) {
    forall i :: 0 <= i < |prices| - 1 ==> prices[i] != 0.0
  }

  function Returns(prices: seq<real>): (r: seq<real>)
    requires Divisible(prices) && prices != []
    ensures |r| == |prices| - 1
  {
    seq(|prices| - 1, i requires 0 <= i < |prices| - 1 => (prices[i + 1] - prices[i]) / prices[i])
  }

  function Sum(xs: seq<real>): real {
    if xs == [] then 0.0 else Sum(xs[..|xs| - 1]) + xs[|xs| - 1]
  }

  function Deviations(xs: seq<real>): (r: seq<real>)
    requires xs != []
    ensures |r| == |xs|
  {
    var mean := Sum(xs) / |xs| as real;
    seq(|xs|, i requires 0 <= i < |xs| => xs[i] - mean)
  }

  function Times(x: real, y: real): real {
    x * y
  }

  function Dot(xs: seq<real>, ys: seq<real>): real
    requires |xs| == |ys|
  {
    if xs == [] then 0.0
    else Dot(xs[..|xs| - 1], ys[..|ys| - 1]) + Times(xs[|xs| - 1], ys[|ys| - 1])
  }

  function Clamp(r: real): real {
    if r < -1.0 then -1.0 else if r > 1.0 then 1.0 else r
  }

  /** The square root of the product of the summed squares. */
  function Denominator(x: seq<real>, y: seq<real>, root: real -> real): real {
    root(Dot(x, x) * Dot(y, y))
  }

  function OfReturns(a: seq<real>, b: seq<real>, root: real -> real): Outcome
    requires |a| == |b| && IsSquareRoot(root)
  {
    if |a| < 2 then Undefined
    else
      var x, y := Deviations(a), Deviations(b);
      if Dot(x, x) == 0.0 || Dot(y, y) == 0.0 then Undefined
      else
        DenominatorPositive(x, y, root);
        Value(Correlated(Clamp(Dot(x, y) / Denominator(x, y, root)), |a|))
  }

  function OfPrices(a: seq<real>, b: seq<real>, root: real -> real): Outcome
    requires |a| == |b| && IsSquareRoot(root)
  {
    if |a| < 2 then Undefined
    else if !Divisible(a) || !Divisible(b) then ZeroDivision
    else OfReturns(Returns(a), Returns(b), root)
  }

  function OfAligned(a: map<int, real>, b: map<int, real>, times: seq<int>, root: real -> real): Outcome
    requires IsSquareRoot(root) && forall i :: 0 <= i < |times| ==> times[i] in a && times[i] in b
  {
    OfPrices(ClosesAt(a, times), ClosesAt(b, times), root)
  }

  function ComputeCorrelation(candlesA: seq<Candle>, candlesB: seq<Candle>, root: real -> real): Outcome
    requires IsSquareRoot(root)
  {
    if candlesA == [] || candlesB == [] then Undefined
    else
      OfAligned(ByTime(candlesA), ByTime(candlesB), Common(candlesA, candlesB), root)
  }

  // ------------------------------------------------------------- the bound

  lemma {:induction false} SquaresAreNonNegative(xs: seq<real>)
    ensures Dot(xs, xs) >= 0.0
  {
    if xs != [] {
      SquaresAreNonNegative(xs[..|xs| - 1]);
    }
  }

  lemma MulOrder(x: real, y: real, t: real)
    requires x <= y && t >= 0.0
    ensures x * t <= y * t
  {
  }

  lemma MulPositive(x: real, t: real)
    requires x > 0.0 && t > 0.0
    ensures x * t > 0.0
  {
  }

  lemma DenominatorPositive(x: seq<real>, y: seq<real>, root: real -> real)
    requires IsSquareRoot(root) && Dot(x, x) != 0.0 && Dot(y, y) != 0.0
    ensures var s := Denominator(x, y, root); s > 0.0 && s * s == Dot(x, x) * Dot(y, y)
  {
    SquaresAreNonNegative(x);
    SquaresAreNonNegative(y);
    hide Dot;
    MulPositive(Dot(x, x), Dot(y, y));
    var v := Dot(x, x) * Dot(y, y);
    assert root(v) >= 0.0 && root(v) * root(v) == v;
  }

  lemma SquareGrows(u: real, v: real)
    requires 0.0 <= u < v
    ensures u * u < v * v
  {
    MulPositive(v - u, v + u);
    assert v * v - u * u == (v - u) * (v + u);
  }

  lemma SquareOrder(u: real, v: real)
    requires u >= 0.0 && v * v <= u * u
    ensures -u <= v <= u
  {
    assert (-v) * (-v) == v * v;
    if v > u {
      SquareGrows(u, v);
    } else if v < -u {
      SquareGrows(u, -v);
    }
  }

  lemma SquareOfSum(p: real, s: real)
    ensures (p + s) * (p + s) == p * p + 2.0 * (p * s) + s * s
  {
  }

  lemma ProductOfSums(q: real, a: real, r: real, b: real)
    ensures (q + a) * (r + b) == q * r + (q * b + r * a) + a * b
  {
  }

  lemma ProductOfProducts(q: real, b: real, r: real, a: real)
    ensures (q * b) * (r * a) == (q * r) * (a * b)
  {
  }

  lemma SquareIsNonNegative(x: real)
    ensures x * x >= 0.0
  {
  }

  lemma Doubled(x: real)
    ensures (2.0 * x) * (2.0 * x) == 4.0 * (x * x)
  {
  }

  /** One more term keeps p^2 <= q r. */
  lemma OneMoreTerm(p: real, q: real, r: real, a: real, b: real)
    requires q >= 0.0 && r >= 0.0 && p * p <= q * r
    ensures (p + a * b) * (p + a * b) <= (q + a * a) * (r + b * b)
  {
    SquareIsNonNegative(a);
    SquareIsNonNegative(b);
    ProductOfProducts(a, b, a, b);
    CrossTerm(p, q, r, a * b, a * a, b * b);
    SquareOfSum(p, a * b);
    ProductOfSums(q, a * a, r, b * b);
  }

  /** The cross term, with `s` for a b, and `aa` and `bb` for their squares. */
  lemma CrossTerm(p: real, q: real, r: real, s: real, aa: real, bb: real)
    requires q >= 0.0 && r >= 0.0 && p * p <= q * r && aa >= 0.0 && bb >= 0.0 && s * s == aa * bb
    ensures 2.0 * (p * s) <= q * bb + r * aa
  {
    var x, y := q * bb, r * aa;
    MulOrder(0.0, q, bb);
    MulOrder(0.0, r, aa);
    MulOrder(0.0, aa, bb);
    MulOrder(p * p, q * r, aa * bb);
    ProductOfProducts(q, bb, r, aa);
    ProductOfProducts(p, s, p, s);
    Doubled(p * s);
    MeanBound(x, y);
    SquareOrder(x + y, 2.0 * (p * s));
  }

  lemma MeanBound(x: real, y: real)
    ensures 4.0 * (x * y) <= (x + y) * (x + y)
  {
    SquareOfSum(x, y);
    SquareOfSum(x, -y);
    SquareIsNonNegative(x - y);
  }

  predicate SquareAtMost(p: real, q: real, r: real) {
    p * p <= q * r
  }

  lemma OneMoreProduct(p: real, q: real, r: real, a: real, b: real)
    requires q >= 0.0 && r >= 0.0 && SquareAtMost(p, q, r)
    ensures SquareAtMost(p + Times(a, b), q + Times(a, a), r + Times(b, b))
  {
    OneMoreTerm(p, q, r, a, b);
  }

  lemma {:induction false} DotsBounded(xs: seq<real>, ys: seq<real>)
    requires |xs| == |ys|
    ensures SquareAtMost(Dot(xs, ys), Dot(xs, xs), Dot(ys, ys))
  {
    if xs != [] {
      var n := |xs| - 1;
      LastProduct(xs, ys);
      LastProduct(xs, xs);
      LastProduct(ys, ys);
      hide Dot, Times, SquareAtMost;
      DotsBounded(xs[..n], ys[..n]);
      SquaresAreNonNegative(xs[..n]);
      SquaresAreNonNegative(ys[..n]);
      OneMoreProduct(Dot(xs[..n], ys[..n]), Dot(xs[..n], xs[..n]), Dot(ys[..n], ys[..n]), xs[n], ys[n]);
    }
  }

  lemma CauchySchwarz(xs: seq<real>, ys: seq<real>)
    requires |xs| == |ys|
    ensures Dot(xs, ys) * Dot(xs, ys) <= Dot(xs, xs) * Dot(ys, ys)
  {
    hide Dot;
    DotsBounded(xs, ys);
  }

  lemma RatioBounded(p: real, s: real)
    requires s > 0.0 && p * p <= s * s
    ensures -1.0 <= p / s <= 1.0 && (p / s) * s == p
  {
    SquareOrder(s, p);
  }

  /** The clamp never changes the result: times the denominator, the value is the covariance
      itself, and it lies in [-1, 1]. */
  lemma ClampIsIdle(a: seq<real>, b: seq<real>, root: real -> real)
    requires |a| == |b| && IsSquareRoot(root) && OfReturns(a, b, root).Value?
    ensures var x, y, value := Deviations(a), Deviations(b), OfReturns(a, b, root).result.value;
            && Denominator(x, y, root) > 0.0
            && value * Denominator(x, y, root) == Dot(x, y)
            && -1.0 <= value <= 1.0
  {
    var x, y := Deviations(a), Deviations(b);
    DenominatorPositive(x, y, root);
    CauchySchwarz(x, y);
    RatioBounded(Dot(x, y), Denominator(x, y, root));
  }

  // ------------------------------------------------------------- symmetry and scale

  lemma {:induction false} DotCommutes(xs: seq<real>, ys: seq<real>)
    requires |xs| == |ys|
    ensures Dot(xs, ys) == Dot(ys, xs)
  {
    if xs != [] {
      DotCommutes(xs[..|xs| - 1], ys[..|ys| - 1]);
    }
  }

  lemma ReturnsCommute(a: seq<real>, b: seq<real>, root: real -> real)
    requires |a| == |b| && IsSquareRoot(root)
    ensures OfReturns(a, b, root) == OfReturns(b, a, root)
  {
    if |a| >= 2 {
      var x, y := Deviations(a), Deviations(b);
      DotCommutes(x, y);
      hide Dot, Deviations;
      assert Dot(x, x) * Dot(y, y) == Dot(y, y) * Dot(x, x);
    }
  }

  lemma PricesCommute(a: seq<real>, b: seq<real>, root: real -> real)
    requires |a| == |b| && IsSquareRoot(root)
    ensures OfPrices(a, b, root) == OfPrices(b, a, root)
  {
    hide OfReturns, Returns;
    if |a| >= 2 && Divisible(a) && Divisible(b) {
      ReturnsCommute(Returns(a), Returns(b), root);
    }
  }

  /** Swapping the series changes nothing, not even which error there is. */
  lemma Symmetric(candlesA: seq<Candle>, candlesB: seq<Candle>, root: real -> real)
    requires IsSquareRoot(root)
    ensures ComputeCorrelation(candlesA, candlesB, root) == ComputeCorrelation(candlesB, candlesA, root)
  {
    hide OfPrices, ByTime, Common, ClosesAt;
    var common := Common(candlesA, candlesB);
    AscendingUnique(common, Common(candlesB, candlesA));
    PricesCommute(ClosesAt(ByTime(candlesA), common), ClosesAt(ByTime(candlesB), common), root);
  }

  function Scaled(candles: seq<Candle>, k: real): seq<Candle> {
    if candles == [] then []
    else
      var last := candles[|candles| - 1];
      Scaled(candles[..|candles| - 1], k) + [last.(close := Times(k, last.close))]
  }

  lemma {:induction false} ScaledByTime(candles: seq<Candle>, k: real, t: int)
    ensures t in ByTime(Scaled(candles, k)) <==> t in ByTime(candles)
    ensures t in ByTime(candles) ==> ByTime(Scaled(candles, k))[t] == Times(k, ByTime(candles)[t])
  {
    hide Times;
    if candles != [] {
      var init, last := candles[..|candles| - 1], candles[|candles| - 1];
      ScaledByTime(init, k, t);
      var s := Scaled(init, k);
      assert (s + [last.(close := Times(k, last.close))])[..|s|] == s;
    }
  }

  lemma NonZeroTimes(k: real, x: real)
    requires k > 0.0
    ensures Times(k, x) != 0.0 <==> x != 0.0
  {
  }

  lemma ReturnScales(p: real, q: real, k: real)
    requires k > 0.0 && p != 0.0
    ensures Times(k, p) != 0.0 && (Times(k, q) - Times(k, p)) / Times(k, p) == (q - p) / p
  {
    NonZeroTimes(k, p);
    DivisionUndone(q - p, p);
    Regrouped((q - p) / p, p, k);
    assert k * (q - p) == k * q - k * p;
    QuotientOf(k * q - k * p, k * p, (q - p) / p);
  }

  lemma Regrouped(r: real, p: real, k: real)
    ensures r * (k * p) == k * (r * p)
  {
  }

  lemma DivisionUndone(n: real, d: real)
    requires d != 0.0
    ensures (n / d) * d == n
  {
  }

  lemma QuotientOf(n: real, d: real, r: real)
    requires d != 0.0 && r * d == n
    ensures n / d == r
  {
    DivisionUndone(n, d);
    assert (n / d - r) * d == (n / d) * d - r * d;
  }

  /** Prices scaled by a positive constant have the same returns, and fail the same way. */
  lemma ReturnsScale(prices: seq<real>, scaled: seq<real>, k: real)
    requires k > 0.0 && |prices| == |scaled| && forall i :: 0 <= i < |prices| ==> scaled[i] == Times(k, prices[i])
    ensures Divisible(scaled) <==> Divisible(prices)
    ensures Divisible(prices) && prices != [] ==> Returns(scaled) == Returns(prices)
  {
    hide Times;
    forall i | 0 <= i < |prices| ensures scaled[i] != 0.0 <==> prices[i] != 0.0 {
      NonZeroTimes(k, prices[i]);
    }
    if Divisible(prices) && prices != [] {
      forall i | 0 <= i < |prices| - 1 ensures Returns(scaled)[i] == Returns(prices)[i] {
        ReturnScales(prices[i], prices[i + 1], k);
      }
    }
  }

  /** Scaling either series by a positive constant does not change the outcome. */
  lemma ScaleInvariant(candlesA: seq<Candle>, candlesB: seq<Candle>, k: real, root: real -> real)
    requires IsSquareRoot(root) && k > 0.0
    ensures ComputeCorrelation(Scaled(candlesA, k), candlesB, root) == ComputeCorrelation(candlesA, candlesB, root)
    ensures ComputeCorrelation(candlesA, Scaled(candlesB, k), root) == ComputeCorrelation(candlesA, candlesB, root)
  {
    hide ComputeCorrelation, Scaled;
    FirstScaleInvariant(candlesA, candlesB, k, root);
    FirstScaleInvariant(candlesB, candlesA, k, root);
    Symmetric(candlesA, candlesB, root);
    Symmetric(candlesA, Scaled(candlesB, k), root);
  }

  lemma ScaledCommon(candlesA: seq<Candle>, candlesB: seq<Candle>, k: real)
    ensures Common(Scaled(candlesA, k), candlesB) == Common(candlesA, candlesB)
  {
    forall t ensures t in ByTime(Scaled(candlesA, k)) <==> t in ByTime(candlesA) {
      ScaledByTime(candlesA, k, t);
    }
    hide Scaled, ByTime, Common;
    AscendingUnique(Common(candlesA, candlesB), Common(Scaled(candlesA, k), candlesB));
  }

  lemma ScaledCloses(candles: seq<Candle>, times: seq<int>, k: real)
    requires forall i :: 0 <= i < |times| ==> times[i] in ByTime(candles)
    ensures forall i :: 0 <= i < |times| ==> times[i] in ByTime(Scaled(candles, k))
    ensures forall i :: 0 <= i < |times| ==>
              ClosesAt(ByTime(Scaled(candles, k)), times)[i] == Times(k, ClosesAt(ByTime(candles), times)[i])
  {
    hide Scaled, ByTime, Times;
    forall i | 0 <= i < |times|
      ensures times[i] in ByTime(Scaled(candles, k))
      ensures ByTime(Scaled(candles, k))[times[i]] == Times(k, ByTime(candles)[times[i]])
    {
      ScaledByTime(candles, k, times[i]);
    }
  }

  lemma ScaledEmpty(candles: seq<Candle>, k: real)
    ensures Scaled(candles, k) == [] <==> candles == []
  {
  }

  lemma FirstScaleInvariant(candlesA: seq<Candle>, candlesB: seq<Candle>, k: real, root: real -> real)
    requires IsSquareRoot(root) && k > 0.0
    ensures ComputeCorrelation(Scaled(candlesA, k), candlesB, root) == ComputeCorrelation(candlesA, candlesB, root)
  {
    hide OfAligned, ByTime, Common, Scaled;
    ScaledEmpty(candlesA, k);
    ScaledCommon(candlesA, candlesB, k);
    ScaledAligned(candlesA, ByTime(candlesB), Common(candlesA, candlesB), k, root);
  }

  lemma ScaledAligned(candles: seq<Candle>, other: map<int, real>, times: seq<int>, k: real, root: real -> real)
    requires IsSquareRoot(root) && k > 0.0
    requires forall i :: 0 <= i < |times| ==> times[i] in ByTime(candles) && times[i] in other
    ensures forall i :: 0 <= i < |times| ==> times[i] in ByTime(Scaled(candles, k))
    ensures OfAligned(ByTime(Scaled(candles, k)), other, times, root) == OfAligned(ByTime(candles), other, times, root)
  {
    hide OfPrices, ByTime, Scaled, Times;
    ScaledCloses(candles, times, k);
    PricesScale(ClosesAt(ByTime(candles), times), ClosesAt(ByTime(Scaled(candles, k)), times), ClosesAt(other, times), k,
                root);
  }

  lemma PricesScale(prices: seq<real>, scaled: seq<real>, others: seq<real>, k: real, root: real -> real)
    requires k > 0.0 && |prices| == |scaled| == |others| && IsSquareRoot(root)
    requires forall i :: 0 <= i < |prices| ==> scaled[i] == Times(k, prices[i])
    ensures OfPrices(scaled, others, root) == OfPrices(prices, others, root)
  {
    ReturnsScale(prices, scaled, k);
    hide Returns, OfReturns, Times;
  }

  lemma SelfIsOne(a: seq<real>, root: real -> real)
    requires IsSquareRoot(root) && OfReturns(a, a, root).Value?
    ensures OfReturns(a, a, root).result.value == 1.0
  {
    var x := Deviations(a);
    var v := Dot(x, x);
    SquaresAreNonNegative(x);
    SelfDenominator(x, root);
    QuotientOf(v, v, 1.0);
  }

  lemma SelfDenominator(x: seq<real>, root: real -> real)
    requires IsSquareRoot(root) && Dot(x, x) >= 0.0
    ensures Denominator(x, x, root) == Dot(x, x)
  {
    var v, s := Dot(x, x), Denominator(x, x, root);
    assert v * v >= 0.0;
    assert s >= 0.0 && s * s == v * v;
    SquareOrder(s, v);
    SquareOrder(v, s);
  }

  /** A series and a positive multiple of it have correlation 1, when they have one at all. */
  lemma ProportionalIsOne(candles: seq<Candle>, k: real, root: real -> real)
    requires IsSquareRoot(root) && k > 0.0
    ensures var c := ComputeCorrelation(candles, Scaled(candles, k), root);
            c.Value? ==> c.result.value == 1.0
  {
    ScaleInvariant(candles, candles, k, root);
    if ComputeCorrelation(candles, candles, root).Value? {
      SelfIsOne(Returns(ClosesAt(ByTime(candles), Common(candles, candles))), root);
    }
  }

  lemma DivisibleIff(m: map<int, real>, times: seq<int>)
    requires forall i :: 0 <= i < |times| ==> times[i] in m
    ensures Divisible(ClosesAt(m, times)) <==> forall i :: 0 <= i < |times| - 1 ==> m[times[i]] != 0.0
  {
    var p := ClosesAt(m, times);
    assert forall i :: 0 <= i < |times| ==> p[i] == m[times[i]];
  }

  lemma ZeroDivisionIff(a: seq<real>, b: seq<real>, root: real -> real)
    requires |a| == |b| && IsSquareRoot(root)
    ensures OfPrices(a, b, root).ZeroDivision? <==> |a| >= 2 && !(Divisible(a) && Divisible(b))
  {
    hide Divisible, Returns, Deviations, Dot;
  }

  lemma NothingInCommon(candlesA: seq<Candle>, candlesB: seq<Candle>)
    requires candlesA == [] || candlesB == []
    ensures Common(candlesA, candlesB) == []
  {
    var r := Common(candlesA, candlesB);
    assert forall t :: t !in ByTime([]);
    HasMember(r);
  }

  /** Division by zero happens exactly when, of at least two common timestamps, one before the
      last has a zero close in either series. */
  lemma DivisionFailsIff(candlesA: seq<Candle>, candlesB: seq<Candle>, root: real -> real)
    requires IsSquareRoot(root)
    ensures var a, b := ByTime(candlesA), ByTime(candlesB);
            var common := Common(candlesA, candlesB);
            ComputeCorrelation(candlesA, candlesB, root).ZeroDivision?
            <==> exists i :: 0 <= i < |common| - 1 && (a[common[i]] == 0.0 || b[common[i]] == 0.0)
  {
    hide ByTime, Common, ClosesAt, Divisible, OfPrices;
    var a, b, common := ByTime(candlesA), ByTime(candlesB), Common(candlesA, candlesB);
    if candlesA == [] || candlesB == [] {
      NothingInCommon(candlesA, candlesB);
    } else {
      DivisibleIff(a, common);
      DivisibleIff(b, common);
      ZeroDivisionIff(ClosesAt(a, common), ClosesAt(b, common), root);
    }
  }

  // ------------------------------------------------------------- the textbook formula

  /** A timestamp has the close of the last candle that carries it. */
  lemma {:induction false} LastCandleCounts(candles: seq<Candle>, i: nat)
    requires i < |candles| && forall j :: i < j < |candles| ==> candles[j].timestamp != candles[i].timestamp
    ensures candles[i].timestamp in ByTime(candles) && ByTime(candles)[candles[i].timestamp] == candles[i].close
  {
    var n := |candles| - 1;
    if i < n {
      LastCandleCounts(candles[..n], i);
    }
  }

  lemma {:induction false} SumAdds(xs: seq<real>, ys: seq<real>, x: real)
    ensures Sum(xs + ys) == Sum(xs) + Sum(ys) && Sum([x]) == x
  {
    assert [x][..0] == [] && Sum([]) == 0.0;
    if ys == [] {
      assert xs + ys == xs;
    } else {
      var init := ys[..|ys| - 1];
      assert (xs + ys)[..|xs + ys| - 1] == xs + init;
      SumAdds(xs, init, x);
    }
  }

  /** The inner product is the sum of the products. */
  lemma {:induction false} DotIsSum(xs: seq<real>, ys: seq<real>, products: seq<real>)
    requires |xs| == |ys| == |products| && forall i :: 0 <= i < |xs| ==> products[i] == xs[i] * ys[i]
    ensures Dot(xs, ys) == Sum(products)
  {
    if xs != [] {
      var n := |xs| - 1;
      DotIsSum(xs[..n], ys[..n], products[..n]);
    }
  }

  lemma ProductOfDifferences(x: real, y: real, c: real, d: real)
    ensures (x - c) * (y - d) == x * y - d * x - c * y + c * d
  {
  }

  lemma {:induction false} DotOfShifted(xs: seq<real>, ys: seq<real>, us: seq<real>, vs: seq<real>, c: real, d: real)
    requires |xs| == |ys| == |us| == |vs|
    requires forall i :: 0 <= i < |xs| ==> us[i] == xs[i] - c && vs[i] == ys[i] - d
    ensures Dot(us, vs) == Shifted(Dot(xs, ys), Sum(xs), Sum(ys), |xs| as real, c, d)
  {
    hide Shifted;
    NothingShifted(c, d);
    if xs != [] {
      var n := |xs| - 1;
      LastProduct(xs, ys);
      LastProduct(us, vs);
      LastTerm(xs);
      LastTerm(ys);
      hide Dot, Sum, Times;
      DotOfShifted(xs[..n], ys[..n], us[..n], vs[..n], c, d);
      OneMoreShifted(Dot(xs[..n], ys[..n]), Sum(xs[..n]), Sum(ys[..n]), xs[n], ys[n], n as real, c, d);
      assert |xs| as real == n as real + 1.0;
    }
  }

  /** A sum of n products of differences, from the sum `p` of the products and the sums `s` and `t`. */
  function Shifted(p: real, s: real, t: real, n: real, c: real, d: real): real {
    p - d * s - c * t + n * (c * d)
  }

  lemma NothingShifted(c: real, d: real)
    ensures Shifted(0.0, 0.0, 0.0, 0.0, c, d) == 0.0
  {
  }

  lemma OneMoreShifted(p: real, s: real, t: real, x: real, y: real, n: real, c: real, d: real)
    ensures Shifted(p, s, t, n, c, d) + Times(x - c, y - d) == Shifted(p + Times(x, y), s + x, t + y, n + 1.0, c, d)
  {
    ProductOfDifferences(x, y, c, d);
    assert d * (s + x) == d * s + d * x;
    assert c * (t + y) == c * t + c * y;
    assert (n + 1.0) * (c * d) == n * (c * d) + c * d;
  }

  lemma LastTerm(xs: seq<real>)
    requires xs != []
    ensures Sum(xs) == Sum(xs[..|xs| - 1]) + xs[|xs| - 1]
  {
  }

  lemma LastProduct(xs: seq<real>, ys: seq<real>)
    requires |xs| == |ys| && xs != []
    ensures Dot(xs, ys) == Dot(xs[..|xs| - 1], ys[..|ys| - 1]) + Times(xs[|xs| - 1], ys[|ys| - 1])
  {
    hide Times;
  }

  /** n times the covariance of the deviations, without the means. */
  function Covariance(a: seq<real>, b: seq<real>): real
    requires |a| == |b|
  {
    |a| as real * Dot(a, b) - Sum(a) * Sum(b)
  }

  lemma MeanOf(xs: seq<real>) returns (mean: real)
    requires xs != []
    ensures mean * |xs| as real == Sum(xs)
    ensures forall i :: 0 <= i < |xs| ==> Deviations(xs)[i] == xs[i] - mean
  {
    mean := Sum(xs) / |xs| as real;
    DivisionUndone(Sum(xs), |xs| as real);
    hide Sum;
  }

  lemma DeviationsCovary(a: seq<real>, b: seq<real>)
    requires |a| == |b| && a != []
    ensures |a| as real * Dot(Deviations(a), Deviations(b)) == Covariance(a, b)
  {
    var n := |a| as real;
    hide Dot, Sum, Deviations;
    var c := MeanOf(a);
    var d := MeanOf(b);
    DotOfShifted(a, b, Deviations(a), Deviations(b), c, d);
    MeansCancel(n, Dot(a, b), Sum(a), Sum(b), c, d);
  }

  lemma MeansCancel(n: real, p: real, s: real, t: real, c: real, d: real)
    requires c * n == s && d * n == t
    ensures n * (p - d * s - c * t + n * (c * d)) == n * p - s * t
  {
    assert n * (d * s) == (d * n) * s == t * s;
    assert n * (c * t) == (c * n) * t == s * t;
    assert n * (n * (c * d)) == (c * n) * (d * n) == s * t;
    assert n * (p - d * s - c * t + n * (c * d)) == n * p - n * (d * s) - n * (c * t) + n * (n * (c * d));
  }

  /** The outcome is the correlation coefficient of the two samples: undefined for fewer than two
      values or where one does not vary, and otherwise the number with the covariance's sign whose
      square, times the variances, is the covariance's. */
  ghost predicate IsPearson(o: Outcome, a: seq<real>, b: seq<real>)
    requires |a| == |b|
  {
    if |a| < 2 || Covariance(a, a) == 0.0 || Covariance(b, b) == 0.0 then o.Undefined?
    else
      && o.Value? && o.result.periods == |a|
      && var v := o.result.value;
         && (v * v) * (Covariance(a, a) * Covariance(b, b)) == Covariance(a, b) * Covariance(a, b)
         && v * Covariance(a, b) >= 0.0
  }

  lemma ZeroTimes(n: real, x: real)
    requires n > 0.0
    ensures n * x == 0.0 <==> x == 0.0
  {
  }

  lemma ReturnsArePearson(a: seq<real>, b: seq<real>, root: real -> real)
    requires |a| == |b| && IsSquareRoot(root)
    ensures IsPearson(OfReturns(a, b, root), a, b)
  {
    hide Dot, Deviations, Covariance, Denominator, Clamp;
    if |a| >= 2 {
      var n, x, y := |a| as real, Deviations(a), Deviations(b);
      DeviationsCovary(a, a);
      DeviationsCovary(b, b);
      ZeroTimes(n, Dot(x, x));
      ZeroTimes(n, Dot(y, y));
      if Dot(x, x) != 0.0 && Dot(y, y) != 0.0 {
        DeviationsCovary(a, b);
        ClampIsIdle(a, b, root);
        DenominatorPositive(x, y, root);
        hide OfReturns;
        SquareMatches(n, OfReturns(a, b, root).result.value, Denominator(x, y, root), Dot(x, x), Dot(y, y), Dot(x, y));
      }
    }
  }

  lemma SquareMatches(n: real, v: real, s: real, p: real, q: real, r: real)
    requires n > 0.0 && s > 0.0 && s * s == p * q && v * s == r
    ensures (v * v) * ((n * p) * (n * q)) == (n * r) * (n * r) && v * (n * r) >= 0.0
  {
    assert (n * p) * (n * q) == (n * n) * (p * q);
    assert (v * v) * ((n * n) * (s * s)) == (n * (v * s)) * (n * (v * s));
    SquareIsNonNegative(v);
    MulOrder(0.0, v * v, s);
    MulOrder(0.0, (v * v) * s, n);
    assert v * (n * (v * s)) == ((v * v) * s) * n;
  }

  /** `r` are the relative changes of the closes from each of the times to the next. */
  ghost predicate ChangesOf(r: seq<real>, m: map<int, real>, times: seq<int>) {
    && |times| == |r| + 1 && (forall i :: 0 <= i < |times| ==> times[i] in m)
    && (forall i :: 0 <= i < |r| ==> m[times[i]] != 0.0 && m[times[i + 1]] == m[times[i]] * (1.0 + r[i]))
  }

  lemma ChangesAreReturns(r: seq<real>, m: map<int, real>, times: seq<int>)
    requires ChangesOf(r, m, times)
    ensures Divisible(ClosesAt(m, times)) && Returns(ClosesAt(m, times)) == r
  {
    var p := ClosesAt(m, times);
    forall i | 0 <= i < |r| ensures p[i] != 0.0 && (p[i + 1] - p[i]) / p[i] == r[i] {
      assert m[times[i]] * (1.0 + r[i]) == m[times[i]] + r[i] * m[times[i]];
      QuotientOf(p[i + 1] - p[i], p[i], r[i]);
    }
    assert |Returns(p)| == |r| && forall i :: 0 <= i < |r| ==> Returns(p)[i] == r[i];
  }

  /** What is computed is the correlation coefficient of the relative changes of the two closes
      between the timestamps they share, taken in ascending order. */
  lemma ComputesPearson(candlesA: seq<Candle>, candlesB: seq<Candle>, root: real -> real, times: seq<int>,
                        a: seq<real>, b: seq<real>)
    requires IsSquareRoot(root) && Ascending(times)
    requires forall t :: t in times <==> t in ByTime(candlesA) && t in ByTime(candlesB)
    requires ChangesOf(a, ByTime(candlesA), times) && ChangesOf(b, ByTime(candlesB), times)
    ensures IsPearson(ComputeCorrelation(candlesA, candlesB, root), a, b)
  {
    AscendingUnique(times, Common(candlesA, candlesB));
    ChangesAreReturns(a, ByTime(candlesA), times);
    ChangesAreReturns(b, ByTime(candlesB), times);
    ReturnsArePearson(a, b, root);
    assert times[0] in ByTime(candlesA) && times[0] in ByTime(candlesB);
    assert candlesA != [] && candlesB != [];
    hide OfReturns, ByTime, Common, IsPearson, Returns, Divisible;
  }
}
