/** `wilson_interval` and `judge` of regression/t5/stats.py, in exact reals.  `math.sqrt` appears as a
    witness: wherever the source takes a root, the model takes a real `s` with `Root(s, x)`. */
module Wilson {
  import opened Common

  const Z95 := 1.96

  datatype Interval = Interval(low: real, high: real)

  datatype StatsError = UnknownClass | RunsNotPositive | PassedOutOfRange

  predicate Root(s: real, x: real) {
    s >= 0.0 && s * s == x
  }

  /** What the root is taken of. */
  function Spread(p: real, n: real, z: real): real
    requires n > 0.0
  {
    p * (1.0 - p) / n + z * z / (4.0 * n * n)
  }

  function Max(a: real, b: real): real { if a >= b then a else b }

  function Min(a: real, b: real): real { if a <= b then a else b }

  function Center(p: real, n: real, z: real): real
    requires n > 0.0 && 1.0 + z * z / n != 0.0
  {
    (p + z * z / (2.0 * n)) / (1.0 + z * z / n)
  }

  function Margin(n: real, z: real, s: real): real
    requires n > 0.0 && 1.0 + z * z / n != 0.0
  {
    z * s / (1.0 + z * z / n)
  }

  lemma {:induction false} DenominatorPositive(n: real, z: real)
    requires n > 0.0
    ensures z * z / n >= 0.0 && 1.0 + z * z / n > 0.0
  {
    SquareNonNegative(z);
    DivideNonNegative(z * z, n);
  }

  lemma {:induction false} SquareNonNegative(x: real)
    ensures x * x >= 0.0
  {
  }

  lemma {:induction false} DivideNonNegative(x: real, n: real)
    requires x >= 0.0 && n > 0.0
    ensures x / n >= 0.0
  {
  }

  function WilsonInterval(passed: int, runs: int, z: real, s: real): Result<Interval, StatsError> {
    if runs < 1 then Err(RunsNotPositive)
    else if !(0 <= passed <= runs) then Err(PassedOutOfRange)
    else
      var n := runs as real;
      var p := passed as real / n;
      DenominatorPositive(n, z);
      Ok(Interval(Max(0.0, Center(p, n, z) - Margin(n, z, s)), Min(1.0, Center(p, n, z) + Margin(n, z, s))))
  }

  // ---------------------------------------------------------------- the upper bound without the root

  lemma {:induction false} SquareOrder(a: real, b: real)
    requires a >= 0.0 && b >= 0.0
    ensures a > b <==> a * a > b * b
  {
    if a > b {
      ProductPositive(a - b, a + b);
    } else {
      ProductNonNegative(b - a, a + b);
    }
    assert (a - b) * (a + b) == a * a - b * b && (b - a) * (a + b) == b * b - a * a;
  }

  lemma {:induction false} Cancel(x: real, y: real, d: real)
    requires d > 0.0 && x * d < y * d
    ensures x < y
  {
    if x >= y {
      Scale(y, x, d);
    }
  }

  lemma {:induction false} Scale(x: real, y: real, d: real)
    requires d >= 0.0 && x <= y
    ensures d * x <= d * y
  {
  }

  /** If a distance beats the spread `q * w`, it beats `q * h` for every `h` with `d * h <= w`. */
  lemma {:induction false} Beats(q: real, d: real, h: real, w: real)
    requires q >= 0.0 && d > 0.0 && d * h <= w && q * w < d * d
    ensures q * h < d
  {
    Scale(d * h, w, q);
    assert q * (d * h) == (q * h) * d;
    Cancel(q * h, d, d);
  }

  lemma {:induction false} ProductOrder(a: real, b: real, c: real, d: real)
    requires 0.0 <= a <= c && 0.0 <= b <= d
    ensures a * b <= c * d
  {
    Scale(b, d, a);
    Scale(a, c, d);
  }

  /** The side of the interval's center on which `r` lies decides the side of `p`, once `r` is far enough out. */
  lemma {:induction false} Side(p: real, q: real, r: real)
    requires 0.0 <= p <= 1.0 && q >= 0.0 && 0.0 <= r <= 1.0
    requires (r - p) * (r - p) > q * (r * (1.0 - r))
    ensures r > p <==> (r - p) + q * (r - 0.5) > 0.0
  {
    var w := r * (1.0 - r);
    ProductNonNegative(r, 1.0 - r);
    ProductNonNegative(q, w);
    if r > p {
      if r >= 0.5 {
        ProductNonNegative(q, r - 0.5);
      } else {
        ProductOrder(r - p, 0.5 - r, r, 1.0 - r);
        Beats(q, r - p, 0.5 - r, w);
        assert q * (r - 0.5) == -(q * (0.5 - r));
      }
    } else if r < p {
      assert (p - r) * (p - r) == (r - p) * (r - p);
      if r <= 0.5 {
        ProductNonNegative(q, 0.5 - r);
        assert q * (r - 0.5) == -(q * (0.5 - r));
      } else {
        ProductOrder(p - r, r - 0.5, 1.0 - r, r);
        Beats(q, p - r, r - 0.5, w);
      }
    }
  }

  lemma {:induction false} ProductNonNegative(a: real, b: real)
    requires a >= 0.0 && b >= 0.0
    ensures a * b >= 0.0
  {
  }

  /** Completing the square. */
  lemma {:induction false} CompleteSquare(p: real, q: real, r: real)
    ensures ((r - p) + q * (r - 0.5)) * ((r - p) + q * (r - 0.5)) - (q * (p * (1.0 - p)) + q * q / 4.0)
      == (1.0 + q) * ((r - p) * (r - p) - q * (r * (1.0 - r)))
  {
  }

  lemma {:induction false} Factor(q: real, b: real)
    requires q >= 0.0
    ensures (1.0 + q) * b > 0.0 <==> b > 0.0
    ensures (1.0 + q) * b >= 0.0 <==> b >= 0.0
  {
    if b > 0.0 {
      ProductNonNegative(q, b);
    } else {
      ProductNonNegative(q, -b);
      assert q * -b == -(q * b);
    }
    assert (1.0 + q) * b == b + q * b;
  }

  /** `r` lies above the upper bound exactly when it lies above `p` and outside the spread. */
  lemma {:induction false} Exceeds(p: real, q: real, r: real, m: real)
    requires 0.0 <= p <= 1.0 && q >= 0.0 && 0.0 <= r <= 1.0
    requires m >= 0.0 && m * m == q * (p * (1.0 - p)) + q * q / 4.0
    ensures (r - p) + q * (r - 0.5) > m <==> r > p && (r - p) * (r - p) > q * (r * (1.0 - r))
  {
    var a, b := (r - p) + q * (r - 0.5), (r - p) * (r - p) - q * (r * (1.0 - r));
    CompleteSquare(p, q, r);
    Factor(q, b);
    if b > 0.0 {
      Side(p, q, r);
    }
    if a > 0.0 {
      SquareOrder(a, m);
    }
  }

  // ---------------------------------------------------------------- the interval

  ghost predicate Sample(p: real, n: real, z: real, s: real) {
    0.0 <= p <= 1.0 && n >= 1.0 && z >= 0.0 && Root(s, Spread(p, n, z))
  }

  /** The margin's numerator, squared. */
  lemma {:induction false} MarginSquared(p: real, n: real, z: real, s: real)
    requires Sample(p, n, z, s)
    ensures var q := z * z / n; z * s >= 0.0 && (z * s) * (z * s) == q * (p * (1.0 - p)) + q * q / 4.0
  {
    var z2, v := z * z, p * (1.0 - p);
    ProductNonNegative(z, s);
    assert (z * s) * (z * s) == z2 * (s * s);
    assert z2 * (v / n) == (z2 / n) * v;
    assert z2 / (4.0 * n * n) == (z2 / n) / (4.0 * n) by { DivideTwice(z2, n); }
    assert z2 * ((z2 / n) / (4.0 * n)) == (z2 / n) * (z2 / n) / 4.0 by { MoveDivision(z2, z2 / n, n); }
    assert z2 * (v / n + z2 / (4.0 * n * n)) == z2 * (v / n) + z2 * (z2 / (4.0 * n * n));
  }

  lemma {:induction false} DivideTwice(x: real, n: real)
    requires n > 0.0
    ensures x / (4.0 * n * n) == (x / n) / (4.0 * n)
  {
    var q := x / n;
    var t := q / (4.0 * n);
    assert q == t * (4.0 * n) && x == q * n;
    var c := CommonDenominator(4.0, n);
    assert t * (4.0 * n) * n == t * c;
    Divides(x, c, t);
  }

  lemma {:induction false} Divides(x: real, c: real, t: real)
    requires c > 0.0 && x == t * c
    ensures x / c == t
  {
    var y := x / c;
    assert y * c == x;
    ZeroProduct(y - t, c);
  }

  lemma {:induction false} ZeroProduct(t: real, c: real)
    requires c > 0.0 && t * c == 0.0
    ensures t == 0.0
  {
  }

  lemma {:induction false} MoveDivision(x: real, y: real, n: real)
    requires n > 0.0
    ensures x * (y / (4.0 * n)) == (x / n) * y / 4.0
  {
    var t, u := y / (4.0 * n), x / n;
    assert y == t * (4.0 * n) && x == u * n;
    assert x * t == u * n * t;
    assert u * y == u * (t * (4.0 * n));
  }

  lemma {:induction false} Quotient(a: real, d: real, r: real)
    requires d > 0.0
    ensures r > a / d <==> r * d > a
    ensures r >= a / d <==> r * d >= a
  {
    var x := a / d;
    assert a == x * d;
    if r > x {
      assert (r - x) * d > 0.0;
    } else {
      assert (x - r) * d >= 0.0;
    }
  }

  /** The unclamped upper bound, as one quotient. */
  lemma {:induction false} Upper(p: real, n: real, z: real, s: real)
    requires n > 0.0
    ensures 1.0 + z * z / n > 0.0
    ensures Center(p, n, z) + Margin(n, z, s) == (p + z * z / n / 2.0 + z * s) / (1.0 + z * z / n)
    ensures Center(p, n, z) - Margin(n, z, s) == (p + z * z / n / 2.0 - z * s) / (1.0 + z * z / n)
  {
    var z2, m := z * z, z * s;
    DenominatorPositive(n, z);
    HalfQuotient(z2, n);
    SumQuotient(p + z2 / n / 2.0, m, 1.0 + z2 / n);
  }

  lemma {:induction false} HalfQuotient(x: real, n: real)
    requires n > 0.0
    ensures x / (2.0 * n) == x / n / 2.0
  {
  }

  lemma {:induction false} SumQuotient(a: real, b: real, d: real)
    requires d > 0.0
    ensures a / d + b / d == (a + b) / d && a / d - b / d == (a - b) / d
  {
  }

  lemma {:induction false} AboveQuotient(p: real, q: real, r: real, m: real)
    requires 0.0 <= p <= 1.0 && q >= 0.0 && 0.0 <= r <= 1.0
    requires m >= 0.0 && m * m == q * (p * (1.0 - p)) + q * q / 4.0
    ensures r > (p + q / 2.0 + m) / (1.0 + q) <==> r > p && (r - p) * (r - p) > q * (r * (1.0 - r))
  {
    Quotient(p + q / 2.0 + m, 1.0 + q, r);
    assert r * (1.0 + q) - (p + q / 2.0) == (r - p) + q * (r - 0.5);
    Exceeds(p, q, r, m);
  }

  /** A rate exceeds the upper bound iff it is above the estimate and outside the score region. */
  lemma {:induction false} AboveUpper(p: real, n: real, z: real, s: real, r: real)
    requires Sample(p, n, z, s) && 0.0 <= r <= 1.0
    ensures 1.0 + z * z / n > 0.0
    ensures r > Center(p, n, z) + Margin(n, z, s) <==> r > p && n * ((r - p) * (r - p)) > z * z * (r * (1.0 - r))
  {
    DenominatorPositive(n, z);
    Upper(p, n, z, s);
    MarginSquared(p, n, z, s);
    AboveQuotient(p, z * z / n, r, z * s);
    Clear(n, z * z, z * z / n, (r - p) * (r - p), r * (1.0 - r));
  }

  lemma {:induction false} Clear(n: real, z2: real, q: real, d: real, w: real)
    requires n > 0.0 && q == z2 / n
    ensures d > q * w <==> n * d > z2 * w
  {
    assert z2 == q * n;
    assert z2 * w == n * (q * w);
    if d > q * w {
      assert n * (d - q * w) > 0.0;
    } else {
      assert n * (q * w - d) >= 0.0;
    }
  }

  /** Swapping passes and failures mirrors the bounds. */
  lemma {:induction false} Mirror(p: real, n: real, z: real, s: real)
    requires Sample(p, n, z, s)
    ensures Sample(1.0 - p, n, z, s)
    ensures 1.0 + z * z / n > 0.0
    ensures Center(p, n, z) - Margin(n, z, s) == 1.0 - (Center(1.0 - p, n, z) + Margin(n, z, s))
  {
    var q := z * z / n;
    assert (1.0 - p) * (1.0 - (1.0 - p)) == p * (1.0 - p);
    DenominatorPositive(n, z);
    Upper(p, n, z, s);
    Upper(1.0 - p, n, z, s);
    var a, b, d := p + q / 2.0 - z * s, 1.0 - p + q / 2.0 + z * s, 1.0 + q;
    assert a + b == d;
    SumOfQuotients(a, b, d);
  }

  lemma {:induction false} SumOfQuotients(a: real, b: real, d: real)
    requires d > 0.0 && a + b == d
    ensures a / d == 1.0 - b / d
  {
    var x, y := a / d, b / d;
    assert x * d == a && y * d == b;
    assert (x + y - 1.0) * d == x * d + y * d - d;
    ZeroProduct(x + y - 1.0, d);
  }

  lemma {:induction false} UnitBound(p: real, q: real, m: real)
    requires 0.0 <= p <= 1.0 && q >= 0.0
    requires m >= 0.0 && m * m == q * (p * (1.0 - p)) + q * q / 4.0
    ensures m <= (1.0 - p) + q * 0.5
  {
    var a, e := (1.0 - p) + q * 0.5, 1.0 - p;
    CompleteSquare(p, q, 1.0);
    SquareNonNegative(e);
    Factor(q, e * e);
    SquareOrder(m, a);
  }

  lemma {:induction false} QuotientRange(p: real, q: real, m: real)
    requires 0.0 <= p <= 1.0 && q >= 0.0
    requires m >= 0.0 && m * m == q * (p * (1.0 - p)) + q * q / 4.0
    ensures p <= (p + q / 2.0 + m) / (1.0 + q) <= 1.0
  {
    UnitBound(p, q, m);
    AboveQuotient(p, q, p, m);
    Quotient(p + q / 2.0 + m, 1.0 + q, 1.0);
  }

  /** The estimate never lies above the upper bound, and the upper bound is never above one. */
  lemma {:induction false} UpperRange(p: real, n: real, z: real, s: real)
    requires Sample(p, n, z, s)
    ensures 1.0 + z * z / n > 0.0
    ensures p <= Center(p, n, z) + Margin(n, z, s) <= 1.0
  {
    DenominatorPositive(n, z);
    Upper(p, n, z, s);
    MarginSquared(p, n, z, s);
    QuotientRange(p, z * z / n, z * s);
  }

  /** The interval contains the estimate and needs no clamping. */
  lemma {:induction false} IntervalContains(passed: int, runs: int, z: real, s: real)
    requires 0 <= passed <= runs && runs >= 1 && z >= 0.0
    requires Root(s, Spread(passed as real / runs as real, runs as real, z))
    ensures var n, p := runs as real, passed as real / runs as real;
      && 1.0 + z * z / n > 0.0
      && WilsonInterval(passed, runs, z, s) == Ok(Interval(Center(p, n, z) - Margin(n, z, s), Center(p, n, z) + Margin(n, z, s)))
      && 0.0 <= WilsonInterval(passed, runs, z, s).value.low <= p <= WilsonInterval(passed, runs, z, s).value.high <= 1.0
  {
    var n, p := runs as real, passed as real / runs as real;
    Rate(passed, runs);
    DenominatorPositive(n, z);
    UpperRange(p, n, z, s);
    Mirror(p, n, z, s);
    UpperRange(1.0 - p, n, z, s);
  }

  lemma {:induction false} Rate(passed: int, runs: int)
    requires 0 <= passed <= runs && runs >= 1
    ensures 0.0 <= passed as real / runs as real <= 1.0
  {
    Quotient(passed as real, runs as real, 1.0);
    DivideNonNegative(passed as real, runs as real);
  }

  /** The lower bound for the passes is the complement of the upper bound for the failures. */
  lemma {:induction false} BoundsMirror(passed: int, runs: int, z: real, s: real)
    requires 0 <= passed <= runs && runs >= 1 && z >= 0.0
    requires Root(s, Spread(passed as real / runs as real, runs as real, z))
    ensures Root(s, Spread((runs - passed) as real / runs as real, runs as real, z))
    ensures WilsonInterval(passed, runs, z, s).Ok? && WilsonInterval(runs - passed, runs, z, s).Ok?
    ensures WilsonInterval(passed, runs, z, s).value.low == 1.0 - WilsonInterval(runs - passed, runs, z, s).value.high
    ensures WilsonInterval(passed, runs, z, s).value.high == 1.0 - WilsonInterval(runs - passed, runs, z, s).value.low
  {
    var n, p := runs as real, passed as real / runs as real;
    SumOfQuotients((runs - passed) as real, passed as real, n);
    Rate(passed, runs);
    Mirror(p, n, z, s);
    Mirror(1.0 - p, n, z, s);
    assert 1.0 - (1.0 - p) == p;
    IntervalContains(passed, runs, z, s);
    IntervalContains(runs - passed, runs, z, s);
  }

  // ---------------------------------------------------------------- verdicts

  datatype Verdict = Pass | Warn | Fail | NoBaseline

  datatype ScenarioVerdict = ScenarioVerdict(klass: string, passed: int, runs: int,
                                             baseline: Option<Baseline>, interval: Option<Interval>, verdict: Verdict)

  datatype Baseline = Baseline(passed: int, runs: int)

  /** The baseline counts, if both are given and sane. */
  function SaneBaseline(passed: Option<int>, runs: Option<int>): Option<Baseline> {
    if passed.Some? && runs.Some? && runs.value > 0 && 0 <= passed.value <= runs.value
    then Some(Baseline(passed.value, runs.value)) else None
  }

  function Judge(passed: int, runs: int, klass: string, basePassed: Option<int>, baseRuns: Option<int>, s: real)
    : Result<ScenarioVerdict, StatsError>
  {
    if klass != "reliability" && klass != "capability" then Err(UnknownClass)
    else if runs < 1 then Err(RunsNotPositive)
    else if !(0 <= passed <= runs) then Err(PassedOutOfRange)
    else
      var baseline := SaneBaseline(basePassed, baseRuns);
      if klass == "reliability" then
        var verdict := if passed < runs then Fail else if baseline.None? then NoBaseline else Pass;
        Ok(ScenarioVerdict(klass, passed, runs, baseline, None, verdict))
      else
        match WilsonInterval(passed, runs, Z95, s)
        case Err(e) => Err(e)
        case Ok(interval) =>
          var verdict :=
            if baseline.None? then NoBaseline
            else
              var rate := baseline.value.passed as real / baseline.value.runs as real;
              var drop := rate - passed as real / runs as real;
              if rate > interval.high then Fail else if drop >= 0.2 then Warn else Pass;
          Ok(ScenarioVerdict(klass, passed, runs, baseline, Some(interval), verdict))
  }

  /** Both counts are given and make sense. */
  predicate Sensible(passed: Option<int>, runs: Option<int>) {
    passed.Some? && runs.Some? && 0 < runs.value && 0 <= passed.value <= runs.value
  }

  /** Every input has its answer: which are refused and how; a missing or senseless baseline gives
      "no baseline" unless a trial of a reliability scenario failed, which fails with any baseline;
      a reliability scenario with a baseline passes iff every trial did; and the report repeats its
      inputs, with the interval for a capability scenario only. */
  lemma {:induction false} PassNeedsBaseline(passed: int, runs: int, klass: string, basePassed: Option<int>, baseRuns: Option<int>, s: real)
    ensures var v, known := Judge(passed, runs, klass, basePassed, baseRuns, s), klass in {"reliability", "capability"};
      && (v == Err(UnknownClass) <==> !known)
      && (v == Err(RunsNotPositive) <==> known && runs < 1)
      && (v == Err(PassedOutOfRange) <==> known && runs >= 1 && (passed < 0 || passed > runs))
      && (v.Ok? <==> known && runs >= 1 && 0 <= passed <= runs)
      && (v.Ok? ==>
        && v.value.klass == klass && v.value.passed == passed && v.value.runs == runs
        && (v.value.baseline.Some? <==> Sensible(basePassed, baseRuns))
        && (v.value.baseline.Some? ==> v.value.baseline == Some(Baseline(basePassed.value, baseRuns.value)))
        && (v.value.interval.Some? <==> klass == "capability")
        && (v.value.interval.Some? ==> WilsonInterval(passed, runs, Z95, s) == Ok(v.value.interval.value))
        && (v.value.verdict == NoBaseline <==> !Sensible(basePassed, baseRuns) && !(klass == "reliability" && passed < runs))
        && (klass == "reliability" ==> (v.value.verdict == Fail <==> passed < runs))
        && (klass == "reliability" ==> (v.value.verdict == Pass <==> passed == runs && Sensible(basePassed, baseRuns))))
  {
    assert "capability"[0] != "reliability"[0];
  }

  /** How many more passes the baseline rate would have meant, over a common denominator. */
  function Shortfall(passed: int, runs: int, b: Baseline): int {
    b.passed * runs - passed * b.runs
  }

  /** The score test in whole numbers: no root, no division. */
  predicate WholeFail(passed: int, runs: int, b: Baseline) {
    var d := Shortfall(passed, runs, b);
    d > 0 && 625 * (d * d) > 2401 * (runs * (b.passed * (b.runs - b.passed)))
  }

  /** A drop of at least a fifth, in whole numbers. */
  predicate WholeWarn(passed: int, runs: int, b: Baseline) {
    5 * Shortfall(passed, runs, b) >= b.runs * runs
  }

  function WholeVerdict(passed: int, runs: int, b: Baseline): Verdict {
    if WholeFail(passed, runs, b) then Fail else if WholeWarn(passed, runs, b) then Warn else Pass
  }

  lemma {:induction false} Difference(k: real, n: real, b: real, m: real)
    requires n > 0.0 && m > 0.0
    ensures (b / m - k / n) * (n * m) == b * n - k * m
  {
    var x, y := b / m, k / n;
    assert x * m == b && y * n == k;
    assert (x - y) * (n * m) == (x * m) * n - (y * n) * m;
  }

  lemma {:induction false} SpreadCleared(b: real, m: real, n: real)
    requires m > 0.0
    ensures ((b / m) * (1.0 - b / m)) * (n * (m * m)) == n * (b * (m - b))
  {
    var x := b / m;
    assert x * m == b;
    assert (x * (1.0 - x)) * (n * (m * m)) == n * ((x * m) * (m - x * m));
  }

  lemma {:induction false} ScaleOrder(x: real, y: real, c: real)
    requires c > 0.0
    ensures x > y <==> x * c > y * c
  {
    if x > y {
      assert (x - y) * c > 0.0;
    } else {
      assert (y - x) * c >= 0.0;
    }
  }

  lemma {:induction false} ProductPositive(a: real, b: real)
    requires a > 0.0 && b > 0.0
    ensures a * b > 0.0
  {
  }

  /** The sign and the size of the drop, over a common denominator. */
  lemma {:induction false} DropCleared(k: real, n: real, b: real, m: real)
    requires n > 0.0 && m > 0.0
    ensures b / m > k / n <==> b * n - k * m > 0.0
    ensures b / m - k / n >= 0.2 <==> 5.0 * (b * n - k * m) >= n * m
  {
    var x := b / m - k / n;
    Difference(k, n, b, m);
    ProductPositive(n, m);
    ScaleOrder(x, 0.0, n * m);
    ScaleOrder(0.2, x, n * m);
  }

  /** The score test in reals is the score test in whole numbers. */
  lemma {:induction false} ScoreCleared(k: real, n: real, b: real, m: real)
    requires n > 0.0 && m > 0.0
    ensures var x, r, d := b / m - k / n, b / m, b * n - k * m;
      n * (x * x) > Z95 * Z95 * (r * (1.0 - r)) <==> 625.0 * (d * d) > 2401.0 * (n * (b * (m - b)))
  {
    var x, w := b / m - k / n, (b / m) * (1.0 - b / m);
    var c := CommonDenominator(n, m);
    Difference(k, n, b, m);
    SpreadCleared(b, m, n);
    Regroup(n, m, x);
    ScoreScaled(n * (x * x), w, c);
  }

  lemma {:induction false} CommonDenominator(n: real, m: real) returns (c: real)
    requires n > 0.0 && m > 0.0
    ensures c > 0.0 && c == n * (m * m)
  {
    c := n * m * m;
    ProductPositive(n, m);
    ProductPositive(n * m, m);
    assert (n * m) * m == n * (m * m);
  }

  lemma {:induction false} ScoreScaled(y: real, w: real, c: real)
    requires c > 0.0
    ensures y > Z95 * Z95 * w <==> 625.0 * (y * c) > 2401.0 * (w * c)
  {
    var z2 := Z95 * Z95;
    assert z2 == 2401.0 / 625.0;
    ScaleOrder(y, z2 * w, c);
    assert (z2 * w) * c == z2 * (w * c);
  }

  lemma {:induction false} Regroup(n: real, m: real, x: real)
    ensures (n * (x * x)) * (n * (m * m)) == (x * (n * m)) * (x * (n * m))
  {
  }

  lemma {:induction false} Embed(passed: int, runs: int, b: Baseline)
    ensures var d, c := Shortfall(passed, runs, b), runs * (b.passed * (b.runs - b.passed));
      var k, n, bp, m := passed as real, runs as real, b.passed as real, b.runs as real;
      && d as real == bp * n - k * m
      && (d * d) as real == (bp * n - k * m) * (bp * n - k * m)
      && c as real == n * (bp * (m - bp))
      && (b.runs * runs) as real == n * m
  {
  }

  ghost predicate Counts(passed: int, runs: int, b: Baseline) {
    0 <= passed <= runs && runs >= 1 && 0 <= b.passed <= b.runs && b.runs > 0
  }

  /** The baseline rate fails the real score test exactly when the counts fail the whole-number one. */
  lemma {:induction false} ScoreIsWhole(passed: int, runs: int, b: Baseline)
    requires runs >= 1 && b.runs > 0
    ensures var n, p, r := runs as real, passed as real / runs as real, b.passed as real / b.runs as real;
      r > p && n * ((r - p) * (r - p)) > Z95 * Z95 * (r * (1.0 - r)) <==> WholeFail(passed, runs, b)
  {
    var d, c := Shortfall(passed, runs, b), runs * (b.passed * (b.runs - b.passed));
    Embed(passed, runs, b);
    EmbedOrder(d, c);
    ScoreTest(passed as real, runs as real, b.passed as real, b.runs as real, d as real, (d * d) as real, c as real);
  }

  lemma {:induction false} ScoreTest(k: real, n: real, b: real, m: real, d: real, d2: real, c: real)
    requires n > 0.0 && m > 0.0 && d == b * n - k * m && d2 == (b * n - k * m) * (b * n - k * m) && c == n * (b * (m - b))
    ensures var r, p := b / m, k / n;
      r > p && n * ((r - p) * (r - p)) > Z95 * Z95 * (r * (1.0 - r)) <==> d > 0.0 && 625.0 * d2 > 2401.0 * c
  {
    DropCleared(k, n, b, m);
    ScoreCleared(k, n, b, m);
  }

  lemma {:induction false} EmbedOrder(d: int, c: int)
    ensures d > 0 <==> d as real > 0.0
    ensures 625 * (d * d) > 2401 * c <==> 625.0 * (d * d) as real > 2401.0 * c as real
  {
  }

  lemma {:induction false} DropIsWhole(passed: int, runs: int, b: Baseline)
    requires runs >= 1 && b.runs > 0
    ensures b.passed as real / b.runs as real - passed as real / runs as real >= 0.2 <==> WholeWarn(passed, runs, b)
  {
    DropCleared(passed as real, runs as real, b.passed as real, b.runs as real);
    Embed(passed, runs, b);
  }

  lemma {:induction false} AboveIsWhole(passed: int, runs: int, b: Baseline, s: real)
    requires Counts(passed, runs, b) && Root(s, Spread(passed as real / runs as real, runs as real, Z95))
    ensures 1.0 + Z95 * Z95 / runs as real > 0.0
    ensures b.passed as real / b.runs as real
        > Center(passed as real / runs as real, runs as real, Z95) + Margin(runs as real, Z95, s)
      <==> WholeFail(passed, runs, b)
  {
    Rate(passed, runs);
    Rate(b.passed, b.runs);
    AboveUpper(passed as real / runs as real, runs as real, Z95, s, b.passed as real / b.runs as real);
    ScoreIsWhole(passed, runs, b);
  }

  lemma {:induction false} UpperIsWhole(passed: int, runs: int, b: Baseline, s: real)
    requires Counts(passed, runs, b) && Root(s, Spread(passed as real / runs as real, runs as real, Z95))
    ensures WilsonInterval(passed, runs, Z95, s).Ok?
    ensures b.passed as real / b.runs as real > WilsonInterval(passed, runs, Z95, s).value.high <==> WholeFail(passed, runs, b)
  {
    IntervalContains(passed, runs, Z95, s);
    AboveIsWhole(passed, runs, b, s);
  }

  lemma {:induction false} JudgeUnfolds(passed: int, runs: int, b: Baseline, s: real)
    requires Counts(passed, runs, b)
    ensures WilsonInterval(passed, runs, Z95, s).Ok?
    ensures var v := Judge(passed, runs, "capability", Some(b.passed), Some(b.runs), s);
      var r := b.passed as real / b.runs as real;
      && v.Ok?
      && v.value.verdict == if r > WilsonInterval(passed, runs, Z95, s).value.high then Fail
        else if r - passed as real / runs as real >= 0.2 then Warn else Pass
  {
    assert "capability"[0] != "reliability"[0];
  }

  /** For every count and every sane baseline, the capability verdict is the whole-number one. */
  lemma {:induction false} JudgeWholeNumbers(passed: int, runs: int, b: Baseline, s: real)
    requires Counts(passed, runs, b) && Root(s, Spread(passed as real / runs as real, runs as real, Z95))
    ensures var v := Judge(passed, runs, "capability", Some(b.passed), Some(b.runs), s);
      v.Ok? && v.value.verdict == WholeVerdict(passed, runs, b)
  {
    UpperIsWhole(passed, runs, b, s);
    DropIsWhole(passed, runs, b);
    JudgeUnfolds(passed, runs, b, s);
  }

  function Severity(v: Verdict): nat {
    match v
    case Pass => 0
    case NoBaseline => 0
    case Warn => 1
    case Fail => 2
  }

  lemma {:induction false} WholeVerdictImproves(passed: int, more: int, runs: int, b: Baseline)
    requires 0 <= passed <= more <= runs && runs >= 1 && 0 <= b.passed <= b.runs && b.runs > 0
    ensures Severity(WholeVerdict(more, runs, b)) <= Severity(WholeVerdict(passed, runs, b))
  {
    var d, e := Shortfall(passed, runs, b), Shortfall(more, runs, b);
    ShortfallShrinks(passed, more, runs, b);
    if e > 0 {
      SquareGrows(e, d);
    }
  }

  lemma {:induction false} ShortfallShrinks(passed: int, more: int, runs: int, b: Baseline)
    requires passed <= more && b.runs > 0
    ensures Shortfall(more, runs, b) <= Shortfall(passed, runs, b)
  {
    assert (more - passed) * b.runs >= 0;
    assert more * b.runs == passed * b.runs + (more - passed) * b.runs;
  }

  lemma {:induction false} SquareGrows(e: int, d: int)
    requires 0 <= e <= d
    ensures e * e <= d * d
  {
    assert e * e <= e * d;
    assert e * d <= d * d;
  }

  /** With runs and baseline fixed, more passes never move a capability verdict toward fail. */
  lemma {:induction false} MorePassesNeverWorse(passed: int, more: int, runs: int, b: Baseline, s: real, t: real)
    requires 0 <= passed <= more <= runs && runs >= 1 && 0 <= b.passed <= b.runs && b.runs > 0
    requires Root(s, Spread(passed as real / runs as real, runs as real, Z95))
    requires Root(t, Spread(more as real / runs as real, runs as real, Z95))
    ensures Judge(passed, runs, "capability", Some(b.passed), Some(b.runs), s).Ok?
    ensures Judge(more, runs, "capability", Some(b.passed), Some(b.runs), t).Ok?
    ensures Severity(Judge(more, runs, "capability", Some(b.passed), Some(b.runs), t).value.verdict)
      <= Severity(Judge(passed, runs, "capability", Some(b.passed), Some(b.runs), s).value.verdict)
  {
    JudgeWholeNumbers(passed, runs, b, s);
    JudgeWholeNumbers(more, runs, b, t);
    WholeVerdictImproves(passed, more, runs, b);
  }

  /** Against a baseline that always passed, a capability scenario is judged as strictly as a reliability one. */
  lemma {:induction false} PerfectBaseline(passed: int, runs: int, baseRuns: int, s: real)
    requires 0 <= passed <= runs && runs >= 1 && baseRuns > 0
    requires Root(s, Spread(passed as real / runs as real, runs as real, Z95))
    ensures Judge(passed, runs, "capability", Some(baseRuns), Some(baseRuns), s).Ok?
    ensures Judge(passed, runs, "capability", Some(baseRuns), Some(baseRuns), s).value.verdict
      == Judge(passed, runs, "reliability", Some(baseRuns), Some(baseRuns), s).value.verdict
      == if passed < runs then Fail else Pass
  {
    JudgeWholeNumbers(passed, runs, Baseline(baseRuns, baseRuns), s);
    WholePerfect(passed, runs, baseRuns);
  }

  lemma {:induction false} WholePerfect(passed: int, runs: int, baseRuns: int)
    requires 0 <= passed <= runs && runs >= 1 && baseRuns > 0
    ensures WholeVerdict(passed, runs, Baseline(baseRuns, baseRuns)) == if passed < runs then Fail else Pass
  {
    var d := Shortfall(passed, runs, Baseline(baseRuns, baseRuns));
    assert d == (runs - passed) * baseRuns;
    assert runs * (baseRuns * (baseRuns - baseRuns)) == 0;
    if passed < runs {
      PositiveProduct(runs - passed, baseRuns);
      PositiveProduct(d, d);
    } else {
      PositiveProduct(baseRuns, runs);
    }
  }

  lemma {:induction false} PositiveProduct(a: int, b: int)
    requires a > 0 && b > 0
    ensures a * b > 0
  {
  }
}
