/**
 * The retirement calculation engine: rate lookup, compound growth, the present value of a
 * growing annuity (the corpus needed at retirement), the future-value-based monthly SIP,
 * the rounding policy, the plan assembler and the what-if variant.
 *
 * Money and rates are exact reals; powers have natural exponents, since every exponent the
 * engine uses is a horizon in whole years or months that is already known to be positive.
 */
module Calculations {
  import opened Wrappers
  import opened Powers
  import opened Text

  // ---------------------------------------------------------------------------
  // Records
  // ---------------------------------------------------------------------------

  /** The plan's inputs, with the defaults the record declares. */
  datatype RetirementInputs = RetirementInputs(
    currentAge: int,
    retirementAge: int,
    lifeExpectancy: int := 85,
    currentAnnualExpenses: real := 0.0,
    currentInvestments: real := 0.0,
    currentAnnualIncome: real := 0.0,
    riskProfile: string := "moderate",
    dependents: string := "self_spouse",
    inflationRate: real := 0.06)

  datatype RetirementResult = RetirementResult(
    // timeline
    currentAge: int,
    retirementAge: int,
    lifeExpectancy: int,
    yearsToRetirement: int,
    retirementDuration: int,
    // core outputs
    currentAnnualExpenses: real,
    futureAnnualExpenses: real,
    corpusRequired: real,
    futureInvestmentValue: real,
    corpusGap: real,
    monthlySavingsRequired: real,
    monthlySavingsRounded: real,
    // rates
    expectedReturnRate: real,
    inflationRate: real,
    riskProfile: string,
    // context
    currentAnnualIncome: real,
    dependents: string,
    incomeExpenseFlag: bool,
    assumptions: seq<string>)

  /** Python's `max(0, x)`. */
  function Max0(x: real): (m: real)
    ensures m >= 0.0 && m >= x
    ensures m == 0.0 || m == x
  {
    if x > 0.0 then x else 0.0
  }

  // ---------------------------------------------------------------------------
  // Return rate of a risk profile
  // ---------------------------------------------------------------------------

  const ReturnRates: map<string, real> :=
    map["conservative" := 0.08, "moderate" := 0.12, "balanced" := 0.12, "aggressive" := 0.15]

  /** The rate used for any profile the table does not name. */
  const DefaultReturnRate: real := 0.12

  /** The expected annual return of a risk profile, looked up case-insensitively. */
  function ReturnRate(riskProfile: string): (rate: real)
    ensures rate == 0.08 <==> Lower(riskProfile) == "conservative"
    ensures rate == 0.15 <==> Lower(riskProfile) == "aggressive"
    ensures rate == 0.12 <==> Lower(riskProfile) != "conservative" && Lower(riskProfile) != "aggressive"
    ensures rate in {0.08, 0.12, 0.15}
  {
    var key := Lower(riskProfile);
    if key in ReturnRates then ReturnRates[key] else DefaultReturnRate
  }

  /** Only the lower-cased profile matters. */
  lemma ReturnRateCaseInsensitive(riskProfile: string)
    ensures ReturnRate(Lower(riskProfile)) == ReturnRate(riskProfile)
  {
    LowerIdempotent(riskProfile);
  }

  // ---------------------------------------------------------------------------
  // Compound growth
  // ---------------------------------------------------------------------------

  /** `1 + rate`: the factor by which one period at `rate` multiplies a value. */
  function GrowthFactor(rate: real): real
  {
    1.0 + rate
  }

  /** `presentValue` compounded annually at `rate` for `years` years; no growth for a horizon <= 0. */
  function FutureValue(presentValue: real, rate: real, years: int): (fv: real)
    ensures years <= 0 ==> fv == presentValue
  {
    if years <= 0 then presentValue else presentValue * Pow(GrowthFactor(rate), years)
  }

  lemma {:induction false} PowAdd(x: real, a: nat, b: nat)
    ensures Pow(x, a + b) == Pow(x, a) * Pow(x, b)
  {
    if b > 0 {
      PowAdd(x, a, b - 1);
      assert Pow(x, a + b) == x * Pow(x, a + b - 1);
    }
  }

  /** Compounding for `a` years and then for `b` more is compounding for `a + b` years. */
  lemma FutureValueSplit(presentValue: real, rate: real, a: nat, b: nat)
    ensures FutureValue(FutureValue(presentValue, rate, a), rate, b)
         == FutureValue(presentValue, rate, a + b)
  {
    PowAdd(GrowthFactor(rate), a, b);
    var x, y := Pow(GrowthFactor(rate), a), Pow(GrowthFactor(rate), b);
    assert (presentValue * x) * y == presentValue * (x * y);
  }

  /** Each year multiplies the value by `1 + rate`. */
  lemma FutureValueStep(presentValue: real, rate: real, years: nat)
    ensures FutureValue(presentValue, rate, years + 1) == FutureValue(presentValue, rate, years) * GrowthFactor(rate)
  {
    FutureValueSplit(presentValue, rate, years, 1);
    assert Pow(GrowthFactor(rate), 1) == GrowthFactor(rate);
  }

  lemma FutureValueNonNegative(presentValue: real, rate: real, years: int)
    requires presentValue >= 0.0 && rate > -1.0
    ensures FutureValue(presentValue, rate, years) >= 0.0
  {
    if years > 0 {
      PowPositive(GrowthFactor(rate), years);
    }
  }

  // ---------------------------------------------------------------------------
  // Corpus required: present value of a growing annuity
  // ---------------------------------------------------------------------------

  /** `1 / (1 + r)`: what one unit due in a year is worth today at the rate `r`. */
  function DiscountFactor(r: real): (v: real)
    requires r != -1.0
    ensures v * GrowthFactor(r) == 1.0
    ensures r > -1.0 ==> v > 0.0
  {
    DivMul(1.0, GrowthFactor(r));
    1.0 / GrowthFactor(r)
  }

  lemma GrowthRatioIsProduct(r: real, g: real)
    requires r != -1.0
    ensures GrowthFactor(g) / GrowthFactor(r) == GrowthFactor(g) * DiscountFactor(r)
  {
    assert GrowthFactor(g) * DiscountFactor(r) * GrowthFactor(r)
        == GrowthFactor(g) * (DiscountFactor(r) * GrowthFactor(r));
    DivUnique(GrowthFactor(g) * DiscountFactor(r), GrowthFactor(g), GrowthFactor(r));
  }

  /** `(1 + g) / (1 + r)`: the ratio of consecutive discounted payments. */
  function GrowthRatio(r: real, g: real): real
    requires r != -1.0
  {
    GrowthFactor(g) / GrowthFactor(r)
  }

  /** `r - g`: the denominator of the closed form. */
  function RateGap(r: real, g: real): real { r - g }

  /** `1 - (1 + g) / (1 + r) == (r - g) / (1 + r)`. */
  lemma OneMinusGrowthRatio(r: real, g: real)
    requires r != -1.0
    ensures OneMinus(GrowthRatio(r, g)) == RateGap(r, g) * DiscountFactor(r)
  {
    GrowthRatioIsProduct(r, g);
    assert 1.0 - GrowthFactor(g) * DiscountFactor(r)
        == DiscountFactor(r) * GrowthFactor(r) - GrowthFactor(g) * DiscountFactor(r);
  }

  /** The k-th payment, `pmt * (1+g)^(k-1)`, discounted over `k` years at `r`. */
  function DiscountedPayment(pmt: real, r: real, g: real, k: nat): real
    requires r != -1.0 && k >= 1
  {
    pmt * Pow(GrowthFactor(g), k - 1) * Pow(DiscountFactor(r), k)
  }

  /**
   * The present value, discounted at `r`, of `n` yearly payments of which the first is `pmt`
   * and each later one `1 + g` times the previous one.
   */
  function GrowingAnnuityValue(pmt: real, r: real, g: real, n: nat): real
    requires r != -1.0
  {
    if n == 0 then 0.0 else GrowingAnnuityValue(pmt, r, g, n - 1) + DiscountedPayment(pmt, r, g, n)
  }

  lemma GeometricTermValues(pmt: real, v: real, a: real, b: real, vk: real, qk: real)
    requires vk == v * b && qk == a * b
    ensures pmt * a * vk == pmt * v * qk
  {
    assert pmt * a * (v * b) == pmt * v * (a * b);
  }

  /** The discounted payments form a geometric sequence with ratio `(1 + g) / (1 + r)`. */
  lemma DiscountedPaymentGeometric(pmt: real, r: real, g: real, k: nat)
    requires r != -1.0 && k >= 1
    ensures DiscountedPayment(pmt, r, g, k) == pmt * DiscountFactor(r) * Pow(GrowthRatio(r, g), k - 1)
  {
    GrowthRatioIsProduct(r, g);
    PowMul(GrowthFactor(g), DiscountFactor(r), GrowthRatio(r, g), k - 1);
    GeometricTermValues(pmt, DiscountFactor(r), Pow(GrowthFactor(g), k - 1), Pow(DiscountFactor(r), k - 1),
                        Pow(DiscountFactor(r), k), Pow(GrowthRatio(r, g), k - 1));
  }

  /** The same term, with the scale `pmt / (1 + r)` and the ratio named. */
  lemma DiscountedPaymentScaled(pmt: real, r: real, g: real, d: real, q: real, k: nat)
    requires r != -1.0 && k >= 1
    requires d == pmt * DiscountFactor(r) && q == GrowthRatio(r, g)
    ensures DiscountedPayment(pmt, r, g, k) == d * Pow(q, k - 1)
  {
    DiscountedPaymentGeometric(pmt, r, g, k);
  }

  /** A sum of terms that each equal `d * q^(k-1)` is `d` times the geometric series. */
  lemma {:induction false} GrowingAnnuitySumsTerms(pmt: real, r: real, g: real, d: real, q: real, n: nat)
    requires r != -1.0
    requires forall k :: 1 <= k <= n ==> DiscountedPayment(pmt, r, g, k) == d * Pow(q, k - 1)
    ensures GrowingAnnuityValue(pmt, r, g, n) == d * GeometricSum(q, n)
  {
    if n > 0 {
      GrowingAnnuitySumsTerms(pmt, r, g, d, q, n - 1);
      Distribute(d, GeometricSum(q, n - 1), Pow(q, n - 1), GeometricSum(q, n));
    }
  }

  /** The discounted payments form a geometric series with ratio `(1+g)/(1+r)`. */
  lemma DiscountedPaymentsGeometric(pmt: real, r: real, g: real, d: real, q: real, n: nat)
    requires r != -1.0
    requires d == pmt * DiscountFactor(r) && q == GrowthRatio(r, g)
    ensures forall k :: 1 <= k <= n ==> DiscountedPayment(pmt, r, g, k) == d * Pow(q, k - 1)
  {
    forall k | 1 <= k <= n
      ensures DiscountedPayment(pmt, r, g, k) == d * Pow(q, k - 1)
    {
      DiscountedPaymentScaled(pmt, r, g, d, q, k);
    }
  }

  /** The growing annuity is the geometric series `d * (1 + q + ... + q^(n-1))`. */
  lemma GrowingAnnuityGeometric(pmt: real, r: real, g: real, d: real, q: real, n: nat)
    requires r != -1.0
    requires d == pmt * DiscountFactor(r) && q == GrowthRatio(r, g)
    ensures GrowingAnnuityValue(pmt, r, g, n) == d * GeometricSum(q, n)
  {
    DiscountedPaymentsGeometric(pmt, r, g, d, q, n);
    GrowingAnnuitySumsTerms(pmt, r, g, d, q, n);
  }

  /** Multiplying the value by `1 - q` telescopes the series: `d * (1 - q^n)` remains. */
  lemma GrowingAnnuityTelescopes(pmt: real, r: real, g: real, d: real, q: real, n: nat)
    requires r != -1.0
    requires GrowingAnnuityValue(pmt, r, g, n) == d * GeometricSum(q, n)
    ensures GrowingAnnuityValue(pmt, r, g, n) * OneMinus(q) == d * OneMinus(Pow(q, n))
  {
    GeometricSumClosedForm(q, n);
    ScaledProduct(GrowingAnnuityValue(pmt, r, g, n), d, GeometricSum(q, n), q, Pow(q, n));
  }

  lemma ScaledProduct(s: real, d: real, a: real, q: real, qn: real)
    requires s == d * a && a * OneMinus(q) == OneMinus(qn)
    ensures s * OneMinus(q) == d * OneMinus(qn)
  {
    assert s * OneMinus(q) == d * (a * OneMinus(q));
  }

  /** `pmt * (1 - ((1+g)/(1+r))^n) / (r - g)`: the closed form the engine uses for distinct rates. */
  function AnnuityFormula(pmt: real, r: real, g: real, n: nat): (f: real)
    requires r != -1.0 && r != g
    ensures f * RateGap(r, g) == pmt * OneMinus(Pow(GrowthRatio(r, g), n))
  {
    DivMul(pmt * OneMinus(Pow(GrowthRatio(r, g), n)), RateGap(r, g));
    pmt * OneMinus(Pow(GrowthRatio(r, g), n)) / RateGap(r, g)
  }

  /** `pmt / (1 + r)`: the first payment's present value, the scale of the geometric series. */
  function DiscountedFirstPayment(pmt: real, r: real): real
    requires r != -1.0
  {
    pmt * DiscountFactor(r)
  }

  lemma ClosedFormValues(s: real, pmt: real, v: real, d: real, gap: real, c: real, cn: real, f: real)
    requires v != 0.0 && gap != 0.0 && c == gap * v && d == pmt * v
    requires s * c == d * cn && f * gap == pmt * cn
    ensures s == f
  {
    NonZeroProduct(gap, v);
    calc {
      s * (gap * v);
      (s * c);
      d * cn;
      (pmt * v) * cn;
      (pmt * cn) * v;
      (f * gap) * v;
      f * (gap * v);
    }
    CancelFactor(s, f, gap * v);
  }

  /** For distinct rates the closed form is the growing annuity's value. */
  lemma GrowingAnnuityClosedForm(pmt: real, r: real, g: real, n: nat)
    requires r != -1.0 && r != g
    ensures GrowingAnnuityValue(pmt, r, g, n) == AnnuityFormula(pmt, r, g, n)
  {
    GrowingAnnuityGeometric(pmt, r, g, DiscountedFirstPayment(pmt, r), GrowthRatio(r, g), n);
    GrowingAnnuityTelescopes(pmt, r, g, DiscountedFirstPayment(pmt, r), GrowthRatio(r, g), n);
    OneMinusGrowthRatio(r, g);
    ClosedFormValues(GrowingAnnuityValue(pmt, r, g, n), pmt, DiscountFactor(r), DiscountedFirstPayment(pmt, r),
                     RateGap(r, g), OneMinus(GrowthRatio(r, g)), OneMinus(Pow(GrowthRatio(r, g), n)),
                     AnnuityFormula(pmt, r, g, n));
  }

  /** With equal rates every payment is worth `pmt / (1 + r)` today. */
  lemma GrowingAnnuityLevel(pmt: real, r: real, n: nat)
    requires r != -1.0
    ensures GrowingAnnuityValue(pmt, r, r, n) == DiscountedFirstPayment(pmt, r) * n as real
  {
    DivUnique(1.0, GrowthFactor(r), GrowthFactor(r));
    GrowingAnnuityGeometric(pmt, r, r, DiscountedFirstPayment(pmt, r), 1.0, n);
    GeometricSumOfOne(n);
  }

  /** `pmt * n / (1 + r)`: the formula the engine uses when the two rates (nearly) coincide. */
  function EqualRatesFormula(pmt: real, r: real, n: int): real
    requires r != -1.0
  {
    pmt * n as real / GrowthFactor(r)
  }

  lemma EqualRatesValues(s: real, pmt: real, v: real, c: real, d: real, m: real, f: real)
    requires d != 0.0 && v * d == 1.0 && c == pmt * v && s == c * m && f == pmt * m / d
    ensures s == f
  {
    assert s * d == pmt * m * (v * d);
    DivUnique(s, pmt * m, d);
  }

  /** With equal growth and discount rates the engine's formula is the growing annuity's value. */
  lemma GrowingAnnuityEqualRates(pmt: real, r: real, n: nat)
    requires r != -1.0
    ensures GrowingAnnuityValue(pmt, r, r, n) == EqualRatesFormula(pmt, r, n)
  {
    GrowingAnnuityLevel(pmt, r, n);
    EqualRatesValues(GrowingAnnuityValue(pmt, r, r, n), pmt, DiscountFactor(r), DiscountedFirstPayment(pmt, r),
                     GrowthFactor(r), n as real,
                     EqualRatesFormula(pmt, r, n));
  }

  lemma {:induction false} GrowingAnnuityNonNegative(pmt: real, r: real, g: real, n: nat)
    requires pmt >= 0.0 && r > -1.0 && g >= -1.0
    ensures GrowingAnnuityValue(pmt, r, g, n) >= 0.0
  {
    if n > 0 {
      GrowingAnnuityNonNegative(pmt, r, g, n - 1);
      var v := DiscountFactor(r);
      PowNonNegative(GrowthFactor(g), n - 1);
      PowPositive(v, n);
      var a, b := Pow(GrowthFactor(g), n - 1), Pow(v, n);
      assert pmt * a >= 0.0;
      assert pmt * a * b >= 0.0;
    }
  }

  /** Rates closer than this are treated as equal. */
  const NearEqualRates: real := 0.0001

  /**
   * The corpus needed at retirement to pay `annualExpenseAtRetirement` in the first retirement
   * year, growing at `inflationRate`, for `retirementDuration` years, discounted at `returnRate`.
   */
  function CorpusForRetirement(annualExpenseAtRetirement: real, returnRate: real,
                               inflationRate: real, retirementDuration: int): (corpus: real)
    requires retirementDuration <= 0 || returnRate != -1.0
    ensures corpus >= 0.0
    ensures retirementDuration <= 0 ==> corpus == 0.0
  {
    if retirementDuration <= 0 then 0.0
    else
      var g, r, n, pmt := inflationRate, returnRate, retirementDuration, annualExpenseAtRetirement;
      var c := if Abs(r - g) < NearEqualRates then EqualRatesFormula(pmt, r, n)
               else AnnuityFormula(pmt, r, g, n);
      Max0(c)
  }

  /** Rates at least 0.0001 apart use the closed form. */
  lemma CorpusDistinctRates(pmt: real, r: real, g: real, n: int)
    requires n > 0 && r != -1.0 && Abs(r - g) >= NearEqualRates
    ensures CorpusForRetirement(pmt, r, g, n) == Max0(AnnuityFormula(pmt, r, g, n))
  {
  }

  /**
   * Whenever the formula is not the near-equal approximation (the rates are exactly equal, or
   * at least 0.0001 apart), the corpus is the growing annuity's value, floored at 0.
   */
  lemma CorpusIsGrowingAnnuity(pmt: real, r: real, g: real, n: nat)
    requires n > 0 && r != -1.0
    requires r == g || Abs(r - g) >= NearEqualRates
    ensures CorpusForRetirement(pmt, r, g, n) == Max0(GrowingAnnuityValue(pmt, r, g, n))
  {
    if r == g {
      GrowingAnnuityEqualRates(pmt, r, n);
    } else {
      CorpusDistinctRates(pmt, r, g, n);
      GrowingAnnuityClosedForm(pmt, r, g, n);
    }
  }

  // ---------------------------------------------------------------------------
  // Monthly SIP
  // ---------------------------------------------------------------------------

  /** The balance after `months` contributions of `pmt` at month end, growing at `monthlyRate`. */
  function SipBalance(pmt: real, monthlyRate: real, months: nat): real
  {
    if months == 0 then 0.0 else SipBalance(pmt, monthlyRate, months - 1) * GrowthFactor(monthlyRate) + pmt
  }

  lemma {:induction false} SipBalanceClosedForm(pmt: real, i: real, m: nat)
    ensures SipBalance(pmt, i, m) * i == pmt * (Pow(GrowthFactor(i), m) - 1.0)
  {
    if m > 0 {
      SipBalanceClosedForm(pmt, i, m - 1);
      SipStep(SipBalance(pmt, i, m), SipBalance(pmt, i, m - 1), GrowthFactor(i), i, pmt,
              Pow(GrowthFactor(i), m - 1), Pow(GrowthFactor(i), m));
    }
  }

  lemma SipStep(s: real, b: real, gf: real, i: real, pmt: real, p: real, pn: real)
    requires gf == 1.0 + i && b * i == pmt * (p - 1.0) && s == b * gf + pmt && pn == gf * p
    ensures s * i == pmt * (pn - 1.0)
  {
    assert s * i == (b * i) * gf + pmt * i;
  }

  lemma {:induction false} SipBalanceZeroRate(pmt: real, m: nat)
    ensures SipBalance(pmt, 0.0, m) == pmt * m as real
  {
    if m > 0 {
      SipBalanceZeroRate(pmt, m - 1);
    }
  }

  /** For a non-zero monthly rate other than -2, `(1 + i)^m - 1` is not zero. */
  lemma SipDenominatorNonZero(i: real, m: nat)
    requires i != 0.0 && i != -2.0 && m >= 1
    ensures Pow(GrowthFactor(i), m) != 1.0
  {
    if Pow(GrowthFactor(i), m) == 1.0 {
      PowEqualsOne(GrowthFactor(i), m);
    }
  }

  /**
   * The constant month-end contribution that grows to `futureValue` in `years` years at the
   * annual rate `annualRate`, compounded monthly; 0 when nothing needs to be saved or there
   * is no time. The one rate at which the formula divides by zero is a monthly rate of -2,
   * where (1 + i)^m is 1 for every even number of months m.
   */
  function MonthlySip(futureValue: real, annualRate: real, years: int): (pmt: real)
    requires years <= 0 || futureValue <= 0.0 || annualRate != -24.0
    ensures years <= 0 || futureValue <= 0.0 ==> pmt == 0.0
  {
    if years <= 0 then 0.0
    else if futureValue <= 0.0 then 0.0
    else
      var monthlyRate := annualRate / 12.0;
      var months := years * 12;
      if monthlyRate == 0.0 then futureValue / months as real
      else
        SipDenominatorNonZero(monthlyRate, months);
        futureValue * (monthlyRate / (Pow(GrowthFactor(monthlyRate), months) - 1.0))
  }

  /** Contributing the SIP at the end of every month reaches exactly the target. */
  lemma MonthlySipReachesTarget(futureValue: real, annualRate: real, years: int)
    requires years > 0 && futureValue > 0.0 && annualRate != -24.0
    ensures SipBalance(MonthlySip(futureValue, annualRate, years), annualRate / 12.0, years * 12)
         == futureValue
  {
    var i, m := annualRate / 12.0, years * 12;
    var pmt := MonthlySip(futureValue, annualRate, years);
    if i == 0.0 {
      SipBalanceZeroRate(pmt, m);
      assert pmt * m as real == futureValue;
    } else {
      SipBalanceClosedForm(pmt, i, m);
      SipDenominatorNonZero(i, m);
      SipValues(SipBalance(pmt, i, m), pmt, futureValue, i, Pow(GrowthFactor(i), m));
    }
  }

  lemma SipValues(b: real, pmt: real, fv: real, i: real, p: real)
    requires i != 0.0 && p != 1.0
    requires b * i == pmt * (p - 1.0) && pmt == fv * (i / (p - 1.0))
    ensures b == fv
  {
    DivMul(i, p - 1.0);
    assert pmt * (p - 1.0) == fv * i;
  }

  /** Above a monthly rate of -100% the SIP is positive whenever there is something to save. */
  lemma MonthlySipPositive(futureValue: real, annualRate: real, years: int)
    requires years > 0 && futureValue > 0.0 && annualRate > -12.0
    ensures MonthlySip(futureValue, annualRate, years) > 0.0
  {
    var i, m := annualRate / 12.0, years * 12;
    if i > 0.0 {
      PowAboveOne(GrowthFactor(i), m);
    } else if i < 0.0 {
      PowBelowOne(GrowthFactor(i), m);
      var d := Pow(GrowthFactor(i), m) - 1.0;
      assert i / d > 0.0;
    }
  }

  lemma MonthlySipNonNegative(futureValue: real, annualRate: real, years: int)
    requires annualRate > -12.0
    ensures MonthlySip(futureValue, annualRate, years) >= 0.0
  {
    if years > 0 && futureValue > 0.0 {
      MonthlySipPositive(futureValue, annualRate, years);
    }
  }

  // ---------------------------------------------------------------------------
  // Rounding
  // ---------------------------------------------------------------------------

  /** Python's `round(x)`: the nearest integer, ties to the even one. */
  function RoundHalfEven(x: real): (n: int)
    ensures Abs(n as real - x) <= 0.5
    ensures Abs(n as real - x) == 0.5 ==> n % 2 == 0
  {
    var f := x.Floor;
    var d := x - f as real;
    if d < 0.5 then f
    else if d > 0.5 then f + 1
    else if f % 2 == 0 then f
    else f + 1
  }

  /** No integer is nearer to `x` than the rounded value. */
  lemma RoundHalfEvenIsNearest(x: real, k: int)
    ensures Abs(RoundHalfEven(x) as real - x) <= Abs(k as real - x)
  {
    var n := RoundHalfEven(x);
    if k > n {
      assert k as real - x >= (n + 1) as real - x >= 0.5;
    } else if k < n {
      assert x - k as real >= x - (n - 1) as real >= 0.5;
    }
  }

  function Times(k: int, unit: int): int { k * unit }

  /** `x` is an integer multiple of `unit`. */
  ghost predicate IsMultipleOf(x: real, unit: int)
  {
    exists k: int :: x == Times(k, unit) as real
  }

  /** Amounts above this are rounded to thousands. */
  const LargeAmount: real := 50000.0

  /** The rounding unit for `amount`. */
  function CleanUnit(amount: real, toNearest: int): int
  {
    if amount > LargeAmount then 1000 else toNearest
  }

  /**
   * Scaling back: with `e == nr - x` and `p == nr * u - amount`, where `x == amount / u`, the
   * distance `p` is `u` times the distance `e`.
   */
  lemma UnscaleDistance(amount: real, u: real, x: real, nr: real, prod: real, e: real, p: real)
    requires u > 0.0 && x == amount / u && prod == nr * u
    requires e == nr - x && p == prod - amount
    ensures Abs(p) == u * Abs(e)
    ensures Abs(e) <= 0.5 ==> Abs(p) <= u / 2.0
    ensures Abs(p) == u / 2.0 ==> Abs(e) == 0.5
    ensures amount > 0.0 ==> x > 0.0
  {
    DivMul(amount, u);
    assert p == u * e;
    AbsScale(u, e, p);
    var a := Abs(e);
    assert Abs(p) == u * a;
    ScaledHalf(u, a);
  }

  /** With `u > 0`, `u * a` is at most half of `u` when `a` is at most a half, and is half of `u` only at a half. */
  lemma ScaledHalf(u: real, a: real)
    requires u > 0.0
    ensures a <= 0.5 ==> u * a <= u / 2.0
    ensures u * a == u / 2.0 ==> a == 0.5
  {
    assert u / 2.0 == u * 0.5;
    if a <= 0.5 {
      assert u * a <= u * 0.5;
    }
    if u * a == u / 2.0 {
      assert a * u == 0.5 * u;
      CancelFactor(a, 0.5, u);
    }
  }

  /** Rounding `amount / unit` to the integer `n` puts `n * unit` within half a unit of `amount`. */
  lemma ScaledRounding(amount: real, unit: int, n: int)
    requires unit != 0 && n == RoundHalfEven(amount / unit as real)
    ensures IsMultipleOf((n * unit) as real, unit)
    ensures unit > 0 ==> Abs((n * unit) as real - amount) <= unit as real / 2.0
    ensures unit > 0 && amount > 0.0 ==> n >= 0
    ensures unit > 0 && Abs((n * unit) as real - amount) == unit as real / 2.0 ==> n % 2 == 0
  {
    assert (n * unit) as real == Times(n, unit) as real;
    if unit > 0 {
      IntMulAsReal(n, unit);
      UnscaleDistance(amount, unit as real, amount / unit as real, n as real, (n * unit) as real,
                      n as real - amount / unit as real, (n * unit) as real - amount);
    }
  }

  /** Rounds an amount to a human-readable figure: nearest `toNearest`, or nearest 1000 above 50000. */
  function RoundToCleanFigure(amount: real, toNearest: int := 500): (rounded: real)
    requires amount <= 0.0 || amount > LargeAmount || toNearest != 0
    ensures amount <= 0.0 ==> rounded == 0.0
    ensures amount > 0.0 ==> IsMultipleOf(rounded, CleanUnit(amount, toNearest))
    ensures amount > 0.0 && CleanUnit(amount, toNearest) > 0 ==>
              rounded >= 0.0 && Abs(rounded - amount) <= CleanUnit(amount, toNearest) as real / 2.0
  {
    if amount <= 0.0 then 0.0
    else
      var unit := CleanUnit(amount, toNearest);
      var n := RoundHalfEven(amount / unit as real);
      ScaledRounding(amount, unit, n);
      (n * unit) as real
  }

  /**
   * With the default unit the rounded figure is always a multiple of 500, and a multiple of
   * 1000 whenever it exceeds 50000.
   */
  lemma CleanFigureUnits(amount: real)
    ensures IsMultipleOf(RoundToCleanFigure(amount), 500)
    ensures RoundToCleanFigure(amount) > LargeAmount ==> IsMultipleOf(RoundToCleanFigure(amount), 1000)
  {
    var r := RoundToCleanFigure(amount);
    if amount <= 0.0 {
      assert r == Times(0, 500) as real;
    } else if amount > LargeAmount {
      var k :| r == Times(k, 1000) as real;
      assert r == Times(2 * k, 500) as real;
    } else {
      var n := RoundHalfEven(amount / 500.0);
      assert amount / 500.0 <= 100.0;
      assert n <= 100;
      assert r == Times(n, 500) as real;
    }
  }

  lemma EvenTimes(k: int, unit: int)
    ensures (2 * k) * unit == Times(k, 2 * unit)
  {
  }

  /** A tie is broken towards an even multiple of the unit. */
  lemma CleanFigureTieIsEven(amount: real, toNearest: int)
    requires amount > 0.0 && CleanUnit(amount, toNearest) > 0
    requires Abs(RoundToCleanFigure(amount, toNearest) - amount) == CleanUnit(amount, toNearest) as real / 2.0
    ensures IsMultipleOf(RoundToCleanFigure(amount, toNearest), 2 * CleanUnit(amount, toNearest))
  {
    var unit := CleanUnit(amount, toNearest);
    var n := RoundHalfEven(amount / unit as real);
    ScaledRounding(amount, unit, n);
    var k := n / 2;
    assert n == 2 * k;
    EvenTimes(k, unit);
    assert RoundToCleanFigure(amount, toNearest) == Times(k, 2 * unit) as real;
  }

  // ---------------------------------------------------------------------------
  // Currency tiers of the display format
  // ---------------------------------------------------------------------------

  datatype CurrencyTier = Crore | Lakh | Plain

  /** Which notation the currency format uses: crores from 1e7, lakhs from 1e5, else plain. */
  function CurrencyTierOf(amount: real): (tier: CurrencyTier)
    ensures tier == Crore <==> amount >= 10000000.0
    ensures tier == Lakh <==> 100000.0 <= amount < 10000000.0
    ensures tier == Plain <==> amount < 100000.0
  {
    if amount >= 10000000.0 then Crore
    else if amount >= 100000.0 then Lakh
    else Plain
  }

  // ---------------------------------------------------------------------------
  // Plan assembly
  // ---------------------------------------------------------------------------

  /**
   * `f"{rate * 100:.0f}"`: the digits of the rounded percentage, after a minus sign whenever the
   * rate is negative, even one that rounds to zero ("-0").
   */
  function PercentText(rate: real): (t: string)
    ensures |t| >= 1
    ensures t[0] == '-' <==> rate < 0.0
    ensures rate >= 0.0 ==> AllDigits(t) && DecimalValue(t) == RoundHalfEven(rate * 100.0)
    ensures rate < 0.0 ==> AllDigits(t[1..]) && DecimalValue(t[1..]) == -RoundHalfEven(rate * 100.0)
  {
    var n := RoundHalfEven(rate * 100.0);
    if rate < 0.0 then
      NatToStringRoundTrip(-n);
      assert ("-" + NatToString(-n))[1..] == NatToString(-n);
      "-" + NatToString(-n)
    else
      NatToStringRoundTrip(n);
      NatToString(n)
  }

  /** A negative rate that rounds to zero percent keeps its sign, as `.0f` does. */
  lemma PercentTextNegativeZero(rate: real)
    requires -0.005 <= rate < 0.0
    ensures PercentText(rate) == "-0"
  {
    assert RoundHalfEven(rate * 100.0) == 0;
    assert NatToString(0) == "0";
  }

  const FixedAssumptions: seq<string> := [
    "Constant monthly SIP (no step-ups)",
    "No tax implications considered",
    "No product or fund recommendations included",
    "Figures are planning-level estimates, not precise forecasts"
  ]

  function Assumptions(inputs: RetirementInputs, expectedReturn: real): (a: seq<string>)
    ensures |a| == 8 && a[4..] == FixedAssumptions
  {
    [
      "Inflation rate: " + PercentText(inputs.inflationRate) + "% per annum (locked)",
      "Expected investment return: " + PercentText(expectedReturn) + "% per annum ("
        + inputs.riskProfile + " profile)",
      "Life expectancy: " + IntToString(inputs.lifeExpectancy) + " years",
      "Same return rate (" + PercentText(expectedReturn) + "%) applied pre- and post-retirement"
    ] + FixedAssumptions
  }

  /** Expenses exceed a stated (positive) income. Advisory only. */
  predicate IncomeExpenseFlag(income: real, expenses: real)
    ensures IncomeExpenseFlag(income, expenses) ==> expenses > income > 0.0
    ensures income <= 0.0 ==> !IncomeExpenseFlag(income, expenses)
    ensures expenses <= income ==> !IncomeExpenseFlag(income, expenses)
  {
    income > 0.0 && expenses > income
  }

  /** The retirement plan for `inputs`. */
  function CalculateRetirementPlan(inputs: RetirementInputs): (result: RetirementResult)
    ensures result.currentAge == inputs.currentAge && result.retirementAge == inputs.retirementAge
    ensures result.lifeExpectancy == inputs.lifeExpectancy
    ensures result.currentAnnualExpenses == inputs.currentAnnualExpenses
    ensures result.currentAnnualIncome == inputs.currentAnnualIncome
    ensures result.riskProfile == inputs.riskProfile && result.dependents == inputs.dependents
    ensures result.inflationRate == inputs.inflationRate
    ensures result.yearsToRetirement == inputs.retirementAge - inputs.currentAge
    ensures result.retirementDuration == inputs.lifeExpectancy - inputs.retirementAge
    ensures result.expectedReturnRate == ReturnRate(inputs.riskProfile)
    ensures result.futureAnnualExpenses
         == FutureValue(inputs.currentAnnualExpenses, inputs.inflationRate, result.yearsToRetirement)
    ensures result.futureInvestmentValue
         == FutureValue(inputs.currentInvestments, result.expectedReturnRate, result.yearsToRetirement)
    ensures result.corpusRequired
         == CorpusForRetirement(result.futureAnnualExpenses, result.expectedReturnRate,
                                inputs.inflationRate, result.retirementDuration)
    ensures result.corpusRequired >= 0.0
    ensures result.retirementDuration <= 0 ==> result.corpusRequired == 0.0
    ensures result.corpusGap == Max0(result.corpusRequired - result.futureInvestmentValue)
    ensures result.corpusGap >= 0.0
    ensures result.monthlySavingsRequired
         == MonthlySip(result.corpusGap, result.expectedReturnRate, result.yearsToRetirement)
    ensures result.monthlySavingsRequired >= 0.0
    ensures result.yearsToRetirement <= 0 ==> result.monthlySavingsRequired == 0.0
    ensures result.monthlySavingsRounded == RoundToCleanFigure(result.monthlySavingsRequired)
    ensures result.monthlySavingsRounded >= 0.0
    ensures IsMultipleOf(result.monthlySavingsRounded, 500)
    ensures result.monthlySavingsRounded > LargeAmount ==> IsMultipleOf(result.monthlySavingsRounded, 1000)
    ensures result.incomeExpenseFlag <==> inputs.currentAnnualIncome > 0.0
                                          && inputs.currentAnnualExpenses > inputs.currentAnnualIncome
    ensures result.assumptions == Assumptions(inputs, result.expectedReturnRate)
  {
    var yearsToRetirement := inputs.retirementAge - inputs.currentAge;
    var retirementDuration := inputs.lifeExpectancy - inputs.retirementAge;
    var expectedReturn := ReturnRate(inputs.riskProfile);
    var futureAnnualExpenses := FutureValue(inputs.currentAnnualExpenses, inputs.inflationRate, yearsToRetirement);
    var corpusRequired := CorpusForRetirement(futureAnnualExpenses, expectedReturn, inputs.inflationRate, retirementDuration);
    var futureInvestmentValue := FutureValue(inputs.currentInvestments, expectedReturn, yearsToRetirement);
    var corpusGap := Max0(corpusRequired - futureInvestmentValue);
    var monthlySavings := MonthlySip(corpusGap, expectedReturn, yearsToRetirement);
    var monthlySavingsRounded := RoundToCleanFigure(monthlySavings);
    MonthlySipNonNegative(corpusGap, expectedReturn, yearsToRetirement);
    CleanFigureUnits(monthlySavings);
    RetirementResult(
      currentAge := inputs.currentAge,
      retirementAge := inputs.retirementAge,
      lifeExpectancy := inputs.lifeExpectancy,
      yearsToRetirement := yearsToRetirement,
      retirementDuration := retirementDuration,
      currentAnnualExpenses := inputs.currentAnnualExpenses,
      futureAnnualExpenses := futureAnnualExpenses,
      corpusRequired := corpusRequired,
      futureInvestmentValue := futureInvestmentValue,
      corpusGap := corpusGap,
      monthlySavingsRequired := monthlySavings,
      monthlySavingsRounded := monthlySavingsRounded,
      expectedReturnRate := expectedReturn,
      inflationRate := inputs.inflationRate,
      riskProfile := inputs.riskProfile,
      currentAnnualIncome := inputs.currentAnnualIncome,
      dependents := inputs.dependents,
      incomeExpenseFlag := IncomeExpenseFlag(inputs.currentAnnualIncome, inputs.currentAnnualExpenses),
      assumptions := Assumptions(inputs, expectedReturn))
  }

  /** A non-negative gap is closed exactly by its SIP, paid at every month end for the given years. */
  lemma SipClosesGap(gap: real, annualRate: real, years: int)
    requires years > 0 && gap >= 0.0
    requires gap == 0.0 || annualRate != -24.0
    ensures SipBalance(MonthlySip(gap, annualRate, years), annualRate / 12.0, years * 12) == gap
  {
    if gap > 0.0 {
      MonthlySipReachesTarget(gap, annualRate, years);
    } else {
      var m := years * 12;
      SipBalanceZeroRate(0.0, m);
      SipBalanceClosedForm(0.0, annualRate / 12.0, m);
    }
  }

  /** The plan's monthly SIP, paid at every month end until retirement, closes the corpus gap exactly. */
  lemma PlanSavingsCloseGap(inputs: RetirementInputs)
    requires inputs.retirementAge > inputs.currentAge
    ensures var result := CalculateRetirementPlan(inputs);
      SipBalance(result.monthlySavingsRequired, result.expectedReturnRate / 12.0, result.yearsToRetirement * 12)
        == result.corpusGap
  {
    var result := CalculateRetirementPlan(inputs);
    SipClosesGap(result.corpusGap, result.expectedReturnRate, result.yearsToRetirement);
  }

  /**
   * With a non-negative expense and an inflation rate at which the formula is not the
   * near-equal approximation (so in particular the locked 6%), the corpus is the present value
   * of the retirement years' inflating expenses, discounted at the expected return.
   */
  lemma PlanCorpusIsGrowingAnnuity(inputs: RetirementInputs)
    requires inputs.lifeExpectancy > inputs.retirementAge
    requires inputs.currentAnnualExpenses >= 0.0 && inputs.inflationRate > -1.0
    requires var r := ReturnRate(inputs.riskProfile);
      r == inputs.inflationRate || Abs(r - inputs.inflationRate) >= NearEqualRates
    ensures var result := CalculateRetirementPlan(inputs);
      result.corpusRequired == GrowingAnnuityValue(result.futureAnnualExpenses, result.expectedReturnRate,
                                                   inputs.inflationRate, result.retirementDuration)
  {
    var result := CalculateRetirementPlan(inputs);
    FutureValueNonNegative(inputs.currentAnnualExpenses, inputs.inflationRate, result.yearsToRetirement);
    CorpusIsGrowingAnnuity(result.futureAnnualExpenses, result.expectedReturnRate,
                           inputs.inflationRate, result.retirementDuration);
    GrowingAnnuityNonNegative(result.futureAnnualExpenses, result.expectedReturnRate,
                              inputs.inflationRate, result.retirementDuration);
  }

  /** Income only feeds the flag: every other output is the same whatever the income. */
  lemma PlanIgnoresIncome(inputs: RetirementInputs, income: real)
    ensures CalculateRetirementPlan(inputs.(currentAnnualIncome := income))
         == CalculateRetirementPlan(inputs).(
              currentAnnualIncome := income,
              incomeExpenseFlag := IncomeExpenseFlag(income, inputs.currentAnnualExpenses))
  {
    AssumptionsIgnoreIncome(inputs, income, ReturnRate(inputs.riskProfile));
    FiguresIgnoreIncome(inputs, income);
  }

  lemma FiguresIgnoreIncome(inputs: RetirementInputs, income: real)
    ensures var a, b := CalculateRetirementPlan(inputs.(currentAnnualIncome := income)), CalculateRetirementPlan(inputs);
      && a.futureAnnualExpenses == b.futureAnnualExpenses && a.futureInvestmentValue == b.futureInvestmentValue
      && a.corpusRequired == b.corpusRequired && a.corpusGap == b.corpusGap
      && a.monthlySavingsRequired == b.monthlySavingsRequired && a.monthlySavingsRounded == b.monthlySavingsRounded
  {
  }

  lemma AssumptionsIgnoreIncome(inputs: RetirementInputs, income: real, expectedReturn: real)
    ensures Assumptions(inputs.(currentAnnualIncome := income), expectedReturn) == Assumptions(inputs, expectedReturn)
  {
  }

  /** A rate of exactly `k` percent is printed as `k`'s digits. */
  lemma PercentTextOfWhole(rate: real, k: nat)
    requires rate * 100.0 == k as real
    ensures PercentText(rate) == NatToString(k)
  {
  }

  /** The worked example: a 35-year-old retiring at 60, moderate profile. */
  lemma ExamplePlan(inputs: RetirementInputs)
    requires inputs == RetirementInputs(35, 60, 85, 600000.0, 500000.0, 1200000.0,
                                        "moderate", "self_spouse", 0.06)
    ensures var result := CalculateRetirementPlan(inputs);
      && result.yearsToRetirement == 25 && result.retirementDuration == 25
      && result.expectedReturnRate == 0.12
      && !result.incomeExpenseFlag
  {
    ModerateRate();
  }

  lemma ModerateRate()
    ensures ReturnRate("moderate") == 0.12
  {
    assert Lower("moderate") == "moderate";
  }

  /** With the locked 6% inflation (the only rate the application passes) the first line reads 6%. */
  lemma LockedInflationAssumption(inputs: RetirementInputs, expectedReturn: real)
    requires inputs.inflationRate == 0.06
    ensures Assumptions(inputs, expectedReturn)[0] == "Inflation rate: 6% per annum (locked)"
  {
    InflationLine(inputs, expectedReturn);
    SixPercentText();
    InflationLineOfSix();
  }

  /** The first assumption prints the inflation rate as a percentage. */
  lemma InflationLine(inputs: RetirementInputs, expectedReturn: real)
    ensures Assumptions(inputs, expectedReturn)[0]
         == "Inflation rate: " + PercentText(inputs.inflationRate) + "% per annum (locked)"
  {
  }

  lemma InflationLineOfSix()
    ensures "Inflation rate: " + "6" + "% per annum (locked)" == "Inflation rate: 6% per annum (locked)"
  {
  }

  /** The locked 6% prints as "6". */
  lemma SixPercentText()
    ensures PercentText(0.06) == "6"
  {
    PercentTextOfWhole(0.06, 6);
    assert NatToString(6) == "6";
  }

  /** Expenses above income raise the flag, and nothing else changes because of it. */
  lemma ExampleFlag(inputs: RetirementInputs)
    requires inputs.currentAnnualExpenses == 800000.0 && inputs.currentAnnualIncome == 600000.0
    ensures CalculateRetirementPlan(inputs).incomeExpenseFlag
    ensures CalculateRetirementPlan(inputs)
         == CalculateRetirementPlan(inputs.(currentAnnualIncome := 0.0)).(
              currentAnnualIncome := 600000.0, incomeExpenseFlag := true)
  {
    PlanIgnoresIncome(inputs.(currentAnnualIncome := 0.0), 600000.0);
  }

  // ---------------------------------------------------------------------------
  // What-if
  // ---------------------------------------------------------------------------

  /** The plan for the same inputs with only the retirement age replaced. */
  function CalculateWhatIfScenario(baseInputs: RetirementInputs, newRetirementAge: int): (result: RetirementResult)
    ensures result == CalculateRetirementPlan(baseInputs.(retirementAge := newRetirementAge))
    ensures result.retirementAge == newRetirementAge
    ensures result.yearsToRetirement == newRetirementAge - baseInputs.currentAge
    ensures result.retirementDuration == baseInputs.lifeExpectancy - newRetirementAge
  {
    var whatIfInputs := RetirementInputs(
      currentAge := baseInputs.currentAge,
      retirementAge := newRetirementAge,
      lifeExpectancy := baseInputs.lifeExpectancy,
      currentAnnualExpenses := baseInputs.currentAnnualExpenses,
      currentInvestments := baseInputs.currentInvestments,
      currentAnnualIncome := baseInputs.currentAnnualIncome,
      riskProfile := baseInputs.riskProfile,
      dependents := baseInputs.dependents,
      inflationRate := baseInputs.inflationRate);
    CalculateRetirementPlan(whatIfInputs)
  }

  /** Asking for the base retirement age reproduces the base plan. */
  lemma WhatIfAtBaseAge(baseInputs: RetirementInputs)
    ensures CalculateWhatIfScenario(baseInputs, baseInputs.retirementAge) == CalculateRetirementPlan(baseInputs)
  {
    assert baseInputs.(retirementAge := baseInputs.retirementAge) == baseInputs;
  }

  /** A what-if does not depend on the base plan's own retirement age. */
  lemma WhatIfIgnoresBaseAge(baseInputs: RetirementInputs, otherAge: int, newRetirementAge: int)
    ensures CalculateWhatIfScenario(baseInputs.(retirementAge := otherAge), newRetirementAge)
         == CalculateWhatIfScenario(baseInputs, newRetirementAge)
  {
    assert baseInputs.(retirementAge := otherAge).(retirementAge := newRetirementAge)
        == baseInputs.(retirementAge := newRetirementAge);
  }

  /** The candidate retirement ages of the what-if tables. */
  const WhatIfAges: seq<int> := [55, 58, 60, 62, 65]

  /** `age` is later than `currentAge` and is not the excluded age, if there is one. */
  predicate Eligible(age: int, currentAge: int, exclude: Option<int>)
  {
    age > currentAge && (exclude.None? || age != exclude.value)
  }

  /** The eligible ages of `ages`, in their order. */
  function SelectAges(ages: seq<int>, currentAge: int, exclude: Option<int>): (selected: seq<int>)
    ensures |selected| <= |ages|
    ensures forall i :: 0 <= i < |selected| ==> Eligible(selected[i], currentAge, exclude)
  {
    if ages == [] then []
    else
      var last := ages[|ages| - 1];
      SelectAges(ages[..|ages| - 1], currentAge, exclude) + (if Eligible(last, currentAge, exclude) then [last] else [])
  }

  lemma {:induction false} SelectAgesMembership(ages: seq<int>, currentAge: int, exclude: Option<int>, a: int)
    ensures a in SelectAges(ages, currentAge, exclude) <==> a in ages && Eligible(a, currentAge, exclude)
  {
    if ages != [] {
      var init := ages[..|ages| - 1];
      SelectAgesMembership(init, currentAge, exclude, a);
      assert ages == init + [ages[|ages| - 1]];
    }
  }

  predicate Increasing(s: seq<int>)
  {
    forall i, j :: 0 <= i < j < |s| ==> s[i] < s[j]
  }

  /** Selection keeps the order of the candidates. */
  lemma {:induction false} SelectAgesIncreasing(ages: seq<int>, currentAge: int, exclude: Option<int>)
    requires Increasing(ages)
    ensures Increasing(SelectAges(ages, currentAge, exclude))
  {
    if ages != [] {
      var init := ages[..|ages| - 1];
      var last := ages[|ages| - 1];
      SelectAgesIncreasing(init, currentAge, exclude);
      var s := SelectAges(init, currentAge, exclude);
      forall i | 0 <= i < |s| ensures s[i] < last {
        SelectAgesMembership(init, currentAge, exclude, s[i]);
        var j :| 0 <= j < |init| && init[j] == s[i];
      }
      if Eligible(last, currentAge, exclude) {
        var t := s + [last];
        forall i, j | 0 <= i < j < |t| ensures t[i] < t[j] {
          if j < |s| {
            assert t[i] == s[i] && t[j] == s[j];
          } else {
            assert t[i] == s[i] && t[j] == last;
          }
        }
      }
    }
  }

  /** The ages of the spreadsheet's what-if sheet are the candidates later than the current age. */
  lemma ExcelAgesAreLaterCandidates(currentAge: int, a: int)
    ensures a in SelectAges(WhatIfAges, currentAge, None) <==> a in WhatIfAges && a > currentAge
    ensures Increasing(SelectAges(WhatIfAges, currentAge, None))
  {
    SelectAgesMembership(WhatIfAges, currentAge, None, a);
    SelectAgesIncreasing(WhatIfAges, currentAge, None);
  }

  /** A row of the spreadsheet's what-if sheet. */
  datatype WhatIfRow = WhatIfRow(
    retirementAge: int,
    yearsToRetirement: int,
    retirementDuration: int,
    corpusRequired: real,
    monthlySip: real)

  function WhatIfRowFor(inputs: RetirementInputs, age: int): (row: WhatIfRow)
    ensures row.retirementAge == age
    ensures row.yearsToRetirement == age - inputs.currentAge
    ensures row.retirementDuration == inputs.lifeExpectancy - age
    ensures row.monthlySip == CalculateWhatIfScenario(inputs, age).monthlySavingsRounded
    ensures row.corpusRequired == RoundHalfEven(CalculateWhatIfScenario(inputs, age).corpusRequired) as real
    ensures Abs(row.corpusRequired - CalculateWhatIfScenario(inputs, age).corpusRequired) <= 0.5
  {
    var scenario := CalculateWhatIfScenario(inputs, age);
    WhatIfRow(age, scenario.yearsToRetirement, scenario.retirementDuration,
              RoundHalfEven(scenario.corpusRequired) as real, scenario.monthlySavingsRounded)
  }

  /** One row per eligible age of `ages`, in their order: the loop that fills the spreadsheet's what-if sheet. */
  method WhatIfRows(inputs: RetirementInputs, ages: seq<int>) returns (rows: seq<WhatIfRow>)
    ensures var selected := SelectAges(ages, inputs.currentAge, None);
      |rows| == |selected| && forall i :: 0 <= i < |rows| ==> rows[i] == WhatIfRowFor(inputs, selected[i])
  {
    rows := [];
    ghost var selected: seq<int> := [];
    for k := 0 to |ages|
      invariant selected == SelectAges(ages[..k], inputs.currentAge, None)
      invariant |rows| == |selected|
      invariant forall i :: 0 <= i < |rows| ==> rows[i] == WhatIfRowFor(inputs, selected[i])
    {
      assert ages[..k + 1][..k] == ages[..k];
      if ages[k] > inputs.currentAge {
        rows := rows + [WhatIfRowFor(inputs, ages[k])];
        selected := selected + [ages[k]];
      }
    }
    assert ages[..|ages|] == ages;
  }

  /** The rows of the spreadsheet's what-if sheet, one per candidate age later than the current age. */
  method ExcelWhatIfRows(inputs: RetirementInputs) returns (rows: seq<WhatIfRow>)
    ensures var ages := SelectAges(WhatIfAges, inputs.currentAge, None);
      |rows| == |ages| && forall i :: 0 <= i < |rows| ==> rows[i] == WhatIfRowFor(inputs, ages[i])
  {
    rows := WhatIfRows(inputs, WhatIfAges);
  }
}
