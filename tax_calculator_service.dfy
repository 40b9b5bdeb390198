/**
 * The tax engine: income tax (PAYE), USC, PRSI, tax credits, net tax and
 * income, effective and band-based marginal rates, and the monthly projection.
 * Every operation reads its constants from a `RateTable`.
 */
module TaxEngine {
  import opened Wrappers
  import opened Money
  import opened TaxRates

  /** The service's own private copy of the 2025 constants, with its hard-coded year. */
  const ServiceRates: RateTable := RateTable(
    IncomeTaxRates(0.20, 0.40),
    IncomeTaxBands(44000.0, 53000.0, 53000.0, 35000.0, 48000.0),
    [ UscBand(Some(12012.0), 0.005),
      UscBand(Some(27382.0), 0.02),
      UscBand(Some(70044.0), 0.03),
      UscBand(None, 0.08) ],
    0.042,
    TaxCredits(2000.0, 4000.0, 2000.0, 1900.0),
    2025)

  /** The private copy agrees with the public rate table, constant for constant. */
  lemma ServiceRatesAgree()
    ensures ServiceRates == Table2025
  {
  }

  /** `getTaxRatesAndBands`: the same structure as the rate table's `asArray`. */
  function GetTaxRatesAndBands(): (v: PhpValue)
    ensures v == AsArray(Table2025)
    ensures FromArray(v) == Some(ServiceRates)
  {
    AsArrayRoundTrip(ServiceRates);
    AsArray(ServiceRates)
  }

  // ---------------------------------------------------------------------------
  // Income tax

  /**
   * The standard-rate band for a marital status; unknown statuses get the single band.
   * A married person whose spouse has an income gets the two-income base raised by the
   * lower of the maximum increase and the spouse's income.
   */
  function StandardRateBand(rt: RateTable, status: string, spouseIncome: Option<real>): (band: real)
    ensures status != "married" ==>
      band == if status == "single_parent" then rt.incomeTaxBands.singleParent else rt.incomeTaxBands.single
    ensures status == "married" && (spouseIncome.None? || spouseIncome.value <= 0.0) ==>
      band == rt.incomeTaxBands.marriedOneIncome
    ensures status == "married" && spouseIncome.Some? && 0.0 < spouseIncome.value ==>
      var increase := band - rt.incomeTaxBands.marriedTwoIncomesBase;
      && increase <= rt.incomeTaxBands.marriedTwoIncomesMaxIncrease && increase <= spouseIncome.value
      && (increase == rt.incomeTaxBands.marriedTwoIncomesMaxIncrease || increase == spouseIncome.value)
  {
    var b := rt.incomeTaxBands;
    match status
    case "single" => b.single
    case "single_parent" => b.singleParent
    case "married" =>
      if spouseIncome.None? || spouseIncome.value <= 0.0 then b.marriedOneIncome
      else b.marriedTwoIncomesBase + Min(b.marriedTwoIncomesMaxIncrease, spouseIncome.value)
    case _ => b.single
  }

  /** A second income raises the married band by at most the maximum increase, never lowering it. */
  lemma MarriedBandBounds(rt: RateTable, spouseIncome: Option<real>)
    requires rt.incomeTaxBands.marriedOneIncome <= rt.incomeTaxBands.marriedTwoIncomesBase
    requires 0.0 <= rt.incomeTaxBands.marriedTwoIncomesMaxIncrease
    ensures var t := StandardRateBand(rt, "married", spouseIncome);
      rt.incomeTaxBands.marriedOneIncome <= t
      <= rt.incomeTaxBands.marriedTwoIncomesBase + rt.incomeTaxBands.marriedTwoIncomesMaxIncrease
  {
  }

  /** The married band grows with the spouse's income. */
  lemma MarriedBandMonotone(rt: RateTable, s1: real, s2: real)
    requires rt.incomeTaxBands.marriedOneIncome <= rt.incomeTaxBands.marriedTwoIncomesBase
    requires 0.0 <= rt.incomeTaxBands.marriedTwoIncomesMaxIncrease
    requires s1 <= s2
    ensures StandardRateBand(rt, "married", Some(s1)) <= StandardRateBand(rt, "married", Some(s2))
  {
  }

  /** `calculateIncomeTax`: the band at the standard rate, the rest at the higher rate. */
  function IncomeTax(rt: RateTable, income: real, status: string, spouseIncome: Option<real>): (t: real)
    ensures var band := StandardRateBand(rt, status, spouseIncome);
      income <= band ==> t == income * rt.incomeTaxRates.standardRate
    ensures var band := StandardRateBand(rt, status, spouseIncome);
      band <= income ==> t == band * rt.incomeTaxRates.standardRate + (income - band) * rt.incomeTaxRates.higherRate
  {
    TaxOnBand(income, StandardRateBand(rt, status, spouseIncome),
              rt.incomeTaxRates.standardRate, rt.incomeTaxRates.higherRate)
  }

  /** Income up to `band` at the rate `sr`, the rest at `hr`. */
  function TaxOnBand(income: real, band: real, sr: real, hr: real): real {
    Min(income, band) * sr + Max(0.0, income - band) * hr
  }

  /** Above the band, each further euro is taxed at the higher rate; within it, at the standard rate. */
  lemma IncomeTaxStep(rt: RateTable, income: real, d: real, status: string, spouseIncome: Option<real>)
    requires 0.0 <= d
    ensures var band := StandardRateBand(rt, status, spouseIncome);
      var step := IncomeTax(rt, income + d, status, spouseIncome) - IncomeTax(rt, income, status, spouseIncome);
      (income >= band ==> step == d * rt.incomeTaxRates.higherRate)
      && (income + d <= band ==> step == d * rt.incomeTaxRates.standardRate)
  {
    TaxOnBandStep(income, d, StandardRateBand(rt, status, spouseIncome),
                  rt.incomeTaxRates.standardRate, rt.incomeTaxRates.higherRate);
  }

  lemma TaxOnBandStep(income: real, d: real, band: real, sr: real, hr: real)
    requires 0.0 <= d
    ensures var step := TaxOnBand(income + d, band, sr, hr) - TaxOnBand(income, band, sr, hr);
      (income >= band ==> step == d * hr) && (income + d <= band ==> step == d * sr)
  {
    if income >= band {
      assert TaxOnBand(income + d, band, sr, hr) == band * sr + (income + d - band) * hr;
      assert TaxOnBand(income, band, sr, hr) == band * sr + (income - band) * hr;
      MulDifference(income + d - band, income - band, hr);
    }
    if income + d <= band {
      MulDifference(income + d, income, sr);
    }
  }

  /** With non-negative rates, income tax never falls as income rises. */
  lemma IncomeTaxMonotone(rt: RateTable, x: real, y: real, status: string, spouseIncome: Option<real>)
    requires 0.0 <= rt.incomeTaxRates.standardRate && 0.0 <= rt.incomeTaxRates.higherRate
    requires x <= y
    ensures IncomeTax(rt, x, status, spouseIncome) <= IncomeTax(rt, y, status, spouseIncome)
  {
    TaxOnBandMonotone(x, y, StandardRateBand(rt, status, spouseIncome),
                      rt.incomeTaxRates.standardRate, rt.incomeTaxRates.higherRate);
  }

  lemma TaxOnBandMonotone(x: real, y: real, band: real, sr: real, hr: real)
    requires 0.0 <= sr && 0.0 <= hr && x <= y
    ensures TaxOnBand(x, band, sr, hr) <= TaxOnBand(y, band, sr, hr)
  {
    var sx, sy := Min(x, band), Min(y, band);
    var hx, hy := Max(0.0, x - band), Max(0.0, y - band);
    MulMonotone(sx, sy, sr);
    MulMonotone(hx, hy, hr);
    AddMonotone(sx * sr, sy * sr, hx * hr, hy * hr);
  }

  lemma AddMonotone(a: real, b: real, p: real, q: real)
    requires a <= b && p <= q
    ensures a + p <= b + q
  {
  }

  lemma MulMonotone(a: real, b: real, c: real)
    requires a <= b && 0.0 <= c
    ensures a * c <= b * c
  {
  }

  /** `calculatePRSI`: a flat rate on all income, with no cap. */
  function Prsi(rt: RateTable, income: real): (p: real)
    ensures income == 0.0 ==> p == 0.0
    ensures 0.0 <= rt.prsiRate && 0.0 <= income ==> 0.0 <= p
  {
    income * rt.prsiRate
  }

  /** PRSI has no ceiling: at every income, each further euro costs the PRSI rate. */
  lemma PrsiUncapped(rt: RateTable, income: real, d: real)
    ensures Prsi(rt, income + d) - Prsi(rt, income) == d * rt.prsiRate
  {
    MulDifference(income + d, income, rt.prsiRate);
  }

  // ---------------------------------------------------------------------------
  // USC

  /** The lower edge of band `k`: the previous band's limit, or 0 for the first band. */
  function Lower(bs: seq<UscBand>, k: nat): real
    requires k <= |bs|
  {
    if k == 0 then 0.0
    else match bs[k - 1].limit
      case Some(l) => l
      case None => 0.0
  }

  /**
   * The charge of one band starting at `lo` on the income `x`: nothing unless the
   * income exceeds `lo`, otherwise the rate on the income above `lo`, capped at the
   * band's limit when it has one.
   */
  function Charge(lo: real, hi: Option<real>, rate: real, x: real): real {
    if x <= lo then 0.0
    else match hi
      case None => (x - lo) * rate
      case Some(h) => (Min(x, h) - lo) * rate
  }

  /** The closed-form USC of the first `n` bands: the sum of their charges. */
  function UscSum(bs: seq<UscBand>, n: nat, x: real): real
    requires n <= |bs|
  {
    if n == 0 then 0.0
    else UscSum(bs, n - 1, x) + Charge(Lower(bs, n - 1), bs[n - 1].limit, bs[n - 1].rate, x)
  }

  function Usc(rt: RateTable, income: real): real {
    UscSum(rt.uscBands, |rt.uscBands|, income)
  }

  /** In well-formed bands the lower edges are non-negative and ascend. */
  lemma LowerFacts(bs: seq<UscBand>, i: nat, j: nat)
    requires UscWellFormed(bs) && i <= j < |bs|
    ensures 0.0 <= Lower(bs, i) <= Lower(bs, j)
    ensures bs[i].limit.Some? ==> Lower(bs, i) < bs[i].limit.value
    ensures i < j ==> bs[i].limit.Some? && bs[i].limit.value <= Lower(bs, j)
  {
    if 0 < i < j {
      LimitsAscend(bs, i - 1, j - 1);
    }
    if i + 1 < j {
      LimitsAscend(bs, i, j - 1);
    }
  }

  /** The finite limits ascend strictly, not only between neighbours. */
  lemma {:induction false} LimitsAscend(bs: seq<UscBand>, i: nat, j: nat)
    requires UscWellFormed(bs) && i < j < |bs| - 1
    ensures bs[i].limit.value < bs[j].limit.value
    decreases j - i
  {
    if i + 1 < j {
      LimitsAscend(bs, i, j - 1);
    }
  }

  /** A band charges nothing on an income at or below its lower edge. */
  lemma ChargeBelow(lo: real, hi: Option<real>, rate: real, x: real)
    requires x <= lo
    ensures Charge(lo, hi, rate, x) == 0.0
  {
  }

  /** A band whose limit lies at or below the income charges its whole width. */
  lemma ChargeAbove(lo: real, h: real, rate: real, x: real)
    requires lo < h <= x
    ensures Charge(lo, Some(h), rate, x) == (h - lo) * rate
  {
  }

  /** Inside a band, the charge grows by the rate on each extra euro. */
  lemma ChargeInside(lo: real, hi: Option<real>, rate: real, a: real, b: real)
    requires lo <= a <= b && (hi.Some? ==> b <= hi.value)
    ensures Charge(lo, hi, rate, b) - Charge(lo, hi, rate, a) == (b - a) * rate
  {
    if a <= lo {
      assert Charge(lo, hi, rate, b) == (b - lo) * rate;
    } else {
      assert Charge(lo, hi, rate, a) == (a - lo) * rate;
      assert Charge(lo, hi, rate, b) == (b - lo) * rate;
      MulDifference(b - lo, a - lo, rate);
    }
  }

  /** With a non-negative rate the charge is never negative and never falls as income rises. */
  lemma ChargeMonotone(lo: real, hi: Option<real>, rate: real, x: real, y: real)
    requires 0.0 <= rate && (hi.Some? ==> lo < hi.value) && x <= y
    ensures 0.0 <= Charge(lo, hi, rate, x) <= Charge(lo, hi, rate, y)
  {
    if lo < x {
      match hi
      case None =>
        ChargeInside(lo, hi, rate, lo, x);
        ChargeInside(lo, hi, rate, x, y);
        MulMonotone(0.0, x - lo, rate);
        MulMonotone(0.0, y - x, rate);
      case Some(h) =>
        MulMonotone(0.0, Min(x, h) - lo, rate);
        MulMonotone(Min(x, h) - lo, Min(y, h) - lo, rate);
    } else if lo < y {
      match hi
      case None =>
        MulMonotone(0.0, y - lo, rate);
      case Some(h) =>
        MulMonotone(0.0, Min(y, h) - lo, rate);
    }
  }

  lemma MulDifference(p: real, q: real, r: real)
    ensures p * r - q * r == (p - q) * r
  {
  }

  /** Adding band `i` to the sum adds its charge. */
  lemma UscSumNext(bs: seq<UscBand>, i: nat, x: real)
    requires i < |bs|
    ensures UscSum(bs, i + 1, x) == UscSum(bs, i, x) + Charge(Lower(bs, i), bs[i].limit, bs[i].rate, x)
  {
  }

  /** Bands that start at or above the income charge nothing. */
  lemma {:induction false} UscTailZero(bs: seq<UscBand>, k: nat, n: nat, x: real)
    requires UscWellFormed(bs)
    requires k <= n <= |bs|
    requires k < |bs| && x <= Lower(bs, k)
    ensures UscSum(bs, n, x) == UscSum(bs, k, x)
  {
    if n > k {
      UscTailZero(bs, k, n - 1, x);
      var j := n - 1;
      LowerFacts(bs, k, j);
      ChargeBelow(Lower(bs, j), bs[j].limit, bs[j].rate, x);
    }
  }

  /**
   * `calculateUSC`: walks the bands in order, charging each band's slice of the
   * income, and stops at the unbounded band or at the first band whose limit the
   * income does not exceed.
   */
  method CalculateUsc(rt: RateTable, income: real) returns (usc: real)
    requires UscWellFormed(rt.uscBands)
    ensures usc == Usc(rt, income)
  {
    var bs := rt.uscBands;
    usc := 0.0;
    var previousLimit := 0.0;
    for i := 0 to |bs|
      invariant previousLimit == Lower(bs, i)
      invariant usc == UscSum(bs, i, income)
    {
      var bandLimit := bs[i].limit;
      var bandRate := bs[i].rate;
      UscSumNext(bs, i, income);
      if bandLimit.None? {
        if income > previousLimit {
          var taxableInBand := income - previousLimit;
          ChargeTaken(previousLimit, bandLimit, bandRate, income, taxableInBand);
          usc := usc + taxableInBand * bandRate;
        } else {
          ChargeBelow(previousLimit, bandLimit, bandRate, income);
        }
        assert i + 1 == |bs|;
        break;
      }
      if income > previousLimit {
        var taxableInBand := Min(income, bandLimit.value) - previousLimit;
        ChargeTaken(previousLimit, bandLimit, bandRate, income, taxableInBand);
        usc := usc + taxableInBand * bandRate;
      } else {
        ChargeBelow(previousLimit, bandLimit, bandRate, income);
      }
      previousLimit := bandLimit.value;
      if income <= bandLimit.value {
        UscTailZero(bs, i + 1, |bs|, income);
        break;
      }
    }
  }

  /** Above its lower edge, a band charges its rate on the slice the loop computes. */
  lemma ChargeTaken(lo: real, hi: Option<real>, rate: real, x: real, taxable: real)
    requires lo < x
    requires taxable == match hi case None => x - lo case Some(h) => Min(x, h) - lo
    ensures Charge(lo, hi, rate, x) == taxable * rate
  {
  }

  /** USC is never negative. */
  lemma {:induction false} UscSumNonNegative(bs: seq<UscBand>, n: nat, x: real)
    requires UscWellFormed(bs) && n <= |bs|
    ensures UscSum(bs, n, x) >= 0.0
  {
    if n > 0 {
      UscSumNonNegative(bs, n - 1, x);
      LowerFacts(bs, n - 1, n - 1);
      ChargeMonotone(Lower(bs, n - 1), bs[n - 1].limit, bs[n - 1].rate, x, x);
    }
  }

  /** USC never falls as income rises. */
  lemma {:induction false} UscSumMonotone(bs: seq<UscBand>, n: nat, x: real, y: real)
    requires UscWellFormed(bs) && n <= |bs| && x <= y
    ensures UscSum(bs, n, x) <= UscSum(bs, n, y)
  {
    if n > 0 {
      UscSumMonotone(bs, n - 1, x, y);
      LowerFacts(bs, n - 1, n - 1);
      ChargeMonotone(Lower(bs, n - 1), bs[n - 1].limit, bs[n - 1].rate, x, y);
    }
  }

  /** Band `k` holds the income `x`: above its lower edge and at or below its limit. */
  predicate InBand(bs: seq<UscBand>, k: nat, x: real) {
    k < |bs| && Lower(bs, k) < x && (bs[k].limit.None? || x <= bs[k].limit.value)
  }

  /** Between the edges of band `k`, the first `n` bands' USC grows at band `k`'s rate, if band `k` is among them. */
  lemma {:induction false} UscSumLinear(bs: seq<UscBand>, k: nat, a: real, b: real, n: nat)
    requires UscWellFormed(bs) && k < |bs| && n <= |bs|
    requires Lower(bs, k) <= a <= b
    requires bs[k].limit.Some? ==> b <= bs[k].limit.value
    ensures UscSum(bs, n, b) - UscSum(bs, n, a) == if n > k then (b - a) * bs[k].rate else 0.0
  {
    if n > 0 {
      var j := n - 1;
      UscSumLinear(bs, k, a, b, j);
      BandDelta(bs, j, k, a, b);
      var lo, hi, r := Lower(bs, j), bs[j].limit, bs[j].rate;
      UscSumNext(bs, j, a);
      UscSumNext(bs, j, b);
      AddDifference(UscSum(bs, j, a), UscSum(bs, j, b), Charge(lo, hi, r, a), Charge(lo, hi, r, b),
                    UscSum(bs, n, a), UscSum(bs, n, b));
    }
  }

  /** On a stretch of income inside band `k`, band `j` grows at band `k`'s rate if `j` is `k`, and not at all otherwise. */
  lemma BandDelta(bs: seq<UscBand>, j: nat, k: nat, a: real, b: real)
    requires UscWellFormed(bs) && j < |bs| && k < |bs|
    requires Lower(bs, k) <= a <= b
    requires bs[k].limit.Some? ==> b <= bs[k].limit.value
    ensures var lo, hi, r := Lower(bs, j), bs[j].limit, bs[j].rate;
      Charge(lo, hi, r, b) - Charge(lo, hi, r, a) == if j == k then (b - a) * bs[k].rate else 0.0
  {
    var lo, hi, r := Lower(bs, j), bs[j].limit, bs[j].rate;
    if j < k {
      LowerFacts(bs, j, k);
      ChargeAbove(lo, hi.value, r, a);
      ChargeAbove(lo, hi.value, r, b);
    } else if j == k {
      ChargeInside(lo, hi, r, a, b);
    } else {
      LowerFacts(bs, k, j);
      ChargeBelow(lo, hi, r, a);
      ChargeBelow(lo, hi, r, b);
    }
  }

  lemma AddDifference(pa: real, pb: real, ca: real, cb: real, sa: real, sb: real)
    requires sa == pa + ca && sb == pb + cb
    ensures sb - sa == (pb - pa) + (cb - ca)
  {
  }

  /** Between the edges of a band, USC grows at exactly that band's rate. */
  lemma UscLinearInBand(rt: RateTable, k: nat, a: real, b: real)
    requires UscWellFormed(rt.uscBands) && k < |rt.uscBands|
    requires Lower(rt.uscBands, k) <= a <= b
    requires rt.uscBands[k].limit.Some? ==> b <= rt.uscBands[k].limit.value
    ensures Usc(rt, b) - Usc(rt, a) == (b - a) * rt.uscBands[k].rate
  {
    UscSumLinear(rt.uscBands, k, a, b, |rt.uscBands|);
  }

  // ---------------------------------------------------------------------------
  // Marginal rate

  /** The rate of the first band from `i` on whose limit the income does not exceed. */
  function FirstCovering(bs: seq<UscBand>, i: nat, x: real): real
    decreases |bs| - i
  {
    if i >= |bs| then 0.0
    else if bs[i].limit.None? || x <= bs[i].limit.value then bs[i].rate
    else FirstCovering(bs, i + 1, x)
  }

  /** The USC part of the marginal rate; no USC is due on a non-positive income. */
  function UscMarginalRate(bs: seq<UscBand>, x: real): real {
    if x <= 0.0 then 0.0 else FirstCovering(bs, 0, x)
  }

  /** The income-tax part of the marginal rate: the higher rate from the band threshold on. */
  function IncomeTaxMarginalRate(rt: RateTable, income: real, status: string, spouseIncome: Option<real>): real {
    if income >= StandardRateBand(rt, status, spouseIncome) then rt.incomeTaxRates.higherRate
    else rt.incomeTaxRates.standardRate
  }

  /** The band-based marginal rate, in percent, rounded to two places. */
  function MarginalTaxRate(rt: RateTable, income: real, status: string, spouseIncome: Option<real>): real {
    Round2((IncomeTaxMarginalRate(rt, income, status, spouseIncome)
            + UscMarginalRate(rt.uscBands, income) + rt.prsiRate) * 100.0)
  }

  /** `calculateMarginalTaxRate`: finds the USC band holding the income by walking the bands. */
  method CalculateMarginalTaxRate(rt: RateTable, income: real, status: string, spouseIncome: Option<real>)
    returns (rate: real)
    requires UscWellFormed(rt.uscBands)
    ensures rate == MarginalTaxRate(rt, income, status, spouseIncome)
  {
    var standardRateBand := StandardRateBand(rt, status, spouseIncome);
    var incomeTaxMarginalRate := if income >= standardRateBand then rt.incomeTaxRates.higherRate
                                 else rt.incomeTaxRates.standardRate;
    var bs := rt.uscBands;
    var uscMarginalRate := 0.0;
    var previousLimit := 0.0;
    for i := 0 to |bs|
      invariant previousLimit == Lower(bs, i) && 0.0 <= previousLimit
      invariant uscMarginalRate == 0.0
      invariant income > 0.0 ==> income > previousLimit && FirstCovering(bs, i, income) == FirstCovering(bs, 0, income)
    {
      if bs[i].limit.None? {
        if income > previousLimit {
          uscMarginalRate := bs[i].rate;
        }
        assert uscMarginalRate == UscMarginalRate(bs, income);
        break;
      }
      var bandLimit := bs[i].limit.value;
      if income > previousLimit && income <= bandLimit {
        uscMarginalRate := bs[i].rate;
        assert uscMarginalRate == UscMarginalRate(bs, income);
        break;
      }
      previousLimit := bandLimit;
    }
    rate := Round2((incomeTaxMarginalRate + uscMarginalRate + rt.prsiRate) * 100.0);
  }

  lemma {:induction false} FirstCoveringFinds(bs: seq<UscBand>, i: nat, k: nat, x: real)
    requires UscWellFormed(bs) && i <= k && InBand(bs, k, x)
    ensures FirstCovering(bs, i, x) == bs[k].rate
    decreases k - i
  {
    if i < k {
      LowerFacts(bs, i, k);
      FirstCoveringFinds(bs, i + 1, k, x);
    }
  }

  /** The USC marginal rate is the rate of the band holding the income. */
  lemma UscMarginalIsBandRate(bs: seq<UscBand>, k: nat, x: real)
    requires UscWellFormed(bs) && InBand(bs, k, x)
    ensures UscMarginalRate(bs, x) == bs[k].rate
  {
    FirstCoveringFinds(bs, 0, k, x);
  }

  lemma {:induction false} BandFrom(bs: seq<UscBand>, i: nat, x: real) returns (k: nat)
    requires UscWellFormed(bs) && i < |bs| && Lower(bs, i) < x
    ensures InBand(bs, k, x)
    decreases |bs| - i
  {
    if bs[i].limit.None? || x <= bs[i].limit.value {
      k := i;
    } else {
      k := BandFrom(bs, i + 1, x);
    }
  }

  /** Every positive income lies in exactly one band. */
  lemma PositiveIncomeHasOneBand(bs: seq<UscBand>, x: real)
    requires UscWellFormed(bs) && 0.0 < x
    ensures exists k :: InBand(bs, k, x)
    ensures forall j, k :: InBand(bs, j, x) && InBand(bs, k, x) ==> j == k
  {
    var k := BandFrom(bs, 0, x);
    forall j: nat, k: nat | InBand(bs, j, x) && InBand(bs, k, x) ensures j == k {
      if j < k {
        LowerFacts(bs, j, k);
      } else if k < j {
        LowerFacts(bs, k, j);
      }
    }
  }

  /**
   * The USC marginal rate is the rate charged on the last euros earned: on any
   * stretch of income inside the income's own band, up to the income itself.
   */
  lemma UscMarginalIsLastEuroRate(rt: RateTable, k: nat, x: real, y: real)
    requires UscWellFormed(rt.uscBands) && InBand(rt.uscBands, k, x)
    requires Lower(rt.uscBands, k) <= y <= x
    ensures Usc(rt, x) - Usc(rt, y) == (x - y) * UscMarginalRate(rt.uscBands, x)
  {
    UscMarginalIsBandRate(rt.uscBands, k, x);
    UscLinearInBand(rt, k, y, x);
  }

  // ---------------------------------------------------------------------------
  // Tax credits

  /** The credits due: married person's, or single person's plus the child carer's when there are children; always PAYE. */
  function TaxCreditsDue(rt: RateTable, status: string, hasChildren: bool): real {
    var c := rt.taxCredits;
    c.employeePaye +
      if status == "married" then c.marriedPerson
      else c.singlePerson + (if hasChildren then c.singleParentChildCarer else 0.0)
  }

  /** `calculateTaxCredits`: accumulates the personal credits and then the PAYE credit. */
  method CalculateTaxCredits(rt: RateTable, status: string, hasChildren: bool) returns (credits: real)
    ensures credits == TaxCreditsDue(rt, status, hasChildren)
  {
    credits := 0.0;
    if status == "married" {
      credits := credits + rt.taxCredits.marriedPerson;
    } else {
      credits := credits + rt.taxCredits.singlePerson;
      if hasChildren {
        credits := credits + rt.taxCredits.singleParentChildCarer;
      }
    }
    credits := credits + rt.taxCredits.employeePaye;
  }

  /** The 2025 credits: 6000 married; 4000 otherwise, or 5900 with children. */
  lemma Credits2025(status: string, hasChildren: bool)
    ensures TaxCreditsDue(Table2025, status, hasChildren)
      == if status == "married" then 6000.0 else if hasChildren then 5900.0 else 4000.0
  {
  }

  // ---------------------------------------------------------------------------
  // The whole calculation

  datatype Breakdown = Breakdown(
    incomeTax: real, usc: real, prsi: real, grossTax: real, taxCredits: real, netTax: real)

  datatype Calculation = Calculation(
    annualIncome: real,
    maritalStatus: string,
    hasChildren: bool,
    spouseIncome: Option<real>,
    breakdown: Breakdown,
    netIncome: real,
    effectiveTaxRate: real,
    marginalTaxRate: real)

  /** Income tax, USC and PRSI together, unrounded. */
  function GrossTax(rt: RateTable, income: real, status: string, spouseIncome: Option<real>): real {
    IncomeTax(rt, income, status, spouseIncome) + Usc(rt, income) + Prsi(rt, income)
  }

  /** Gross tax less credits, never below zero, unrounded. */
  function NetTax(rt: RateTable, income: real, status: string, hasChildren: bool, spouseIncome: Option<real>): real {
    Max(0.0, GrossTax(rt, income, status, spouseIncome) - TaxCreditsDue(rt, status, hasChildren))
  }

  /**
   * The effective rate as the source computes it: a division by the income with
   * no guard, which raises DivisionByZeroError at zero income.
   */
  function EffectiveRateAsWritten(netTax: real, income: real): (r: Result<real, string>)
    ensures r.Failure? <==> income == 0.0
    ensures r.Success? ==> IsCents(r.value) && -1.0 / 200.0 <= r.value - netTax / income * 100.0 <= 1.0 / 200.0
  {
    if income == 0.0 then Failure("Division by zero")
    else Success(Round2(netTax / income * 100.0))
  }

  /** The effective rate with the zero-income guard: 0 at zero income. */
  function EffectiveTaxRate(netTax: real, income: real): (r: real)
    ensures income == 0.0 ==> r == 0.0
    ensures income != 0.0 ==> EffectiveRateAsWritten(netTax, income) == Success(r)
  {
    if income == 0.0 then 0.0 else Round2(netTax / income * 100.0)
  }

  /** `calculateTax`'s result: the unrounded amounts, each rounded to cents at the end. */
  function TaxCalculation(rt: RateTable, income: real, status: string, hasChildren: bool, spouseIncome: Option<real>)
    : Calculation
  {
    var netTax := NetTax(rt, income, status, hasChildren, spouseIncome);
    Calculation(income, status, hasChildren, spouseIncome,
                Breakdown(Round2(IncomeTax(rt, income, status, spouseIncome)), Round2(Usc(rt, income)),
                          Round2(Prsi(rt, income)), Round2(GrossTax(rt, income, status, spouseIncome)),
                          Round2(TaxCreditsDue(rt, status, hasChildren)), Round2(netTax)),
                Round2(income - netTax),
                EffectiveTaxRate(netTax, income),
                MarginalTaxRate(rt, income, status, spouseIncome))
  }

  /** `calculateTax`, with the effective rate guarded at zero income. */
  method CalculateTax(rt: RateTable, annualIncome: real, maritalStatus: string, hasChildren: bool,
                      spouseIncome: Option<real>) returns (c: Calculation)
    requires UscWellFormed(rt.uscBands)
    ensures c == TaxCalculation(rt, annualIncome, maritalStatus, hasChildren, spouseIncome)
  {
    var incomeTax := IncomeTax(rt, annualIncome, maritalStatus, spouseIncome);
    var usc := CalculateUsc(rt, annualIncome);
    var prsi := Prsi(rt, annualIncome);
    var taxCredits := CalculateTaxCredits(rt, maritalStatus, hasChildren);
    var grossTax := incomeTax + usc + prsi;
    var netTax := Max(0.0, grossTax - taxCredits);
    var netIncome := annualIncome - netTax;
    var marginal := CalculateMarginalTaxRate(rt, annualIncome, maritalStatus, spouseIncome);
    c := Calculation(annualIncome, maritalStatus, hasChildren, spouseIncome,
                     Breakdown(Round2(incomeTax), Round2(usc), Round2(prsi), Round2(grossTax),
                               Round2(taxCredits), Round2(netTax)),
                     Round2(netIncome),
                     EffectiveTaxRate(netTax, annualIncome),
                     marginal);
  }

  // ---------------------------------------------------------------------------
  // Properties of the whole calculation

  lemma StandardRateBandNonNegative(rt: RateTable, status: string, spouseIncome: Option<real>)
    requires WellFormed(rt)
    ensures 0.0 <= StandardRateBand(rt, status, spouseIncome)
  {
  }

  /** On a non-negative income every component of the tax is non-negative. */
  lemma ComponentsNonNegative(rt: RateTable, income: real, status: string, spouseIncome: Option<real>)
    requires WellFormed(rt) && 0.0 <= income
    ensures 0.0 <= IncomeTax(rt, income, status, spouseIncome)
    ensures 0.0 <= Usc(rt, income)
    ensures 0.0 <= Prsi(rt, income)
  {
    var band := StandardRateBand(rt, status, spouseIncome);
    StandardRateBandNonNegative(rt, status, spouseIncome);
    TaxOnBandMonotone(0.0, income, band, rt.incomeTaxRates.standardRate, rt.incomeTaxRates.higherRate);
    assert TaxOnBand(0.0, band, rt.incomeTaxRates.standardRate, rt.incomeTaxRates.higherRate) == 0.0;
    UscSumNonNegative(rt.uscBands, |rt.uscBands|, income);
    MulMonotone(0.0, income, rt.prsiRate);
  }

  /** Gross tax never falls as income rises. */
  lemma GrossTaxMonotone(rt: RateTable, x: real, y: real, status: string, spouseIncome: Option<real>)
    requires WellFormed(rt) && x <= y
    ensures GrossTax(rt, x, status, spouseIncome) <= GrossTax(rt, y, status, spouseIncome)
  {
    var ix, iy := IncomeTax(rt, x, status, spouseIncome), IncomeTax(rt, y, status, spouseIncome);
    var ux, uy := Usc(rt, x), Usc(rt, y);
    var px, py := Prsi(rt, x), Prsi(rt, y);
    IncomeTaxMonotone(rt, x, y, status, spouseIncome);
    UscMonotone(rt, x, y);
    PrsiMonotone(rt, x, y);
    AddMonotone3(ix, iy, ux, uy, px, py);
  }

  lemma UscMonotone(rt: RateTable, x: real, y: real)
    requires UscWellFormed(rt.uscBands) && x <= y
    ensures Usc(rt, x) <= Usc(rt, y)
  {
    UscSumMonotone(rt.uscBands, |rt.uscBands|, x, y);
  }

  lemma PrsiMonotone(rt: RateTable, x: real, y: real)
    requires 0.0 <= rt.prsiRate && x <= y
    ensures Prsi(rt, x) <= Prsi(rt, y)
  {
    MulMonotone(x, y, rt.prsiRate);
  }

  lemma AddMonotone3(a: real, b: real, p: real, q: real, u: real, v: real)
    requires a <= b && p <= q && u <= v
    ensures a + p + u <= b + q + v
  {
  }

  /** The reported net tax never falls as income rises. */
  lemma NetTaxMonotone(rt: RateTable, x: real, y: real, status: string, hasChildren: bool,
                       spouseIncome: Option<real>)
    requires WellFormed(rt) && x <= y
    ensures TaxCalculation(rt, x, status, hasChildren, spouseIncome).breakdown.netTax
         <= TaxCalculation(rt, y, status, hasChildren, spouseIncome).breakdown.netTax
  {
    GrossTaxMonotone(rt, x, y, status, spouseIncome);
    var nx, ny := NetTax(rt, x, status, hasChildren, spouseIncome), NetTax(rt, y, status, hasChildren, spouseIncome);
    assert nx <= ny;
    RoundMonotone(nx, ny);
  }

  /**
   * The rounded fields of a calculation are whole cents and agree with each other to
   * within the rounding: gross tax is the sum of its parts, net income is income less
   * net tax, and net tax is never negative and is zero when the credits cover the gross tax.
   */
  lemma RoundedFieldsConsistent(rt: RateTable, income: real, status: string, hasChildren: bool,
                                spouseIncome: Option<real>)
    ensures var c := TaxCalculation(rt, income, status, hasChildren, spouseIncome);
      var b := c.breakdown;
      && IsCents(b.incomeTax) && IsCents(b.usc) && IsCents(b.prsi) && IsCents(b.grossTax)
      && IsCents(b.taxCredits) && IsCents(b.netTax) && IsCents(c.netIncome)
      && -0.02 <= b.grossTax - (b.incomeTax + b.usc + b.prsi) <= 0.02
      && -0.01 <= c.netIncome - (income - b.netTax) <= 0.01
      && 0.0 <= b.netTax
      && (GrossTax(rt, income, status, spouseIncome) <= TaxCreditsDue(rt, status, hasChildren) ==> b.netTax == 0.0)
  {
    var it, usc, prsi := IncomeTax(rt, income, status, spouseIncome), Usc(rt, income), Prsi(rt, income);
    var net := NetTax(rt, income, status, hasChildren, spouseIncome);
    RoundError(it);
    RoundError(usc);
    RoundError(prsi);
    RoundError(it + usc + prsi);
    RoundError(net);
    RoundError(income - net);
    if GrossTax(rt, income, status, spouseIncome) <= TaxCreditsDue(rt, status, hasChildren) {
      assert net == 0.0;
      RoundCents(0.0);
    }
  }

  /**
   * At zero income nothing is due and nothing is kept: every amount is zero and
   * the guarded effective rate is 0.
   */
  lemma ZeroIncome(rt: RateTable, status: string, hasChildren: bool, spouseIncome: Option<real>)
    requires WellFormed(rt)
    ensures var c := TaxCalculation(rt, 0.0, status, hasChildren, spouseIncome);
      && c.breakdown.incomeTax == 0.0 && c.breakdown.usc == 0.0 && c.breakdown.prsi == 0.0
      && c.breakdown.grossTax == 0.0 && c.breakdown.netTax == 0.0
      && c.netIncome == 0.0 && c.effectiveTaxRate == 0.0
  {
    StandardRateBandNonNegative(rt, status, spouseIncome);
    assert IncomeTax(rt, 0.0, status, spouseIncome) == 0.0;
    UscTailZero(rt.uscBands, 0, |rt.uscBands|, 0.0);
    assert Usc(rt, 0.0) == 0.0;
    assert NetTax(rt, 0.0, status, hasChildren, spouseIncome) == 0.0;
    RoundCents(0.0);
  }

  /**
   * As written, the effective rate divides by the income: at zero income, which the
   * request validation admits, every calculation fails.
   */
  lemma ZeroIncomeDividesByZero(rt: RateTable, status: string, hasChildren: bool, spouseIncome: Option<real>)
    ensures EffectiveRateAsWritten(NetTax(rt, 0.0, status, hasChildren, spouseIncome), 0.0).Failure?
  {
  }

  // ---------------------------------------------------------------------------
  // The 2025 table in closed form

  /** USC under the 2025 bands, band by band. */
  lemma Usc2025(x: real)
    ensures Usc(Table2025, x) ==
      if x <= 0.0 then 0.0
      else if x <= 12012.0 then x * 0.005
      else if x <= 27382.0 then 60.06 + (x - 12012.0) * 0.02
      else if x <= 70044.0 then 367.46 + (x - 27382.0) * 0.03
      else 1647.32 + (x - 70044.0) * 0.08
  {
    var bs := Table2025.uscBands;
    UscSumNext(bs, 0, x);
    UscSumNext(bs, 1, x);
    UscSumNext(bs, 2, x);
    UscSumNext(bs, 3, x);
    assert Lower(bs, 1) == 12012.0 && Lower(bs, 2) == 27382.0 && Lower(bs, 3) == 70044.0;
  }

  /** The USC part of the 2025 marginal rate, band by band. */
  lemma UscMarginalRate2025(x: real)
    ensures UscMarginalRate(Table2025.uscBands, x) ==
      if x <= 0.0 then 0.0
      else if x <= 12012.0 then 0.005
      else if x <= 27382.0 then 0.02
      else if x <= 70044.0 then 0.03
      else 0.08
  {
  }

  // ---------------------------------------------------------------------------
  // Monthly breakdown

  datatype MonthlyBreakdown = MonthlyBreakdown(
    monthlyGrossIncome: real,
    monthlyBreakdown: seq<(string, real)>,
    monthlyNetIncome: real)

  /** The breakdown as the source's associative array: six keys in a fixed order. */
  function Entries(b: Breakdown): seq<(string, real)> {
    [("income_tax", b.incomeTax), ("usc", b.usc), ("prsi", b.prsi),
     ("gross_tax", b.grossTax), ("tax_credits", b.taxCredits), ("net_tax", b.netTax)]
  }

  /** A twelfth of an amount, rounded to the cent. */
  function Monthly(v: real): real {
    Round2(v / 12.0)
  }

  /** The monthly projection: the same keys, each amount a rounded twelfth. */
  function MonthlyOf(c: Calculation): MonthlyBreakdown {
    var es := Entries(c.breakdown);
    MonthlyBreakdown(Monthly(c.annualIncome),
                     seq(|es|, i requires 0 <= i < |es| => (es[i].0, Monthly(es[i].1))),
                     Monthly(c.netIncome))
  }

  /** `calculateMonthlyBreakdown`: divides each breakdown entry by 12, key by key. */
  method CalculateMonthlyBreakdown(c: Calculation) returns (m: MonthlyBreakdown)
    ensures m == MonthlyOf(c)
  {
    var es := Entries(c.breakdown);
    var monthly: seq<(string, real)> := [];
    for i := 0 to |es|
      invariant |monthly| == i
      invariant forall j :: 0 <= j < i ==> monthly[j] == (es[j].0, Monthly(es[j].1))
    {
      var (key, value) := es[i];
      monthly := monthly + [(key, Round2(value / 12.0))];
    }
    m := MonthlyBreakdown(Round2(c.annualIncome / 12.0), monthly, Round2(c.netIncome / 12.0));
  }

  /**
   * The monthly projection keeps the breakdown's keys in order, and twelve months
   * of each rounded amount come within six cents of the annual amount.
   */
  lemma MonthlyMatchesAnnual(c: Calculation)
    ensures var m := MonthlyOf(c);
      var es := Entries(c.breakdown);
      && |m.monthlyBreakdown| == |es| == 6
      && (forall i :: 0 <= i < 6 ==> m.monthlyBreakdown[i].0 == es[i].0)
      && (forall i :: 0 <= i < 6 ==> -0.06 <= 12.0 * m.monthlyBreakdown[i].1 - es[i].1 <= 0.06)
      && -0.06 <= 12.0 * m.monthlyGrossIncome - c.annualIncome <= 0.06
      && -0.06 <= 12.0 * m.monthlyNetIncome - c.netIncome <= 0.06
  {
    var es := Entries(c.breakdown);
    forall i | 0 <= i < 6
      ensures -0.06 <= 12.0 * MonthlyOf(c).monthlyBreakdown[i].1 - es[i].1 <= 0.06
    {
      MonthlyError(es[i].1);
    }
    MonthlyError(c.annualIncome);
    MonthlyError(c.netIncome);
  }

  lemma MonthlyError(v: real)
    ensures -0.06 <= 12.0 * Monthly(v) - v <= 0.06
  {
    RoundError(v / 12.0);
  }
}
