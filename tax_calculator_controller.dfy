/**
 * The arithmetic of the tax calculator's HTTP controller: a calculation paired
 * with its monthly projection, the marginal rate measured over the next 1000
 * euros, and the comparison of several scenarios. The JSON envelope, the
 * calculation timestamp, authentication and caching are not modelled.
 */
module TaxController {
  import opened Wrappers
  import opened Money
  import opened Text
  import opened TaxRates
  import opened TaxEngine

  /**
   * The controller is given its calculator service by injection, and the model
   * takes that injection to succeed: the service is modelled by the rate table it
   * calculates with, the service's own 2025 constants, which satisfy every
   * operation's demands. (The service class as written does not declare that it
   * implements the calculator interface, so PHP would refuse it as the typed
   * constructor argument.)
   */
  lemma ServiceRatesWellFormed()
    ensures WellFormed(ServiceRates)
  {
    ServiceRatesAgree();
    Table2025WellFormed();
  }

  // ---------------------------------------------------------------------------
  // calculate

  /** The `calculate` response data: the annual calculation and its monthly projection. */
  datatype CalculateResponse = CalculateResponse(annual: Calculation, monthly: MonthlyBreakdown)

  /**
   * `calculate`: one calculation with the service's rates (children default to none),
   * and the monthly projection of that same calculation.
   */
  method Calculate(rt: RateTable, annualIncome: real, maritalStatus: string, hasChildren: Option<bool>,
                   spouseIncome: Option<real>) returns (r: CalculateResponse)
    requires WellFormed(rt)
    ensures r.annual == TaxCalculation(rt, annualIncome, maritalStatus, hasChildren.GetOr(false), spouseIncome)
    ensures r.monthly == MonthlyOf(r.annual)
  {
    var calculation := CalculateTax(rt, annualIncome, maritalStatus, hasChildren.GetOr(false), spouseIncome);
    var monthlyBreakdown := CalculateMonthlyBreakdown(calculation);
    r := CalculateResponse(calculation, monthlyBreakdown);
  }

  /** The annual and monthly halves of a `calculate` response agree to within the monthly rounding. */
  lemma CalculateResponseConsistent(rt: RateTable, annualIncome: real, maritalStatus: string, hasChildren: Option<bool>,
                                    spouseIncome: Option<real>)
    ensures var c := TaxCalculation(rt, annualIncome, maritalStatus, hasChildren.GetOr(false), spouseIncome);
      var m := MonthlyOf(c);
      && -0.06 <= 12.0 * m.monthlyGrossIncome - annualIncome <= 0.06
      && -0.06 <= 12.0 * m.monthlyNetIncome - c.netIncome <= 0.06
      && |m.monthlyBreakdown| == 6
      && (forall i :: 0 <= i < 6 ==>
            m.monthlyBreakdown[i].0 == Entries(c.breakdown)[i].0
            && -0.06 <= 12.0 * m.monthlyBreakdown[i].1 - Entries(c.breakdown)[i].1 <= 0.06)
  {
    var c := TaxCalculation(rt, annualIncome, maritalStatus, hasChildren.GetOr(false), spouseIncome);
    MonthlyMatchesAnnual(c);
  }

  // ---------------------------------------------------------------------------
  // marginalRate

  /** The `marginalRate` response data. */
  datatype MarginalReport = MarginalReport(
    annualIncome: real,
    marginalTaxRate: real,
    effectiveMarginalRate: real,
    taxOnNext1000: real,
    netFromNext1000: real)

  /** The extra (rounded) net tax due on the next 1000 euros, children not counted. */
  function ExtraNetTax(rt: RateTable, income: real, status: string, spouseIncome: Option<real>): real {
    TaxCalculation(rt, income + 1000.0, status, false, spouseIncome).breakdown.netTax
      - TaxCalculation(rt, income, status, false, spouseIncome).breakdown.netTax
  }

  /**
   * The report from the two calculations: the band-based marginal rate of the income
   * itself, and the extra net tax as a percentage of 1000, as an amount and as what is kept.
   */
  function ReportFrom(income: real, current: Calculation, higher: Calculation): MarginalReport {
    var extra := higher.breakdown.netTax - current.breakdown.netTax;
    MarginalReport(income, current.marginalTaxRate, Round2(extra / 1000.0 * 100.0), Round2(extra),
                   Round2(1000.0 - extra))
  }

  /** The report for an income: from its calculation and the one 1000 euros higher. */
  function MarginalReportOf(rt: RateTable, income: real, status: string, spouseIncome: Option<real>): MarginalReport {
    ReportFrom(income, TaxCalculation(rt, income, status, false, spouseIncome),
               TaxCalculation(rt, income + 1000.0, status, false, spouseIncome))
  }

  /** `marginalRate`: two calculations, 1000 euros apart. */
  method MarginalRate(rt: RateTable, annualIncome: real, maritalStatus: string, spouseIncome: Option<real>)
    returns (r: MarginalReport)
    requires WellFormed(rt)
    ensures r == MarginalReportOf(rt, annualIncome, maritalStatus, spouseIncome)
  {
    var currentCalculation := CalculateTax(rt, annualIncome, maritalStatus, false, spouseIncome);
    var higherCalculation := CalculateTax(rt, annualIncome + 1000.0, maritalStatus, false, spouseIncome);
    var marginalTaxOnExtra1000 := higherCalculation.breakdown.netTax - currentCalculation.breakdown.netTax;
    var effectiveMarginalRate := (marginalTaxOnExtra1000 / 1000.0) * 100.0;
    r := MarginalReport(annualIncome, currentCalculation.marginalTaxRate, Round2(effectiveMarginalRate),
                        Round2(marginalTaxOnExtra1000), Round2(1000.0 - marginalTaxOnExtra1000));
    assert r == ReportFrom(annualIncome, currentCalculation, higherCalculation);
  }

  /**
   * Both net taxes are whole cents, so nothing is lost to rounding: the tax on the
   * next 1000 euros is the exact difference, and it and what is kept add up to 1000.
   */
  lemma NextThousandSplits(rt: RateTable, income: real, status: string, spouseIncome: Option<real>)
    ensures var r := MarginalReportOf(rt, income, status, spouseIncome);
      && r.taxOnNext1000 == ExtraNetTax(rt, income, status, spouseIncome)
      && r.taxOnNext1000 + r.netFromNext1000 == 1000.0
      && -0.05 <= r.effectiveMarginalRate * 10.0 - r.taxOnNext1000 <= 0.05
  {
    var current := TaxCalculation(rt, income, status, false, spouseIncome);
    var higher := TaxCalculation(rt, income + 1000.0, status, false, spouseIncome);
    NetTaxIsCents(rt, income, status, spouseIncome);
    NetTaxIsCents(rt, income + 1000.0, status, spouseIncome);
    ReportSplits(income, current, higher);
  }

  lemma NetTaxIsCents(rt: RateTable, income: real, status: string, spouseIncome: Option<real>)
    ensures IsCents(TaxCalculation(rt, income, status, false, spouseIncome).breakdown.netTax)
  {
  }

  /** A report from two whole-cent net taxes splits the 1000 euros exactly. */
  lemma ReportSplits(income: real, current: Calculation, higher: Calculation)
    requires IsCents(current.breakdown.netTax) && IsCents(higher.breakdown.netTax)
    ensures var r := ReportFrom(income, current, higher);
      && r.taxOnNext1000 == higher.breakdown.netTax - current.breakdown.netTax
      && r.taxOnNext1000 + r.netFromNext1000 == 1000.0
      && -0.05 <= r.effectiveMarginalRate * 10.0 - r.taxOnNext1000 <= 0.05
  {
    CentsSplit(higher.breakdown.netTax, current.breakdown.netTax);
  }

  /** The difference of two whole-cent amounts, and 1000 less it, round to themselves. */
  lemma CentsSplit(a: real, b: real)
    requires IsCents(a) && IsCents(b)
    ensures Round2(a - b) == a - b && Round2(1000.0 - (a - b)) == 1000.0 - (a - b)
    ensures -0.05 <= Round2((a - b) / 1000.0 * 100.0) * 10.0 - (a - b) <= 0.05
  {
    CentsSubtract(a, b);
    RoundCents(a - b);
    assert IsCents(1000.0);
    CentsSubtract(1000.0, a - b);
    RoundCents(1000.0 - (a - b));
    RoundError((a - b) / 1000.0 * 100.0);
  }

  /** Earning more never lowers the net tax, so the tax on the next 1000 euros is never negative. */
  lemma ExtraNetTaxNonNegative(rt: RateTable, income: real, status: string, spouseIncome: Option<real>)
    requires WellFormed(rt)
    ensures 0.0 <= ExtraNetTax(rt, income, status, spouseIncome)
  {
    NetTaxMonotone(rt, income, income + 1000.0, status, false, spouseIncome);
  }

  /** Inside USC band `k`, the band-based marginal rate is made of that band's rate. */
  lemma BandMarginalRate(rt: RateTable, income: real, status: string, spouseIncome: Option<real>, k: nat)
    requires UscWellFormed(rt.uscBands) && InBand(rt.uscBands, k, income)
    ensures MarginalReportOf(rt, income, status, spouseIncome).marginalTaxRate
         == Round2((IncomeTaxMarginalRate(rt, income, status, spouseIncome) + rt.uscBands[k].rate + rt.prsiRate) * 100.0)
  {
    UscMarginalIsBandRate(rt.uscBands, k, income);
  }

  /**
   * When the next 1000 euros stay inside one USC band and on one side of the
   * standard-rate band, and the credits are already used up, the tax on them is
   * the band-based marginal rate times 1000, to within a cent.
   */
  lemma ExtraTaxAtBandRate(rt: RateTable, income: real, status: string, spouseIncome: Option<real>, k: nat)
    requires WellFormed(rt)
    requires InBand(rt.uscBands, k, income)
    requires rt.uscBands[k].limit.Some? ==> income + 1000.0 <= rt.uscBands[k].limit.value
    requires var band := StandardRateBand(rt, status, spouseIncome);
      income >= band || income + 1000.0 <= band
    requires TaxCreditsDue(rt, status, false) <= GrossTax(rt, income, status, spouseIncome)
    ensures var rate := IncomeTaxMarginalRate(rt, income, status, spouseIncome)
                        + rt.uscBands[k].rate + rt.prsiRate;
      && MarginalReportOf(rt, income, status, spouseIncome).marginalTaxRate == Round2(rate * 100.0)
      && -0.01 <= ExtraNetTax(rt, income, status, spouseIncome) - 1000.0 * rate <= 0.01
  {
    BandMarginalRate(rt, income, status, spouseIncome, k);
    var y := income + 1000.0;
    GrossStep(rt, income, status, spouseIncome, k);
    GrossTaxMonotone(rt, income, y, status, spouseIncome);
    var gx, gy := GrossTax(rt, income, status, spouseIncome), GrossTax(rt, y, status, spouseIncome);
    var credits := TaxCreditsDue(rt, status, false);
    ExtraFromNet(rt, income, status, spouseIncome);
    RoundedStep(NetTax(rt, income, status, false, spouseIncome), NetTax(rt, y, status, false, spouseIncome),
                gx - credits, gy - credits);
  }

  /** The extra net tax is the difference of the two rounded net taxes. */
  lemma ExtraFromNet(rt: RateTable, income: real, status: string, spouseIncome: Option<real>)
    ensures ExtraNetTax(rt, income, status, spouseIncome)
         == Round2(NetTax(rt, income + 1000.0, status, false, spouseIncome)) - Round2(NetTax(rt, income, status, false, spouseIncome))
  {
  }

  /** Two amounts that differ by `d` round to amounts that differ by `d` to within a cent. */
  lemma RoundedStep(nx: real, ny: real, ex: real, ey: real)
    requires nx == ex && ny == ey
    ensures -0.01 <= Round2(ny) - Round2(nx) - (ey - ex) <= 0.01
  {
    RoundError(nx);
    RoundError(ny);
  }

  /** Under the same conditions the gross tax grows by exactly the marginal rate times 1000. */
  lemma GrossStep(rt: RateTable, income: real, status: string, spouseIncome: Option<real>, k: nat)
    requires WellFormed(rt)
    requires InBand(rt.uscBands, k, income)
    requires rt.uscBands[k].limit.Some? ==> income + 1000.0 <= rt.uscBands[k].limit.value
    requires var band := StandardRateBand(rt, status, spouseIncome);
      income >= band || income + 1000.0 <= band
    ensures GrossTax(rt, income + 1000.0, status, spouseIncome) - GrossTax(rt, income, status, spouseIncome)
         == 1000.0 * (IncomeTaxMarginalRate(rt, income, status, spouseIncome) + rt.uscBands[k].rate + rt.prsiRate)
  {
    var y := income + 1000.0;
    IncomeTaxMarginalStep(rt, income, status, spouseIncome);
    UscLinearInBand(rt, k, income, y);
    assert y - income == 1000.0;
    MulDifference(y, income, rt.prsiRate);
    SumDifference(IncomeTax(rt, income, status, spouseIncome), IncomeTax(rt, y, status, spouseIncome),
                  Usc(rt, income), Usc(rt, y), Prsi(rt, income), Prsi(rt, y),
                  IncomeTaxMarginalRate(rt, income, status, spouseIncome), rt.uscBands[k].rate, rt.prsiRate);
  }

  /** On one side of the standard-rate band, income tax grows at the income-tax marginal rate. */
  lemma IncomeTaxMarginalStep(rt: RateTable, income: real, status: string, spouseIncome: Option<real>)
    requires var band := StandardRateBand(rt, status, spouseIncome);
      income >= band || income + 1000.0 <= band
    ensures IncomeTax(rt, income + 1000.0, status, spouseIncome) - IncomeTax(rt, income, status, spouseIncome)
         == (1000.0 * IncomeTaxMarginalRate(rt, income, status, spouseIncome))
  {
    IncomeTaxStep(rt, income, 1000.0, status, spouseIncome);
  }

  lemma SumDifference(ix: real, iy: real, ux: real, uy: real, px: real, py: real, ri: real, ru: real, rp: real)
    requires iy - ix == 1000.0 * ri && uy - ux == 1000.0 * ru && py - px == 1000.0 * rp
    ensures (iy + uy + py) - (ix + ux + px) == 1000.0 * (ri + ru + rp)
  {
  }

  // ---------------------------------------------------------------------------
  // compareScenarios

  /** One element of the `scenarios` list; the first two fields must be present. */
  datatype Scenario = Scenario(
    annualIncome: Option<real>,
    maritalStatus: Option<string>,
    hasChildren: Option<bool>,
    spouseIncome: Option<real>,
    scenarioLabel: Option<string>)

  /** One entry of the comparison: its 1-based id, its label and its calculation. */
  datatype ScenarioResult = ScenarioResult(scenarioId: nat, scenarioLabel: string, calculation: Calculation)

  /** A scenario the service can be called with: income and marital status present. */
  predicate Complete(s: Scenario) {
    s.annualIncome.Some? && s.maritalStatus.Some?
  }

  /** The label given to a scenario that has none. */
  function DefaultLabel(id: nat): (l: string)
    ensures 9 < |l| && l[..9] == "Scenario " && l[9..] == NatToString(id)
  {
    "Scenario " + NatToString(id)
  }

  /** The entry for the scenario at position `index` of the list. */
  function ScenarioResultOf(rt: RateTable, s: Scenario, index: nat): ScenarioResult
    requires Complete(s)
  {
    ScenarioResult(index + 1, s.scenarioLabel.GetOr(DefaultLabel(index + 1)),
                   TaxCalculation(rt, s.annualIncome.value, s.maritalStatus.value,
                                  s.hasChildren.GetOr(false), s.spouseIncome))
  }

  /**
   * `compareScenarios`: one entry per scenario, in the list's order; a scenario
   * without an income or a marital status makes the service call fail, and the
   * whole comparison with it.
   */
  method CompareScenarios(rt: RateTable, scenarios: seq<Scenario>) returns (r: Result<seq<ScenarioResult>, string>)
    requires WellFormed(rt)
    ensures r.Success? <==> forall i :: 0 <= i < |scenarios| ==> Complete(scenarios[i])
    ensures r.Success? ==> |r.value| == |scenarios|
    ensures r.Success? ==> forall i :: 0 <= i < |scenarios| ==> r.value[i] == ScenarioResultOf(rt, scenarios[i], i)
  {
    var results: seq<ScenarioResult> := [];
    for index := 0 to |scenarios|
      invariant |results| == index
      invariant forall j :: 0 <= j < index ==> Complete(scenarios[j])
      invariant forall j :: 0 <= j < index ==> results[j] == ScenarioResultOf(rt, scenarios[j], j)
    {
      var scenario := scenarios[index];
      if scenario.annualIncome.None? || scenario.maritalStatus.None? {
        return Failure("TypeError");
      }
      var calculation := CalculateTax(rt, scenario.annualIncome.value, scenario.maritalStatus.value,
                                      scenario.hasChildren.GetOr(false), scenario.spouseIncome);
      results := results + [ScenarioResult(index + 1, scenario.scenarioLabel.GetOr(DefaultLabel(index + 1)), calculation)];
    }
    r := Success(results);
  }

  /** Two unlabelled scenarios never share a label. */
  lemma DefaultLabelsDistinct(rt: RateTable, ss: seq<Scenario>, i: nat, j: nat)
    requires i < |ss| && j < |ss| && Complete(ss[i]) && Complete(ss[j])
    requires ss[i].scenarioLabel.None? && ss[j].scenarioLabel.None? && i != j
    ensures ScenarioResultOf(rt, ss[i], i).scenarioLabel != ScenarioResultOf(rt, ss[j], j).scenarioLabel
  {
    if DefaultLabel(i + 1) == DefaultLabel(j + 1) {
      assert NatToString(i + 1) == DefaultLabel(i + 1)[9..];
      assert NatToString(j + 1) == DefaultLabel(j + 1)[9..];
      NatToStringInjective(i + 1, j + 1);
    }
  }
}
