/**
 * The calculations the project's own tests check, worked out on the 2025 table.
 */
module TaxScenarios {
  import opened Wrappers
  import opened Money
  import opened TaxRates
  import opened TaxEngine
  import opened TaxController

  /** EUR 30,000, single: all income tax at 20%, USC into the third band, marginal rate 27.2%. */
  lemma Single30000()
    ensures var c := TaxCalculation(Table2025, 30000.0, "single", false, None);
      && c.breakdown == Breakdown(6000.0, 446.0, 1260.0, 7706.0, 4000.0, 3706.0)
      && c.netIncome == 26294.0
      && c.effectiveTaxRate == 12.35
      && c.marginalTaxRate == 27.2
  {
    assert IncomeTax(Table2025, 30000.0, "single", None) == 6000.0;
    Usc2025(30000.0);
    assert Prsi(Table2025, 30000.0) == 1260.0;
    assert TaxCreditsDue(Table2025, "single", false) == 4000.0;
    RoundCents(6000.0);
    RoundCents(446.0);
    RoundCents(1260.0);
    RoundCents(7706.0);
    RoundCents(4000.0);
    RoundCents(3706.0);
    RoundCents(26294.0);
    assert Round2(3706.0 / 30000.0 * 100.0) == 12.35;
    UscMarginalRate2025(30000.0);
    RoundCents(27.2);
  }

  /** EUR 60,000, single: EUR 16,000 above the band at 40%, marginal rate 47.2%. */
  lemma Single60000()
    ensures var c := TaxCalculation(Table2025, 60000.0, "single", false, None);
      c.breakdown.incomeTax == 15200.0 && c.marginalTaxRate == 47.2
  {
    assert IncomeTax(Table2025, 60000.0, "single", None) == 15200.0;
    RoundCents(15200.0);
    UscMarginalRate2025(60000.0);
    RoundCents(47.2);
  }

  /** Exactly at the single band, all income tax is at the standard rate. */
  lemma Single44000()
    ensures TaxCalculation(Table2025, 44000.0, "single", false, None).breakdown.incomeTax == 8800.0
  {
    assert IncomeTax(Table2025, 44000.0, "single", None) == 8800.0;
    RoundCents(8800.0);
  }

  /** EUR 80,000, single: EUR 8,800 at 20% and EUR 14,400 at 40%. */
  lemma Single80000()
    ensures TaxCalculation(Table2025, 80000.0, "single", false, None).breakdown.incomeTax == 23200.0
  {
    assert IncomeTax(Table2025, 80000.0, "single", None) == 23200.0;
    RoundCents(23200.0);
  }

  /** Married with a spouse earning nothing: the one-income band of EUR 53,000 and EUR 6,000 of credits. */
  lemma MarriedOneIncome60000()
    ensures var c := TaxCalculation(Table2025, 60000.0, "married", false, Some(0.0));
      c.breakdown.incomeTax == 13400.0 && c.breakdown.taxCredits == 6000.0
  {
    assert IncomeTax(Table2025, 60000.0, "married", Some(0.0)) == 13400.0;
    assert TaxCreditsDue(Table2025, "married", false) == 6000.0;
    RoundCents(13400.0);
    RoundCents(6000.0);
  }

  /** Married with a spouse earning EUR 25,000: the band grows to EUR 78,000, so all 60,000 is at 20%. */
  lemma MarriedTwoIncomes60000()
    ensures StandardRateBand(Table2025, "married", Some(25000.0)) == 78000.0
    ensures TaxCalculation(Table2025, 60000.0, "married", false, Some(25000.0)).breakdown.incomeTax == 12000.0
  {
    assert IncomeTax(Table2025, 60000.0, "married", Some(25000.0)) == 12000.0;
    RoundCents(12000.0);
  }

  /** A single parent with children gets the single, PAYE and child carer credits. */
  lemma SingleWithChildren40000()
    ensures TaxCalculation(Table2025, 40000.0, "single", true, None).breakdown.taxCredits == 5900.0
  {
    assert TaxCreditsDue(Table2025, "single", true) == 5900.0;
    RoundCents(5900.0);
  }

  /** USC on EUR 50,000 is the sum over the first three bands. */
  lemma Usc50000()
    ensures TaxCalculation(Table2025, 50000.0, "single", false, None).breakdown.usc
         == Round2(12012.0 * 0.005 + 15370.0 * 0.02 + 22618.0 * 0.03) == 1046.0
  {
    Usc2025(50000.0);
    RoundCents(1046.0);
  }

  /** EUR 500,000: over EUR 100,000 of net tax and an effective rate above 30%. */
  lemma Single500000()
    ensures var c := TaxCalculation(Table2025, 500000.0, "single", false, None);
      c.breakdown.netTax > 100000.0 && c.netIncome < 500000.0 && c.effectiveTaxRate > 30.0
  {
    Usc2025(500000.0);
  }

  /** At zero income on the 2025 table the marginal rate is 20% + 0% + 4.2%. */
  lemma ZeroIncome2025()
    ensures TaxCalculation(Table2025, 0.0, "single", false, None).marginalTaxRate == 24.2
  {
    UscMarginalRate2025(0.0);
    assert IncomeTaxMarginalRate(Table2025, 0.0, "single", None) == 0.20;
    RoundCents(24.2);
  }

  /** EUR 36,000 a year is EUR 3,000 a month; EUR 50,000 is EUR 4,166.67. */
  lemma MonthlyGross()
    ensures MonthlyOf(TaxCalculation(Table2025, 36000.0, "single", false, None)).monthlyGrossIncome == 3000.0
    ensures MonthlyOf(TaxCalculation(Table2025, 50000.0, "single", false, None)).monthlyGrossIncome == 4166.67
  {
    assert TaxCalculation(Table2025, 36000.0, "single", false, None).annualIncome == 36000.0;
    assert TaxCalculation(Table2025, 50000.0, "single", false, None).annualIncome == 50000.0;
    RoundCents(3000.0);
    assert Round2(50000.0 / 12.0) == 4166.67;
  }

  /**
   * At exactly EUR 12,012 the reported USC marginal rate is the first band's 0.5%,
   * while the next euro is charged at the second band's 2%: the USC part reports the
   * rate on the last euro, the income-tax part the rate on the next one.
   */
  lemma UscBoundary12012()
    ensures UscMarginalRate(Table2025.uscBands, 12012.0) == 0.005
    ensures Usc(Table2025, 12013.0) - Usc(Table2025, 12012.0) == 0.02
    ensures IncomeTaxMarginalRate(Table2025, 44000.0, "single", None) == 0.40
    ensures IncomeTax(Table2025, 44000.0, "single", None) - IncomeTax(Table2025, 43999.0, "single", None) == 0.20
  {
    UscMarginalRate2025(12012.0);
    Usc2025(12012.0);
    Usc2025(12013.0);
  }

  /**
   * EUR 45,000, single: the next EUR 1,000 costs EUR 472 (40% income tax, 3% USC,
   * 4.2% PRSI), so the measured and the band-based marginal rates are both 47.2%.
   */
  lemma Marginal45000()
    ensures MarginalReportOf(Table2025, 45000.0, "single", None)
         == MarginalReport(45000.0, 47.2, 47.2, 472.0, 528.0)
  {
    Usc2025(45000.0);
    Usc2025(46000.0);
    assert IncomeTax(Table2025, 45000.0, "single", None) == 9200.0;
    assert IncomeTax(Table2025, 46000.0, "single", None) == 9600.0;
    assert NetTax(Table2025, 45000.0, "single", false, None) == 7986.0;
    assert NetTax(Table2025, 46000.0, "single", false, None) == 8458.0;
    RoundCents(7986.0);
    RoundCents(8458.0);
    assert ExtraNetTax(Table2025, 45000.0, "single", None) == 472.0;
    RoundCents(472.0);
    RoundCents(528.0);
    RoundCents(47.2);
    UscMarginalRate2025(45000.0);
  }
}
