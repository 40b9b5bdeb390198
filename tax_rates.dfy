/**
 * The 2025 Irish rate table (income-tax rates and bands, USC bands, PRSI,
 * tax credits, year) as an immutable configuration value, and its array form.
 */
module TaxRates {
  import opened Wrappers

  datatype IncomeTaxRates = IncomeTaxRates(standardRate: real, higherRate: real)

  datatype IncomeTaxBands = IncomeTaxBands(
    single: real,
    marriedOneIncome: real,
    marriedTwoIncomesBase: real,
    marriedTwoIncomesMaxIncrease: real,
    singleParent: real)

  /** A USC band: income up to `limit` (None: no upper limit) is charged at `rate`. */
  datatype UscBand = UscBand(limit: Option<real>, rate: real)

  datatype TaxCredits = TaxCredits(
    singlePerson: real,
    marriedPerson: real,
    employeePaye: real,
    singleParentChildCarer: real)

  datatype RateTable = RateTable(
    incomeTaxRates: IncomeTaxRates,
    incomeTaxBands: IncomeTaxBands,
    uscBands: seq<UscBand>,
    prsiRate: real,
    taxCredits: TaxCredits,
    year: int)

  const Table2025: RateTable := RateTable(
    IncomeTaxRates(0.20, 0.40),
    IncomeTaxBands(44000.0, 53000.0, 53000.0, 35000.0, 48000.0),
    [ UscBand(Some(12012.0), 0.005),
      UscBand(Some(27382.0), 0.02),
      UscBand(Some(70044.0), 0.03),
      UscBand(None, 0.08) ],
    0.042,
    TaxCredits(2000.0, 4000.0, 2000.0, 1900.0),
    2025)

  /**
   * USC bands are well formed when exactly one band, the last, has no limit,
   * the finite limits are positive and strictly ascending, and no rate is negative.
   */
  predicate UscWellFormed(bs: seq<UscBand>) {
    && 1 <= |bs|
    && bs[|bs| - 1].limit.None?
    && (forall i :: 0 <= i < |bs| - 1 ==> bs[i].limit.Some? && 0.0 < bs[i].limit.value)
    && (forall i :: 0 < i < |bs| - 1 ==> bs[i - 1].limit.value < bs[i].limit.value)
    && (forall i :: 0 <= i < |bs| ==> 0.0 <= bs[i].rate)
  }

  /** A usable table: well-formed USC bands and no negative rate, band or credit. */
  predicate WellFormed(rt: RateTable) {
    var b, c := rt.incomeTaxBands, rt.taxCredits;
    && UscWellFormed(rt.uscBands)
    && 0.0 <= rt.incomeTaxRates.standardRate
    && 0.0 <= rt.incomeTaxRates.higherRate
    && 0.0 <= rt.prsiRate
    && 0.0 <= b.single && 0.0 <= b.marriedOneIncome && 0.0 <= b.marriedTwoIncomesBase
    && 0.0 <= b.marriedTwoIncomesMaxIncrease && 0.0 <= b.singleParent
    && 0.0 <= c.singlePerson && 0.0 <= c.marriedPerson && 0.0 <= c.employeePaye
    && 0.0 <= c.singleParentChildCarer
  }

  /** In well-formed USC bands exactly one band is unbounded. */
  lemma ExactlyOneUnbounded(bs: seq<UscBand>)
    requires UscWellFormed(bs)
    ensures (set i | 0 <= i < |bs| && bs[i].limit.None?) == {|bs| - 1}
  {
  }

  lemma Table2025WellFormed()
    ensures WellFormed(Table2025)
  {
  }

  /** The ordering facts the 2025 constants satisfy. */
  lemma Table2025Constants()
    ensures Table2025.incomeTaxRates.standardRate < Table2025.incomeTaxRates.higherRate
    ensures Table2025.incomeTaxBands.single < Table2025.incomeTaxBands.singleParent
              < Table2025.incomeTaxBands.marriedOneIncome
              == Table2025.incomeTaxBands.marriedTwoIncomesBase
    ensures [12012.0, 27382.0, 70044.0] == [Table2025.uscBands[0].limit.value,
              Table2025.uscBands[1].limit.value, Table2025.uscBands[2].limit.value]
    ensures Table2025.year == 2025
  {
  }

  // ---------------------------------------------------------------------------
  // The array form returned by `asArray`.

  /** A PHP array value: null, a number, a list, or an ordered string-keyed map. */
  datatype PhpValue =
    | PNull
    | PNum(num: real)
    | PList(items: seq<PhpValue>)
    | PAssoc(entries: seq<(string, PhpValue)>)

  /** The value stored under `key` in an associative array. */
  function Get(v: PhpValue, key: string): Option<PhpValue> {
    if !v.PAssoc? then None else Find(v.entries, key)
  }

  function Find(es: seq<(string, PhpValue)>, key: string): Option<PhpValue> {
    if es == [] then None
    else if es[0].0 == key then Some(es[0].1)
    else Find(es[1..], key)
  }

  /** Lookup finds the first entry with the key. */
  lemma {:induction false} FindAt(es: seq<(string, PhpValue)>, key: string, i: nat)
    requires i < |es| && es[i].0 == key
    requires forall j :: 0 <= j < i ==> es[j].0 != key
    ensures Find(es, key) == Some(es[i].1)
  {
    if i > 0 {
      FindAt(es[1..], key, i - 1);
    }
  }

  function Keys(v: PhpValue): seq<string> {
    if v.PAssoc? then seq(|v.entries|, i requires 0 <= i < |v.entries| => v.entries[i].0) else []
  }

  function BandArray(b: UscBand): PhpValue {
    PAssoc([("limit", match b.limit case Some(l) => PNum(l) case None => PNull),
            ("rate", PNum(b.rate))])
  }

  function BandsArray(bs: seq<UscBand>): (r: seq<PhpValue>)
    ensures |r| == |bs|
    ensures forall i :: 0 <= i < |bs| ==> r[i] == BandArray(bs[i])
  {
    if bs == [] then [] else [BandArray(bs[0])] + BandsArray(bs[1..])
  }

  function RatesArray(r: IncomeTaxRates): PhpValue {
    PAssoc([("standard_rate", PNum(r.standardRate)), ("higher_rate", PNum(r.higherRate))])
  }

  function IncomeBandsArray(b: IncomeTaxBands): PhpValue {
    PAssoc([("single", PNum(b.single)),
            ("married_one_income", PNum(b.marriedOneIncome)),
            ("married_two_incomes_base", PNum(b.marriedTwoIncomesBase)),
            ("married_two_incomes_max_increase", PNum(b.marriedTwoIncomesMaxIncrease)),
            ("single_parent", PNum(b.singleParent))])
  }

  function CreditsArray(c: TaxCredits): PhpValue {
    PAssoc([("single_person", PNum(c.singlePerson)),
            ("married_person", PNum(c.marriedPerson)),
            ("employee_paye", PNum(c.employeePaye)),
            ("single_parent_child_carer", PNum(c.singleParentChildCarer))])
  }

  /** `asArray`: the table as nested arrays under income_tax, usc, prsi, tax_credits and year. */
  function AsArray(rt: RateTable): (v: PhpValue)
    ensures Keys(v) == ["income_tax", "usc", "prsi", "tax_credits", "year"]
  {
    PAssoc([
      ("income_tax", PAssoc([("rates", RatesArray(rt.incomeTaxRates)),
                             ("bands", IncomeBandsArray(rt.incomeTaxBands))])),
      ("usc", PAssoc([("bands", PList(BandsArray(rt.uscBands)))])),
      ("prsi", PAssoc([("rate", PNum(rt.prsiRate))])),
      ("tax_credits", CreditsArray(rt.taxCredits)),
      ("year", PNum(rt.year as real))])
  }

  // Reading a table back from its array form; used to show that the array form
  // carries every constant.

  function NumAt(v: PhpValue, key: string): Option<real> {
    match Get(v, key)
    case Some(PNum(n)) => Some(n)
    case _ => None
  }

  function BandFromArray(v: PhpValue): Option<UscBand> {
    match (Get(v, "limit"), NumAt(v, "rate"))
    case (Some(PNull), Some(rate)) => Some(UscBand(None, rate))
    case (Some(PNum(l)), Some(rate)) => Some(UscBand(Some(l), rate))
    case _ => None
  }

  function BandsFromArray(vs: seq<PhpValue>): Option<seq<UscBand>> {
    if vs == [] then Some([])
    else match (BandFromArray(vs[0]), BandsFromArray(vs[1..]))
      case (Some(b), Some(rest)) => Some([b] + rest)
      case _ => None
  }

  function RatesFromArray(v: PhpValue): Option<IncomeTaxRates> {
    var sr :- NumAt(v, "standard_rate");
    var hr :- NumAt(v, "higher_rate");
    Some(IncomeTaxRates(sr, hr))
  }

  function IncomeBandsFromArray(v: PhpValue): Option<IncomeTaxBands> {
    var single :- NumAt(v, "single");
    var one :- NumAt(v, "married_one_income");
    var base :- NumAt(v, "married_two_incomes_base");
    var increase :- NumAt(v, "married_two_incomes_max_increase");
    var parent :- NumAt(v, "single_parent");
    Some(IncomeTaxBands(single, one, base, increase, parent))
  }

  function CreditsFromArray(v: PhpValue): Option<TaxCredits> {
    var c1 :- NumAt(v, "single_person");
    var c2 :- NumAt(v, "married_person");
    var c3 :- NumAt(v, "employee_paye");
    var c4 :- NumAt(v, "single_parent_child_carer");
    Some(TaxCredits(c1, c2, c3, c4))
  }

  function FromArray(v: PhpValue): Option<RateTable> {
    var it :- Get(v, "income_tax");
    var ratesArray :- Get(it, "rates");
    var rates :- RatesFromArray(ratesArray);
    var bandsArray :- Get(it, "bands");
    var bands :- IncomeBandsFromArray(bandsArray);
    var usc :- Get(v, "usc");
    var uscList :- Get(usc, "bands");
    var uscBands :- if uscList.PList? then BandsFromArray(uscList.items) else None;
    var prsi :- Get(v, "prsi");
    var prsiRate :- NumAt(prsi, "rate");
    var creditsArray :- Get(v, "tax_credits");
    var credits :- CreditsFromArray(creditsArray);
    var y :- NumAt(v, "year");
    if y.Floor as real == y then Some(RateTable(rates, bands, uscBands, prsiRate, credits, y.Floor))
    else None
  }

  lemma {:induction false} BandsRoundTrip(bs: seq<UscBand>)
    ensures BandsFromArray(BandsArray(bs)) == Some(bs)
  {
    if bs != [] {
      BandsRoundTrip(bs[1..]);
      var vs := BandsArray(bs);
      assert vs[1..] == BandsArray(bs[1..]);
      var e := vs[0].entries;
      FindAt(e, "limit", 0);
      FindAt(e, "rate", 1);
      assert BandFromArray(vs[0]) == Some(bs[0]);
      assert [bs[0]] + bs[1..] == bs;
    }
  }

  lemma RatesRoundTrip(r: IncomeTaxRates)
    ensures RatesFromArray(RatesArray(r)) == Some(r)
  {
    var e := RatesArray(r).entries;
    FindAt(e, "standard_rate", 0);
    FindAt(e, "higher_rate", 1);
  }

  lemma IncomeBandsRoundTrip(b: IncomeTaxBands)
    ensures IncomeBandsFromArray(IncomeBandsArray(b)) == Some(b)
  {
    var e := IncomeBandsArray(b).entries;
    FindAt(e, "single", 0);
    FindAt(e, "married_one_income", 1);
    FindAt(e, "married_two_incomes_base", 2);
    FindAt(e, "married_two_incomes_max_increase", 3);
    FindAt(e, "single_parent", 4);
  }

  lemma CreditsRoundTrip(c: TaxCredits)
    ensures CreditsFromArray(CreditsArray(c)) == Some(c)
  {
    var e := CreditsArray(c).entries;
    FindAt(e, "single_person", 0);
    FindAt(e, "married_person", 1);
    FindAt(e, "employee_paye", 2);
    FindAt(e, "single_parent_child_carer", 3);
  }

  /** Each top-level key of `asArray` holds its section. */
  lemma AsArrayLookups(rt: RateTable)
    ensures Get(AsArray(rt), "income_tax")
         == Some(PAssoc([("rates", RatesArray(rt.incomeTaxRates)), ("bands", IncomeBandsArray(rt.incomeTaxBands))]))
    ensures Get(AsArray(rt), "usc") == Some(PAssoc([("bands", PList(BandsArray(rt.uscBands)))]))
    ensures Get(AsArray(rt), "prsi") == Some(PAssoc([("rate", PNum(rt.prsiRate))]))
    ensures Get(AsArray(rt), "tax_credits") == Some(CreditsArray(rt.taxCredits))
    ensures Get(AsArray(rt), "year") == Some(PNum(rt.year as real))
  {
    var top := AsArray(rt).entries;
    FindAt(top, "income_tax", 0);
    FindAt(top, "usc", 1);
    FindAt(top, "prsi", 2);
    FindAt(top, "tax_credits", 3);
    FindAt(top, "year", 4);
  }

  /** `asArray` loses nothing: the table reads back from its array form. */
  lemma AsArrayRoundTrip(rt: RateTable)
    ensures FromArray(AsArray(rt)) == Some(rt)
  {
    AsArrayLookups(rt);
    var it := AsArray(rt).entries[0].1.entries;
    FindAt(it, "rates", 0);
    FindAt(it, "bands", 1);
    FindAt([("bands", PList(BandsArray(rt.uscBands)))], "bands", 0);
    FindAt([("rate", PNum(rt.prsiRate))], "rate", 0);
    RatesRoundTrip(rt.incomeTaxRates);
    IncomeBandsRoundTrip(rt.incomeTaxBands);
    CreditsRoundTrip(rt.taxCredits);
    BandsRoundTrip(rt.uscBands);
  }

  /** `asArray` has exactly the five top-level keys, in order, and the table's year. */
  lemma AsArrayShape(rt: RateTable)
    ensures Keys(AsArray(rt)) == ["income_tax", "usc", "prsi", "tax_credits", "year"]
    ensures Get(AsArray(rt), "income_tax").Some?
    ensures Keys(Get(AsArray(rt), "income_tax").value) == ["rates", "bands"]
    ensures Get(AsArray(rt), "usc").Some? && Keys(Get(AsArray(rt), "usc").value) == ["bands"]
    ensures Get(AsArray(rt), "prsi").Some? && Keys(Get(AsArray(rt), "prsi").value) == ["rate"]
    ensures Get(AsArray(rt), "year") == Some(PNum(rt.year as real))
  {
    var top := AsArray(rt).entries;
    FindAt(top, "income_tax", 0);
    FindAt(top, "usc", 1);
    FindAt(top, "prsi", 2);
    FindAt(top, "year", 4);
  }
}
