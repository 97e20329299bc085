/**
 * The property-metrics engine: gross and effective gross income, vacancy
 * loss, the ten operating-expense categories (four of them estimated from a
 * rate when not supplied), net operating income and the capitalization rate,
 * every figure rounded to two decimal places.
 *
 * Amounts are exact reals. `ExactMetrics` is the computation before
 * rounding; `CalculatePropertyMetrics` is the record the engine returns.
 */
module Calculations {
  import opened Wrappers
  import opened Rounding

  /** The rates used to estimate an expense that was not supplied. */
  datatype EstimateRates = EstimateRates(
    propertyTaxRate: real,    // fraction of the purchase price
    insuranceRate: real,      // fraction of the purchase price
    managementRate: real,     // fraction of the effective gross income
    maintenanceRate: real)    // fraction of the effective gross income

  const DefaultRates := EstimateRates(0.015, 0.003, 0.08, 0.10)
  const DefaultVacancyRate: real := 0.05

  /**
   * The engine's arguments. The four estimable expenses are optional:
   * `None` asks for an estimate, `Some(0.0)` is a genuine zero expense.
   */
  datatype MetricsInput = MetricsInput(
    purchasePrice: real,
    annualRentalIncome: real,
    otherIncome: real,
    propertyTaxes: Option<real>,
    insurance: Option<real>,
    propertyManagement: Option<real>,
    maintenanceRepairs: Option<real>,
    utilities: real,
    advertisingMarketing: real,
    legalAccounting: real,
    landscaping: real,
    pestControl: real,
    otherExpenses: real,
    vacancyRate: real,
    rates: EstimateRates)

  /** A call that passes only the two required arguments: every other one at its declared default. */
  function DefaultInput(purchasePrice: real, annualRentalIncome: real): (inp: MetricsInput) {
    MetricsInput(purchasePrice, annualRentalIncome, 0.0,
                 None, None, None, None,
                 0.0, 0.0, 0.0, 0.0, 0.0, 0.0,
                 DefaultVacancyRate, DefaultRates)
  }

  /** The resolved value of each of the ten expense categories. */
  datatype ExpenseBreakdown = ExpenseBreakdown(
    propertyTaxes: real,
    insurance: real,
    propertyManagement: real,
    maintenanceRepairs: real,
    utilities: real,
    advertisingMarketing: real,
    legalAccounting: real,
    landscaping: real,
    pestControl: real,
    otherExpenses: real)

  /** The engine's result record. */
  datatype Metrics = Metrics(
    capRate: real,
    noi: real,
    grossIncome: real,
    effectiveGrossIncome: real,
    vacancyLoss: real,
    totalExpenses: real,
    expenseBreakdown: ExpenseBreakdown)

  /** The ten category values, in the order the breakdown lists them. */
  function Values(b: ExpenseBreakdown): (vs: seq<real>)
    ensures |vs| == 10
  {
    [b.propertyTaxes, b.insurance, b.propertyManagement, b.maintenanceRepairs,
     b.utilities, b.advertisingMarketing, b.legalAccounting, b.landscaping,
     b.pestControl, b.otherExpenses]
  }

  function Sum(s: seq<real>): (total: real) {
    if s == [] then 0.0 else Sum(s[..|s| - 1]) + s[|s| - 1]
  }

  /** A resolved estimable expense: the supplied value if there is one, the estimate otherwise. */
  ghost predicate Resolved(supplied: Option<real>, value: real, estimate: real) {
    match supplied
    case Some(v) => value == v
    case None => value == estimate
  }

  /**
   * What the engine promises of its figures before rounding: income and
   * vacancy relations, how each category is resolved, the total as the sum
   * of the ten categories, NOI, and the guarded cap rate.
   */
  ghost predicate MeetsInvariants(inp: MetricsInput, m: Metrics) {
    var b := m.expenseBreakdown;
    && m.grossIncome == inp.annualRentalIncome + inp.otherIncome
    && m.vacancyLoss == m.grossIncome * inp.vacancyRate
    && m.effectiveGrossIncome == m.grossIncome - m.vacancyLoss
    && Resolved(inp.propertyTaxes, b.propertyTaxes, inp.purchasePrice * inp.rates.propertyTaxRate)
    && Resolved(inp.insurance, b.insurance, inp.purchasePrice * inp.rates.insuranceRate)
    && Resolved(inp.propertyManagement, b.propertyManagement, m.effectiveGrossIncome * inp.rates.managementRate)
    && Resolved(inp.maintenanceRepairs, b.maintenanceRepairs, m.effectiveGrossIncome * inp.rates.maintenanceRate)
    && b.utilities == inp.utilities
    && b.advertisingMarketing == inp.advertisingMarketing
    && b.legalAccounting == inp.legalAccounting
    && b.landscaping == inp.landscaping
    && b.pestControl == inp.pestControl
    && b.otherExpenses == inp.otherExpenses
    && m.totalExpenses == Sum(Values(b))
    && m.noi == m.effectiveGrossIncome - m.totalExpenses
    && (inp.purchasePrice > 0.0 ==> m.capRate == (m.noi / inp.purchasePrice) * 100.0)
    && (inp.purchasePrice <= 0.0 ==> m.capRate == 0.0)
  }

  /** The sum of a breakdown's values is the ten-term addition, left to right. */
  lemma {:induction false} SumOfValues(b: ExpenseBreakdown)
    ensures Sum(Values(b)) ==
      b.propertyTaxes + b.insurance + b.propertyManagement + b.maintenanceRepairs +
      b.utilities + b.advertisingMarketing + b.legalAccounting + b.landscaping +
      b.pestControl + b.otherExpenses
  {
    var vs := Values(b);
    assert Sum(vs[..1]) == vs[0] by { assert vs[..1][..0] == []; }
    assert Sum(vs[..2]) == Sum(vs[..1]) + vs[1] by { assert vs[..2][..1] == vs[..1]; }
    assert Sum(vs[..3]) == Sum(vs[..2]) + vs[2] by { assert vs[..3][..2] == vs[..2]; }
    assert Sum(vs[..4]) == Sum(vs[..3]) + vs[3] by { assert vs[..4][..3] == vs[..3]; }
    assert Sum(vs[..5]) == Sum(vs[..4]) + vs[4] by { assert vs[..5][..4] == vs[..4]; }
    assert Sum(vs[..6]) == Sum(vs[..5]) + vs[5] by { assert vs[..6][..5] == vs[..5]; }
    assert Sum(vs[..7]) == Sum(vs[..6]) + vs[6] by { assert vs[..7][..6] == vs[..6]; }
    assert Sum(vs[..8]) == Sum(vs[..7]) + vs[7] by { assert vs[..8][..7] == vs[..7]; }
    assert Sum(vs[..9]) == Sum(vs[..8]) + vs[8] by { assert vs[..9][..8] == vs[..8]; }
    assert Sum(vs) == Sum(vs[..9]) + vs[9] by { assert vs[..9] == vs[..|vs| - 1]; }
  }

  /** The four estimable expenses resolved against their bases, the six others as supplied. */
  function ResolveExpenses(inp: MetricsInput, effectiveGrossIncome: real): (b: ExpenseBreakdown) {
    ExpenseBreakdown(
      inp.propertyTaxes.GetOr(inp.purchasePrice * inp.rates.propertyTaxRate),
      inp.insurance.GetOr(inp.purchasePrice * inp.rates.insuranceRate),
      inp.propertyManagement.GetOr(effectiveGrossIncome * inp.rates.managementRate),
      inp.maintenanceRepairs.GetOr(effectiveGrossIncome * inp.rates.maintenanceRate),
      inp.utilities, inp.advertisingMarketing, inp.legalAccounting,
      inp.landscaping, inp.pestControl, inp.otherExpenses)
  }

  /** NOI over the price as a percentage, with the division guarded by a positive price. */
  function CapRate(noi: real, purchasePrice: real): (capRate: real) {
    if purchasePrice > 0.0 then (noi / purchasePrice) * 100.0 else 0.0
  }

  /** Gross income less the vacancy loss. */
  function EffectiveGrossIncome(inp: MetricsInput): (egi: real) {
    var grossIncome := inp.annualRentalIncome + inp.otherIncome;
    grossIncome - grossIncome * inp.vacancyRate
  }

  /** The figures before rounding, computed in the engine's own order. */
  function ExactMetrics(inp: MetricsInput): (m: Metrics)
    ensures MeetsInvariants(inp, m)
  {
    var grossIncome := inp.annualRentalIncome + inp.otherIncome;
    var vacancyLoss := grossIncome * inp.vacancyRate;
    var effectiveGrossIncome := EffectiveGrossIncome(inp);
    var b := ResolveExpenses(inp, effectiveGrossIncome);
    var totalExpenses :=
      b.propertyTaxes + b.insurance + b.propertyManagement + b.maintenanceRepairs +
      b.utilities + b.advertisingMarketing + b.legalAccounting +
      b.landscaping + b.pestControl + b.otherExpenses;
    var noi := effectiveGrossIncome - totalExpenses;
    SumOfValues(b);
    Metrics(CapRate(noi, inp.purchasePrice), noi, grossIncome, effectiveGrossIncome,
            vacancyLoss, totalExpenses, b)
  }

  /** The invariants leave no freedom: they describe exactly one record. */
  lemma InvariantsDetermineMetrics(inp: MetricsInput, m: Metrics)
    requires MeetsInvariants(inp, m)
    ensures m == ExactMetrics(inp)
  {
    var e := ExactMetrics(inp);
    assert m.expenseBreakdown == e.expenseBreakdown;
  }

  function RoundBreakdown(b: ExpenseBreakdown): (rb: ExpenseBreakdown) {
    ExpenseBreakdown(
      Round2(b.propertyTaxes), Round2(b.insurance), Round2(b.propertyManagement),
      Round2(b.maintenanceRepairs), Round2(b.utilities), Round2(b.advertisingMarketing),
      Round2(b.legalAccounting), Round2(b.landscaping), Round2(b.pestControl),
      Round2(b.otherExpenses))
  }

  /** `Round2` applied to every field, top-level and inside the breakdown. */
  function Rounded(m: Metrics): (r: Metrics) {
    Metrics(Round2(m.capRate), Round2(m.noi), Round2(m.grossIncome),
            Round2(m.effectiveGrossIncome), Round2(m.vacancyLoss),
            Round2(m.totalExpenses), RoundBreakdown(m.expenseBreakdown))
  }

  /** Every field is a whole number of hundredths. */
  ghost predicate AllCents(m: Metrics) {
    && IsCents(m.capRate) && IsCents(m.noi) && IsCents(m.grossIncome)
    && IsCents(m.effectiveGrossIncome) && IsCents(m.vacancyLoss) && IsCents(m.totalExpenses)
    && forall i :: 0 <= i < 10 ==> IsCents(Values(m.expenseBreakdown)[i])
  }

  ghost predicate Near(x: real, y: real, tolerance: real) {
    -tolerance <= x - y <= tolerance
  }

  /** Every field of `r` is within half a hundredth of the same field of `m`. */
  ghost predicate WithinHalfCent(m: Metrics, r: Metrics) {
    && Near(r.capRate, m.capRate, 0.005) && Near(r.noi, m.noi, 0.005)
    && Near(r.grossIncome, m.grossIncome, 0.005)
    && Near(r.effectiveGrossIncome, m.effectiveGrossIncome, 0.005)
    && Near(r.vacancyLoss, m.vacancyLoss, 0.005)
    && Near(r.totalExpenses, m.totalExpenses, 0.005)
    && forall i :: 0 <= i < 10 ==>
         Near(Values(r.expenseBreakdown)[i], Values(m.expenseBreakdown)[i], 0.005)
  }

  /**
   * The engine. It is total: no numeric input makes it fail, and the cap
   * rate is 0 without any division when the purchase price is not positive.
   */
  function CalculatePropertyMetrics(inp: MetricsInput): (r: Metrics)
    ensures r == Rounded(ExactMetrics(inp))
    ensures AllCents(r)
    ensures WithinHalfCent(ExactMetrics(inp), r)
    ensures inp.purchasePrice <= 0.0 ==> r.capRate == 0.0
  {
    Round2OfCents(0.0);
    Rounded(ExactMetrics(inp))
  }

  // ---------------------------------------------------------------------
  // Properties of the engine
  // ---------------------------------------------------------------------

  /**
   * With every optional argument omitted, taxes are 1.5% and insurance 0.3%
   * of the price, management 8% and maintenance 10% of the effective gross
   * income, which is 95% of the rent; the six other categories are zero.
   */
  lemma DefaultsEstimateAllFour(purchasePrice: real, annualRentalIncome: real)
    ensures var m := ExactMetrics(DefaultInput(purchasePrice, annualRentalIncome));
      && m.effectiveGrossIncome == annualRentalIncome * 0.95
      && m.expenseBreakdown == ExpenseBreakdown(
           purchasePrice * 0.015, purchasePrice * 0.003,
           annualRentalIncome * 0.95 * 0.08, annualRentalIncome * 0.95 * 0.10,
           0.0, 0.0, 0.0, 0.0, 0.0, 0.0)
  {
  }

  /** Gross income is rent plus other income; price, expenses and rates play no part. */
  lemma GrossIncomeDependsOnlyOnIncome(a: MetricsInput, b: MetricsInput)
    requires a.annualRentalIncome == b.annualRentalIncome && a.otherIncome == b.otherIncome
    ensures ExactMetrics(a).grossIncome == a.annualRentalIncome + a.otherIncome
    ensures ExactMetrics(a).grossIncome == ExactMetrics(b).grossIncome
    ensures CalculatePropertyMetrics(a).grossIncome == CalculatePropertyMetrics(b).grossIncome
  {
  }

  /**
   * The vacancy rate is not clamped: above 1 it makes the effective gross
   * income negative, below 0 it raises it above the gross income.
   */
  lemma VacancyRateNotClamped(inp: MetricsInput)
    requires inp.annualRentalIncome + inp.otherIncome > 0.0
    ensures inp.vacancyRate > 1.0 ==> ExactMetrics(inp).effectiveGrossIncome < 0.0
    ensures inp.vacancyRate < 0.0 ==>
      ExactMetrics(inp).effectiveGrossIncome > ExactMetrics(inp).grossIncome
  {
    var g, v := inp.annualRentalIncome + inp.otherIncome, inp.vacancyRate;
    var m := ExactMetrics(inp);
    assert m.grossIncome == g && m.vacancyLoss == g * v;
    if v > 1.0 {
      MulStrictlyMonotone(g, 1.0, v);
    } else if v < 0.0 {
      MulStrictlyMonotone(g, v, 0.0);
    }
  }

  lemma MulStrictlyMonotone(g: real, x: real, y: real)
    requires g > 0.0 && x < y
    ensures g * x < g * y
  {
    assert g * y - g * x == g * (y - x);
  }

  /**
   * A supplied zero is a genuine zero and differs from an omitted value,
   * which is estimated from the purchase price.
   */
  lemma ExplicitZeroIsNotOmitted(inp: MetricsInput)
    requires inp.purchasePrice * inp.rates.propertyTaxRate != 0.0
    ensures ExactMetrics(inp.(propertyTaxes := Some(0.0))).expenseBreakdown.propertyTaxes == 0.0
    ensures ExactMetrics(inp.(propertyTaxes := None)).expenseBreakdown.propertyTaxes != 0.0
  {
  }

  /** Management and maintenance follow the effective gross income: the purchase price plays no part. */
  lemma ManagementIgnoresPrice(a: MetricsInput, price: real)
    ensures var b := ExactMetrics(a.(purchasePrice := price)).expenseBreakdown;
      && b.propertyManagement == ExactMetrics(a).expenseBreakdown.propertyManagement
      && b.maintenanceRepairs == ExactMetrics(a).expenseBreakdown.maintenanceRepairs
  {
    var other := a.(purchasePrice := price);
    assert EffectiveGrossIncome(other) == EffectiveGrossIncome(a) by {
      assert other.annualRentalIncome == a.annualRentalIncome && other.otherIncome == a.otherIncome;
      assert other.vacancyRate == a.vacancyRate;
    }
    var egi := EffectiveGrossIncome(a);
    assert ResolveExpenses(other, egi).propertyManagement == ResolveExpenses(a, egi).propertyManagement by {
      assert other.rates == a.rates && other.propertyManagement == a.propertyManagement;
    }
    assert ResolveExpenses(other, egi).maintenanceRepairs == ResolveExpenses(a, egi).maintenanceRepairs by {
      assert other.rates == a.rates && other.maintenanceRepairs == a.maintenanceRepairs;
    }
    assert ExactMetrics(other).expenseBreakdown == ResolveExpenses(other, egi);
    assert ExactMetrics(a).expenseBreakdown == ResolveExpenses(a, egi);
  }

  /** Taxes and insurance follow the purchase price: the income plays no part. */
  lemma TaxesIgnoreIncome(a: MetricsInput, rent: real, otherIncome: real)
    ensures var b := ExactMetrics(a.(annualRentalIncome := rent, otherIncome := otherIncome)).expenseBreakdown;
      && b.propertyTaxes == ExactMetrics(a).expenseBreakdown.propertyTaxes
      && b.insurance == ExactMetrics(a).expenseBreakdown.insurance
  {
    var other := a.(annualRentalIncome := rent, otherIncome := otherIncome);
    var egi, egiOther := EffectiveGrossIncome(a), EffectiveGrossIncome(other);
    assert ResolveExpenses(other, egiOther).propertyTaxes == ResolveExpenses(a, egi).propertyTaxes by {
      assert other.purchasePrice == a.purchasePrice && other.rates == a.rates;
      assert other.propertyTaxes == a.propertyTaxes;
    }
    assert ResolveExpenses(other, egiOther).insurance == ResolveExpenses(a, egi).insurance by {
      assert other.purchasePrice == a.purchasePrice && other.rates == a.rates;
      assert other.insurance == a.insurance;
    }
    assert ExactMetrics(other).expenseBreakdown == ResolveExpenses(other, egiOther);
    assert ExactMetrics(a).expenseBreakdown == ResolveExpenses(a, egi);
  }

  /** When all four estimable expenses are supplied, the estimation rates do not matter. */
  lemma RatesIrrelevantWhenAllSupplied(inp: MetricsInput, rates: EstimateRates)
    requires inp.propertyTaxes.Some? && inp.insurance.Some?
    requires inp.propertyManagement.Some? && inp.maintenanceRepairs.Some?
    ensures CalculatePropertyMetrics(inp.(rates := rates)) == CalculatePropertyMetrics(inp)
  {
    var other := inp.(rates := rates);
    var egi := ExactMetrics(inp).effectiveGrossIncome;
    assert ExactMetrics(other).effectiveGrossIncome == egi;
    assert ResolveExpenses(other, egi) == ResolveExpenses(inp, egi);
    assert ExactMetrics(other) == ExactMetrics(inp);
  }

  /** The cap rate: NOI over price as a percentage when the price is positive, 0 otherwise. */
  lemma CapRateGuard(inp: MetricsInput)
    ensures var m := ExactMetrics(inp);
      inp.purchasePrice > 0.0 ==>
        CalculatePropertyMetrics(inp).capRate == Round2((m.noi / inp.purchasePrice) * 100.0)
    ensures inp.purchasePrice <= 0.0 ==> CalculatePropertyMetrics(inp).capRate == 0.0
  {
  }

  lemma SumNear(s: seq<real>, t: seq<real>, tolerance: real)
    requires |s| == |t|
    requires forall i :: 0 <= i < |s| ==> Near(s[i], t[i], tolerance)
    ensures Near(Sum(s), Sum(t), |s| as real * tolerance)
  {
    if s != [] {
      SumNear(s[..|s| - 1], t[..|t| - 1], tolerance);
    }
  }

  /**
   * After rounding, the reported total differs from the sum of the ten
   * reported categories by at most eleven half-hundredths.
   */
  lemma RoundedTotalNearSumOfBreakdown(inp: MetricsInput)
    ensures var r := CalculatePropertyMetrics(inp);
      Near(r.totalExpenses, Sum(Values(r.expenseBreakdown)), 0.055)
  {
    var m, r := ExactMetrics(inp), CalculatePropertyMetrics(inp);
    SumNear(Values(r.expenseBreakdown), Values(m.expenseBreakdown), 0.005);
  }

  /** After rounding, NOI differs from effective gross income minus total expenses by at most 0.015. */
  lemma RoundedNoiNearDifference(inp: MetricsInput)
    ensures var r := CalculatePropertyMetrics(inp);
      Near(r.noi, r.effectiveGrossIncome - r.totalExpenses, 0.015)
  {
  }

  /** A worked scenario: price 450000, rent 30000, other income 1200, utilities 600, defaults elsewhere. */
  const Example := DefaultInput(450000.0, 30000.0).(otherIncome := 1200.0, utilities := 600.0)
  const ExampleBreakdown := ExpenseBreakdown(6750.0, 1350.0, 2371.2, 2964.0, 600.0, 0.0, 0.0, 0.0, 0.0, 0.0)
  /** Before rounding the cap rate is 15604.8 / 450000 * 100 = 19506 / 5625. */
  const ExampleExact := Metrics(19506.0 / 5625.0, 15604.8, 31200.0, 29640.0, 1560.0, 14035.2, ExampleBreakdown)
  const ExampleReported := Metrics(3.47, 15604.8, 31200.0, 29640.0, 1560.0, 14035.2, ExampleBreakdown)

  /** The scenario's figures before rounding. */
  lemma WorkedExampleExact()
    ensures ExactMetrics(Example) == ExampleExact
  {
    assert Example.otherIncome == 1200.0 && Example.annualRentalIncome == 30000.0;
    assert Example.vacancyRate == 0.05;
    var m := ExactMetrics(Example);
    assert m.grossIncome == 31200.0;
    assert m.vacancyLoss == 1560.0;
    assert m.effectiveGrossIncome == 29640.0;
    assert m.expenseBreakdown == ExampleBreakdown;
    assert m.noi == 15604.8;
  }

  lemma ExampleBreakdownIsCents()
    ensures RoundBreakdown(ExampleBreakdown) == ExampleBreakdown
  {
    Round2OfCents(6750.0);
    Round2OfCents(1350.0);
    Round2OfCents(2371.2);
    Round2OfCents(2964.0);
    Round2OfCents(600.0);
    Round2OfCents(0.0);
  }

  lemma ExampleCapRateRounds()
    ensures Round2(19506.0 / 5625.0) == 3.47
  {
    assert (19506.0 / 5625.0 * 100.0).Floor == 346;
  }

  /** Rounding the scenario's exact figures changes only the cap rate. */
  lemma ExampleRounding()
    ensures Rounded(ExampleExact) == ExampleReported
  {
    ExampleBreakdownIsCents();
    ExampleCapRateRounds();
    Round2OfCents(15604.8);
    Round2OfCents(31200.0);
    Round2OfCents(29640.0);
    Round2OfCents(1560.0);
    Round2OfCents(14035.2);
  }

  /** The scenario's reported record: the figures above, with the cap rate rounded to 3.47. */
  lemma WorkedExample()
    ensures CalculatePropertyMetrics(Example) == ExampleReported
  {
    WorkedExampleExact();
    ExampleRounding();
  }
}
