/** The cost deriver: a pure map from the calculator's inputs to the itemised
    annual cost of employing in the US and, through an employer of record, in
    the Philippines, and to the savings between the two. */
module Costs {
  import Catalog
  import opened Division

  /** The rate constants: two fractions of the PH annual base salary and two
      fixed monthly per-employee amounts. */
  datatype Rates = Rates(mandatoryBenefits: real, hmoMonthly: real, eorFee: real, offshoreFee: real) {
    predicate NonNegative() {
      0.0 <= mandatoryBenefits && 0.0 <= hmoMonthly && 0.0 <= eorFee && 0.0 <= offshoreFee
    }
  }

  const RATES: Rates := Rates(0.0967, 50.0, 0.15, 200.0)

  /** The input set. `usBenefits` is a percentage of the US salary and
      `phSalary` is a monthly amount; `usSalary` is annual. */
  datatype Inputs = Inputs(
    position: Catalog.Position,
    level: Catalog.Level,
    numEmployees: real,
    usSalary: real,
    usBenefits: real,
    phSalary: real)

  datatype UsCosts = UsCosts(baseSalary: real, benefits: real, total: real)

  datatype PhCosts = PhCosts(
    baseSalary: real,
    mandatoryBenefits: real,
    hmo: real,
    thirteenthMonth: real,
    separationAccrual: real,
    eorFee: real,
    offshoreFee: real,
    total: real)

  datatype Savings = Savings(annual: real, percentage: Quotient)

  datatype CostResult = CostResult(us: UsCosts, ph: PhCosts, savings: Savings)

  /** Every monetary figure of `all` is `n` times the same figure of `one`. */
  predicate ScaledBy(all: CostResult, one: CostResult, n: real) {
    && all.us.baseSalary == n * one.us.baseSalary
    && all.us.benefits == n * one.us.benefits
    && all.us.total == n * one.us.total
    && all.ph.baseSalary == n * one.ph.baseSalary
    && all.ph.mandatoryBenefits == n * one.ph.mandatoryBenefits
    && all.ph.hmo == n * one.ph.hmo
    && all.ph.thirteenthMonth == n * one.ph.thirteenthMonth
    && all.ph.separationAccrual == n * one.ph.separationAccrual
    && all.ph.eorFee == n * one.ph.eorFee
    && all.ph.offshoreFee == n * one.ph.offshoreFee
    && all.ph.total == n * one.ph.total
    && all.savings.annual == n * one.savings.annual
  }

  /** US side: annual base for the whole headcount plus the benefits load. */
  function DeriveUs(i: Inputs): (r: UsCosts)
    ensures r.baseSalary == i.numEmployees * i.usSalary
    ensures r.benefits * 100.0 == r.baseSalary * i.usBenefits
    ensures r.total == i.numEmployees * i.usSalary * (1.0 + i.usBenefits / 100.0)
  {
    var annualUsSalary := i.usSalary * i.numEmployees;
    var usBenefits := annualUsSalary * (i.usBenefits / 100.0);
    UsCosts(annualUsSalary, usBenefits, annualUsSalary + usBenefits)
  }

  /** PH side: twelve monthly salaries, the 13th month, the statutory and fee
      percentages of the annual base, fixed monthly HMO and offshore fees, and a
      separation accrual equal to the 13th month. */
  function DerivePh(i: Inputs, rates: Rates): (r: PhCosts)
    ensures r.baseSalary == 12.0 * r.thirteenthMonth
    ensures r.thirteenthMonth == i.numEmployees * i.phSalary
    ensures r.separationAccrual == r.thirteenthMonth
    ensures r.mandatoryBenefits == r.baseSalary * rates.mandatoryBenefits
    ensures r.eorFee == r.baseSalary * rates.eorFee
    ensures r.hmo == 12.0 * i.numEmployees * rates.hmoMonthly
    ensures r.offshoreFee == 12.0 * i.numEmployees * rates.offshoreFee
    ensures r.total == r.baseSalary + r.thirteenthMonth + r.mandatoryBenefits + r.hmo
                       + r.eorFee + r.offshoreFee + r.separationAccrual
    ensures r.total == i.numEmployees * (i.phSalary * (14.0 + 12.0 * (rates.mandatoryBenefits + rates.eorFee))
                                         + 12.0 * (rates.hmoMonthly + rates.offshoreFee))
  {
    var monthlyPhSalary := i.phSalary;
    var annualPhBaseSalary := monthlyPhSalary * 12.0 * i.numEmployees;
    var thirteenthMonth := monthlyPhSalary * i.numEmployees;
    var mandatoryBenefits := annualPhBaseSalary * rates.mandatoryBenefits;
    var annualHmo := rates.hmoMonthly * 12.0 * i.numEmployees;
    var eorFee := annualPhBaseSalary * rates.eorFee;
    var offshoreFee := rates.offshoreFee * 12.0 * i.numEmployees;
    var separationAccrual := thirteenthMonth;
    var totalPhCost := annualPhBaseSalary + thirteenthMonth + mandatoryBenefits
                       + annualHmo + eorFee + offshoreFee + separationAccrual;
    PhCosts(annualPhBaseSalary, mandatoryBenefits, annualHmo, thirteenthMonth,
            separationAccrual, eorFee, offshoreFee, totalPhCost)
  }

  /** The full derivation. The savings percentage is finite exactly when the
      US total is non-zero, and is then the savings as a percentage of it;
      over a zero US total it is an infinity or NaN, as the calculator component's unguarded
      division gives. */
  function Derive(i: Inputs, rates: Rates): (r: CostResult)
    ensures r.us == DeriveUs(i) && r.ph == DerivePh(i, rates)
    ensures r.savings.annual == r.us.total - r.ph.total
    ensures r.savings.percentage.Finite? <==> r.us.total != 0.0
    ensures r.savings.percentage.Finite? ==> r.savings.percentage.value * r.us.total == 100.0 * r.savings.annual
    ensures r.us.total == 0.0 ==>
              (r.savings.percentage.NegativeInfinity? <==> r.ph.total > 0.0)
              && (r.savings.percentage.PositiveInfinity? <==> r.ph.total < 0.0)
  {
    var us := DeriveUs(i);
    var ph := DerivePh(i, rates);
    var annualSavings := us.total - ph.total;
    var q := Divide(annualSavings, us.total);
    var savingsPercentage := Percent(q);
    CostResult(us, ph, Savings(annualSavings, savingsPercentage))
  }

  /** The derivation with the calculator component's own rate constants: statutory
      benefits are 9.67 percent and the EOR fee 15 percent of the annual PH
      base; HMO costs 600 and the offshore fee 2,400 per employee per year; so
      one employee costs 16.9604 monthly salaries plus 3,000 a year in the PH. */
  function Calculate(i: Inputs): (r: CostResult)
    ensures r.us == DeriveUs(i)
    ensures r.ph.baseSalary == 12.0 * i.numEmployees * i.phSalary
    ensures r.ph.mandatoryBenefits == 0.0967 * r.ph.baseSalary
    ensures r.ph.eorFee == 0.15 * r.ph.baseSalary
    ensures r.ph.hmo == 600.0 * i.numEmployees
    ensures r.ph.offshoreFee == 2400.0 * i.numEmployees
    ensures r.ph.total == i.numEmployees * (16.9604 * i.phSalary + 3000.0)
    ensures r.ph.thirteenthMonth == r.ph.separationAccrual == i.numEmployees * i.phSalary
    ensures r.savings.annual == r.us.total - r.ph.total
    ensures r.savings.percentage.Finite? <==> r.us.total != 0.0
    ensures r.savings.percentage.Finite? ==> r.savings.percentage.value * r.us.total == 100.0 * r.savings.annual
    ensures r.us.total == 0.0 ==>
              (r.savings.percentage.NegativeInfinity? <==> r.ph.total > 0.0)
              && (r.savings.percentage.PositiveInfinity? <==> r.ph.total < 0.0)
  {
    Derive(i, RATES)
  }

  /** With non-negative salary, headcount and rates, the PH total is at least
      the annual PH base salary. */
  lemma PhTotalCoversBase(i: Inputs, rates: Rates)
    requires 0.0 <= i.numEmployees && 0.0 <= i.phSalary && rates.NonNegative()
    ensures DerivePh(i, rates).total >= DerivePh(i, rates).baseSalary
  {
    var r := DerivePh(i, rates);
    NonNegativeProduct(i.numEmployees, i.phSalary);
    NonNegativeProduct(r.baseSalary, rates.mandatoryBenefits);
    NonNegativeProduct(r.baseSalary, rates.eorFee);
    NonNegativeProduct(i.numEmployees, rates.hmoMonthly);
    NonNegativeProduct(i.numEmployees, rates.offshoreFee);
  }

  lemma NonNegativeProduct(a: real, b: real)
    requires 0.0 <= a && 0.0 <= b
    ensures 0.0 <= a * b
  {
  }

  /** Linearity in headcount: every amount equals the headcount times the
      amount for a single employee. */
  lemma HeadcountLinearity(i: Inputs, rates: Rates)
    ensures ScaledBy(Derive(i, rates), Derive(i.(numEmployees := 1.0), rates), i.numEmployees)
  {
    var i1 := i.(numEmployees := 1.0);
    var one := Derive(i1, rates);
    var all := Derive(i, rates);
    UsLinear(i);
    PhLinear(i, rates);
    DifferenceScales(i.numEmployees, one.us.total, one.ph.total);
  }

  lemma DifferenceScales(n: real, a: real, b: real)
    ensures n * a - n * b == n * (a - b)
  {
  }

  lemma ProductScales(n: real, a: real, b: real)
    ensures (n * a) * b == n * (a * b)
  {
  }

  /** Each US figure is the headcount times the single-employee figure. */
  lemma UsLinear(i: Inputs)
    ensures var one := DeriveUs(i.(numEmployees := 1.0));
            var all := DeriveUs(i);
            && all.baseSalary == i.numEmployees * one.baseSalary
            && all.benefits == i.numEmployees * one.benefits
            && all.total == i.numEmployees * one.total
  {
    var one := DeriveUs(i.(numEmployees := 1.0));
    var all := DeriveUs(i);
    ProductScales(i.numEmployees, i.usSalary, i.usBenefits / 100.0);
  }

  /** Each PH figure is the headcount times the single-employee figure. */
  lemma PhLinear(i: Inputs, rates: Rates)
    ensures var one := DerivePh(i.(numEmployees := 1.0), rates);
            var all := DerivePh(i, rates);
            && all.baseSalary == i.numEmployees * one.baseSalary
            && all.mandatoryBenefits == i.numEmployees * one.mandatoryBenefits
            && all.hmo == i.numEmployees * one.hmo
            && all.thirteenthMonth == i.numEmployees * one.thirteenthMonth
            && all.separationAccrual == i.numEmployees * one.separationAccrual
            && all.eorFee == i.numEmployees * one.eorFee
            && all.offshoreFee == i.numEmployees * one.offshoreFee
            && all.total == i.numEmployees * one.total
  {
    var n := i.numEmployees;
    var one := DerivePh(i.(numEmployees := 1.0), rates);
    var all := DerivePh(i, rates);
    assert all.baseSalary == n * one.baseSalary;
    ProductScales(n, one.baseSalary, rates.mandatoryBenefits);
    ProductScales(n, one.baseSalary, rates.eorFee);
  }

  /** Scaling both operands of a division by the same positive factor leaves
      the quotient unchanged, including the infinite and NaN cases. */
  lemma DivideScaled(a: real, b: real, n: real)
    requires 0.0 < n
    ensures Divide(n * a, n * b) == Divide(a, b)
  {
  }

  /** For a positive headcount, the savings percentage is that of a single
      employee. */
  lemma PercentageOfOneEmployee(i: Inputs, rates: Rates)
    requires 0.0 < i.numEmployees
    ensures Derive(i, rates).savings.percentage == Derive(i.(numEmployees := 1.0), rates).savings.percentage
  {
    var one := Derive(i.(numEmployees := 1.0), rates);
    var all := Derive(i, rates);
    HeadcountLinearity(i, rates);
    assert all.savings.percentage == Percent(Divide(all.savings.annual, all.us.total));
    assert one.savings.percentage == Percent(Divide(one.savings.annual, one.us.total));
    DivideScaled(one.savings.annual, one.us.total, i.numEmployees);
  }

  /** The savings percentage does not depend on the (positive) headcount. */
  lemma PercentageIndependentOfHeadcount(i: Inputs, rates: Rates, n: real)
    requires 0.0 < i.numEmployees && 0.0 < n
    ensures Derive(i.(numEmployees := n), rates).savings.percentage == Derive(i, rates).savings.percentage
  {
    assert i.(numEmployees := n).(numEmployees := 1.0) == i.(numEmployees := 1.0);
    PercentageOfOneEmployee(i, rates);
    PercentageOfOneEmployee(i.(numEmployees := n), rates);
  }
}
