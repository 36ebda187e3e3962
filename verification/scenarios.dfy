/** Worked figures: the costs of the session's initial inputs, of the same
    inputs for three employees, and of a zero US salary. */
module Scenarios {
  import Catalog
  import opened Division
  import opened Costs
  import opened Resolver
  import opened Session

  /** One mid-level software engineer at the defaults: US 153,600 against
      PH 36,920.80, saving 116,679.20, just under 76 percent. */
  lemma DefaultScenario()
    ensures var r := Calculate(InitialInputs());
            && r.us == UsCosts(120000.0, 33600.0, 153600.0)
            && r.ph == PhCosts(24000.0, 2320.8, 600.0, 2000.0, 2000.0, 3600.0, 2400.0, 36920.8)
            && r.savings.annual == 116679.2
            && r.savings.percentage.Finite?
            && 75.96 < r.savings.percentage.value < 75.97
  {
  }

  /** Three employees on the same inputs: every figure triples, the
      percentage does not move. */
  lemma ThreeEmployeeScenario()
    ensures var one := Calculate(InitialInputs());
            var three := Calculate(InitialInputs().(numEmployees := 3.0));
            && ScaledBy(three, one, 3.0)
            && three.ph.total == 110762.4
            && three.savings.percentage == one.savings.percentage
  {
  }

  /** A zero US salary makes the US total zero; the PH total stays positive,
      so the percentage is negative infinity rather than a number. */
  lemma ZeroUsSalaryScenario(benefits: real)
    ensures var r := Calculate(InitialInputs().(usSalary := 0.0, usBenefits := benefits));
            r.us.total == 0.0 && r.ph.total == 36920.8 && r.savings.percentage == NegativeInfinity
  {
  }

  /** Choosing web developer from the initial inputs re-seeds the salaries
      from the catalog (100,000 and the midpoint 1,600) and keeps the rest. */
  lemma SelectWebDeveloperScenario()
    ensures ApplyChange(InitialInputs(), SetPosition(Catalog.WebDeveloper))
            == Inputs(Catalog.WebDeveloper, Catalog.Mid, 1.0, 100000.0, 28.0, 1600.0)
  {
  }
}
