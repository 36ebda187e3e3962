# Remotify EOR cost calculator — a Dafny model of its cost engine

The calculator compares the yearly cost of employing people in the US with the
yearly cost of employing them in the Philippines through an employer of record
(EOR). The user picks a position and a seniority level, may override the salary
assumptions and the headcount, and the component recomputes an itemised cost
breakdown after every edit.

This project models the three pieces of that component that carry logic. All
arithmetic is over exact `real`s.

- **The preset catalog** (module `Catalog`, `catalog.dfy`). Each (position,
  level) pair has a US annual salary and a PH monthly salary range. The string
  keys the calculator component indexes the table by are modelled, and so is the midpoint
  rule that picks the default PH salary.
- **The cost deriver** (modules `Division` and `Costs`, `division.dfy` and
  `costs.dfy`). It maps the input set to:
  - the US base salary, benefits load and total;
  - the seven PH line items and their total: base, 13th month, mandatory
    benefits, HMO, EOR fee, offshore fee and separation accrual;
  - the annual savings and the savings percentage.

  The rate constants form a `Rates` record. `RATES` holds the component's own values,
  and `Calculate` is the derivation with those rates.
- **The selection-default resolver** (module `Resolver`, `resolver.dfy`). This
  is the change handler. Selecting a position or a level re-seeds both salaries
  from the catalog. Typing a number replaces that one field.

Module `Session` (`session.dfy`) strings these together. It holds the initial
input set, the recomputation that follows every edit, and the replay of a
whole sequence of edits. Module `Scenarios` (`scenarios.dfy`) works out
concrete figures.

Two facts about the code shape the model:

- The savings percentage divides by the US total without a guard. Over a zero
  US total the code yields what JavaScript division yields:
  - negative infinity when the PH total is positive;
  - positive infinity when the PH total is negative;
  - NaN when both totals are zero.

  `Division.Divide` models exactly that, and `Derive` states it.
- `min="1"` on the headcount input is only a browser hint, so the headcount
  is any number. The model takes it as a `real`. Properties that need a
  positive headcount say so in their `requires`.

`Calculate` is the derivation at the component's own rates. The component's
plumbing around it is plain functions: `Recompute` is the effect, `Mounted` is
the first render after it, and `Step` is one edit followed by the effect.
`Session.RunIsReplay` states what they achieve together.

The change handler `Resolver.ApplyChange` takes the selected position and
level as catalog values, not as strings. The string-keyed lookup
`Catalog.LookupByKey` models the keyed table access on its own and is not
connected to the handler.

One observation about presentation: the separation accrual is included in the
PH total, but neither the on-screen PH list nor the exported PH table shows it
as a line.

## Model

| member | source | states |
|---|---|---|
| Catalog.Lookup | CostCalculator.tsx:10-35 | every catalog row has a positive US salary and a PH range with 0 < phMin < phMax |
| Catalog.Midpoint | CostCalculator.tsx:130 | the default PH salary is equidistant from both ends of the range and so lies within it |
| Catalog.ParsePosition | CostCalculator.tsx:10-35 | a position string is recognised exactly when it is the key of a catalog position, and then names that position |
| Catalog.ParseLevel | CostCalculator.tsx:14-32 | a level string is recognised exactly when it is one of the three level keys, and then names that level |
| Catalog.LookupByKey | CostCalculator.tsx:124 | the keyed lookup yields a row exactly when both keys are catalog keys, and then yields that pair's row; any other pair of strings yields no row |
| Division.Divide | CostCalculator.tsx:93 | a non-zero divisor gives a finite quotient q with q * divisor = dividend; a zero divisor gives an infinity signed like the dividend, or NaN for 0/0 |
| Division.Percent | CostCalculator.tsx:93 | multiplying by 100 keeps finiteness, scales finite values by 100, and leaves infinities and NaN as they are |
| Costs.DeriveUs | CostCalculator.tsx:74-77 | US base = headcount × salary; benefits are usBenefits percent of the base; total = headcount × salary × (1 + usBenefits/100) |
| Costs.DerivePh | CostCalculator.tsx:79-90 | the annual base is 12 times the 13th month, which is headcount × monthly salary; separation accrual equals the 13th month; mandatory benefits and the EOR fee are their rates times the annual base; HMO and the offshore fee are 12 × headcount × their monthly amounts; the total is the sum of the seven items and equals headcount × (salary × (14 + 12 × (benefit rate + EOR rate)) + 12 × (HMO + offshore fee)) |
| Costs.Derive | CostCalculator.tsx:73-116 | the US and PH sides are those of the inputs as the two side derivations state them; savings = US total − PH total; the percentage is finite iff the US total is non-zero, and then percentage × US total = 100 × savings; over a zero US total it is −∞ iff the PH total is positive and +∞ iff it is negative |
| Costs.Calculate | CostCalculator.tsx:37-116 | at the component's rates, the US side is the US derivation of the inputs; the PH base is 12 × headcount × monthly salary; the 13th month and the separation accrual each equal headcount × monthly salary; mandatory benefits are 9.67 percent and the EOR fee 15 percent of that base; HMO is 600 and the offshore fee 2400 per employee per year; the PH total is headcount × (16.9604 × monthly salary + 3000); savings = US total − PH total; the percentage is finite iff the US total is non-zero, and then percentage × US total = 100 × savings; over a zero US total it is −∞ iff the PH total is positive and +∞ iff it is negative |
| Costs.PhTotalCoversBase | CostCalculator.tsx:81-90 | with non-negative headcount, PH salary and rates, the PH total is at least the annual PH base salary |
| Costs.UsLinear | CostCalculator.tsx:75-77 | each US figure is the headcount times the single-employee figure |
| Costs.PhLinear | CostCalculator.tsx:80-90 | each PH line item and the PH total is the headcount times the single-employee figure |
| Costs.HeadcountLinearity | CostCalculator.tsx:75-92 | every US and PH item, both totals and the annual savings are the headcount times the single-employee figures |
| Costs.DivideScaled | CostCalculator.tsx:93 | scaling dividend and divisor by the same positive factor leaves the quotient unchanged, infinite and NaN cases included |
| Costs.PercentageOfOneEmployee | CostCalculator.tsx:75-93 | for a positive headcount, the savings percentage is that of a single employee |
| Costs.PercentageIndependentOfHeadcount | CostCalculator.tsx:75-93 | for positive headcounts, the savings percentage does not depend on the headcount |
| Resolver.ApplyChange | CostCalculator.tsx:118-138 | a field the change does not write keeps its value; a numeric edit stores its value; a selection stores its key, keeps the other key, and leaves the US salary at the catalog value and the PH salary at the range midpoint, within [phMin, phMax] |
| Resolver.ApplyChangeIdempotent | CostCalculator.tsx:118-138 | applying the same change twice equals applying it once |
| Resolver.SelectionForgetsSalaries | CostCalculator.tsx:121-131 | the result of a selection does not depend on the salaries held before it, so a re-selection discards salary edits |
| Session.InitialInputs | CostCalculator.tsx:45-52 | the initial input set is software engineer, mid level, one employee, 28 percent benefits, and its salaries are the catalog defaults of that selection |
| Session.Recompute | CostCalculator.tsx:69-71 | the recomputation effect changes the component's state exactly when the displayed costs are not those of the current inputs |
| Session.FirstRenderShowsZeros | CostCalculator.tsx:54-71 | before the first recomputation the component shows all-zero costs, which are not the costs of its initial inputs; once mounted it shows the derived costs |
| Session.RunIsReplay | CostCalculator.tsx:45-71 | after any sequence of edits, the component holds the inputs obtained by applying the edits in order, and its displayed costs are derived from those inputs |
| Session.ReplayAppend | CostCalculator.tsx:126-136 | applying two edit sequences one after the other equals applying their concatenation |
| Session.ReplayFrame | CostCalculator.tsx:126-136 | a field that no edit in a sequence writes keeps its original value |
| Session.ReplayLastWriterWins | CostCalculator.tsx:126-136 | the final value of a field is the one set by the last edit that writes it |
| Session.ReplayLastEdit | CostCalculator.tsx:132-136 | a numeric field ends with the value of its last numeric edit, if no later selection or edit writes it |
| Session.ReplayLastPosition | CostCalculator.tsx:121-131 | the position ends as the last position selected |
| Session.ReplayKeepsConsistent | CostCalculator.tsx:121-136 | without salary edits, the salaries stay at the catalog defaults of the current selection through any positions, levels, headcounts and benefit percentages |
| Scenarios.DefaultScenario | CostCalculator.tsx:45-93 | the initial inputs give US 120000 + 33600 = 153600, PH items 24000, 2000, 2320.8, 600, 3600, 2400, 2000 totalling 36920.8, savings 116679.2, and a percentage between 75.96 and 75.97 |
| Scenarios.ThreeEmployeeScenario | CostCalculator.tsx:73-93 | three employees on the initial inputs triple every figure (PH total 110762.4) and leave the percentage unchanged |
| Scenarios.ZeroUsSalaryScenario | CostCalculator.tsx:92-93 | a zero US salary gives a zero US total, whatever the benefits percentage, and a negative-infinity percentage |
| Scenarios.SelectWebDeveloperScenario | CostCalculator.tsx:121-131 | choosing web developer from the initial inputs gives US salary 100000 and PH salary 1600, with everything else kept |

## Left out

- The React state machinery (`useState`, `useEffect`) is reduced to plain
  functions. A render is `Calculator`, the effect is `Recompute`, and an event
  is `Step`.
- The selection branch reads the non-edited key from the rendered `inputs`,
  but spreads the other fields from the updater's `prev`. The model assumes
  one event per render, where the two agree. It does not model batched events
  that see a stale render.
- `Number(value)` coercion of typed text and its NaN results are left out.
  Numeric edits carry already-parsed reals.
- IEEE-754 double arithmetic is left out, including intermediate rounding and
  signed zero. The model computes over exact reals. A US total of −0, which
  would flip the infinity's sign, is therefore not modelled.
- `formatCurrency`, `Math.round` and `toFixed(2)` are left out. They are
  display formatting and depend on `Intl` and float formatting.
- `handleDownload` (PDF generation through jsPDF) is left out. It is a foreign
  library doing I/O.
- Catalog.LookupByKey: keys that JavaScript objects inherit, such as
  `"toString"` or `"constructor"`, are not modelled. For an inherited level key
  with a catalog position, line 124 yields a non-row and lines 129-130 store
  undefined and NaN salaries, while the model yields no row. An inherited
  position key makes line 124 throw. The `<select>` options offer only catalog
  keys, so no such key reaches the handler.
- The JSX rendering, tooltips and images are left out, because they are
  presentation. `Catalog.Title` keeps the position titles as data only.
