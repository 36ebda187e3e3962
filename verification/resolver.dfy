/** The selection-default resolver: how one edit of the calculator's form
    changes the input set. Choosing a position or a level re-seeds both
    salaries from the catalog; editing a number replaces that number only. */
module Resolver {
  import Catalog
  import opened Costs

  /** The named fields of the input set. */
  datatype Field = Position | Level | NumEmployees | UsSalary | UsBenefits | PhSalary {
    predicate IsNumeric() {
      !Position? && !Level?
    }
  }

  type NumericField = f: Field | f.IsNumeric() witness NumEmployees

  /** One form edit: a selection from one of the two drop-downs, or a number
      typed into one of the four numeric inputs. */
  datatype Change =
    | SetPosition(position: Catalog.Position)
    | SetLevel(level: Catalog.Level)
    | SetNumber(field: NumericField, value: real)

  /** The value of a numeric field. */
  function Read(i: Inputs, f: NumericField): real {
    if f.NumEmployees? then i.numEmployees
    else if f.UsSalary? then i.usSalary
    else if f.UsBenefits? then i.usBenefits
    else i.phSalary
  }

  /** `a` and `b` agree on field `f`. */
  predicate Same(a: Inputs, b: Inputs, f: Field) {
    match f
    case Position => a.position == b.position
    case Level => a.level == b.level
    case NumEmployees => a.numEmployees == b.numEmployees
    case UsSalary => a.usSalary == b.usSalary
    case UsBenefits => a.usBenefits == b.usBenefits
    case PhSalary => a.phSalary == b.phSalary
  }

  /** The fields a change may write: a selection writes its own key and both
      salaries, a numeric edit writes its field. */
  predicate Writes(c: Change, f: Field) {
    match c
    case SetPosition(_) => f.Position? || f.UsSalary? || f.PhSalary?
    case SetLevel(_) => f.Level? || f.UsSalary? || f.PhSalary?
    case SetNumber(g, _) => f == g
  }

  /** A numeric edit of one of the two salaries. */
  predicate EditsSalary(c: Change) {
    c.SetNumber? && (c.field.UsSalary? || c.field.PhSalary?)
  }

  /** The salaries are the catalog defaults of the current selection: the US
      salary of the row and the midpoint of its PH range. */
  predicate Consistent(i: Inputs) {
    var range := Catalog.Lookup(i.position, i.level);
    i.usSalary == range.usSalary && i.phSalary == Catalog.Midpoint(range)
  }

  function Select(i: Inputs, p: Catalog.Position, l: Catalog.Level): Inputs {
    var range := Catalog.Lookup(p, l);
    i.(position := p, level := l, usSalary := range.usSalary, phSalary := Catalog.Midpoint(range))
  }

  /** The form's change handler. Every field the change does not write keeps
      its value; a numeric edit stores its value; a selection stores its key
      and leaves the salaries at the catalog defaults of the new selection, the
      PH salary within the catalog range. */
  function ApplyChange(i: Inputs, c: Change): (r: Inputs)
    ensures forall f :: !Writes(c, f) ==> Same(r, i, f)
    ensures c.SetNumber? ==> Read(r, c.field) == c.value
    ensures c.SetPosition? ==> r.position == c.position
    ensures c.SetLevel? ==> r.level == c.level
    ensures !c.SetNumber? ==> Consistent(r)
    ensures !c.SetNumber? ==>
              Catalog.Lookup(r.position, r.level).phMin <= r.phSalary <= Catalog.Lookup(r.position, r.level).phMax
  {
    match c
    case SetPosition(p) => Select(i, p, i.level)
    case SetLevel(l) => Select(i, i.position, l)
    case SetNumber(f, v) =>
      if f.NumEmployees? then i.(numEmployees := v)
      else if f.UsSalary? then i.(usSalary := v)
      else if f.UsBenefits? then i.(usBenefits := v)
      else i.(phSalary := v)
  }

  /** Applying the same change twice is the same as applying it once. */
  lemma ApplyChangeIdempotent(i: Inputs, c: Change)
    ensures ApplyChange(ApplyChange(i, c), c) == ApplyChange(i, c)
  {
  }

  /** A selection discards any salary edits, even when it re-selects the
      current position or level: the result depends only on the selected pair
      and on the fields no selection writes. */
  lemma SelectionForgetsSalaries(i: Inputs, j: Inputs, c: Change)
    requires !c.SetNumber?
    requires Same(i, j, Position) && Same(i, j, Level)
    requires Same(i, j, NumEmployees) && Same(i, j, UsBenefits)
    ensures ApplyChange(i, c) == ApplyChange(j, c)
  {
  }
}
