/**
 * The validation schema of the tax form (src/components/Taxes.tsx:26-42),
 * restated as rules over a row rather than as yup calls. Every row of
 * `rows` is checked against the same object schema, whatever its type.
 *
 * `Rules` selects between the schema as the component writes it, where
 * `monthlySalary` and `hourlyRate` are required on every row, and the
 * evidently intended schema, where each is required only on rows of its own
 * type. The two differ in nothing else.
 */
module Schema {
  import opened Wrappers
  import opened FormTypes

  /** The row properties the schema names, in the order it names them. */
  datatype Field = Type | Year | MonthlySalary | HourlyRate | HoursPerDay | DaysPerYear

  const Fields: seq<Field> := [Type, Year, MonthlySalary, HourlyRate, HoursPerDay, DaysPerYear]

  /** A failed rule: the index of the row in the list and the property that failed. */
  datatype FieldError = FieldError(index: nat, field: Field)

  datatype Rules = AsWritten | Intended

  /** yup's `.integer()`: the number has no fractional part. */
  predicate IsInteger(x: real)
  {
    x.Floor as real == x
  }

  /** The value of a numeric property of a row; None where the row's shape has no such property. */
  function NumberAt(r: TaxRow, f: Field): Option<real>
  {
    match f
    case Type => None
    case Year => Some(r.year)
    case MonthlySalary => if r.Permanent? then Some(r.monthlySalary) else None
    case HourlyRate => if r.Freelancer? then Some(r.hourlyRate) else None
    case HoursPerDay => if r.Freelancer? then Some(r.hoursPerDay) else None
    case DaysPerYear => if r.Freelancer? then Some(r.daysPerYear) else None
  }

  /**
   * A `yup.number()` rule: an absent value fails only when `.required()`;
   * a present value must be at least `lo`, at most `hi` when there is a
   * `.max`, and whole when there is an `.integer()`.
   */
  predicate NumberPasses(v: Option<real>, required: bool, lo: real, hi: Option<real>, integer: bool)
  {
    match v
    case None => !required
    case Some(x) => lo <= x && (hi.None? || x <= hi.value) && (!integer || IsInteger(x))
  }

  /** Whether row r satisfies the schema's rule for property f. */
  predicate Passes(rules: Rules, r: TaxRow, f: Field)
  {
    match f
    case Type => r.kind != ""
    case Year => NumberPasses(NumberAt(r, f), true, 1900.0, Some(2100.0), true)
    case MonthlySalary =>
      NumberPasses(NumberAt(r, f), rules.AsWritten? || r.kind == "permanent", 0.0, None, false)
    case HourlyRate =>
      NumberPasses(NumberAt(r, f), rules.AsWritten? || r.kind == "freelancer", 0.0, None, false)
    case HoursPerDay => NumberPasses(NumberAt(r, f), false, 0.0, Some(24.0), true)
    case DaysPerYear => NumberPasses(NumberAt(r, f), false, 0.0, Some(356.0), true)
  }

  /** The properties of fs, in order, whose rule row r breaks. */
  function FailingFields(rules: Rules, r: TaxRow, fs: seq<Field>): (failing: seq<Field>)
    ensures forall f :: f in failing <==> f in fs && !Passes(rules, r, f)
    ensures failing == [] <==> forall f :: f in fs ==> Passes(rules, r, f)
  {
    if fs == [] then []
    else (if Passes(rules, r, fs[0]) then [] else [fs[0]]) + FailingFields(rules, r, fs[1..])
  }

  /** The properties of row r that fail validation, in schema order. */
  function RowErrors(rules: Rules, r: TaxRow): (failing: seq<Field>)
    ensures forall f :: f in failing <==> !Passes(rules, r, f)
    ensures failing == [] <==> forall f :: Passes(rules, r, f)
  {
    assert forall f: Field :: f.Type? || f.Year? || f.MonthlySalary? || f.HourlyRate? || f.HoursPerDay? || f.DaysPerYear?;
    FailingFields(rules, r, Fields)
  }

  /** The failed properties fs, each keyed by the row index. */
  function KeyedBy(index: nat, fs: seq<Field>): (es: seq<FieldError>)
    ensures forall e :: e in es <==> e.index == index && e.field in fs
    ensures |es| == |fs|
  {
    if fs == [] then [] else [FieldError(index, fs[0])] + KeyedBy(index, fs[1..])
  }

  /** The failed rules of rows[from..], each keyed by its index in the whole list. */
  function ErrorsFrom(rules: Rules, rows: seq<TaxRow>, from: nat): (es: seq<FieldError>)
    requires from <= |rows|
    ensures forall e :: e in es <==> from <= e.index < |rows| && !Passes(rules, rows[e.index], e.field)
    ensures es == [] <==> forall i :: from <= i < |rows| ==> RowErrors(rules, rows[i]) == []
    decreases |rows| - from
  {
    if from == |rows| then []
    else KeyedBy(from, RowErrors(rules, rows[from])) + ErrorsFrom(rules, rows, from + 1)
  }

  /**
   * What the resolver makes of the form values: the values themselves when
   * every rule holds, otherwise every failed rule keyed by row index and
   * property.
   */
  function Validate(rules: Rules, form: Taxes): (res: Result<Taxes, seq<FieldError>>)
    ensures res.Success? <==> forall i :: 0 <= i < |form.rows| ==> RowErrors(rules, form.rows[i]) == []
    ensures res.Success? ==> res.value == form
    ensures res.Failure? ==> forall e :: e in res.error <==>
      e.index < |form.rows| && e.field in RowErrors(rules, form.rows[e.index])
  {
    var es := ErrorsFrom(rules, form.rows, 0);
    if es == [] then Success(form) else Failure(es)
  }

  /** Each rule of the schema, stated over the row's own properties. */
  lemma FieldRules(rules: Rules, r: TaxRow)
    ensures Type in RowErrors(rules, r) <==> r.kind == ""
    ensures Year in RowErrors(rules, r) <==> !(IsInteger(r.year) && 1900.0 <= r.year <= 2100.0)
    ensures MonthlySalary in RowErrors(rules, r) <==>
      if r.Permanent? then r.monthlySalary < 0.0 else rules.AsWritten? || r.kind == "permanent"
    ensures HourlyRate in RowErrors(rules, r) <==>
      if r.Freelancer? then r.hourlyRate < 0.0 else rules.AsWritten? || r.kind == "freelancer"
    ensures HoursPerDay in RowErrors(rules, r) <==>
      r.Freelancer? && !(0.0 <= r.hoursPerDay <= 24.0 && IsInteger(r.hoursPerDay))
    ensures DaysPerYear in RowErrors(rules, r) <==>
      r.Freelancer? && !(0.0 <= r.daysPerYear <= 356.0 && IsInteger(r.daysPerYear))
  {
  }

  /**
   * The corrected rules are never stricter than the rules as written, and
   * they differ only on `monthlySalary` and `hourlyRate`.
   */
  lemma IntendedNoStricter(r: TaxRow, f: Field)
    ensures Passes(AsWritten, r, f) ==> Passes(Intended, r, f)
    ensures f != MonthlySalary && f != HourlyRate ==> (Passes(AsWritten, r, f) <==> Passes(Intended, r, f))
  {
  }

  /**
   * As written, no row of either shape passes: a permanent row has no
   * `hourlyRate` and a freelancer row no `monthlySalary`, and both are
   * required on every row.
   */
  lemma AsWrittenRejectsEveryRow(r: TaxRow)
    ensures r.Permanent? ==> HourlyRate in RowErrors(AsWritten, r)
    ensures r.Freelancer? ==> MonthlySalary in RowErrors(AsWritten, r)
    ensures RowErrors(AsWritten, r) != []
  {
    FieldRules(AsWritten, r);
  }

  /** Hence, as written, the form validates only while its list is empty. */
  lemma AsWrittenAcceptsOnlyEmpty(form: Taxes)
    ensures Validate(AsWritten, form).Success? <==> form.rows == []
  {
    if form.rows != [] {
      AsWrittenRejectsEveryRow(form.rows[0]);
    }
  }

  /** With the intended rules, a permanent row is valid exactly when its year and salary are in range. */
  lemma IntendedPermanentRow(r: TaxRow)
    requires r.Permanent? && r.kind == "permanent"
    ensures RowErrors(Intended, r) == [] <==>
      IsInteger(r.year) && 1900.0 <= r.year <= 2100.0 && r.monthlySalary >= 0.0
  {
    FieldRules(Intended, r);
  }

  /** With the intended rules, a freelancer row is valid exactly when its year, rate, hours and days are in range. */
  lemma IntendedFreelancerRow(r: TaxRow)
    requires r.Freelancer? && r.kind == "freelancer"
    ensures RowErrors(Intended, r) == [] <==>
      && IsInteger(r.year) && 1900.0 <= r.year <= 2100.0
      && r.hourlyRate >= 0.0
      && 0.0 <= r.hoursPerDay <= 24.0 && IsInteger(r.hoursPerDay)
      && 0.0 <= r.daysPerYear <= 356.0 && IsInteger(r.daysPerYear)
  {
    FieldRules(Intended, r);
  }
}
