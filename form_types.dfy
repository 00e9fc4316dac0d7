/**
 * The row data model of the tax form (src/types/formTypes.ts).
 *
 * Both row shapes carry the two BaseTaxRow properties, `year` and the
 * row's `type` string, here called `kind` because `type` is a Dafny keyword.
 * The string is open: nothing ties it to the shape, so a row's kind as the
 * totals see it is decided by its string alone. JavaScript numbers are
 * modelled as reals.
 */
module FormTypes {
  datatype TaxRow =
    | Permanent(year: real, kind: string, monthlySalary: real)
    | Freelancer(year: real, kind: string, hourlyRate: real, hoursPerDay: real, daysPerYear: real)

  /** PermanentTaxesRow: BaseTaxRow plus `monthlySalary`. */
  type PermanentTaxesRow = r: TaxRow | r.Permanent? witness Permanent(1900.0, "permanent", 0.0)

  /** FreelancerTaxesRow: BaseTaxRow plus `hourlyRate`, `hoursPerDay` and `daysPerYear`. */
  type FreelancerTaxesRow = r: TaxRow | r.Freelancer? witness Freelancer(1900.0, "freelancer", 0.0, 0.0, 0.0)

  /** The form state: one ordered list in which both row shapes are mixed. */
  datatype Taxes = Taxes(rows: seq<TaxRow>)

  /**
   * A row whose type string is "permanent" has the permanent shape, and one
   * whose string is "freelancer" the freelancer shape. This is what the
   * unchecked `as` casts of the component take for granted.
   */
  predicate CastSafe(r: TaxRow)
  {
    (r.kind == "permanent" ==> r.Permanent?) && (r.kind == "freelancer" ==> r.Freelancer?)
  }

  /** Every row of the list satisfies CastSafe. */
  predicate WellShaped(rows: seq<TaxRow>)
  {
    forall r :: r in rows ==> CastSafe(r)
  }

  /** A list is well shaped exactly when both of its parts are. */
  lemma WellShapedConcat(a: seq<TaxRow>, b: seq<TaxRow>)
    ensures WellShaped(a + b) <==> WellShaped(a) && WellShaped(b)
  {
    assert forall r :: r in a + b <==> r in a || r in b;
  }
}
