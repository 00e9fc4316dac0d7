/**
 * The row list of the tax form (src/components/Taxes.tsx): it starts empty
 * (44-49), grows by one row with default values when a kind is appended
 * (56-71), and loses the row at an index when that row is removed (176).
 * Rows enter the list only through these operations, so the type string of
 * every row names its shape.
 */
module Form {
  import opened FormTypes
  import opened Calculations
  import opened Schema
  import opened Totals

  /** The row appended for "permanent". */
  const DefaultPermanentRow: TaxRow := Permanent(1900.0, "permanent", 0.0)

  /** The row appended for "freelancer". */
  const DefaultFreelancerRow: TaxRow := Freelancer(1900.0, "freelancer", 0.0, 0.0, 0.0)

  /**
   * The list without the row at `index`; the rows after it move up by one.
   * An index past the end leaves the list as it is.
   */
  function RemoveAt(rows: seq<TaxRow>, index: nat): (rest: seq<TaxRow>)
    ensures index < |rows| ==> |rest| == |rows| - 1
    ensures index < |rows| ==> forall j :: 0 <= j < |rest| ==> rest[j] == if j < index then rows[j] else rows[j + 1]
    ensures index < |rows| ==> multiset(rest) + multiset{rows[index]} == multiset(rows)
    ensures index >= |rows| ==> rest == rows
  {
    if index < |rows| then
      assert rows == rows[..index] + [rows[index]] + rows[index + 1..];
      rows[..index] + rows[index + 1..]
    else rows
  }

  class TaxesForm {
    /** The `rows` field array of the form. */
    var rows: seq<TaxRow>

    ghost predicate Valid()
      reads this
    {
      WellShaped(rows)
    }

    /** `useForm({ defaultValues: { rows: [] } })` */
    constructor ()
      ensures Valid() && rows == []
    {
      rows := [];
    }

    /** `onClickAppendRow(type)`: one default row at the end for a known kind, nothing otherwise. */
    method OnClickAppendRow(kind: string)
      requires Valid()
      modifies this
      ensures Valid()
      ensures kind == "permanent" ==> rows == old(rows) + [DefaultPermanentRow]
      ensures kind == "freelancer" ==> rows == old(rows) + [DefaultFreelancerRow]
      ensures kind != "permanent" && kind != "freelancer" ==> rows == old(rows)
    {
      if kind == "permanent" {
        rows := rows + [DefaultPermanentRow];
      } else if kind == "freelancer" {
        rows := rows + [DefaultFreelancerRow];
      }
    }

    /** `remove(index)` */
    method Remove(index: nat)
      requires Valid()
      modifies this
      ensures Valid()
      ensures rows == RemoveAt(old(rows), index)
    {
      if index < |rows| {
        rows := rows[..index] + rows[index + 1..];
      }
    }
  }

  /** Removing a row takes exactly that row's share off both figures. */
  lemma RemoveAtTotals(rows: seq<TaxRow>, index: nat, rates: TaxRates)
    requires WellShaped(rows) && index < |rows|
    ensures WellShaped(RemoveAt(rows, index))
    ensures Total(RemoveAt(rows, index)) == Total(rows) - RowTotal(rows[index])
    ensures TotalAfterTaxes(RemoveAt(rows, index), rates)
         == TotalAfterTaxes(rows, rates) - RowTotalAfterTaxes(rates)(rows[index])
  {
    var before, row, after := rows[..index], rows[index], rows[index + 1..];
    assert rows == before + [row] + after;
    assert RemoveAt(rows, index) == before + after;
    TotalsAppend(before + [row], after, rates);
    TotalsAppend(before, [row], rates);
    TotalsOfOneRow(row, rates);
    assert forall x :: x in before + after ==> x in rows;
    TotalsAppend(before, after, rates);
  }

  /** The default permanent row's share of either figure is zero: its salary is zero. */
  lemma DefaultPermanentRowAddsNothing(rates: TaxRates)
    ensures CastSafe(DefaultPermanentRow)
    ensures RowTotal(DefaultPermanentRow) == 0.0 && RowTotalAfterTaxes(rates)(DefaultPermanentRow) == 0.0
  {
    var share := RowTotal(DefaultPermanentRow);
    assert share == 0.0;
    assert RowAfterTaxes(rates, DefaultPermanentRow) == share * (1.0 - rates.permanentTaxRate);
  }

  /** The default freelancer row's share of either figure is zero: all three factors are zero. */
  lemma DefaultFreelancerRowAddsNothing(rates: TaxRates)
    ensures CastSafe(DefaultFreelancerRow)
    ensures RowTotal(DefaultFreelancerRow) == 0.0 && RowTotalAfterTaxes(rates)(DefaultFreelancerRow) == 0.0
  {
    var share := RowTotal(DefaultFreelancerRow);
    assert share == 0.0;
    assert RowAfterTaxes(rates, DefaultFreelancerRow) == share * (1.0 - rates.freelanceTaxRate);
  }

  /** Appending a row whose share of both figures is zero leaves both figures as they were. */
  lemma AppendRowWithoutShare(rows: seq<TaxRow>, row: TaxRow, rates: TaxRates)
    requires WellShaped(rows) && CastSafe(row)
    requires RowTotal(row) == 0.0 && RowTotalAfterTaxes(rates)(row) == 0.0
    ensures WellShaped(rows + [row])
    ensures Total(rows + [row]) == Total(rows)
    ensures TotalAfterTaxes(rows + [row], rates) == TotalAfterTaxes(rows, rates)
  {
    assert forall x :: x in rows + [row] ==> x in rows || x == row;
    TotalsAppend(rows, [row], rates);
    TotalsOfOneRow(row, rates);
  }

  /** Appending a default row of either kind leaves both figures as they were. */
  lemma AppendDefaultRowTotals(rows: seq<TaxRow>, rates: TaxRates)
    requires WellShaped(rows)
    ensures WellShaped(rows + [DefaultPermanentRow]) && WellShaped(rows + [DefaultFreelancerRow])
    ensures Total(rows + [DefaultPermanentRow]) == Total(rows)
    ensures TotalAfterTaxes(rows + [DefaultPermanentRow], rates) == TotalAfterTaxes(rows, rates)
    ensures Total(rows + [DefaultFreelancerRow]) == Total(rows)
    ensures TotalAfterTaxes(rows + [DefaultFreelancerRow], rates) == TotalAfterTaxes(rows, rates)
  {
    DefaultPermanentRowAddsNothing(rates);
    AppendRowWithoutShare(rows, DefaultPermanentRow, rates);
    DefaultFreelancerRowAddsNothing(rates);
    AppendRowWithoutShare(rows, DefaultFreelancerRow, rates);
  }

  /** The empty list, and any list of freshly appended rows, shows 0 for both figures. */
  lemma DefaultRowsTotalZero(rows: seq<TaxRow>, rates: TaxRates)
    requires forall r :: r in rows ==> r == DefaultPermanentRow || r == DefaultFreelancerRow
    ensures WellShaped(rows)
    ensures Total(rows) == 0.0 && TotalAfterTaxes(rows, rates) == 0.0
  {
    forall i | 0 <= i < |rows|
      ensures CastSafe(rows[i]) && RowTotal(rows[i]) == 0.0 && RowTotalAfterTaxes(rates)(rows[i]) == 0.0
    {
      assert rows[i] in rows;
      if rows[i] == DefaultPermanentRow {
        DefaultPermanentRowAddsNothing(rates);
      } else {
        DefaultFreelancerRowAddsNothing(rates);
      }
    }
    TotalsAreSumsOfRowTotals(rows, rates);
    SumByZero(rows, RowTotal);
    SumByZero(rows, RowTotalAfterTaxes(rates));
  }

  /** As written, the schema rejects a fresh permanent row for its missing `hourlyRate` alone; the intended rules accept it. */
  lemma DefaultPermanentRowErrors()
    ensures RowErrors(AsWritten, DefaultPermanentRow) == [HourlyRate]
    ensures RowErrors(Intended, DefaultPermanentRow) == []
  {
    assert IsInteger(1900.0);
    assert |"permanent"| != |"freelancer"|;
    assert forall f :: Passes(Intended, DefaultPermanentRow, f);
  }

  /** As written, the schema rejects a fresh freelancer row for its missing `monthlySalary` alone; the intended rules accept it. */
  lemma DefaultFreelancerRowErrors()
    ensures RowErrors(AsWritten, DefaultFreelancerRow) == [MonthlySalary]
    ensures RowErrors(Intended, DefaultFreelancerRow) == []
  {
    assert IsInteger(1900.0) && IsInteger(0.0);
    assert |"permanent"| != |"freelancer"|;
    assert forall f :: Passes(Intended, DefaultFreelancerRow, f);
  }

  /** With the intended rules, a form holding only freshly appended rows validates. */
  lemma IntendedAcceptsAppendedRows(form: Taxes)
    requires forall r :: r in form.rows ==> r == DefaultPermanentRow || r == DefaultFreelancerRow
    ensures Validate(Intended, form) == Wrappers.Success(form)
  {
    forall i | 0 <= i < |form.rows| ensures RowErrors(Intended, form.rows[i]) == [] {
      assert form.rows[i] in form.rows;
      if form.rows[i] == DefaultPermanentRow {
        DefaultPermanentRowErrors();
      } else {
        DefaultFreelancerRowErrors();
      }
    }
  }
}
