/**
 * The two figures the tax form derives from its row list
 * (src/components/Taxes.tsx:78-96): the list is split by each row's type
 * string and the per-kind totals of Calculations are added. The derivation
 * is a pure function of a snapshot of the list.
 */
module Totals {
  import opened FormTypes
  import opened Calculations

  /** `rows.filter((row) => row.type === kind)`: the rows with that type string, in list order. */
  function RowsOfType(rows: seq<TaxRow>, kind: string): (kept: seq<TaxRow>)
    ensures forall r :: r in kept <==> r in rows && r.kind == kind
  {
    if rows == [] then []
    else (if rows[0].kind == kind then [rows[0]] else []) + RowsOfType(rows[1..], kind)
  }

  /** The filter keeps each row of that type as many times as the list holds it, and no other row. */
  lemma {:induction false} RowsOfTypeCounts(rows: seq<TaxRow>, kind: string)
    ensures forall r :: multiset(RowsOfType(rows, kind))[r] == if r.kind == kind then multiset(rows)[r] else 0
  {
    if rows != [] {
      assert rows == [rows[0]] + rows[1..];
      RowsOfTypeCounts(rows[1..], kind);
    }
  }

  /** The "permanent" rows, as the `as FormTypes.PermanentTaxesRow[]` casts see them. */
  function PermanentRows(rows: seq<TaxRow>): (ps: seq<PermanentTaxesRow>)
    requires WellShaped(rows)
    ensures ps == RowsOfType(rows, "permanent")
  {
    var kept := RowsOfType(rows, "permanent");
    assert forall i :: 0 <= i < |kept| ==> kept[i] in rows && kept[i].kind == "permanent";
    kept
  }

  /** The "freelancer" rows, as the `as FormTypes.FreelancerTaxesRow[]` casts see them. */
  function FreelancerRows(rows: seq<TaxRow>): (fs: seq<FreelancerTaxesRow>)
    requires WellShaped(rows)
    ensures fs == RowsOfType(rows, "freelancer")
  {
    var kept := RowsOfType(rows, "freelancer");
    assert forall i :: 0 <= i < |kept| ==> kept[i] in rows && kept[i].kind == "freelancer";
    kept
  }

  /** `total` */
  function Total(rows: seq<TaxRow>): (total: real)
    requires WellShaped(rows)
    ensures (forall r :: r in rows ==> r.kind != "permanent" && r.kind != "freelancer") ==> total == 0.0
  {
    GetPermanentTaxesAnnualizedTotal(PermanentRows(rows))
    + GetFreelancerTaxesAnnualizedTotal(FreelancerRows(rows))
  }

  /** `totalAfterTaxes` */
  function TotalAfterTaxes(rows: seq<TaxRow>, rates: TaxRates): (total: real)
    requires WellShaped(rows)
    ensures (forall r :: r in rows ==> r.kind != "permanent" && r.kind != "freelancer") ==> total == 0.0
  {
    GetPermanentTaxesAnnualizedTotalAfterTaxes(PermanentRows(rows), rates.permanentTaxRate)
    + GetFreelancerTaxesAnnualizedTotalAfterTaxes(FreelancerRows(rows), rates.freelanceTaxRate)
  }

  /**
   * What one row adds to `total`, defined row by row: its annualised salary
   * or its yearly revenue when its type string names its shape, nothing
   * when the string is neither "permanent" nor "freelancer".
   */
  function RowTotal(r: TaxRow): real
  {
    match r
    case Permanent(_, kind, monthlySalary) =>
      if kind == "permanent" then GetAnnualizedMonthlySalary(monthlySalary) else 0.0
    case Freelancer(_, kind, _, _, _) =>
      if kind == "freelancer" then GetFreelancerYearlyRevenue(r) else 0.0
  }

  /** What one row adds to `totalAfterTaxes`: its share of `total` with the flat rate of its kind taken off. */
  function RowAfterTaxes(rates: TaxRates, r: TaxRow): real
  {
    match r
    case Permanent(_, _, _) => RowTotal(r) * (1.0 - rates.permanentTaxRate)
    case Freelancer(_, _, _, _, _) => RowTotal(r) * (1.0 - rates.freelanceTaxRate)
  }

  /** RowAfterTaxes for the given rates, as the mapping summed over the list. */
  function RowTotalAfterTaxes(rates: TaxRates): TaxRow -> real
  {
    r => RowAfterTaxes(rates, r)
  }

  lemma {:induction false} RowsOfTypeAppend(a: seq<TaxRow>, b: seq<TaxRow>, kind: string)
    ensures RowsOfType(a + b, kind) == RowsOfType(a, kind) + RowsOfType(b, kind)
  {
    if a == [] {
      assert a + b == b;
    } else {
      assert (a + b)[1..] == a[1..] + b;
      RowsOfTypeAppend(a[1..], b, kind);
    }
  }

  /** Both figures are additive over concatenation of row lists. */
  lemma TotalsAppend(a: seq<TaxRow>, b: seq<TaxRow>, rates: TaxRates)
    requires WellShaped(a + b)
    ensures WellShaped(a) && WellShaped(b)
    ensures Total(a + b) == Total(a) + Total(b)
    ensures TotalAfterTaxes(a + b, rates) == TotalAfterTaxes(a, rates) + TotalAfterTaxes(b, rates)
  {
    assert forall r :: r in a ==> r in a + b;
    assert forall r :: r in b ==> r in a + b;
    RowsOfTypeAppend(a, b, "permanent");
    RowsOfTypeAppend(a, b, "freelancer");
    PermanentTotalsAppend(PermanentRows(a), PermanentRows(b), rates.permanentTaxRate);
    FreelancerTotalsAppend(FreelancerRows(a), FreelancerRows(b), rates.freelanceTaxRate);
  }

  lemma TotalsOfOneRow(r: TaxRow, rates: TaxRates)
    requires CastSafe(r)
    ensures WellShaped([r])
    ensures Total([r]) == RowTotal(r)
    ensures TotalAfterTaxes([r], rates) == RowTotalAfterTaxes(rates)(r)
  {
    assert [r][1..] == [];
    assert RowsOfType([r], "permanent") == if r.kind == "permanent" then [r] else [];
    assert RowsOfType([r], "freelancer") == if r.kind == "freelancer" then [r] else [];
    if r.kind == "permanent" {
      var ps: seq<PermanentTaxesRow> := [r];
      assert PermanentRows([r]) == ps && FreelancerRows([r]) == [];
      SumByOne<PermanentTaxesRow>(r, AnnualizedRowSalary);
      SumByOne<PermanentTaxesRow>(r, PermanentRowAfterTaxes(rates.permanentTaxRate));
      assert GetPermanentTaxesAnnualizedTotal(ps) == AnnualizedRowSalary(r);
      assert GetPermanentTaxesAnnualizedTotalAfterTaxes(ps, rates.permanentTaxRate)
          == PermanentRowAfterTaxes(rates.permanentTaxRate)(r);
    } else if r.kind == "freelancer" {
      var fs: seq<FreelancerTaxesRow> := [r];
      assert PermanentRows([r]) == [] && FreelancerRows([r]) == fs;
      SumByOne<FreelancerTaxesRow>(r, GetFreelancerYearlyRevenue);
      SumByOne<FreelancerTaxesRow>(r, FreelancerRowAfterTaxes(rates.freelanceTaxRate));
      assert GetFreelancerTaxesAnnualizedTotal(fs) == GetFreelancerYearlyRevenue(r);
      assert GetFreelancerTaxesAnnualizedTotalAfterTaxes(fs, rates.freelanceTaxRate)
          == FreelancerRowAfterTaxes(rates.freelanceTaxRate)(r);
    } else {
      assert PermanentRows([r]) == [] && FreelancerRows([r]) == [];
    }
  }

  /**
   * `total` and `totalAfterTaxes` are the sums over the whole list of what
   * each row adds: splitting by type string and summing per kind loses and
   * double-counts nothing, and rows of any other type add nothing.
   */
  lemma {:induction false} TotalsAreSumsOfRowTotals(rows: seq<TaxRow>, rates: TaxRates)
    requires WellShaped(rows)
    ensures Total(rows) == SumBy(rows, RowTotal)
    ensures TotalAfterTaxes(rows, rates) == SumBy(rows, RowTotalAfterTaxes(rates))
  {
    if rows != [] {
      assert rows == [rows[0]] + rows[1..];
      TotalsAppend([rows[0]], rows[1..], rates);
      TotalsOfOneRow(rows[0], rates);
      TotalsAreSumsOfRowTotals(rows[1..], rates);
    }
  }

  /** Reordering the rows changes neither figure. */
  lemma TotalsPermutation(a: seq<TaxRow>, b: seq<TaxRow>, rates: TaxRates)
    requires WellShaped(a) && multiset(a) == multiset(b)
    ensures WellShaped(b)
    ensures Total(a) == Total(b)
    ensures TotalAfterTaxes(a, rates) == TotalAfterTaxes(b, rates)
  {
    assert forall r :: r in b ==> r in multiset(b);
    TotalsAreSumsOfRowTotals(a, rates);
    TotalsAreSumsOfRowTotals(b, rates);
    SumByPermutation(a, b, RowTotal);
    SumByPermutation(a, b, RowTotalAfterTaxes(rates));
  }

  /** A row whose type string is neither "permanent" nor "freelancer" contributes nothing, wherever it stands. */
  lemma TotalsIgnoreOtherTypes(a: seq<TaxRow>, r: TaxRow, b: seq<TaxRow>, rates: TaxRates)
    requires WellShaped(a + b)
    requires r.kind != "permanent" && r.kind != "freelancer"
    ensures WellShaped(a + [r] + b)
    ensures Total(a + [r] + b) == Total(a + b)
    ensures TotalAfterTaxes(a + [r] + b, rates) == TotalAfterTaxes(a + b, rates)
  {
    assert forall x :: x in a + [r] + b ==> x in a + b || x == r;
    TotalsAreSumsOfRowTotals(a + [r] + b, rates);
    TotalsAreSumsOfRowTotals(a + b, rates);
    var share := RowTotal(r);
    assert share == 0.0;
    assert RowTotalAfterTaxes(rates)(r) == 0.0;
    SumByAppend(a + [r], b, RowTotal);
    SumByAppend(a, [r], RowTotal);
    SumByAppend(a, b, RowTotal);
    SumByOne(r, RowTotal);
    SumByAppend(a + [r], b, RowTotalAfterTaxes(rates));
    SumByAppend(a, [r], RowTotalAfterTaxes(rates));
    SumByAppend(a, b, RowTotalAfterTaxes(rates));
    SumByOne(r, RowTotalAfterTaxes(rates));
  }

  /** The after-tax figure is each kind's total with that kind's flat rate taken off. */
  lemma TotalAfterTaxesFactored(rows: seq<TaxRow>, rates: TaxRates)
    requires WellShaped(rows)
    ensures TotalAfterTaxes(rows, rates)
         == (1.0 - rates.permanentTaxRate) * GetPermanentTaxesAnnualizedTotal(PermanentRows(rows))
          + (1.0 - rates.freelanceTaxRate) * GetFreelancerTaxesAnnualizedTotal(FreelancerRows(rows))
  {
    PermanentAfterTaxesFactored(PermanentRows(rows), rates.permanentTaxRate);
    FreelancerAfterTaxesFactored(FreelancerRows(rows), rates.freelanceTaxRate);
  }

  /** No amount of a row is negative. */
  predicate NonNegativeAmounts(r: TaxRow)
  {
    match r
    case Permanent(_, _, monthlySalary) => monthlySalary >= 0.0
    case Freelancer(_, _, hourlyRate, hoursPerDay, daysPerYear) =>
      hourlyRate >= 0.0 && hoursPerDay >= 0.0 && daysPerYear >= 0.0
  }

  lemma TotalNonNegative(rows: seq<TaxRow>)
    requires WellShaped(rows)
    requires forall r :: r in rows ==> NonNegativeAmounts(r)
    ensures Total(rows) >= 0.0
  {
    var ps := PermanentRows(rows);
    var fs := FreelancerRows(rows);
    assert forall i :: 0 <= i < |ps| ==> ps[i] in rows;
    assert forall i :: 0 <= i < |fs| ==> fs[i] in rows;
    PermanentTotalNonNegative(ps);
    FreelancerTotalNonNegative(fs);
  }

  /** With rates between 0 and 1, the after-tax figure lies between 0 and the pre-tax one. */
  lemma TotalAfterTaxesBounded(rows: seq<TaxRow>, rates: TaxRates)
    requires WellShaped(rows)
    requires forall r :: r in rows ==> NonNegativeAmounts(r)
    requires 0.0 <= rates.permanentTaxRate <= 1.0 && 0.0 <= rates.freelanceTaxRate <= 1.0
    ensures 0.0 <= TotalAfterTaxes(rows, rates) <= Total(rows)
  {
    var ps := PermanentRows(rows);
    var fs := FreelancerRows(rows);
    assert forall i :: 0 <= i < |ps| ==> ps[i] in rows;
    assert forall i :: 0 <= i < |fs| ==> fs[i] in rows;
    PermanentTotalNonNegative(ps);
    FreelancerTotalNonNegative(fs);
    TotalAfterTaxesFactored(rows, rates);
    NetSumBounded(rates, GetPermanentTaxesAnnualizedTotal(ps), GetFreelancerTaxesAnnualizedTotal(fs));
  }

  /** The bound above on the two per-kind totals, as plain numbers. */
  lemma NetSumBounded(rates: TaxRates, permanent: real, freelancer: real)
    requires 0.0 <= rates.permanentTaxRate <= 1.0 && 0.0 <= rates.freelanceTaxRate <= 1.0
    requires permanent >= 0.0 && freelancer >= 0.0
    ensures 0.0 <= (1.0 - rates.permanentTaxRate) * permanent + (1.0 - rates.freelanceTaxRate) * freelancer
    ensures (1.0 - rates.permanentTaxRate) * permanent + (1.0 - rates.freelanceTaxRate) * freelancer
         <= permanent + freelancer
  {
    var netPermanent := (1.0 - rates.permanentTaxRate) * permanent;
    var netFreelancer := (1.0 - rates.freelanceTaxRate) * freelancer;
    NetShareBounded(rates.permanentTaxRate, permanent);
    NetShareBounded(rates.freelanceTaxRate, freelancer);
    assert netPermanent <= permanent && netFreelancer <= freelancer;
  }

  /** What is left of a non-negative amount after a rate between 0 and 1 lies between 0 and the amount. */
  lemma NetShareBounded(rate: real, amount: real)
    requires 0.0 <= rate <= 1.0 && amount >= 0.0
    ensures 0.0 <= (1.0 - rate) * amount <= amount
  {
    assert (1.0 - rate) * amount == amount - rate * amount;
    assert rate * amount >= 0.0;
    assert (1.0 - rate) * amount >= 0.0;
  }

  /** One permanent row at 3000 a month and one freelancer row at 50 an hour, 8 hours a day, 220 days a year. */
  lemma MixedListExample()
    ensures var rows := [Permanent(2023.0, "permanent", 3000.0), Freelancer(2023.0, "freelancer", 50.0, 8.0, 220.0)];
      && WellShaped(rows)
      && Total(rows) == 124000.0
      && TotalAfterTaxes(rows, TaxRates(0.25, 0.3)) == 88600.0
  {
    var p := Permanent(2023.0, "permanent", 3000.0);
    var f := Freelancer(2023.0, "freelancer", 50.0, 8.0, 220.0);
    var rates := TaxRates(0.25, 0.3);
    TotalsAppend([p], [f], rates);
    TotalsOfOneRow(p, rates);
    TotalsOfOneRow(f, rates);
    assert RowTotal(p) == 36000.0 && RowAfterTaxes(rates, p) == 27000.0;
    assert RowTotal(f) == 88000.0 && RowAfterTaxes(rates, f) == 61600.0;
    assert [p] + [f] == [p, f];
  }
}
