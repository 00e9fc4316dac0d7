/**
 * The income arithmetic of src/helpers/calculations.ts: annualising a
 * monthly salary, a freelancer's yearly revenue, and the per-kind totals
 * before and after tax, each a lodash `sum` over a mapped list of rows.
 */
module Calculations {
  import opened FormTypes

  /**
   * The two flat rates of src/constants/taxRates. Their values are not part
   * of this model, so every result below holds whatever the rates are.
   */
  datatype TaxRates = TaxRates(permanentTaxRate: real, freelanceTaxRate: real)

  /** `sum(xs.map(f))`: the sum of the mapped values; 0 for an empty list. */
  function SumBy<T>(xs: seq<T>, f: T -> real): real
  {
    if xs == [] then 0.0 else f(xs[0]) + SumBy(xs[1..], f)
  }

  lemma {:induction false} SumByAppend<T>(a: seq<T>, b: seq<T>, f: T -> real)
    ensures SumBy(a + b, f) == SumBy(a, f) + SumBy(b, f)
  {
    if a == [] {
      assert a + b == b;
    } else {
      assert (a + b)[1..] == a[1..] + b;
      SumByAppend(a[1..], b, f);
    }
  }

  lemma SumByOne<T>(x: T, f: T -> real)
    ensures SumBy([x], f) == f(x)
  {
    assert [x][1..] == [];
  }

  lemma {:induction false} SumByScaled<T>(xs: seq<T>, f: T -> real, g: T -> real, c: real)
    requires forall i :: 0 <= i < |xs| ==> g(xs[i]) == c * f(xs[i])
    ensures SumBy(xs, g) == c * SumBy(xs, f)
  {
    if xs != [] {
      SumByScaled(xs[1..], f, g, c);
    }
  }

  lemma {:induction false} SumByNonNegative<T>(xs: seq<T>, f: T -> real)
    requires forall i :: 0 <= i < |xs| ==> f(xs[i]) >= 0.0
    ensures SumBy(xs, f) >= 0.0
  {
    if xs != [] {
      SumByNonNegative(xs[1..], f);
    }
  }

  lemma {:induction false} SumByZero<T>(xs: seq<T>, f: T -> real)
    requires forall i :: 0 <= i < |xs| ==> f(xs[i]) == 0.0
    ensures SumBy(xs, f) == 0.0
  {
    if xs != [] {
      SumByZero(xs[1..], f);
    }
  }

  /** Summing does not depend on the order of the list. */
  lemma {:induction false} SumByPermutation<T>(a: seq<T>, b: seq<T>, f: T -> real)
    requires multiset(a) == multiset(b)
    ensures SumBy(a, f) == SumBy(b, f)
  {
    if a == [] {
      assert |b| == |multiset(b)|;
    } else {
      var x := a[0];
      assert a == [x] + a[1..];
      assert x in multiset(b) by { assert x in multiset(a); }
      var j :| 0 <= j < |b| && b[j] == x;
      var rest := b[..j] + b[j + 1..];
      assert b == b[..j] + [x] + b[j + 1..];
      assert multiset(a[1..]) == multiset(rest) by {
        assert multiset(a) == multiset([x]) + multiset(a[1..]);
        assert multiset(b) == multiset(b[..j]) + multiset([x]) + multiset(b[j + 1..]);
        assert multiset(rest) == multiset(b[..j]) + multiset(b[j + 1..]);
        assert multiset(a[1..]) == multiset(a) - multiset([x]);
        assert multiset(rest) == multiset(b) - multiset([x]);
      }
      SumByPermutation(a[1..], rest, f);
      SumByAppend(b[..j] + [x], b[j + 1..], f);
      SumByAppend(b[..j], [x], f);
      SumByAppend(b[..j], b[j + 1..], f);
      SumByOne(x, f);
    }
  }

  /** getAnnualizedMonthlySalary: twelve months' worth of a monthly amount. */
  function GetAnnualizedMonthlySalary(amount: real): (r: real)
    ensures r / 12.0 == amount
    ensures amount >= 0.0 ==> r >= 0.0
  {
    amount * 12.0
  }

  /** The mapping `(row) => getAnnualizedMonthlySalary(row.monthlySalary)`. */
  function AnnualizedRowSalary(row: PermanentTaxesRow): (annual: real)
    ensures annual / 12.0 == row.monthlySalary
  {
    GetAnnualizedMonthlySalary(row.monthlySalary)
  }

  /** The mapping summed for the permanent total after taxes: the annualised salary less the flat permanent rate. */
  function PermanentRowAfterTaxes(permanentTaxRate: real): (net: PermanentTaxesRow -> real)
  {
    (row: PermanentTaxesRow) => GetAnnualizedMonthlySalary(row.monthlySalary) * (1.0 - permanentTaxRate)
  }

  /** getPermanentTaxesAnnualizedTotal */
  function GetPermanentTaxesAnnualizedTotal(rows: seq<PermanentTaxesRow>): (r: real)
    ensures rows == [] ==> r == 0.0
  {
    SumBy(rows, AnnualizedRowSalary)
  }

  /** getPermanentTaxesAnnualizedTotalAfterTaxes */
  function GetPermanentTaxesAnnualizedTotalAfterTaxes(rows: seq<PermanentTaxesRow>, permanentTaxRate: real): (r: real)
    ensures rows == [] ==> r == 0.0
  {
    SumBy(rows, PermanentRowAfterTaxes(permanentTaxRate))
  }

  /** getFreelancerYearlyRevenue */
  function GetFreelancerYearlyRevenue(row: FreelancerTaxesRow): (revenue: real)
  {
    row.hourlyRate * row.hoursPerDay * row.daysPerYear
  }

  /** A freelancer's yearly revenue is zero exactly when one of its three factors is, and never negative when none is. */
  lemma FreelancerYearlyRevenueSign(row: FreelancerTaxesRow)
    ensures GetFreelancerYearlyRevenue(row) == 0.0 <==>
      row.hourlyRate == 0.0 || row.hoursPerDay == 0.0 || row.daysPerYear == 0.0
    ensures row.hourlyRate >= 0.0 && row.hoursPerDay >= 0.0 && row.daysPerYear >= 0.0 ==>
      GetFreelancerYearlyRevenue(row) >= 0.0
  {
  }

  /** The mapping summed for the freelancer total after taxes: the yearly revenue less the flat freelance rate. */
  function FreelancerRowAfterTaxes(freelanceTaxRate: real): (net: FreelancerTaxesRow -> real)
  {
    (row: FreelancerTaxesRow) => GetFreelancerYearlyRevenue(row) * (1.0 - freelanceTaxRate)
  }

  /** getFreelancerTaxesAnnualizedTotal */
  function GetFreelancerTaxesAnnualizedTotal(rows: seq<FreelancerTaxesRow>): (r: real)
    ensures rows == [] ==> r == 0.0
  {
    SumBy(rows, GetFreelancerYearlyRevenue)
  }

  /** getFreelancerTaxesAnnualizedTotalAfterTaxes */
  function GetFreelancerTaxesAnnualizedTotalAfterTaxes(rows: seq<FreelancerTaxesRow>, freelanceTaxRate: real): (r: real)
    ensures rows == [] ==> r == 0.0
  {
    SumBy(rows, FreelancerRowAfterTaxes(freelanceTaxRate))
  }

  // Permanent totals

  lemma PermanentTotalsAppend(a: seq<PermanentTaxesRow>, b: seq<PermanentTaxesRow>, permanentTaxRate: real)
    ensures GetPermanentTaxesAnnualizedTotal(a + b)
         == GetPermanentTaxesAnnualizedTotal(a) + GetPermanentTaxesAnnualizedTotal(b)
    ensures GetPermanentTaxesAnnualizedTotalAfterTaxes(a + b, permanentTaxRate)
         == GetPermanentTaxesAnnualizedTotalAfterTaxes(a, permanentTaxRate)
          + GetPermanentTaxesAnnualizedTotalAfterTaxes(b, permanentTaxRate)
  {
    SumByAppend(a, b, AnnualizedRowSalary);
    SumByAppend(a, b, PermanentRowAfterTaxes(permanentTaxRate));
  }

  lemma PermanentTotalsPermutation(a: seq<PermanentTaxesRow>, b: seq<PermanentTaxesRow>, permanentTaxRate: real)
    requires multiset(a) == multiset(b)
    ensures GetPermanentTaxesAnnualizedTotal(a) == GetPermanentTaxesAnnualizedTotal(b)
    ensures GetPermanentTaxesAnnualizedTotalAfterTaxes(a, permanentTaxRate)
         == GetPermanentTaxesAnnualizedTotalAfterTaxes(b, permanentTaxRate)
  {
    SumByPermutation(a, b, AnnualizedRowSalary);
    SumByPermutation(a, b, PermanentRowAfterTaxes(permanentTaxRate));
  }

  lemma PermanentTotalNonNegative(rows: seq<PermanentTaxesRow>)
    requires forall i :: 0 <= i < |rows| ==> rows[i].monthlySalary >= 0.0
    ensures GetPermanentTaxesAnnualizedTotal(rows) >= 0.0
  {
    SumByNonNegative(rows, AnnualizedRowSalary);
  }

  /** Taking the rate off each row is the same as taking it off the total. */
  lemma PermanentAfterTaxesFactored(rows: seq<PermanentTaxesRow>, permanentTaxRate: real)
    ensures GetPermanentTaxesAnnualizedTotalAfterTaxes(rows, permanentTaxRate)
         == (1.0 - permanentTaxRate) * GetPermanentTaxesAnnualizedTotal(rows)
  {
    SumByScaled(rows, AnnualizedRowSalary, PermanentRowAfterTaxes(permanentTaxRate), 1.0 - permanentTaxRate);
  }

  // Freelancer totals

  lemma FreelancerTotalsAppend(a: seq<FreelancerTaxesRow>, b: seq<FreelancerTaxesRow>, freelanceTaxRate: real)
    ensures GetFreelancerTaxesAnnualizedTotal(a + b)
         == GetFreelancerTaxesAnnualizedTotal(a) + GetFreelancerTaxesAnnualizedTotal(b)
    ensures GetFreelancerTaxesAnnualizedTotalAfterTaxes(a + b, freelanceTaxRate)
         == GetFreelancerTaxesAnnualizedTotalAfterTaxes(a, freelanceTaxRate)
          + GetFreelancerTaxesAnnualizedTotalAfterTaxes(b, freelanceTaxRate)
  {
    SumByAppend(a, b, GetFreelancerYearlyRevenue);
    SumByAppend(a, b, FreelancerRowAfterTaxes(freelanceTaxRate));
  }

  lemma FreelancerTotalsPermutation(a: seq<FreelancerTaxesRow>, b: seq<FreelancerTaxesRow>, freelanceTaxRate: real)
    requires multiset(a) == multiset(b)
    ensures GetFreelancerTaxesAnnualizedTotal(a) == GetFreelancerTaxesAnnualizedTotal(b)
    ensures GetFreelancerTaxesAnnualizedTotalAfterTaxes(a, freelanceTaxRate)
         == GetFreelancerTaxesAnnualizedTotalAfterTaxes(b, freelanceTaxRate)
  {
    SumByPermutation(a, b, GetFreelancerYearlyRevenue);
    SumByPermutation(a, b, FreelancerRowAfterTaxes(freelanceTaxRate));
  }

  lemma FreelancerTotalNonNegative(rows: seq<FreelancerTaxesRow>)
    requires forall i :: 0 <= i < |rows| ==>
      rows[i].hourlyRate >= 0.0 && rows[i].hoursPerDay >= 0.0 && rows[i].daysPerYear >= 0.0
    ensures GetFreelancerTaxesAnnualizedTotal(rows) >= 0.0
  {
    forall i | 0 <= i < |rows| ensures GetFreelancerYearlyRevenue(rows[i]) >= 0.0 {
      FreelancerYearlyRevenueSign(rows[i]);
    }
    SumByNonNegative(rows, GetFreelancerYearlyRevenue);
  }

  lemma FreelancerAfterTaxesFactored(rows: seq<FreelancerTaxesRow>, freelanceTaxRate: real)
    ensures GetFreelancerTaxesAnnualizedTotalAfterTaxes(rows, freelanceTaxRate)
         == (1.0 - freelanceTaxRate) * GetFreelancerTaxesAnnualizedTotal(rows)
  {
    SumByScaled(rows, GetFreelancerYearlyRevenue, FreelancerRowAfterTaxes(freelanceTaxRate), 1.0 - freelanceTaxRate);
  }
}
