# Tax calculator — verified model

This project models the core of a small tax calculator. A form holds a list of income rows.
A *permanent* row gives a monthly salary. A *freelancer* row gives an hourly rate, hours per day
and days per year. The page shows two figures: the annualized total income, and the total after
a flat tax rate per kind of row.

The model covers:

- the row and form types (`FormTypes`);
- the calculation helpers (`Calculations`): annualizing a monthly salary, a freelancer's yearly
  revenue, and the four list totals;
- the validation schema of the form (`Schema`);
- the two totals the page derives from the rows (`Totals`);
- the form's row list (`Form.TaxesForm`): it starts empty, gets rows appended with default
  values by kind, and has rows removed by index.

Numbers are modelled as exact `real`s, so there is no rounding. The row field `type` is called
`kind`, because `type` is a Dafny keyword. The two tax rates come from a constants module that
is not part of this model, so they are parameters (`Calculations.TaxRates`). Every property
holds for any rates, except `Totals.TotalAfterTaxesBounded`, which needs both rates in [0, 1].

`lodash`'s `sum(rows.map(f))` is `Calculations.SumBy(rows, f)`. `rows.filter(row => row.type === k)`
is `Totals.RowsOfType`. The `as PermanentTaxesRow[]` casts are sound only when every row whose
type names a kind has that kind's fields. The predicate `FormTypes.WellShaped` states this, the
totals require it, and the form class keeps it as its invariant.

Validation is modelled as a function from a form to either the form itself or the list of
(row index, field) errors. `Schema.Rules` chooses between the rules as written in the source
(`AsWritten`) and the corrected rules described under Findings (`Intended`). The bound on
`daysPerYear` is 356, as the code has it, and not 365.

## Model

| member | source | states |
|---|---|---|
| FormTypes.CastSafe | src/types/formTypes.ts:1-14 | a row whose type string is "permanent" has the PermanentTaxesRow fields, and one whose string is "freelancer" the FreelancerTaxesRow fields |
| FormTypes.WellShaped | src/types/formTypes.ts:16-18 | every row of the mixed `rows` list of `Taxes` is CastSafe |
| FormTypes.WellShapedConcat | src/types/formTypes.ts:16-18 | a row list is well shaped exactly when both parts of a split of it are |
| Calculations.GetAnnualizedMonthlySalary | src/helpers/calculations.ts:5-7 | the annual figure is twelve times the monthly amount, and it is non-negative when the amount is |
| Calculations.AnnualizedRowSalary | src/helpers/calculations.ts:10 | the mapping `(row) => getAnnualizedMonthlySalary(row.monthlySalary)`: twelve times the row's monthly salary |
| Calculations.PermanentRowAfterTaxes | src/helpers/calculations.ts:15-18 | the mapping at lines 15-18: a row's annualized salary times (1 - permanent rate); its contract is stated by Calculations.PermanentAfterTaxesFactored |
| Calculations.GetPermanentTaxesAnnualizedTotal | src/helpers/calculations.ts:9-11 | no permanent rows total 0 |
| Calculations.GetPermanentTaxesAnnualizedTotalAfterTaxes | src/helpers/calculations.ts:13-20 | no permanent rows total 0 after taxes |
| Calculations.GetFreelancerTaxesAnnualizedTotal | src/helpers/calculations.ts:22-24 | no freelancer rows total 0 |
| Calculations.GetFreelancerTaxesAnnualizedTotalAfterTaxes | src/helpers/calculations.ts:26-33 | no freelancer rows total 0 after taxes |
| Calculations.GetFreelancerYearlyRevenue | src/helpers/calculations.ts:35-37 | hourly rate times hours per day times days per year; its contract is stated by Calculations.FreelancerYearlyRevenueSign |
| Calculations.FreelancerRowAfterTaxes | src/helpers/calculations.ts:28-31 | the mapping at lines 28-31: a row's yearly revenue times (1 - freelance rate); its contract is stated by Calculations.FreelancerAfterTaxesFactored |
| Calculations.FreelancerYearlyRevenueSign | src/helpers/calculations.ts:35-37 | yearly revenue is 0 exactly when one of hourly rate, hours per day or days per year is 0, and it is non-negative when all three are |
| Calculations.SumByAppend | src/helpers/calculations.ts:10 | summing mapped values over a concatenation is the sum of the two parts |
| Calculations.SumByPermutation | src/helpers/calculations.ts:10 | summing mapped values does not depend on the order of the list |
| Calculations.SumByScaled | src/helpers/calculations.ts:14-19 | multiplying every mapped value by a constant multiplies the sum by it |
| Calculations.SumByNonNegative | src/helpers/calculations.ts:10 | a sum of non-negative mapped values is non-negative |
| Calculations.SumByZero | src/helpers/calculations.ts:10 | a sum of zero mapped values is zero |
| Calculations.SumByOne | src/helpers/calculations.ts:10 | the sum over one row is that row's value |
| Calculations.PermanentTotalsAppend | src/helpers/calculations.ts:9-20 | both permanent totals of a concatenation are the sums of the totals of its parts |
| Calculations.PermanentTotalsPermutation | src/helpers/calculations.ts:9-20 | both permanent totals are unchanged by reordering the rows |
| Calculations.PermanentTotalNonNegative | src/helpers/calculations.ts:9-11 | rows with non-negative salaries have a non-negative annual total |
| Calculations.PermanentAfterTaxesFactored | src/helpers/calculations.ts:13-20 | the permanent total after taxes is (1 - rate) times the permanent total |
| Calculations.FreelancerTotalsAppend | src/helpers/calculations.ts:22-33 | both freelancer totals of a concatenation are the sums of the totals of its parts |
| Calculations.FreelancerTotalsPermutation | src/helpers/calculations.ts:22-33 | both freelancer totals are unchanged by reordering the rows |
| Calculations.FreelancerTotalNonNegative | src/helpers/calculations.ts:22-24 | rows with non-negative factors have a non-negative freelancer total |
| Calculations.FreelancerAfterTaxesFactored | src/helpers/calculations.ts:26-33 | the freelancer total after taxes is (1 - rate) times the freelancer total |
| Schema.FailingFields | src/components/Taxes.tsx:30-39 | a field is reported exactly when it is among those checked and fails its rule |
| Schema.NumberPasses | src/components/Taxes.tsx:32-38 | a `yup.number()` chain: an absent value fails only under `.required()`; a present one must be >= its `.min`, <= its `.max` if any, and whole under `.integer()` |
| Schema.Passes | src/components/Taxes.tsx:31-38 | the rule of each of the six schema keys for one row; stated field by field by Schema.FieldRules |
| Schema.IntendedNoStricter | src/components/Taxes.tsx:34-36 | the corrected rules accept whatever the rules as written accept, and differ from them only on `monthlySalary` and `hourlyRate` |
| Schema.RowErrors | src/components/Taxes.tsx:30-39 | a row's errors are exactly the fields whose rules it fails; none means every rule passes |
| Schema.KeyedBy | src/components/Taxes.tsx:27-41 | each field error is tagged with its row index, one error per failing field |
| Schema.ErrorsFrom | src/components/Taxes.tsx:27-41 | an error (i, f) is reported exactly when row i is in range and fails field f; none means every row has no errors |
| Schema.Validate | src/components/Taxes.tsx:26-42 | the form validates exactly when every row passes every rule, and then it is returned unchanged; otherwise the errors are exactly the failing (row, field) pairs |
| Schema.FieldRules | src/components/Taxes.tsx:31-38 | each field's rule: type non-empty; year an integer in [1900, 2100]; salary and rate present and >= 0 (as written, on every row); hours per day and days per year absent or integers in [0, 24] and [0, 356] |
| Schema.AsWrittenRejectsEveryRow | src/components/Taxes.tsx:34-36 | as written, a permanent row always fails `hourlyRate` and a freelancer row always fails `monthlySalary` |
| Schema.AsWrittenAcceptsOnlyEmpty | src/components/Taxes.tsx:26-42 | as written, a form validates exactly when it has no rows |
| Schema.IntendedPermanentRow | src/components/Taxes.tsx:31-38 | with the corrected rules, a permanent row of type "permanent" is valid exactly when its year is an integer in [1900, 2100] and its salary is >= 0 |
| Schema.IntendedFreelancerRow | src/components/Taxes.tsx:31-38 | with the corrected rules, a freelancer row of type "freelancer" is valid exactly when its year is an integer in [1900, 2100], its rate is >= 0 and its hours and days are integers within their bounds |
| Totals.RowsOfType | src/components/Taxes.tsx:80 | the filter keeps exactly the rows whose type is the given one; Totals.RowsOfTypeCounts gives the multiplicities and Totals.RowsOfTypeAppend the order |
| Totals.RowsOfTypeCounts | src/components/Taxes.tsx:80 | the filter keeps each row of the given type exactly as many times as the list holds it, and no other row |
| Totals.PermanentRows | src/components/Taxes.tsx:79-80 | `rows.filter(row => row.type === "permanent") as PermanentTaxesRow[]`: the cast changes nothing, the list is the filtered rows |
| Totals.FreelancerRows | src/components/Taxes.tsx:82-83 | `rows.filter(row => row.type === "freelancer") as FreelancerTaxesRow[]`: the cast changes nothing, the list is the filtered rows |
| Totals.Total | src/components/Taxes.tsx:78-86 | `total`: the permanent total of the permanent rows plus the freelancer total of the freelancer rows; 0 when no row has either type |
| Totals.TotalAfterTaxes | src/components/Taxes.tsx:88-96 | `totalAfterTaxes`: the two after-tax totals added; 0 when no row has either type |
| Totals.RowsOfTypeAppend | src/components/Taxes.tsx:80 | filtering a concatenation is concatenating the filtered parts |
| Totals.TotalsAppend | src/components/Taxes.tsx:78-96 | both page totals of a concatenation are the sums of the totals of its parts |
| Totals.TotalsOfOneRow | src/components/Taxes.tsx:78-96 | a one-row list totals that row's own share, before and after taxes |
| Totals.TotalsAreSumsOfRowTotals | src/components/Taxes.tsx:78-96 | both page totals are the sums of the per-row shares |
| Totals.TotalsPermutation | src/components/Taxes.tsx:78-96 | both page totals are unchanged by reordering the rows |
| Totals.TotalsIgnoreOtherTypes | src/components/Taxes.tsx:78-96 | a row whose type is neither kind changes neither total |
| Totals.TotalAfterTaxesFactored | src/components/Taxes.tsx:88-96 | the after-tax total is the permanent total times (1 - permanent rate) plus the freelancer total times (1 - freelance rate) |
| Totals.TotalNonNegative | src/components/Taxes.tsx:78-86 | rows with non-negative amounts have a non-negative total |
| Totals.TotalAfterTaxesBounded | src/components/Taxes.tsx:88-96 | with rates in [0, 1] and non-negative amounts, the after-tax total lies between 0 and the total |
| Totals.MixedListExample | src/components/Taxes.tsx:78-96 | 3000 a month plus 50 an hour for 8 hours on 220 days give 124000, and 88600 after rates of 0.25 and 0.3 |
| Form.RemoveAt | src/components/Taxes.tsx:176 | removing index i shifts the later rows down by one, drops exactly that row from the multiset, and leaves the list unchanged for an index out of range |
| Form.TaxesForm.constructor | src/components/Taxes.tsx:44-49 | the form starts with no rows |
| Form.TaxesForm.Valid | src/components/Taxes.tsx:56-71 | the form's invariant: its row list is well shaped, since rows only enter it through the two default rows |
| Form.TaxesForm.OnClickAppendRow | src/components/Taxes.tsx:56-71 | "permanent" appends a permanent row with salary 0 and year 1900; "freelancer" appends a freelancer row with all three factors 0 and year 1900; any other type changes nothing |
| Form.TaxesForm.Remove | src/components/Taxes.tsx:176 | the row list becomes the list with that index removed, and the shape invariant is kept |
| Form.RemoveAtTotals | src/components/Taxes.tsx:78-96 | removing a row lowers each total by exactly that row's share |
| Form.DefaultPermanentRowAddsNothing | src/components/Taxes.tsx:59 | a fresh permanent row contributes 0 to both totals |
| Form.DefaultFreelancerRowAddsNothing | src/components/Taxes.tsx:62-68 | a fresh freelancer row contributes 0 to both totals |
| Form.AppendRowWithoutShare | src/components/Taxes.tsx:78-96 | appending a row with no share leaves both totals unchanged |
| Form.AppendDefaultRowTotals | src/components/Taxes.tsx:56-71 | appending either default row leaves both totals unchanged |
| Form.DefaultRowsTotalZero | src/components/Taxes.tsx:56-96 | a list made only of freshly appended rows has both totals 0 |
| Form.DefaultPermanentRowErrors | src/components/Taxes.tsx:34-36 | as written, a fresh permanent row fails on `hourlyRate` alone; with the corrected rules it has no errors |
| Form.DefaultFreelancerRowErrors | src/components/Taxes.tsx:34-36 | as written, a fresh freelancer row fails on `monthlySalary` alone; with the corrected rules it has no errors |
| Form.IntendedAcceptsAppendedRows | src/components/Taxes.tsx:26-71 | with the corrected rules, a form holding only freshly appended rows validates and is returned unchanged |

## Left out

- Rendering: the table, buttons, icons and layout are not modelled.
- The form library's hooks: `useForm`, `useWatch` and `useMemo` are not modelled. The totals are functions of the current row list.
- Editing a field through its input is not modelled. Text-to-number coercion of inputs is also left out.
- Submitting the form only logs it, so it is left out.
- The `min: 1900` hint on the year input is a browser hint, not a validation rule.
- Row `id` keys from the field array are left out.
- Floating point is left out: numbers are exact reals, so there is no rounding, NaN or infinity.
- The tax-rate values: src/constants/taxRates is not part of this model. The rates are parameters.
- Totals.Total: requires every row to be well shaped. This reflects the `as` casts in the source. A row of type "permanent" without a salary would give NaN at run time, and the model does not represent that.
- Schema.Validate: reports which (row, field) pairs fail. It does not model yup's message texts or the shape of the error object.
- Form.TaxesForm.Remove: an index out of range leaves the list unchanged. The page only removes rows it shows, so this case never arises there.

## Findings

| source | as written | input that shows it | evidently intended | confidence | as-written member | corrected member |
|---|---|---|---|---|---|---|
| src/components/Taxes.tsx:34-36 | `monthlySalary` and `hourlyRate` are both required on every row | any form with a row, e.g. one fresh permanent row (year 1900, salary 0): it fails on `hourlyRate` | `monthlySalary` required only on permanent rows, `hourlyRate` only on freelancer rows | not executed | Schema.AsWrittenAcceptsOnlyEmpty | Form.IntendedAcceptsAppendedRows |
