# Slovak income tax return engine (type B, tax year 2023)

This project models the calculation core of an online filler for the Slovak
personal income tax return (type B) for self-employed people who use flat-rate
expenses. `calculate` takes the user's answers and derives every line of the
return. These lines are income and flat expenses, the business and employment
tax bases, the non-taxable parts (own, partner, pension savings), the
two-band tax, the child tax bonus, the settlement (tax due or overpayment),
and the 2% / 3% share of the tax assigned to an organisation. Beside
`calculate` the core has the summary page (`buildSummary`), the advance-payment
estimate (`countPreddavky`), the "only 3% possible" test
(`donateOnly3Percent`) and the month-picker lookup (`monthToKeyValue`).

Amounts are exact decimals in the source, so they are exact `real`s here. The
rounding modes the source names are written out:

- `Money.HalfUp2` is half-up to cents.
- `Money.RoundUp2` is away from zero to cents.

The model has these modules:

- `Money`: rounding and the min/max/abs helpers.
- `Children`: `makeMapChild`, `getRate`, `getPocetDetivMesiaci` and `getPercentualnyLimitNaDeti`.
- `ChildTaxBonus`: line r117.
  - The functional side: the months split into maximal runs of equal child count, each run capped by its own limit.
  - The loops of the getter as methods, each proved to compute that function.
- `Calculation`: every other line of `calculate`. Each getter with logic of its own is a function of the lines it reads. `Calculate` evaluates them in dependency order into a `TaxForm` of four sections: income, taxes, settlement and donation.
- `ReturnSummary`: `buildSummary`, `donateOnly3Percent` and `countPreddavky`.
- `MonthNames`: `monthToKeyValue`.
- `Scenarios`: the returns for two of the repository's test inputs, computed line by line.

The engine imports six helpers. `round`, `percentage` and `sum` are written
out in this model (`Money.Round` as half-up to cents, `Money.Percentage` as
`a * p / 100`, `sum` as plain addition); the other three have no code here.
They are fields of `Calculation.Helpers`, and every result holds for any
choice of them:

- the number parser `parseInputNumber`;
- the age from a birth number (`ageAt`);
- the partner form validator `validatePartnerBonusForm`.

## Model

| member | source | states |
|---|---|---|
| Money.HalfUp2 | src/lib/calculation.ts:454-460 | rounding half-up gives whole cents within half a cent of the amount, keeping its sign. The bound is strict on the side towards zero, so a tie goes away from zero (0.005 gives 0.01, −0.005 gives −0.01) |
| Money.RoundUp2 | src/lib/calculation.ts:453 | rounding up gives whole cents, at most one cent further from zero and never nearer to it |
| Money.HalfUp2Monotone | src/lib/calculation.ts:454-460 | rounding to cents preserves order |
| Children.DigitsOnly | src/lib/calculation.ts:69 | only digits remain, no longer than the input, and an all-digit string is unchanged |
| Children.DigitsOnlyAppend | src/lib/calculation.ts:69 | the digits of a concatenation are the digits of each part, in order |
| Children.DigitsOnlyChar | src/lib/calculation.ts:69 | one character is kept iff it is a digit. With `DigitsOnlyAppend` this fixes the result: every digit of the input is kept, in order, and nothing else |
| Children.MakeMapChild | src/lib/calculation.ts:61-84 | digits-only birth number. `m00` iff the user has children and claims the child all year. No flag without children. No month flag for a whole-year child. For a window inside the year, month k+1 is flagged iff k is in the window |
| Children.Rate | src/lib/calculation.ts:620-705 | the rate is 0, 140 or 50. It is positive iff the child is eligible in the month. It is 140 iff the child is also under 18 in that month of 2023 |
| Children.ChildrenInMonth | src/lib/calculation.ts:707-751 | the count is at most the number of children. It is 0 iff no child is eligible in the month, and all of them iff every child is |
| Children.CountChildrenInMonth | src/lib/calculation.ts:707-751 | the reduce with its accumulator computes `ChildrenInMonth` |
| Children.PercentLimit | src/lib/calculation.ts:753-773 | 0 for no child, 20% + 7 points per further child up to 6, 55% from 6 on |
| Children.PercentLimitMonotone | src/lib/calculation.ts:753-773 | more children never lower the cap percentage, which stays within 0..55% |
| ChildTaxBonus.MonthCounts | src/lib/calculation.ts:405-421 | the month map gives twelve `{count, month}` entries, the i-th for month i + 1 with the number of children eligible in that month |
| ChildTaxBonus.Runs | src/lib/calculation.ts:423-438 | every month group is nonempty |
| ChildTaxBonus.RunsFlatten | src/lib/calculation.ts:423-438 | the month groups put back together give the months back, in order |
| ChildTaxBonus.RunsMaximal | src/lib/calculation.ts:423-438 | every group is nonempty with one child count, and neighbouring groups differ in count |
| ChildTaxBonus.RunsUnique | src/lib/calculation.ts:423-438 | any partition with those two properties is the grouping itself |
| ChildTaxBonus.GroupMonths | src/lib/calculation.ts:423-438 | the loop that closes a group at each change of count and at the last month produces exactly the maximal runs |
| ChildTaxBonus.MonthGroupsCoverYear | src/lib/calculation.ts:405-438 | the groups of r117 cover January..December in order and are maximal runs |
| ChildTaxBonus.MonthRateSum | src/lib/calculation.ts:445-448 | the month's rates are non-negative and are 0 iff no child is eligible that month |
| ChildTaxBonus.GroupRateSum | src/lib/calculation.ts:443-449 | a group's rate sum is non-negative |
| ChildTaxBonus.SumGroupRates | src/lib/calculation.ts:443-449 | the nested loops compute `GroupRateSum` |
| ChildTaxBonus.GroupRateSumAppend | src/lib/calculation.ts:443-449 | rate sums of consecutive stretches of months add up |
| ChildTaxBonus.YearlyCap | src/lib/calculation.ts:451-455 | the cap before proration is whole cents within half a cent of the base rounded up to cents times the percentage for the child count. It is non-negative for a non-negative base and 0 for no child |
| ChildTaxBonus.Prorated | src/lib/calculation.ts:457-460 | a twelve-month cap is unchanged. An n-month cap is within `0.005·n + 0.005` of n twelfths of the yearly cap. Whole cents stay whole cents, and sign and zero are kept |
| ChildTaxBonus.GroupLimit | src/lib/calculation.ts:451-460 | a group's cap is whole cents, non-negative for a non-negative base, and 0 for a group counting no child. Its value is `Prorated` of `YearlyCap`, with the bounds of both |
| ChildTaxBonus.FullYearLimit | src/lib/calculation.ts:457 | a twelve-month group's cap is the yearly cap, without proration |
| ChildTaxBonus.GroupBonus | src/lib/calculation.ts:462 | a group adds the smaller of its rate sum and its cap |
| ChildTaxBonus.SumOneGroup | src/lib/calculation.ts:439-465 | `SumGroupBonuses`, the `danovyBonus` sum over the groups, is over a single group that group's bonus |
| ChildTaxBonus.WholeYearChildren | src/lib/calculation.ts:404-468 | `ChildBonus`, the r117 line, for children all claimed for the whole year is the bonus of the single twelve-month group |
| ChildTaxBonus.SumGroupBonusesSnoc | src/lib/calculation.ts:441-465 | one more group adds that group's capped bonus to the `danovyBonus` sum so far |
| ChildTaxBonus.AddGroupBonus | src/lib/calculation.ts:442-464 | one pass of the group loop (rate sum, capped at the prorated limit, then added) takes the sum over the first g groups to the sum over g + 1 |
| ChildTaxBonus.SumBonuses | src/lib/calculation.ts:439-467 | the loop over the groups, from 0, returns `SumGroupBonuses` of all of them |
| ChildTaxBonus.ComputeChildBonus | src/lib/calculation.ts:404-468 | the whole getter (month map, grouping loop, then the group loop) computes `ChildBonus` on the base r038 + r045 |
| ChildTaxBonus.ChildBonusNonNegative | src/lib/calculation.ts:404-468 | `ChildBonus` (r117) on a non-negative base is non-negative |
| ChildTaxBonus.ChildBonusAtMostRates | src/lib/calculation.ts:404-468 | the bonus never exceeds the uncapped sum of every child's monthly rates over the year |
| ChildTaxBonus.NoEligibleChildNoBonus | src/lib/calculation.ts:404-468 | with no child eligible in any month the bonus is 0 |
| ChildTaxBonus.SumGroupBonusesNonNegative | src/lib/calculation.ts:440-465 | groups on a non-negative base add up to a non-negative bonus |
| ChildTaxBonus.SumGroupBonusesAtMostRates | src/lib/calculation.ts:440-465 | the capped group bonuses never exceed the uncapped rates of the same months |
| ChildTaxBonus.MonthRateSumAllEligible | src/lib/calculation.ts:620-705 | in a month where every child is eligible, each child adds between 50 and 140 |
| ChildTaxBonus.WholeYearOneGroup | src/lib/calculation.ts:423-438 | children all claimed for the whole year make the twelve months one group |
| ChildTaxBonus.WholeYearLimit | src/lib/calculation.ts:450-460 | that group's cap is the yearly percentage for all the children, without proration |
| ChildTaxBonus.WholeYearBonus | src/lib/calculation.ts:404-468 | for children all claimed for the whole year, the bonus is at most the yearly cap and at most 1680 per child. It is at least the smaller of 600 per child and the cap |
| Calculation.FlatExpenses | src/lib/calculation.ts:107-113 | the expenses never exceed the income. They are either the income or 60% of income (capped at 20000) plus insurance. They are non-negative for non-negative inputs |
| Calculation.R041 | src/lib/calculation.ts:202-210 | the business base is the absolute difference of income and expenses |
| Calculation.BusinessBaseIsProfit | src/lib/calculation.ts:107-113 | with flat-rate expenses the business base is income minus expenses |
| Calculation.R073 | src/lib/calculation.ts:228-246 | the own allowance lies in 0..4922.82 in whole cents. It is 0 for a zero base or a base from 41445.42 on, and in full up to 21754.18. In between it is the rounded 10361.36 less a quarter of the base |
| Calculation.R073NonIncreasing | src/lib/calculation.ts:228-246 | a larger positive base never earns a larger own allowance |
| Calculation.R074 | src/lib/calculation.ts:247-283 | the partner allowance is 0 unless claimed, and 0 for zero months. It is non-negative except in the full-year branch at or below the threshold. That branch turns negative exactly when the partner's own income reaches 4500.865, and gives 4500.86 for no partner income. The amount in each case is stated by the three lemmas below |
| Calculation.R074FullYear | src/lib/calculation.ts:249-268 | a full-year claim at or below 41445.42 is within half a cent of 4500.86 less the partner's own income (if positive). Above it, the claim is within half a cent of 14862.228 less a quarter of r072 less that income, clamped at 0 |
| Calculation.R074ProratedReduced | src/lib/calculation.ts:249-261 | above 41445.42, a claim for k ≥ 0 months other than 12 is within 0.005·k of k twelfths of the reduced allowance, clamped at 0 |
| Calculation.R074Prorated | src/lib/calculation.ts:262-279 | at or below 41445.42, a claim for k ≥ 0 months other than 12 is within 0.005·k + 0.005 of k twelfths of the allowance, clamped at 0 |
| Calculation.R074PartnerIncomeNonIncreasing | src/lib/calculation.ts:247-283 | for any non-negative number of months, more partner income never raises r074, in either regime |
| Calculation.R077 | src/lib/calculation.ts:284-291 | the non-taxable part is the sum of its three parts or the base, whichever is smaller |
| Calculation.R078 | src/lib/calculation.ts:307-311 | the employment base after the non-taxable part is non-negative and in whole cents. It is 0 when the part covers the employment base, and otherwise within half a cent of the difference |
| Calculation.R091 | src/lib/calculation.ts:343-350 | the carry-over to the business base is non-negative and in whole cents. It is 0 while r078 is positive. Together with r078 it splits the rounded difference r038 − r077 |
| Calculation.ProgressiveTaxMonotone | src/lib/calculation.ts:322-336 | the two-band tax is monotone and lies between 19% and 25% of the base |
| Calculation.R081 | src/lib/calculation.ts:322-336 | the employment tax is the two-band tax of the base, non-negative for a non-negative base |
| Calculation.R096 | src/lib/calculation.ts:374-394 | the business tax is non-negative. It is 0 for a base at or below 0. It is 15% when the business income is at most 49790, and the two-band tax above that |
| Calculation.R116 | src/lib/calculation.ts:401-403 | the total tax is in whole cents, within half a cent of the two taxes' sum, and non-negative when both are |
| Calculation.R135 | src/lib/calculation.ts:505-524 | the tax due is 0 or above 5 |
| Calculation.R136 | src/lib/calculation.ts:525-537 | the overpayment is non-negative |
| Calculation.SettlementSplit | src/lib/calculation.ts:505-537 | when the tax counts, a balance above 5 is due in full with no overpayment. A balance at or below 0 is overpaid in full with nothing due. A balance in between is neither |
| Calculation.SmallTaxIgnored | src/lib/calculation.ts:505-512 | a tax of at most 17 with no child bonus is settled as a tax of 0 |
| Calculation.OverpaidIsNegativeBalance | src/lib/calculation.ts:525-537 | for every input, whether or not the tax counts, the overpayment is minus the balance when the balance is at most 0, and 0 otherwise |
| Calculation.DueIsGatedBalance | src/lib/calculation.ts:505-524 | for every input, the tax due is the balance when it exceeds 5, and 0 otherwise. That balance takes the tax only when it counts (above 17, or a child bonus claimed), and 0 in its place otherwise |
| Calculation.DueOrOverpaidIf | src/lib/calculation.ts:505-537 | for a non-negative tax there is never both tax due and an overpayment |
| Calculation.CanDonateTwoPercentOfTax | src/lib/calculation.ts:583-587 | a share can be given iff the tax is at least 100 |
| Calculation.R151 | src/lib/calculation.ts:545-556 | the share is 0 unless elected. Otherwise it is 3% (volunteers) or 2% of the tax, and only when that reaches 3. For a non-negative tax it is nonzero iff the tax reaches 100 (3%) or 150 (2%) |
| Calculation.NoDonationBelowMinimum | src/lib/calculation.ts:545-556 | when even 3% of the tax is under 3, nothing is given |
| Calculation.R033 | src/lib/calculation.ts:149-152 | each child on the form is `makeMapChild` of the child entered, in order |
| Calculation.NoChildrenNoBonus | src/lib/calculation.ts:149-152 | without children the child bonus is 0 |
| Calculation.Income | src/lib/calculation.ts:102-224 | the expenses are within income. The business base is the non-negative profit. r072 is the business base plus the employment base r038 |
| Calculation.Taxes | src/lib/calculation.ts:120-146 | the partner claim holds iff the user claims it and the validator accepts the form. The pension deduction is capped at 180 |
| Calculation.TaxComputation | src/lib/calculation.ts:228-403 | own allowance within 0..4922.82; no partner allowance without the claim; the non-taxable part within r072; non-negative r078, r091, r081, r096 and r116. r078 and r091 split the rounded r038 − r077. r092 is r041 − r091. r081 is the two-band tax of r078 |
| Calculation.Settlement | src/lib/calculation.ts:404-537 | a non-negative bonus on a non-negative base, and none without children. r118 is the tax less the bonus, or 0 when the bonus exceeds the tax. The bonus to pay out is at most what is still unpaid. Tax due is 0 or above 5 and never together with an overpayment. Each `moze*` flag holds iff its amount is positive |
| Calculation.Donation | src/lib/calculation.ts:539-587 | 2% and 3% of the tax. Donation possible iff the tax is at least 100. The election on the form only when possible. No share when impossible. A recipient, with a digits-only ICO, iff the user elected to give |
| Calculation.Calculate | src/lib/calculation.ts:86-596 | across the sections of the return: the non-taxable part is within the base; the bonus is non-negative on a non-negative base and 0 without children; r124 is the tax less the bonus, clamped at 0; tax due and overpayment are never both positive; a share is possible iff r124 is at least 100, and none is given otherwise; microtaxpayer iff business income is at most 49790 |
| ReturnSummary.SummaryOfReturn | src/lib/calculation.ts:598-618 | `BuildSummary` of a calculated return: the summary's insurance total is business insurance plus employer-withheld insurance. The base is non-negative. The tax due is 0 or above 5 and never shown with an overpayment. No child bonus without children |
| ReturnSummary.DonateOnly3PercentRange | src/lib/calculation.ts:857-859 | `DonateOnly3Percent` of a calculated return holds iff 100 ≤ r124 < 150. Then electing 2% gives nothing and electing 3% gives 3% of the tax |
| ReturnSummary.CountPreddavky | src/lib/calculation.ts:861-867 | advances exist iff the tax due exceeds 5000. Each is whole cents within half a cent of 19% of r055 spread over 12 months (tax due above 16600) or 4 quarters. It is non-negative for a non-negative r055 |
| ReturnSummary.AdvancesOfReturn | src/lib/calculation.ts:861-867 | on a calculated return every advance is non-negative |
| MonthNames.MonthToKeyValue | src/lib/calculation.ts:775-851 | a result exists iff the string is one of the twelve Slovak month names. It then carries the name and that name's calendar index 0..11 |
| MonthNames.MonthToKeyValueIndex | src/lib/calculation.ts:775-851 | the i-th month name maps to index i |
| MonthNames.MonthToKeyValueInjective | src/lib/calculation.ts:775-851 | two names with the same index are the same name |
| Scenarios.EmploymentBonusChildBonus | __tests__/testCases/withEmploymentBonusInput.ts:22-42 | two children all year on a base of 4338.53 get 1171.40, the 27% cap, whatever their ages |
| Scenarios.EmploymentBonusReturn | __tests__/testCases/withEmploymentBonusInput.ts:3-49 | for that input: expenses 3919.55, business base 1525.45, employment base 2813.08, no tax, bonus 1171.40 of which 949.70 is paid out, 78.20 overpaid, both requests allowed |
| Scenarios.CompleteInputTaxes | __tests__/testCases/completeInput.ts:28-33 | a partner with 4000 of income leaves 500.86 of partner allowance. The 15% tax on the remaining business base 2576.32 is 386.45 |
| Scenarios.CompleteInputRead | __tests__/testCases/completeInput.ts:3-33 | with the parser reading each string as its decimal, the income lines are 25000 of income less 17000 of flat expenses, with no employment |
| Scenarios.CompleteInputSettlement | __tests__/testCases/completeInput.ts:3-33 | no children, so no bonus; the whole tax of 386.45 is due and nothing is overpaid |
| Scenarios.CompleteInputDonation | __tests__/testCases/completeInput.ts:3-33 | 2% and 3% of 386.45; a donation is possible but none is elected |
| Scenarios.CompleteInputReturn | __tests__/testCases/completeInput.ts:3-33 | the whole return for that input with the partner form accepted: 386.45 due, no bonus, the 2% and 3% shares computed, donation possible but not elected, a microtaxpayer |

## Left out

- The engine's utilities (`parseInputNumber`, `round`, `sum`, `percentage`) and the validators are not part of this model. The parser, the age helper and the partner validator are parameters. `round` is taken as half-up to cents, `sum` as addition and `percentage(a, p)` as `a * p / 100`.
- decimal.js works to a finite precision (20 significant digits by default); the model computes exactly.
- Missing inputs: the model has no missing fields.
  - Where the source falls back to `'0'` or `false` (`?? '0'`), an absent answer is given as `"0"` or `false`.
  - Some reads have no fallback: `t1r10_prijmy` (line 103), `priloha3_r11_socialne` and `priloha3_r13_zdravotne` (116, 119), `children` (151), the two insurance totals in `priloha3_r09_socialne` and `priloha3_r10_zdravotne` (191, 196), and `r142_ico` (562). What the source does when these are absent is not modelled. That is a parse of `undefined`, or an exception for `children.map` and `r142_ico.replace`.
- `Number.parseInt` of the child's months is taken as already done. `monthFrom`/`monthTo` are integers, so a NaN month is not modelled.
- Children.MakeMapChild: the per-month guarantee is stated for windows inside 0..11 only. The other windows follow the same formula but carry no contract.
- Personal data, address, IBAN, PSČ, dates and the commented-out mortgage lines are plain copies of the input and are not modelled. Neither are `monthKeyValues`, the picker-option list built from `monthToKeyValue`, and the constants the engine declares but never reads (such as `MIN_PRIJEM_NA_DANOVY_BONUS_NA_DIETA` and `MAX_CHILD_AGE_BONUS`).
- Lines that only copy another line are not separate entities.
  - `r045`, `r055`, `r057`, `r080`, `r090`, `r094`, `r095`, `r105` and `r124` are `TaxForm` member functions.
  - `t1r2_prijmy`, `r039` and `r040` are not kept on the form. `Income` passes the income and the flat expenses they copy straight to `FlatExpenses` and `R041`.
  - `priloha3_r08_poistne_spolu` (a copy of `r037`) is not modelled.
  - The constant lines `r034` (null) and `r034a` (0) are not modelled.
  - The copied flags (`employed`, `ziadam*`, `children`, `hasChildren`) are not modelled.
- `countPreddavky` converts with `Number(...)` and returns `undefined` below the lower threshold. The model compares exactly and returns `None`.
- ChildTaxBonus.GroupMonths: requires at least two months. The source's loop never closes the last group for a single month, but `calculate` always passes twelve.
- ChildTaxBonus.ChildBonusNonNegative: states non-negativity only for a non-negative base `r038 + r045`. With a negative employment base the caps, and so the bonus, can be negative.
- Calculation.R074: in the full-year branch at or below 41445.42 the source does not clamp at 0 as the other branches do. The model follows the code. `R074` states exactly when that branch is negative; whether the partner validator excludes such input is not part of this model.
- Calculation.R074: the partner's month count (`r032_partner_pocet_mesiacov`) is the only input the source keeps as the raw result of `parseInputNumber`, without `new Decimal` (src/lib/calculation.ts:144-146), and lines 256 and 263 compare it with `=== 12`. The model assumes the parser returns a JavaScript number, so that this test holds for twelve months. With a string or a Decimal the comparison is never true, and the source always takes the prorated branch. For `completeInput` that would give an `r074` of 500.88 instead of 500.86, and the lines computed from it would change with it.
- Calculation.R074FullYear, Calculation.R074ProratedReduced, Calculation.R074Prorated: the amount is stated to within the rounding steps the source takes (half a cent each), not to the exact cent; `Money.HalfUp2` states how each step rounds.
- Calculation.R074ProratedReduced, Calculation.R074Prorated, Calculation.R074PartnerIncomeNonIncreasing: a negative number of months is not covered: multiplying by it reverses every bound, and whether the partner form validator rejects one is not part of this model.
- The split of `calculate` into `Income`, `Taxes`/`TaxComputation`, `Settlement` and `Donation` only groups the getters by section; each getter is evaluated once, in the source's dependency order.
- ReturnSummary.BuildSummary: has no contract of its own. It copies form lines, and `SummaryOfReturn` states what holds of it on a calculated return.
- Scenarios: the test files give inputs only. The expected lines are derived in the model. They rely on the parser reading each string as the decimal it spells (a JavaScript number for the partner's month count, see `Calculation.R074` above), and, for `completeInput`, on the partner validator accepting the form. The `completeInput` file has no `children` field, and on it the source's `r033` getter would fail. The scenario supplies `hasChildren` false and an empty child list, and the other absent answers as `"0"`.
