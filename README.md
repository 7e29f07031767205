# Canadian tax and benefit engine — a verified model

This project models the calculation engine of a Canadian personal-finance
calculator for 2025, together with its savings-tip selector:

- **Progressive bracket tax** (`calculateTax`) over the federal table and the
  thirteen provincial and territorial tables.
- **Payroll contributions**: CPP with its second tier, CPP2 (doubled for the
  self-employed), and EI (none for the self-employed).
- **Canada Child Benefit** (`calculateCCB`). The maximum per child depends on
  the age band (under 6, or 6 to 17). The claw-back has two tiers, with lower
  rates when the list holds exactly one child, and the result comes with a
  per-child breakdown.
- **Family tax** (`calculateFamilyTax`) for a primary earner and an optional
  spouse, with RRSP deductions.
- **Hourly-to-annual conversion.**
- **Corporate tax** (`calculateCorporateTax`). The small-business limit splits
  the income in two. Provincial rates are looked up through JavaScript's `||`.
- **Salary versus dividend comparison** (`compareSalaryVsDividend`). It
  compares three strategies and recommends the cheapest; on a tie the earlier
  strategy wins.
- **Debt payoff simulator** (`calculateDebtPayoff`).
  - The debts with a balance are put in an avalanche order and a snowball order.
  - Each order is amortised for at most 360 months.
  - The surplus left after retiring a debt cascades to the next debt in the
    same month.
- **Savings-tip selector** (`generateSavingsTips`). Threshold rules pick the tips,
  which are then stably sorted by priority.

How each kind of code is modelled:

- **Amounts** are exact `real`s.
- **`Math.round`** is half-up rounding, `Base.Round`.
- **Unbounded top brackets** use `Infinity` in the tables. The model writes
  this as `TaxTables.Unbounded`.
- **Unknown province.** Looking up an unknown province code in the provincial
  table yields `undefined`, and `calculateTax` then throws. The model returns
  `None` in that case.
- **Loops** that build a result step by step are methods. Each method is proved
  equal to a specification function, and the properties are lemmas about that
  function. These methods are:
  - `BracketTax.CalculateTax`
  - `ChildBenefit.CalculateCcb`
  - `DebtPayoff.SimulatePayoff`
  - `SavingsTips.GenerateSavingsTips`
- **The debt simulator** keeps its working balances in a freshly allocated array.
  `SimulatePayoff` has no `modifies` clause, so the caller's debts are never
  changed. The source gets the same effect by copying each debt
  (`{ ...d, remaining }`).
- **`Array.prototype.sort`** with a numeric comparator is stable. The model
  writes it as a stable insertion sort by an ascending key, `Sorting.SortBy`.
  Avalanche sorts by the negated rate and snowball by the balance. Tips sort by
  priority rank.

Two points worth knowing about the constants:

- **Manitoba and Yukon small-business rates.** Both provinces list a
  provincial small-business rate of `0.00`. Because `0.00 || 0.03` is `0.03`,
  they are taxed at 3%. The model reproduces this (`Corporate.LookupOr`,
  `Corporate.ProvincialRateFallbacks`).
- **CPP at the first ceiling.** Base CPP at 71,300 of earnings is
  (71,300 − 3,500) × 0.0595 = 4,034.10 (`Payroll.CppAtFirstCeiling`).

## Model

| member | source | states |
|---|---|---|
| Base.Round | lib/tax-calculations.js:252-256 | `Math.round` gives the integer nearest to x, with halves going up. |
| TaxTables.CapAt | lib/tax-calculations.js:174 | `Math.min(income, max)` where max may be Infinity. The result is never above the income, is capped by a finite max, and equals one of the two. |
| TaxTables.TablesPartition | lib/tax-calculations.js:2-98 | The federal table and every provincial table start at 0 and end unbounded. Each bracket ends where the next begins, minimums strictly increase, and every rate lies in [0, 1]. |
| TaxTables.FederalPartitions | lib/tax-calculations.js:2-8 | The federal table starts at 0, ends unbounded, and each bracket ends where the next begins. |
| TaxTables.PartitionsIsWellFormed | lib/tax-calculations.js:2-98 | A table that partitions the line has ordered brackets, non-negative rates and non-negative minimums. |
| BracketTax.CalculateTax | lib/tax-calculations.js:168-189 | The bracket loop returns the running total and pushed details given by the specification function `Tax`. |
| BracketTax.TotalIsSumOfDetails | lib/tax-calculations.js:172-188 | For ordered brackets, the total equals the sum of the details' taxes. Brackets that add tax but push no detail contribute exactly 0. |
| BracketTax.FiringIndicesExact | lib/tax-calculations.js:173-177 | The brackets that emit a detail are exactly those where income exceeds the minimum and the taxable amount is positive, listed in table order. |
| BracketTax.DetailsFollowFiringBrackets | lib/tax-calculations.js:177-184 | The k-th detail is the (min, max, rate, taxable, tax) of the k-th firing bracket, so details follow table order. |
| BracketTax.NoTaxWithoutIncome | lib/tax-calculations.js:172-188 | Zero or negative income pays no tax and gets no detail, for any table with non-negative minimums. |
| BracketTax.ContributionMonotone | lib/tax-calculations.js:173-176 | One bracket's tax never decreases as income grows, when its rate is non-negative and its max is at least its min. |
| BracketTax.TaxMonotone | lib/tax-calculations.js:168-189 | More income never gives less total tax, for ordered tables with non-negative rates. |
| BracketTax.FlatTax | lib/tax-calculations.js:168-189 | A single unbounded bracket from 0 taxes income at its rate. |
| BracketTax.TaxablePrefix | lib/tax-calculations.js:174 | Over the first k brackets of a partitioning table, the details' taxable amounts sum to the income capped at bracket k's max. |
| BracketTax.TaxableSumsToIncome | lib/tax-calculations.js:172-186 | Over a partitioning table, the details' taxable amounts sum to exactly the (non-negative) income. |
| BracketTax.FiresIffAboveMin | lib/tax-calculations.js:173-177 | In a partitioning table, a bracket emits a detail if and only if the income exceeds its minimum. |
| BracketTax.FederalFirstBoundary | lib/tax-calculations.js:3 | Income of 55,867 pays 8,380.05 federal tax with a single detail, from the first bracket. |
| Payroll.Cpp | lib/tax-calculations.js:191-200 | CPP is between 0 and 4,430.10, or 8,860.20 for the self-employed. |
| Payroll.Ei | lib/tax-calculations.js:202-205 | EI is 0 for the self-employed, never above 65,700 × 0.0164, and non-negative for non-negative income. |
| Payroll.CppMonotone | lib/tax-calculations.js:191-200 | CPP never decreases with income. |
| Payroll.CppFlatAboveCeiling | lib/tax-calculations.js:191-200 | At or above 81,200 of earnings, CPP is 4,430.10, doubled for the self-employed. |
| Payroll.CppBaseTierOnly | lib/tax-calculations.js:192-196 | Up to 71,300, CPP is the base tier alone: earnings above 3,500 at 5.95%. |
| Payroll.CppAtFirstCeiling | lib/tax-calculations.js:191-200 | CPP at 71,300 is 4,034.10. |
| Payroll.CppSelfEmployedDoubles | lib/tax-calculations.js:199 | A self-employed person pays exactly twice an employee's CPP. |
| Payroll.EiMonotone | lib/tax-calculations.js:202-205 | EI never decreases with income. |
| Payroll.EiFlatAboveCeiling | lib/tax-calculations.js:204 | At or above 65,700, an employee's EI is 1,077.48. |
| ChildBenefit.ChildrenUnder6 | lib/tax-calculations.js:214 | The filter keeps only children under 6 and is no longer than the list. |
| ChildBenefit.Children6To17 | lib/tax-calculations.js:215 | The filter keeps only children aged 6 to 17 and is no longer than the list. |
| ChildBenefit.CalculateCcb | lib/tax-calculations.js:209-259 | The method's pushes and accumulated reduction produce exactly the specification value `Ccb`. |
| ChildBenefit.PushEntries | lib/tax-calculations.js:220-233 | A `forEach` appends one band's entries, numbered consecutively, after the breakdown so far. |
| ChildBenefit.NoChildrenNoBenefit | lib/tax-calculations.js:210-212 | A missing or empty children list gives a zero benefit, no base benefit, no reduction and no breakdown. |
| ChildBenefit.BandEntriesAt | lib/tax-calculations.js:220-233 | Entry k of a band carries number first+k, the band, the k-th child's age and the band's maximum. |
| ChildBenefit.BandsPermuteEligible | lib/tax-calculations.js:214-215 | Together, the two age bands hold exactly the children under 18: a permutation of the eligible children. |
| ChildBenefit.BreakdownEntryAt | lib/tax-calculations.js:219-233 | Breakdown entry k is numbered k+1 and carries the age and band maximum of the k-th eligible child. Under-6 entries come first. |
| ChildBenefit.BreakdownOnePerEligibleChild | lib/tax-calculations.js:219-233 | The breakdown has one entry per child under 18, numbered 1, 2, …, under-6 first, each with its band's maximum. |
| ChildBenefit.BenefitNonNegative | lib/tax-calculations.js:250-254 | The annual and monthly benefits are never negative. |
| ChildBenefit.NoClawBackBelowThreshold | lib/tax-calculations.js:238-250 | At or below 36,502 of family income there is no reduction. The benefit is 7,787 per child under 6 plus 6,570 per child aged 6 to 17. |
| ChildBenefit.OneYoungChildLowIncome | lib/tax-calculations.js:209-259 | One child under 6 at low income gets 7,787 a year and 649 a month. |
| ChildBenefit.MultiChildRatesHigher | lib/tax-calculations.js:236-248 | Above the first threshold, a list of two or more children is clawed back more than a list of one, and the same for any such count. |
| ChildBenefit.AdultInListRaisesClawBack | lib/tax-calculations.js:236 | The count that selects the rates is the full list, adults included. At 50,000, one child under 6 gets 6,842. Adding a 19-year-old lowers this to 5,965. |
| ChildBenefit.OneChildAtFiftyThousand | lib/tax-calculations.js:236-254 | At 50,000 of family income, one child under 6 gets 6,842 a year after the one-child claw-back. |
| ChildBenefit.ReductionMonotone | lib/tax-calculations.js:235-248 | The claw-back never decreases as family income grows. |
| ChildBenefit.BenefitNonIncreasing | lib/tax-calculations.js:235-254 | The annual and monthly benefit never increase as family income grows. |
| FamilyTax.CalculateFamilyTax | lib/tax-calculations.js:261-318 | A result exists exactly when the province has a bracket table. |
| FamilyTax.PersonTaxBreakdown | lib/tax-calculations.js:263-269 | Taxable income is income less RRSP, floored at 0. The federal and provincial taxes are the bracket tax on it, and deductions are the sum of the four levies. Net + deductions + RRSP = income, and net monthly is a twelfth of net. |
| FamilyTax.DeductionsNonNegative | lib/tax-calculations.js:268-269 | For non-negative income in a known province, deductions are non-negative, so net never exceeds income less RRSP. |
| FamilyTax.FamilyTotals | lib/tax-calculations.js:271-317 | The spouse is present iff spouse income is positive. Family gross is the sum of both incomes. Family net adds the spouse's net when present, and family monthly is a twelfth. |
| FamilyTax.NegativeSpouseIncomeStillCounted | lib/tax-calculations.js:272-295 | A negative spouse income yields no spouse record, yet it still lowers the family gross. |
| Hourly.AnnualFromHourly | lib/tax-calculations.js:322-324 | Rate × hours × weeks is non-negative for non-negative inputs and 0 when hours or weeks are 0. |
| Hourly.AnnualFromHourlyScales | lib/tax-calculations.js:322-324 | With non-negative hours and weeks, the annual figure grows with the hourly rate. The order of the three factors does not matter, zero weeks give 0, and 40 h × 52 weeks gives rate × 2,080. |
| Hourly.AnnualFromHourlyMonotone | lib/tax-calculations.js:322-324 | With non-negative inputs, raising the rate, the hours or the weeks never lowers the annual figure. |
| Corporate.LookupOr | lib/tax-calculations.js:340-341 | `table[key] \|\| fallback` gives the table's entry when it is present and non-zero. It gives the fallback when the key is missing or its entry is 0. |
| Corporate.CorporateTax | lib/tax-calculations.js:328-357 | The two income parts sum to the income, the small-business part never exceeds 500,000, and the general part is non-negative. Total = federal + provincial, and after-tax = income − total. The effective rate is total/income in percent, or 0 for non-positive income. |
| Corporate.CorporateTaxSplit | lib/tax-calculations.js:335-345 | Income is split at the 500,000 limit: up to it, all income is small-business income, and general income appears only once the limit is used up. Federal tax is each part at its federal rate, provincial tax each part at the province's looked-up rate. |
| Corporate.EffectiveRate | lib/tax-calculations.js:345 | The effective rate is 0 for non-positive income; otherwise, times the income, it gives 100 × the total tax. |
| Corporate.ProvincialRateFallbacks | lib/tax-calculations.js:340-341 | MB and YT get 3% small-business through the `\|\|` fallback. An unknown province gets 3% and 12%. Any other listed province gets its table rates. |
| Corporate.CorporateTaxMonotone | lib/tax-calculations.js:328-345 | Total corporate tax is non-negative and never decreases with non-negative income. |
| Corporate.ProvincialRatesPositive | lib/tax-calculations.js:340-341 | Both provincial rates applied are positive for every province code, the fallbacks included. |
| Corporate.OntarioSmallBusiness | lib/tax-calculations.js:328-357 | In Ontario, income up to 500,000 is taxed at 12.2% in total, for an effective rate of 12.2. |
| SalaryDividend.DividendTax | lib/tax-calculations.js:380-390 | Dividend tax after the two credits is floored at 0. |
| SalaryDividend.NoDividendNoTax | lib/tax-calculations.js:380-390 | A dividend of 0 bears 0 dividend tax. |
| SalaryDividend.BestIndex | lib/tax-calculations.js:431-434 | The reduce picks an option with the least total tax, and every earlier option is strictly dearer (ties keep the earlier). |
| SalaryDividend.CompareSalaryVsDividend | lib/tax-calculations.js:359-443 | A comparison exists exactly when the province has a bracket table. |
| SalaryDividend.CheapestOfThree | lib/tax-calculations.js:431-434 | Over salary, dividend and mix, the winner is no dearer than any. Dividend wins only if strictly cheaper than salary, and mix only if strictly cheaper than both. |
| SalaryDividend.RecommendedIsCheapest | lib/tax-calculations.js:431-442 | The recommended strategy has the least total tax, with ties going to the earlier strategy. Tax savings are the dearer pure strategy's total minus the best, and never negative. |
| SalaryDividend.MixIsSalaryWithinCppCeiling | lib/tax-calculations.js:400-429 | For needs up to 71,300, the mix costs exactly what all-salary costs, so mix is never recommended. |
| SalaryDividend.MixMatchesSalary | lib/tax-calculations.js:400-429 | For needs up to 71,300, the mix pays everything as salary and its total tax equals the salary option's. |
| SalaryDividend.NetPersonalAccounting | lib/tax-calculations.js:367-429 | Each option's net pay plus its personal tax and CPP is the needs. The mix's salary and dividend parts add up to the needs. A dividend option retains the corporate after-tax income less the needs. |
| DebtPayoff.WithBalance | lib/tax-calculations.js:459-460 | The filter keeps only debts with a positive balance and is no longer than the list. |
| DebtPayoff.Names | lib/tax-calculations.js:505 | The order's names, one per debt, in order. |
| DebtPayoff.Balances | lib/tax-calculations.js:463 | The working copy's starting balances, one per debt, in order. |
| DebtPayoff.Simulate | lib/tax-calculations.js:468-490 | The month loop never passes 360 months and stops short of it only when no debt is owing. |
| DebtPayoff.SimulatePayoff | lib/tax-calculations.js:462-493 | The array-and-loops simulation returns the months and the rounded interest of the specification `Run`. |
| DebtPayoff.PayDebt | lib/tax-calculations.js:475-488 | Paying one debt in place leaves the array, the carried extra and the interest exactly as the specification's turn for that debt. |
| DebtPayoff.CalculateDebtPayoff | lib/tax-calculations.js:447-521 | An empty list gives zero totals and no strategies; otherwise the three totals are set. Each strategy carries its order's names, months (at most 360) and rounded interest. Avalanche is recommended iff its interest is no higher than snowball's. Interest saved is the absolute difference. |
| DebtPayoff.WithBalanceExact | lib/tax-calculations.js:459-460 | A debt is in the filtered list iff it is in the input with a positive balance. |
| DebtPayoff.OrderMembers | lib/tax-calculations.js:459-460 | Sorting the filtered debts by any key is a permutation of them. |
| DebtPayoff.AvalancheSorted | lib/tax-calculations.js:459 | Rates never increase along the avalanche order. |
| DebtPayoff.SnowballSorted | lib/tax-calculations.js:460 | Balances never decrease along the snowball order. |
| DebtPayoff.AvalancheOrderCorrect | lib/tax-calculations.js:459 | Avalanche is exactly the debts with a balance, sorted by non-increasing rate. Debts with equal rates keep their input order. |
| DebtPayoff.SnowballOrderCorrect | lib/tax-calculations.js:460 | Snowball is exactly the debts with a balance, sorted by non-decreasing balance. Debts with equal balances keep their input order. |
| DebtPayoff.NoBalanceNoMonths | lib/tax-calculations.js:459-496 | When no debt has a positive balance, both orders are empty and both simulations give 0 months and 0 interest. |
| DebtPayoff.InterestFreeMonth | lib/tax-calculations.js:472-489 | One month of a single interest-free debt with no extra takes exactly the minimum payment off the balance. |
| DebtPayoff.InterestFreeDebt | lib/tax-calculations.js:468-490 | One interest-free debt worth k minimum payments, with no extra, takes exactly k more months. |
| DebtPayoff.TwelveMonthExample | lib/tax-calculations.js:447-521 | A 1,200 balance at 0% with a 100 minimum takes 12 months with 0 interest under both orders. |
| DebtPayoff.PassFromAccrues | lib/tax-calculations.js:472-489 | With non-negative rates, a month's pass never lowers accumulated interest or drives a balance below 0. |
| DebtPayoff.SimulateAccrues | lib/tax-calculations.js:468-490 | With non-negative rates, the whole simulation only accumulates interest and keeps balances non-negative. |
| DebtPayoff.RunAccrues | lib/tax-calculations.js:462-493 | From non-negative balances at non-negative rates, total interest is non-negative, and finishing before 360 months leaves every balance at 0. |
| DebtPayoff.RunOutcome | lib/tax-calculations.js:462-496 | With non-negative rates, both strategies' interest is non-negative. A strategy finishing under 360 months has every balance at 0. |
| Sorting.SortByCorrect | lib/savings-tips.js:243 | The sort returns a permutation of its input, ordered by non-decreasing key. |
| Sorting.SortByStable | lib/savings-tips.js:243 | The sort is stable: the elements with any one key keep their input order. |
| Sorting.SortByCount | lib/savings-tips.js:243 | Sorting changes no count of elements with a given property. |
| Sorting.SortBySpec | lib/savings-tips.js:243 | The sort is a permutation of its input, sorted by key, and stable for every key value. |
| SavingsTips.RemainingRrspRoom | lib/savings-tips.js:22-23 | Remaining room is never negative. It is the larger of 0 and min(gross × 18%, 32,490) less the contribution, and never above 32,490 for a non-negative contribution. |
| SavingsTips.TiersPartition | lib/savings-tips.js:7-10 | Exactly one of the four income-tier flags holds for every income. |
| SavingsTips.TierOf | lib/savings-tips.js:7-10 | The tier returned is the one whose flag holds. |
| SavingsTips.PushSavingsRateTips | lib/savings-tips.js:30-79 | The `else if` chain appends the one tip of the first matching savings-rate band. |
| SavingsTips.PushIncomeTips | lib/savings-tips.js:82-160 | The four independent tier blocks append their tips in source order. |
| SavingsTips.PushRrspTips | lib/savings-tips.js:163-179 | The refund tip is appended for a positive contribution. The room tip is appended for more than 5,000 of room at gross above 60,000. |
| SavingsTips.PushEmergencyTips | lib/savings-tips.js:182-199 | With positive expenses, the emergency-fund section appends the timeline tip or the fast-track tip, or neither. |
| SavingsTips.PushClosingTips | lib/savings-tips.js:202-239 | Appends the expense-ratio tip (when its condition holds), then Automate (always), then the compound-growth and lifestyle tips (when their conditions hold). |
| SavingsTips.GenerateSavingsTips | lib/savings-tips.js:3-246 | The result is the collected tips, sorted by priority rank as a permutation of them. Tips of equal priority keep their push order. |
| SavingsTips.SavingsRateIsFirstBand | lib/savings-tips.js:30-79 | The savings-rate chain gives exactly the tip of the first band of the table (< 0, 5, 10, 15, 20, 30) that the rate is under, or Financial Independence Track. |
| SavingsTips.FirstMatch | lib/savings-tips.js:30-79 | The band lookup returns the tip of the first band whose bound the rate is under, or the open-ended tip when there is none. |
| SavingsTips.IncomeTipsSingleBlock | lib/savings-tips.js:82-160 | The four tier tests fire only the block of the income's own tier, so at most one income block appears. |
| SavingsTips.SectionHoldsOwn | lib/savings-tips.js:30-239 | Each of the five sections pushes only tips of its own. |
| SavingsTips.InOwnSection | lib/savings-tips.js:30-239 | A tip is collected if and only if its own section pushes it. |
| SavingsTips.InResult | lib/savings-tips.js:30-243 | A tip is in the sorted result if and only if its own section pushes it. |
| SavingsTips.CollectedRateCount | lib/savings-tips.js:30-239 | The collected tips hold exactly one savings-rate tip. |
| SavingsTips.ExactlyOneSavingsRateTip | lib/savings-tips.js:30-79 | The sorted result holds exactly one savings-rate tip: the one its band calls for. |
| SavingsTips.InSorted | lib/savings-tips.js:243 | The sort neither drops nor adds a tip. |
| SavingsTips.OnlyOwnTierBlock | lib/savings-tips.js:82-160 | Every income-block tip in the result belongs to the earner's own tier. |
| SavingsTips.AutomateAlwaysPresent | lib/savings-tips.js:212-217 | "Automate Your Savings" is always in the result, which therefore has at least two tips. |
| SavingsTips.CollectedCritical | lib/savings-tips.js:30-36 | The only critical tip is "Spending Exceeds Income", pushed only at a negative savings rate. |
| SavingsTips.CriticalIffNegativeRate | lib/savings-tips.js:30-36 | A critical tip is in the result if and only if the savings rate is negative. |
| SavingsTips.EmergencyTipsExclusive | lib/savings-tips.js:182-199 | The timeline and fast-track tips never appear together. Neither appears when expenses are 0 or less. |
| SavingsTips.EqualPriorityKeepsOrder | lib/savings-tips.js:242-243 | For each priority, the tips with it appear in the order they were pushed. |

## Left out

- Text: the detail `range` and `rate` strings are left out, as are the CCB `label`s (an entry keeps its number), strategy names, descriptions, tip icons and tip descriptions. Values that feed only those strings, such as `monthsToGoal`, `tfsaMonthly` and the future values, are left out too. A tip is kept as its kind, title and priority.
- `PROVINCE_NAMES` and `DEFAULT_INTEREST_RATES`: display and default data that no engine function reads.
- IEEE-754 floating point: amounts are exact reals, so rounding error, `NaN` and overflow are not modelled.
- JavaScript `||` defaults on missing or non-numeric fields (`d.balance || 0`, `spouseIncome || 0` and so on): inputs are numbers, so these are the identity and are modelled that way. The `||` in the corporate rate lookup is modelled exactly, because there a listed `0.00` changes the result.
- A `null` debts list: the model takes a sequence, and the empty sequence covers the same branch. A `null` children list is modelled as `None`.
- Property lookups on keys inherited by every JavaScript object (such as `constructor`): the tables are maps holding only the thirteen province codes.
- Default parameter values of `calculateFamilyTax` and `calculateDebtPayoff`: callers of the model pass every argument.
- The user interface (`components/TaxCalculator.jsx`, including `getMarginalRate`), the subscription API and the admin pages are not part of this model.
