# Salary or dividend: a verified model of the calculator's core

The calculator compares two ways for the owner of a Swiss company to take
out the year's profit:

- **Scenario A, salary.** The profit, or a smaller desired payout, is paid as salary.
  The company pays the employer's AHV/IV/EO, ALV and BVG contributions.
  The owner pays the employee's share and income tax on the salary.
  Whatever profit remains is taxed at the corporate rate.
- **Scenario B, dividend.** The whole profit is taxed at the corporate rate first.
  What remains, capped by the desired payout, is paid as a dividend.
  Only the canton's inclusion share of the dividend (70 % by default) is added to taxable income.

The app reports the owner's net amount under each scenario and says which one is better, and by how much.

Income tax is a federal tariff plus a cantonal tariff.

- **Federal tariff.** Rows are sorted by threshold. The first row whose threshold the income does not exceed applies.
  Income is measured from the previous threshold; above the top threshold, it is measured from the top threshold.
- **Cantonal tariff.** A walk fills successive bands of given width. The top rate applies to what is left over.
  The base is then scaled by the canton's and the commune's income multipliers (the Steuerfüsse).
- **Corporate rate.** The federal rate, plus the canton's base rate scaled by the canton's and the commune's profit multipliers.

The repository has a second, spreadsheet-driven engine (`script.py`), modelled here too:

- brackets tidied into `Lower/Upper/BaseCHF/MargRate` rows and looked up by the first row reaching the income;
- a personal income tax combining federal and cantonal tax with the commune's multipliers;
- a proportional corporate tax;
- a social-security routine with age-banded BVG rates.

Modules:

| file | module | models |
|---|---|---|
| `values.dfy` | `PyValues` | Python values: `None`/NaN cells, exceptions as `Result`, first-match search |
| `ordering.dfy` | `Ordering` | string order and the sorting the scripts delegate to Python |
| `federal_tariff.dfy` | `FederalTariff` | `federal_income_tax` and the sorted federal table |
| `cantonal_tariff.dfy` | `CantonalTariff` | `cantonal_income_tax` |
| `steuerfuesse.dfy` | `Steuerfuesse` | the multiplier lookup and the canton-to-communes map |
| `social_security.dfy` | `SocialSecurity` | the AHV/ALV/BVG block of the app |
| `scenarios.dfy` | `Scenarios` | the corporate rate, both scenarios, the verdict |
| `excel_tariff.dfy` | `ExcelTariff` | `tidy_brackets`, `progressive_tax`, `personal_income_tax`, `corporate_tax` |
| `excel_social.dfy` | `ExcelSocial` | `social(gross, age)` |

How the model is built:

- **Failures.** Python exceptions are `Err` values:
  - `IndexError`: `[-1]` or `.iloc[0]` on an empty selection;
  - `KeyError`: a missing key;
  - `UnboundLocal`: a local read before it was assigned.
- **Loops.** Each loop of the source is a method proved equal to a specification function.
- **Properties.** What the source promises is proved about those functions as lemmas.

## Model

| member | source | states |
|---|---|---|
| PyValues.NanToZero | app.py:24-25 | None and NaN read as 0, a number as itself |
| PyValues.Get | app.py:116-117 | `row.get(key, default)`: the default when the key is absent, the stored cell otherwise |
| Ordering.InsertionSort | app.py:64-65 | the sorted commune list is ordered and a permutation of the unsorted one |
| FederalTariff.SortByThreshold | app.py:30-33 | the federal table is sorted by threshold and a permutation of the loaded rows |
| Scenarios.FederalTable | app.py:30-33 | the loaded federal table is sorted, a permutation of the rows, and empty exactly when none were loaded |
| FederalTariff.FederalTax | app.py:87-99 | the federal tariff fails (IndexError on `[-1]`) exactly when the table is empty |
| FederalTariff.FederalIncomeTax | app.py:87-99 | the loop with `prev`, `continue` and the top-bracket fall-through computes FederalTax |
| FederalTariff.FederalWithinWindow | app.py:93-96 | an income in (previous threshold, threshold k] pays base_k + (income - previous threshold) x rate_k |
| FederalTariff.FederalAboveTopThreshold | app.py:97-99 | above the top threshold the tax is the top base plus the top rate on the excess over the top threshold |
| FederalTariff.FederalTopThresholdStep | app.py:93-99 | at the top threshold the tax drops by (top - previous - d) x top rate for income d above it |
| CantonalTariff.CantonalBase | app.py:101-110 | a canton without brackets has base 0 |
| CantonalTariff.CantonalBaseWalk | app.py:101-110 | the chunk loop with early break and the top-rate remainder computes CantonalBase |
| CantonalTariff.CantonalIncomeTax | app.py:101-119 | the method computes the base times the canton multiplier plus the base times the commune multiplier |
| CantonalTariff.WalkIsChunks | app.py:104-108 | the walk charges each band's rate on min(what is left, width), and leaves max(0, income - total width) |
| CantonalTariff.EveryFrancOnce | app.py:104-108 | the chunks and the remainder add up to the taxable income: no franc is taxed twice or skipped |
| CantonalTariff.ChunkTaxIsRatedChunks | app.py:104-108 | the banded tax is each row's chunk of the income times that row's own rate, summed over the rows |
| CantonalTariff.NothingBelowZero | app.py:104-108 | a non-positive income fills no band and pays no band tax |
| CantonalTariff.CantonalBaseIsReference | app.py:101-110 | the base equals the banded tax plus the top rate on the income beyond all bands |
| CantonalTariff.ChunkTaxMonotone | app.py:104-108 | with non-negative rates the banded tax never decreases with income |
| CantonalTariff.CantonalBaseMonotone | app.py:101-110 | with non-negative widths and rates a higher income never gets a lower base |
| CantonalTariff.ZeroWidthRowSkipped | app.py:104-108 | inserting a zero-width row anywhere but last leaves the base unchanged |
| CantonalTariff.CantonalTaxScaled | app.py:119 | the cantonal tax is the base times the sum of the two income multipliers |
| CantonalTariff.CantonalTaxNoTable | app.py:102 | a canton without a tariff owes no cantonal income tax |
| CantonalTariff.CantonalTaxNoMatch | app.py:112-119 | with no row for the commune, the tax is the bare base (multipliers 1.0 and 0.0) |
| Steuerfuesse.CellOr | app.py:116-117 | an absent cell gives the default, a None/NaN cell 0, a number itself |
| Steuerfuesse.MultipliersNoMatch | app.py:112-119 | no matching row leaves the multipliers at (1.0, 0.0) |
| Steuerfuesse.MultipliersFirstMatch | app.py:114-118 | the first matching row supplies both multipliers; later rows are ignored |
| Steuerfuesse.LookupMultipliers | app.py:126-131 | the lookup loop with `break` returns the first-match multipliers |
| Steuerfuesse.CommunesOfMembers | app.py:58-63 | a commune is listed under a canton iff some row names both and the canton is not empty or "Kanton" |
| Steuerfuesse.CommunesOfSkipped | app.py:61 | the header-like canton "Kanton" and the empty canton get no communes |
| Steuerfuesse.GroupCommunes | app.py:57-63 | the map holds exactly the cantons with listed communes, each with its communes in row order |
| Steuerfuesse.SortEachList | app.py:64-65 | the map keeps its keys; each list becomes sorted and a permutation of the unsorted list |
| Steuerfuesse.BuildCantonToCommunes | app.py:57-65 | canton_to_communes: exactly the cantons with communes, each list sorted and a permutation of the rows' communes, "Kanton" and "" absent |
| SocialSecurity.BvgHalfRate | app.py:53-54 | employer and employee each carry half the BVG rate |
| SocialSecurity.InsuredSalary | app.py:148 | 0 up to the coordination deduction, salary - deduction up to the maximum insured salary, max(0, maximum - deduction) from there on; always between 0 and that cap and never above the salary |
| SocialSecurity.Bvg | app.py:146-149 | below the entry threshold there is no BVG |
| SocialSecurity.BvgAboveThreshold | app.py:147-149 | from the entry threshold on, BVG is the half rate on the insured salary |
| SocialSecurity.BvgNonNegative | app.py:146-149 | BVG is never negative for a non-negative rate |
| SocialSecurity.BvgBounded | app.py:146-149 | BVG never exceeds the half rate on the maximum insured salary |
| SocialSecurity.BvgMonotone | app.py:146-149 | BVG never decreases with the salary, across the entry threshold too |
| SocialSecurity.AlvByCeiling | app.py:145 | ALV is the share of the salary up to the ceiling, then the share of the ceiling plus 0.5 % of the excess |
| SocialSecurity.AlvMonotone | app.py:145 | ALV never decreases with the salary |
| SocialSecurity.EmployeePart | app.py:155 | the employee's BVG equals the employer's |
| SocialSecurity.SocialContributions | app.py:142-158 | not subject: both amounts 0; subject: the employer cost is AHV + ALV + BVG of the employer part |
| SocialSecurity.EmployerMinusEmployee | app.py:142-156 | employer cost - employee deductions = AHV share difference x salary + ALV share difference x min(salary, ceiling) |
| SocialSecurity.ContributionsNonNegative | app.py:142-158 | with non-negative rates and salary both amounts are non-negative |
| SocialSecurity.EmployerCostMonotone | app.py:142-158 | a higher salary never lowers the employer cost |
| Scenarios.DesiredPayout | app.py:81-84 | a zero payout becomes None, any other is capped at the profit |
| Scenarios.PayoutTestsAgree | app.py:139 | for a positive profit, the `is not None` test of scenario A and the truthiness test of scenario B agree, and a payout lies in (0, profit] |
| Scenarios.FederalCorporateRate | app.py:124 | the federal corporate rate defaults to 8.5 % when absent |
| Scenarios.CantonCorporateBase | app.py:125 | an absent canton gives 0, a None/NaN cell 0, a number itself |
| Scenarios.EffectiveCorporateRate | app.py:124-133 | the rate loop computes the federal rate plus the canton base scaled by the profit multipliers |
| Scenarios.CorporateRateNoMatch | app.py:126-133 | with no matching commune row the rate is federal + canton base |
| Scenarios.CorporateRateNoCanton | app.py:125-133 | a canton absent from the corporate table pays only the federal rate |
| Scenarios.CorporateRateDefault | app.py:124-133 | with neither entry present the rate is 8.5 % |
| Scenarios.Inclusion | app.py:136 | the canton's inclusion share, 70 % when the canton is not listed |
| Scenarios.IncomeTax | app.py:163 | federal plus cantonal tax; it fails with IndexError exactly when the federal table is empty |
| Scenarios.IncomeTaxOf | app.py:163 | the method calling both tariffs computes IncomeTax |
| Scenarios.CantonWithoutTariff | app.py:102 | a canton without a tariff pays only the federal tax |
| Scenarios.SalaryOf | app.py:139-140 | the salary is the desired payout or the profit, never above the profit |
| Scenarios.ScenarioA | app.py:139-164 | fails iff income tax fails; the salary is SalaryOf; employer cost and employee deductions are SocialContributions of that salary; residual profit is max(0, profit - salary - employer cost) and taxed at the rate; net + deductions + tax = salary; not subject means no contributions |
| Scenarios.ResidualWithinProfit | app.py:160 | the residual profit never exceeds the profit |
| Scenarios.SalaryLowersCorporateTax | app.py:160-161 | paying salary never raises the corporate tax above profit x rate |
| Scenarios.WholeProfitAsSalary | app.py:139-161 | with no desired payout and no contributions, the whole profit is salary and no corporate tax is due |
| Scenarios.AfterCorporateTax | app.py:168 | the remainder after corporate tax is 0 or profit - profit x rate, whichever is larger; at most the profit for non-negative profit and rate |
| Scenarios.Dividend | app.py:169 | with a truthy payout the dividend is the smaller of the remainder and the payout; without one it is the whole remainder |
| Scenarios.ScenarioB | app.py:167-172 | fails iff income tax fails; corporate tax on the full profit; the remainder is AfterCorporateTax and the dividend is Dividend of it; taxable = dividend x inclusion + other income; net + tax = dividend |
| Scenarios.FullDividend | app.py:167-169 | without a desired payout the dividend is profit x (1 - rate) |
| Scenarios.DividendWithinProfit | app.py:167-169 | the remainder and the dividend never exceed the profit |
| Scenarios.Judge | app.py:193-198 | salary better iff net A > net B, dividend better iff net B > net A, otherwise equal, with a positive margin |
| Scenarios.Comparison | app.py:122-200 | no profit gives no comparison; a positive profit fails iff the federal table is empty and otherwise compares both scenarios; the verdict matches the nets |
| Scenarios.ComparedScenarios | app.py:162-171 | each compared scenario is charged the income tax on its own taxable amount |
| Scenarios.ComparedAtEffectiveRate | app.py:124-172 | the compared scenarios are scenario A and B at the effective corporate rate, the normalised payout and the canton's inclusion share |
| Scenarios.Compare | app.py:122-198 | the calculation block computes Comparison |
| ExcelTariff.Select | script.py:31 | the selection holds exactly the canton's rows, each from the input |
| ExcelTariff.SelectConcat | script.py:31 | selecting distributes over concatenation (the row order is kept) |
| ExcelTariff.TidyBrackets | script.py:30-38 | one tidy row per selected row: Lower is 0 then the previous Upper, BaseCHF is the base with NaN as 0 |
| ExcelTariff.CantTables | script.py:41-44 | a table exists for exactly the cantons in the sheet, each the tidied selection |
| ExcelTariff.ProgressiveTax | script.py:70-75 | fails with IndexError exactly when no row's Upper reaches the income |
| ExcelTariff.ProgressiveTaxAt | script.py:70-75 | the first row reaching the income gives base + (income - lower) x rate |
| ExcelTariff.ProgressiveTaxOnTidied | script.py:70-75 | on a tidied table the first row reaching the income taxes it from the previous row's Upper (from 0 for the first row) |
| ExcelTariff.EnginesAgreeWithinTable | script.py:70-75 | within the table the app's federal tariff and progressive_tax agree on the same rows |
| ExcelTariff.EnginesPartAboveTable | script.py:71 | above the top row the app extrapolates while progressive_tax raises IndexError |
| ExcelTariff.Percent | script.py:20-23 | a multiplier is divided by 100; a missing cell stays NaN |
| ExcelTariff.LoadMultipliers | script.py:18-23 | every row with a commune id is kept, with its multipliers divided by 100, and every loaded row comes from such a row |
| ExcelTariff.LoadConcat | script.py:18 | loading distributes over concatenation |
| ExcelTariff.LoadSameIds | script.py:18-23 | rows with the same ids load to tables with the same ids |
| ExcelTariff.CommuneRow | script.py:81 | fails with IndexError exactly when no row has the id; otherwise the first row with that id |
| ExcelTariff.LoadedKeyError | script.py:79 | on the loaded tables, KeyError exactly for a canton the cantonal sheet never names |
| ExcelTariff.LoadedCommuneRow | script.py:81 | on the loaded tables, the commune lookup fails exactly when no sheet row with a commune number carries that number |
| ExcelTariff.Mul | script.py:86 | a product is a number iff both factors are |
| ExcelTariff.Add | script.py:86 | a sum is a number iff both terms are |
| ExcelTariff.PersonalIncomeTax | script.py:77-86 | KeyError for an unknown canton, else IndexError from a lookup; succeeds iff the canton and all lookups resolve |
| ExcelTariff.PersonalIncomeTaxProduct | script.py:86 | the result is fed + cant x canton multiplier x commune multiplier (a product, not a sum) |
| ExcelTariff.CommuneMultiplierZero | script.py:86 | a commune multiplier of 0 removes the whole cantonal part |
| ExcelTariff.CorporateTax | script.py:89-94 | KeyError for an unknown canton, IndexError for an unknown commune, else profit x the canton's rate |
| ExcelTariff.CorporateTaxLinear | script.py:94 | the corporate tax is linear in the profit |
| ExcelTariff.CorporateTaxIgnoresMultipliers | script.py:89-94 | the commune's multipliers never change the corporate tax |
| ExcelSocial.BvgRateByAge | script.py:108-110 | 7/10/15/18 % for ages 25-34/35-44/45-54/55-65, and none for any other age |
| ExcelSocial.Insured | script.py:111 | insured salary in [0, 64260]: 0 up to 26460, gross - 26460 up to 90720, 64260 above |
| ExcelSocial.SocialSpec | script.py:101-115 | fails (UnboundLocalError) exactly for an age in no band; otherwise employee and employer pay the same |
| ExcelSocial.Social | script.py:101-115 | the method with the rate adjustment and the band loop computes SocialSpec |
| ExcelSocial.AlvByCeiling | script.py:102-113 | up to the ceiling a side pays AHV + ALV on the gross; above it, only AHV |
| ExcelSocial.AlvDroppedOnWholeGross | script.py:104-106 | above the ceiling, ALV is dropped on the whole gross, not only on the excess |
| ExcelSocial.NoEntryThreshold | script.py:111-112 | any gross above 26460, at an age in a band, carries BVG |

## Left out

- `wake_streamlit.py` is not part of this model.
  - It only pings the deployed app to keep it awake, so it is network I/O.
- The Streamlit user interface is not modelled. Widgets, display formatting and `int(incl*100)` are display only.
  - The inputs are parameters (`Scenarios.Inputs`).
  - The selectable communes are not tied to `canton_to_communes`.
- Loading data is not modelled: JSON files, the spreadsheet URL and `pd.read_excel`.
  - The loaded tables are immutable inputs (`Scenarios.AppConfig`, `ExcelTariff.ExcelConfig`, `ExcelSocial.SocConstants`).
  - A missing JSON file is simply an empty table.
- Floating point is modelled as exact reals.
  - Rounding is not modelled.
  - NaN is modelled only where the source tests for it (`nan_to_zero`) and in the spreadsheet multipliers it multiplies.
- The federal corporate rate ("Confederation") is read without `nan_to_zero`. It is modelled as absent or a number; a null or NaN cell there is not represented.
- KeyErrors on missing keys in a JSON row are not modelled.
  - Affected keys: `Kanton`/`Gemeinde` in the lookup loop, and the tariff columns.
  - Affected social constants: the entries of `social_sec` and `soc`.
  - Every row is assumed to carry those keys, and a federal threshold of `None` is not represented in the sort key.
- FederalTariff.SortByThreshold: states sortedness and permutation but not stability (equal thresholds keep their order in Python's sort).
- A few app.py constants are computed but never used: `AHV_total` and `ALV_total`.
- `partial_div` in `script.py` is loaded but never used.
- In the spreadsheet tables, the `Upper`/`MargRate` cells are numbers; a NaN there is not represented.
- `corp_rate` is a map from canton code to rate, so duplicate index entries in the sheet are not represented.
- ExcelSocial.BvgRateByAge: the age is a real number, so ages between two bands (34.5, say) fall in no band.
  - There the source raises UnboundLocalError when `bvg_rate` is first read.
- Scenarios.SalaryLowersCorporateTax: compares scenario A's corporate tax with profit x rate (scenario B's), rather than with the tax on a smaller salary; it assumes a non-negative rate and profit.
- Scenarios.ScenarioA and Scenarios.ScenarioB take the income tax as an already computed `Result`; `Scenarios.Comparison` supplies `IncomeTax` for it.
