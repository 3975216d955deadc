# Call-centre financial model, in Dafny

This project models the calculation core of a small financial-projection app for a
remote insurance call centre (`callcenter_financial_model.py`). The model covers two parts.

- **The projection** (`simulate_callcenter`). For every month of the horizon it
  computes booked appointments, meetings that take place, policies sold, revenue,
  the fixed monthly cost and profit. It then sums these into total revenue, total
  cost (including the one-time startup cost) and total profit. From those it derives
  the profit margin, the ROI against the startup cost, the ROI against the total
  cost, a tolerance band around the total profit, and the break-even month.
- **The employer labour-cost calculator**, which is written inline in `main`. It
  has one default contribution table per contract type (employment contract,
  mandate contract, contract for specific work). It adds the six contribution
  percentages to the gross salary and multiplies by the headcount. Here it is
  lifted into a pure function.

Money, rates and policy counts are exact `real`s. The month number and the displayed
booked and completed counts are `int`s. The source's two integer conversions are
defined explicitly in `Rounding`:

- `int(x)` truncates toward zero (`Trunc`);
- Python 3's `round(x)` rounds half to even (`Round`).

Files and modules:

| file | module | contents |
|---|---|---|
| `optional.dfy` | `Optional` | `Option` (NaN / None) and `Result` |
| `rounding.dfy` | `Rounding` | `Trunc`, half-to-even `Round` and its uniqueness |
| `sums.dfy` | `Sums` | left-to-right `Sum` of a real sequence and its lemmas |
| `projection.dfy` | `Projection` | parameters, monthly rows, summary, break-even scan, `Simulate` |
| `labor_cost.dfy` | `LaborCost` | contract types, contribution tables, `ComputeCost` |
| `app.dfy` | `App` | the form's composition of the two calculators, default arguments, worked examples |

Points of the code's behaviour that the model keeps exactly:

- Python's `round` rounds half to even. With the default arguments a month has
  396 × 1/3 × 1/8 = 16.5 policies, which become 16. So a month earns 30000, and
  three months make 13500 profit (`App.DefaultScenario`).
- The margin is undefined only when total revenue is exactly zero
  (`if laczny_przychod`). The same truthiness test guards both ROI figures, so a
  negative divisor still gives a number.
- Policies are computed from the **unrounded** number of meetings. The rounded
  number is only what the table displays.
- The code validates no inputs. Its only failure is a horizon below one month:
  the monthly DataFrame then has no columns, and selecting the revenue column
  raises. The model returns `Failure(EmptyProjection)` there and nothing else fails.

## Model

| member | source | states |
|---|---|---|
| Rounding.Trunc | callcenter_financial_model.py:37 | `int(x)` keeps the integer part: for x ≥ 0 the result n satisfies 0 ≤ n ≤ x < n+1; for x < 0, n−1 < x ≤ n ≤ 0 |
| Rounding.Round | callcenter_financial_model.py:29 | `round(x)` is within one half of x, strictly so unless x is a tie, and a tie goes to the even integer |
| Rounding.RoundUnique | callcenter_financial_model.py:29 | that contract determines the rounding: any integer within one half of x that is even on a tie equals `Round(x)` |
| Rounding.RoundWhole | callcenter_financial_model.py:38 | rounding a whole number of meetings leaves it unchanged |
| Projection.Policies | callcenter_financial_model.py:27-29 | with the flag on, policies are a whole number within one half of the unrounded meetings × conversion, even on a tie; with it off, they are that unrounded product |
| Projection.MonthOf | callcenter_financial_model.py:25-43 | the row for month m carries m as its month; for a non-negative product, booked is the integer part of consultants × days × appointments; completed is within one half of consultants × days × appointments × show-up rate (the unrounded booked figure), and even on a tie; revenue = policies × revenue-per-policy; cost = the monthly cost; profit = revenue − cost |
| Projection.MonthOfCounts | callcenter_financial_model.py:37-38 | the displayed counts in full: booked is truncated toward zero for either sign of the product, and meetings are the nearest integer, strictly so off a tie and even on a tie |
| Projection.MonthOfIndependent | callcenter_financial_model.py:25-43 | no figure of a row depends on the month number: rows for any two months differ only in that field |
| Projection.Months | callcenter_financial_model.py:24-43 | the table for n months has exactly n rows, row k is month k+1, and every row has the same figures as month 1 |
| Projection.RevenueTotal | callcenter_financial_model.py:47 | the revenue column over n months sums to n times one month's revenue |
| Projection.CostTotal | callcenter_financial_model.py:48 | the cost column over n months sums to n × `koszty_miesieczne` |
| Projection.ProfitTotal | callcenter_financial_model.py:58 | the profit column over n months sums to n times one month's profit |
| Projection.ProfitsUniform | callcenter_financial_model.py:33 | every entry of the profit column is one month's profit |
| Projection.BreakEvenUnique | callcenter_financial_model.py:58-59 | at most one month is the first with a non-negative cumulative value |
| Projection.BreakEvenFrom | callcenter_financial_model.py:58-59 | resuming the scan after i negative months yields a month that is the first non-negative one, or none when all later months stay negative |
| Projection.BreakEven | callcenter_financial_model.py:58-59 | a returned month m lies in 1..n and is the first with (profit of months 1..m) − startup ≥ 0; None means every month is negative |
| Projection.BreakEvenIsFirst | callcenter_financial_model.py:58-59 | conversely, whenever m is the first non-negative month, the scan returns exactly m |
| Projection.BreakEvenDisplayFaithful | callcenter_financial_model.py:58-69 | the truthiness test never hides a break-even month: the cell reads "not reached" exactly when the scan found none, and a shown month is the first non-negative one |
| Projection.CumulativeUniform | callcenter_financial_model.py:58 | with the same profit c each month, the cumulative value after m months is m·c − startup |
| Projection.BreakEvenUniform | callcenter_financial_model.py:58-59 | with the same profit c over n ≥ 1 months, break-even is reached exactly when c ≥ startup or n·c ≥ startup |
| Projection.UniformBreakEvenMonth | callcenter_financial_model.py:58-59 | with the same profit c, the break-even month m is the first month count whose accumulated profit m·c covers the startup cost |
| Projection.Percent | callcenter_financial_model.py:51-53 | a ratio is undefined exactly when its divisor is zero; otherwise its value r satisfies r × divisor = numerator × 100 |
| Projection.ProfitBand | callcenter_financial_model.py:55-56 | the band is centred on the profit with width 2·tol·profit and is never reordered: it collapses to (P, P) at tol = 0, is ordered for a gain, and is inverted (low > high) for a loss with tol > 0 |
| Projection.SummaryRatios | callcenter_financial_model.py:51-53 | margin, ROI-vs-startup and ROI-vs-total-cost are undefined exactly when total revenue, startup cost or total cost respectively is zero; otherwise each equals total profit / divisor × 100 |
| Projection.SummaryBreakEven | callcenter_financial_model.py:58-69 | the summary's break-even cell reads "not reached" exactly when every cumulative value is negative, and a named month is the first non-negative one |
| Projection.Simulate | callcenter_financial_model.py:11-45 | fails exactly when the horizon is below one month; otherwise it returns `miesiace` rows numbered 1..miesiace with identical figures, and keeps the startup cost and tolerance for the summary |
| Projection.SimulateTotals | callcenter_financial_model.py:47-49 | total revenue = miesiace × monthly revenue; total cost = miesiace × monthly cost + startup; total profit = miesiace × monthly profit − startup |
| Projection.LastCumulativeIsTotalProfit | callcenter_financial_model.py:49-58 | the last entry of the cumulative series scanned for break-even equals the summary's total profit |
| Projection.SimulateBreakEven | callcenter_financial_model.py:58-69 | for the whole projection with monthly profit c: break-even is reported exactly when c ≥ startup or miesiace·c ≥ startup; the reported month lies in 1..miesiace and is the first m with m·c ≥ startup |
| LaborCost.DefaultContributions | callcenter_financial_model.py:112-117 | every default rate lies within the override sliders' 0–20% range; only the employment table carries the labour fund, guaranteed-benefits fund and capital-plan rates; the specific-work table is exactly the one with no pension rate |
| LaborCost.RateSumIsFieldTotal | callcenter_financial_model.py:124 | summing the table's values gives the total of the six contribution rates |
| LaborCost.ComputeCost | callcenter_financial_model.py:124-126 | an employee costs gross plus gross × (pension + disability + accident + labour fund + guaranteed-benefits fund + capital plan) / 100, and the team costs headcount times that |
| LaborCost.SpecificWorkCostsGross | callcenter_financial_model.py:116-126 | under the specific-work defaults (all six rates zero), an employee costs exactly the gross salary and the team costs gross × headcount |
| LaborCost.DefaultRateSums | callcenter_financial_model.py:112-117 | the default tables total 21.98%, 17.93% and 0%, and each table is rate-by-rate at most the next (specific work ≤ mandate ≤ employment) |
| LaborCost.CostMonotone | callcenter_financial_model.py:124-126 | raising any rate never lowers the per-employee or team cost, for a non-negative salary and headcount |
| LaborCost.CostAtLeastGross | callcenter_financial_model.py:124-125 | with non-negative rates, an employee never costs less than the gross salary |
| LaborCost.EmploymentExample | callcenter_financial_model.py:113-126 | 5000 gross under the employment defaults costs 6099 per employee and 18297 for three |
| App.DefaultParams | callcenter_financial_model.py:11-22 | the keyword defaults give a horizon the projection accepts (three months), show-up, conversion and tolerance strictly between 0 and 1, and rounding on |
| App.ProjectWithLaborCost | callcenter_financial_model.py:124-155 | the form's projection fails exactly for a horizon below one month; otherwise it has `miesiace` rows, the startup cost and tolerance are passed through, every month sells a whole number of policies (the form leaves rounding on), and row k is the given parameters' own row for month k+1 with rounding on, except that its cost is the team's labour cost and its profit is that row's revenue less the labour cost |
| App.FormTotalCost | callcenter_financial_model.py:124-155 | the form's total cost is miesiace × the team's labour cost + startup |
| App.DefaultScenario | callcenter_financial_model.py:11-72 | the default arguments give rows of 396 booked, 132 meetings, 16 policies, 30000 revenue and 5800 profit; totals 90000 / 76500 / 13500; band (10800, 16200); margin 15%; break-even in month 1 |
| App.MeetingTieRoundsToEven | callcenter_financial_model.py:37-38 | 3 consultants × 11 days × 1 appointment with a 0.5 show-up rate give 33 booked and 16.5 meetings, shown as 16, the even neighbour |
| App.FormDefaultScenario | callcenter_financial_model.py:104-155 | with the form's defaults, every month books 396, holds 132 meetings, sells 16 policies, earns 30000, costs 18297 and makes 11703; total cost is 3 × 18297 + 3900 and total profit 31209 |

## Left out

- The Streamlit interface is not modelled: sidebar widgets, radio buttons, sliders, the
  override expander, the markdown cost table, the dataframes and the line chart. It is
  presentation over library calls. The widgets' value ranges (for example 0–20% per
  contribution) are therefore not enforced; the model accepts any real.
- The Excel export and download button are not modelled. They are file I/O, a date
  lookup and a third-party writer.
- The summary's profit-range string (`:.2f` formatting) is modelled as a pair of
  reals, `Band`.
- Floating-point behaviour is not modelled. All arithmetic is exact; `np.nan` and
  `None` become `Option.None`.
- The pandas and NumPy mechanics (`DataFrame`, `.sum()`, `cumsum`, `argmax`,
  `np.any`) are not modelled as library calls. They appear as sequences, a
  recursive `Sum` and a recursive scan (`BreakEvenFrom`).
- Projection.Simulate: its own contract covers the monthly table only. The summary
  cells are member functions of `Projection`, and their properties are stated in
  `SimulateTotals`, `SummaryRatios`, `SummaryBreakEven` and `SimulateBreakEven`.
- The summary is not a separate record. The Python code returns a one-row summary
  DataFrame. Here each of its cells is a member function of `Projection`
  (`TotalRevenue`, `TotalCost`, `TotalProfit`, `ProfitRange`, `Margin`,
  `RoiStartup`, `RoiTotalCost`, `BreakEvenMonth`), computed from the monthly table,
  the startup cost and the tolerance.
- Projection.MonthOf: its own contract gives the booked count's truncation only for
  a non-negative product. The negative case, and the strict bound on meetings off a
  tie, are in the lemma `MonthOfCounts`. Stating them on `MonthOf` itself makes
  every proof about the monthly table costlier for the solver.
