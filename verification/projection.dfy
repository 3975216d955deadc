/** The deterministic monthly projection of a remote call centre
    (`simulate_callcenter`): per-month appointments, meetings, policies,
    revenue, cost and profit, then totals, margin, two ROI figures, a
    tolerance band around the total profit and the break-even month.

    All amounts and rates are exact reals; the only integer conversions are
    the explicit `Trunc` (`int(x)`) and half-to-even `Round` (`round(x)`). */
module Projection {
  import opened Optional
  import opened Rounding
  import opened Sums

  /** The keyword arguments of `simulate_callcenter`. */
  datatype Params = Params(
    workingDays: int,          // dni_pracy_miesiac
    consultants: int,          // liczba_konsultantow
    appointmentsPerDay: real,  // umawiane_spotkania_dziennie_na_osobe
    showUpRate: real,          // odbywalnosc
    conversionRate: real,      // konwersja
    revenuePerPolicy: real,    // przychod_na_polisie
    monthlyCost: real,         // koszty_miesieczne
    startupCost: real,         // koszty_startowe
    months: int,               // miesiace
    tolerance: real,           // tolerancja
    roundPolicies: bool        // zaokraglenie_polis
  )

  /** One row of the monthly table. */
  datatype MonthRecord = MonthRecord(
    month: int,      // Miesiąc
    booked: int,     // Umówione, truncated
    completed: int,  // Odbyte, rounded
    policies: real,  // Polisy, whole when rounding is on
    revenue: real,   // Przychód
    cost: real,      // Koszt
    profit: real     // Zysk
  )

  /** The profit range `(P * (1 - tol), P * (1 + tol))`, never reordered. */
  datatype Band = Band(low: real, high: real)

  /** The break-even cell of the summary: a month, or "nieosiągnięty". */
  datatype BreakEvenCell = ReachedIn(month: int) | NotReached

  /** The result of `simulate_callcenter`: the monthly table, plus the
      startup cost and tolerance the one-row summary table is made with.
      Every summary cell is derived from these by a member function, so a
      cell is computed only where it is asked for. */
  datatype Projection = Projection(
    monthly: seq<MonthRecord>,
    startupCost: real,  // koszty_startowe
    tolerance: real     // tolerancja
  ) {
    /** Łączny przychód: the sum of the revenue column. */
    function TotalRevenue(): real {
      Sum(Revenues(monthly))
    }

    /** Łączne koszty z startowymi: the sum of the cost column plus the
        startup cost. */
    function TotalCost(): real {
      Sum(Costs(monthly)) + startupCost
    }

    /** Łączny zysk. */
    function TotalProfit(): real {
      TotalRevenue() - TotalCost()
    }

    /** Zakres zysku: the profit range. */
    function ProfitRange(): Band {
      ProfitBand(TotalProfit(), tolerance)
    }

    /** Marża zysku (%). */
    function Margin(): Option<real> {
      Percent(TotalProfit(), TotalRevenue())
    }

    /** ROI vs koszty startowe (%). */
    function RoiStartup(): Option<real> {
      Percent(TotalProfit(), startupCost)
    }

    /** ROI vs łączne koszty (%). */
    function RoiTotalCost(): Option<real> {
      Percent(TotalProfit(), TotalCost())
    }

    /** Miesiąc break-even. */
    function BreakEvenMonth(): BreakEvenCell {
      BreakEvenDisplay(BreakEven(Profits(monthly), startupCost))
    }
  }

  /** The only way the Python function fails: with no months the monthly
      DataFrame has no columns, and selecting the revenue column raises. */
  datatype SimError = EmptyProjection

  // ---------------------------------------------------------------------
  // One month
  // ---------------------------------------------------------------------

  /** Appointments booked in a month, before truncation. */
  function BookedExact(p: Params): real {
    p.consultants as real * p.workingDays as real * p.appointmentsPerDay
  }

  /** Meetings that take place in a month, before rounding. */
  function CompletedExact(p: Params): real {
    BookedExact(p) * p.showUpRate
  }

  /** Policies sold in a month, before rounding. Note that this uses the
      UNROUNDED number of meetings, not the rounded one shown in the table. */
  function PoliciesExact(p: Params): real {
    CompletedExact(p) * p.conversionRate
  }

  /** Policies sold in a month: the exact figure rounded half-to-even when
      the rounding flag is on, the exact (fractional) figure otherwise. */
  function Policies(p: Params): (r: real)
    ensures p.roundPolicies ==> r == r.Floor as real
    ensures p.roundPolicies ==> -0.5 <= PoliciesExact(p) - r <= 0.5
    ensures p.roundPolicies && IsTie(PoliciesExact(p)) ==> r.Floor % 2 == 0
    ensures !p.roundPolicies ==> r == PoliciesExact(p)
  {
    if p.roundPolicies then Round(PoliciesExact(p)) as real else PoliciesExact(p)
  }

  /** The row for month `m`. The month number is the only field that
      depends on `m`. */
  function MonthOf(p: Params, m: int): (r: MonthRecord)
    ensures r.month == m
    ensures 0.0 <= BookedExact(p) ==> r.booked as real <= BookedExact(p) < r.booked as real + 1.0
    ensures -0.5 <= CompletedExact(p) - r.completed as real <= 0.5
    ensures IsTie(CompletedExact(p)) ==> r.completed % 2 == 0
    ensures r.policies == Policies(p)
    ensures r.revenue == r.policies * p.revenuePerPolicy
    ensures r.cost == p.monthlyCost
    ensures r.profit == r.revenue - r.cost
  {
    var policies := Policies(p);
    var revenue := policies * p.revenuePerPolicy;
    var cost := p.monthlyCost;
    MonthRecord(m, Trunc(BookedExact(p)), Round(CompletedExact(p)),
                policies, revenue, cost, revenue - cost)
  }

  /** The displayed counts, spelled out: booked appointments lose their
      fractional part toward zero, whatever the sign of the product, and
      meetings go to the nearest integer, the even one on a tie. */
  lemma MonthOfCounts(p: Params, m: int)
    ensures var r := MonthOf(p, m);
      && (0.0 <= BookedExact(p) ==> 0 <= r.booked && r.booked as real <= BookedExact(p) < r.booked as real + 1.0)
      && (BookedExact(p) < 0.0 ==> r.booked <= 0 && r.booked as real - 1.0 < BookedExact(p) <= r.booked as real)
      && -0.5 <= CompletedExact(p) - r.completed as real <= 0.5
      && (IsTie(CompletedExact(p)) ==> r.completed % 2 == 0)
      && (!IsTie(CompletedExact(p)) ==> -0.5 < CompletedExact(p) - r.completed as real < 0.5)
  {
  }

  /** Two rows agree on every figure, whatever their month numbers. */
  predicate SameFigures(a: MonthRecord, b: MonthRecord) {
    a.(month := 0) == b.(month := 0)
  }

  /** Months are independent: nothing carries over from one to the next and
      the month number does not enter any figure. */
  lemma MonthOfIndependent(p: Params, m1: int, m2: int)
    ensures SameFigures(MonthOf(p, m1), MonthOf(p, m2))
    ensures MonthOf(p, m1).(month := m2) == MonthOf(p, m2)
  {
  }

  /** The rows for months `1..n`, in order, as the Python loop appends them. */
  function Months(p: Params, n: nat): (ms: seq<MonthRecord>)
    ensures |ms| == n
    ensures forall k :: 0 <= k < n ==> ms[k].month == k + 1
    ensures forall k :: 0 <= k < n ==> SameFigures(ms[k], MonthOf(p, 1))
  {
    seq(n, k requires 0 <= k < n => MonthOf(p, k + 1))
  }

  // ---------------------------------------------------------------------
  // Columns and cumulative values
  // ---------------------------------------------------------------------

  function Revenues(ms: seq<MonthRecord>): seq<real>
  {
    seq(|ms|, k requires 0 <= k < |ms| => ms[k].revenue)
  }

  function Costs(ms: seq<MonthRecord>): seq<real>
  {
    seq(|ms|, k requires 0 <= k < |ms| => ms[k].cost)
  }

  function Profits(ms: seq<MonthRecord>): seq<real>
  {
    seq(|ms|, k requires 0 <= k < |ms| => ms[k].profit)
  }

  /** Entry `m - 1` of `cumsum() - koszty_startowe`: the profit of months
      `1..m` less the startup cost. */
  function Cumulative(profits: seq<real>, startup: real, m: nat): real
    requires m <= |profits|
  {
    Sum(profits[..m]) - startup
  }

  /** The break-even month as specified: the first month whose cumulative
      value (profit so far less startup cost) is non-negative. */
  predicate IsBreakEven(profits: seq<real>, startup: real, m: int) {
    && 1 <= m <= |profits|
    && Cumulative(profits, startup, m) >= 0.0
    && forall k :: 1 <= k < m ==> Cumulative(profits, startup, k) < 0.0
  }

  /** At most one month is the first to break even. */
  lemma BreakEvenUnique(profits: seq<real>, startup: real, m1: int, m2: int)
    requires IsBreakEven(profits, startup, m1)
    requires IsBreakEven(profits, startup, m2)
    ensures m1 == m2
  {
  }

  /** The scan behind `argmax(skumulowany >= 0) + 1`, resumed after month
      `i` with `acc` the cumulative value of the first `i` months, all of
      which are still negative. */
  function BreakEvenFrom(profits: seq<real>, startup: real, i: nat, acc: real): (r: Option<int>)
    requires i <= |profits|
    requires acc == Cumulative(profits, startup, i)
    requires forall k :: 1 <= k <= i ==> Cumulative(profits, startup, k) < 0.0
    ensures r.Some? ==> IsBreakEven(profits, startup, r.value)
    ensures r.None? ==> forall k :: 1 <= k <= |profits| ==> Cumulative(profits, startup, k) < 0.0
    decreases |profits| - i
  {
    if i == |profits| then None
    else
      SumPrefixStep(profits, i);
      var next := acc + profits[i];
      if next >= 0.0 then Some(i + 1)
      else BreakEvenFrom(profits, startup, i + 1, next)
  }

  /** The break-even month, or None when the horizon never breaks even. */
  function BreakEven(profits: seq<real>, startup: real): (r: Option<int>)
    ensures r.Some? ==> IsBreakEven(profits, startup, r.value)
    ensures r.None? ==> forall k :: 1 <= k <= |profits| ==> Cumulative(profits, startup, k) < 0.0
  {
    BreakEvenFrom(profits, startup, 0, -startup)
  }

  /** Conversely, the first month to break even is the one reported, and
      when some month breaks even the result is never None. */
  lemma BreakEvenIsFirst(profits: seq<real>, startup: real, m: int)
    requires IsBreakEven(profits, startup, m)
    ensures BreakEven(profits, startup) == Some(m)
  {
    var r := BreakEven(profits, startup);
    assert Cumulative(profits, startup, m) >= 0.0;
    BreakEvenUnique(profits, startup, r.value, m);
  }

  /** Line 69's `miesiac_bep if miesiac_bep else "nieosiągnięty"`, with
      Python's truthiness: None and 0 both read as "not reached". */
  function BreakEvenDisplay(bep: Option<int>): BreakEvenCell
  {
    if bep.Some? && bep.value != 0 then ReachedIn(bep.value) else NotReached
  }

  /** The truthiness test never hides a real break-even month, because a
      found month is at least 1. */
  lemma BreakEvenDisplayFaithful(profits: seq<real>, startup: real)
    ensures BreakEvenDisplay(BreakEven(profits, startup)) == NotReached
            <==> BreakEven(profits, startup).None?
    ensures BreakEvenDisplay(BreakEven(profits, startup)).ReachedIn? ==>
              IsBreakEven(profits, startup, BreakEvenDisplay(BreakEven(profits, startup)).month)
  {
  }

  /** With the same profit `c` every month, the cumulative value after `m`
      months is `m * c` less the startup cost. */
  lemma CumulativeUniform(profits: seq<real>, startup: real, c: real, m: nat)
    requires m <= |profits|
    requires forall k :: 0 <= k < |profits| ==> profits[k] == c
    ensures Cumulative(profits, startup, m) == m as real * c - startup
  {
    SumConstant(profits[..m], c);
  }

  /** With the same profit `c` every month over `n >= 1` months, break-even
      is reached exactly when the first month already covers the startup
      cost or the whole horizon does: cumulative profit is monotone, so the
      best month is the first (losses) or the last (gains). */
  lemma BreakEvenUniform(profits: seq<real>, startup: real, c: real)
    requires 1 <= |profits|
    requires forall k :: 0 <= k < |profits| ==> profits[k] == c
    ensures BreakEven(profits, startup).Some? <==> (c >= startup || |profits| as real * c >= startup)
  {
    var n := |profits|;
    CumulativeUniform(profits, startup, c, 1);
    CumulativeUniform(profits, startup, c, n);
    var r := BreakEven(profits, startup);
    if r.Some? {
      var m := r.value;
      assert IsBreakEven(profits, startup, m);
      CumulativeUniform(profits, startup, c, m);
      assert m as real * c >= startup;
      if 0.0 <= c {
        assert (n - m) as real * c >= 0.0;
      } else {
        assert (m - 1) as real * c <= 0.0;
      }
    }
  }

  /** Total revenue over `n` months is `n` times one month's revenue. */
  lemma RevenueTotal(p: Params, n: nat)
    ensures Sum(Revenues(Months(p, n))) == n as real * MonthOf(p, 1).revenue
  {
    var ms := Months(p, n);
    var one := MonthOf(p, 1);
    var xs := Revenues(ms);
    forall k | 0 <= k < n
      ensures xs[k] == one.revenue
    {
      assert SameFigures(ms[k], one);
    }
    SumConstant(xs, one.revenue);
  }

  /** The monthly costs over `n` months add up to `n` times the fixed monthly cost. */
  lemma CostTotal(p: Params, n: nat)
    ensures Sum(Costs(Months(p, n))) == n as real * p.monthlyCost
  {
    var ms := Months(p, n);
    var one := MonthOf(p, 1);
    var xs := Costs(ms);
    forall k | 0 <= k < n
      ensures xs[k] == one.cost
    {
      assert SameFigures(ms[k], one);
    }
    SumConstant(xs, one.cost);
  }

  /** The monthly profits over `n` months add up to `n` times one month's profit. */
  lemma ProfitTotal(p: Params, n: nat)
    ensures Sum(Profits(Months(p, n))) == n as real * MonthOf(p, 1).profit
  {
    var ms := Months(p, n);
    var one := MonthOf(p, 1);
    var xs := Profits(ms);
    forall k | 0 <= k < n
      ensures xs[k] == one.profit
    {
      assert SameFigures(ms[k], one);
    }
    SumConstant(xs, one.profit);
  }

  // ---------------------------------------------------------------------
  // Summary figures
  // ---------------------------------------------------------------------

  /** `(num / den) * 100 if den else np.nan`. */
  function Percent(num: real, den: real): (r: Option<real>)
    ensures r.None? <==> den == 0.0
    ensures r.Some? ==> r.value * den == num * 100.0
  {
    if den != 0.0 then Some(num / den * 100.0) else None
  }

  /** `zysk_min, zysk_max`: the total profit scaled by `1 - tol` and
      `1 + tol`, in that order, whatever the sign of the profit. The band is
      centred on the profit and `2 * tol * profit` wide; it collapses to a
      point at `tol = 0`, is ordered for a gain and inverted for a loss. */
  function ProfitBand(profit: real, tol: real): (b: Band)
    ensures b.low + b.high == 2.0 * profit
    ensures b.high - b.low == 2.0 * tol * profit
    ensures tol == 0.0 ==> b == Band(profit, profit)
    ensures 0.0 <= profit && 0.0 <= tol ==> b.low <= b.high
    ensures profit < 0.0 && 0.0 < tol ==> b.low > b.high
  {
    Band(profit * (1.0 - tol), profit * (1.0 + tol))
  }

  /** Each ratio is undefined exactly when its divisor (total revenue,
      startup cost, total cost) is zero, and otherwise is the total profit
      as a percentage of that divisor. */
  lemma SummaryRatios(pr: Projection)
    ensures pr.Margin().None? <==> pr.TotalRevenue() == 0.0
    ensures pr.RoiStartup().None? <==> pr.startupCost == 0.0
    ensures pr.RoiTotalCost().None? <==> pr.TotalCost() == 0.0
    ensures pr.Margin().Some? ==> pr.Margin().value * pr.TotalRevenue() == pr.TotalProfit() * 100.0
    ensures pr.RoiStartup().Some? ==> pr.RoiStartup().value * pr.startupCost == pr.TotalProfit() * 100.0
    ensures pr.RoiTotalCost().Some? ==> pr.RoiTotalCost().value * pr.TotalCost() == pr.TotalProfit() * 100.0
  {
  }

  /** The break-even cell names the first month whose cumulative value is
      non-negative, and reads "not reached" exactly when every month of the
      table stays negative. */
  lemma SummaryBreakEven(pr: Projection)
    ensures var c := pr.BreakEvenMonth();
      && (c == NotReached <==>
            forall k :: 1 <= k <= |pr.monthly| ==> Cumulative(Profits(pr.monthly), pr.startupCost, k) < 0.0)
      && (c.ReachedIn? ==> IsBreakEven(Profits(pr.monthly), pr.startupCost, c.month))
  {
    BreakEvenDisplayFaithful(Profits(pr.monthly), pr.startupCost);
  }

  // ---------------------------------------------------------------------
  // The whole projection
  // ---------------------------------------------------------------------

  /** `simulate_callcenter`: the monthly table and its summary. */
  function Simulate(p: Params): (r: Result<Projection, SimError>)
    ensures r.Failure? <==> p.months < 1
    ensures r.Success? ==> |r.value.monthly| == p.months
    ensures r.Success? ==> forall k :: 0 <= k < p.months ==>
              r.value.monthly[k].month == k + 1 && SameFigures(r.value.monthly[k], MonthOf(p, 1))
    ensures r.Success? ==> r.value.startupCost == p.startupCost && r.value.tolerance == p.tolerance
  {
    if p.months < 1 then Failure(EmptyProjection)
    else Success(Projection(Months(p, p.months), p.startupCost, p.tolerance))
  }

  /** The projection's totals in closed form: total revenue is `miesiace`
      times one month's revenue, total cost is `miesiace` times the monthly
      cost plus the startup cost, and total profit is their difference. */
  lemma SimulateTotals(p: Params)
    requires p.months >= 1
    ensures Simulate(p).Success?
    ensures var pr := Simulate(p).value;
      && pr.TotalRevenue() == p.months as real * MonthOf(p, 1).revenue
      && pr.TotalCost() == p.months as real * p.monthlyCost + p.startupCost
      && pr.TotalProfit() == p.months as real * MonthOf(p, 1).profit - p.startupCost
  {
    RevenueTotal(p, p.months);
    CostTotal(p, p.months);
    var m1 := MonthOf(p, 1);
    assert p.months as real * m1.profit
           == p.months as real * m1.revenue - p.months as real * p.monthlyCost;
  }

  /** The last entry of the cumulative series is the summary's total profit:
      the profit column, summed over the whole horizon, less the startup cost. */
  lemma LastCumulativeIsTotalProfit(p: Params)
    requires p.months >= 1
    ensures Simulate(p).Success?
    ensures var pr := Simulate(p).value;
      Cumulative(Profits(pr.monthly), p.startupCost, p.months) == pr.TotalProfit()
  {
    SimulateTotals(p);
    ProfitTotal(p, p.months);
    var profits := Profits(Months(p, p.months));
    assert profits[..p.months] == profits;
  }

  /** Every month's profit column entry is one month's profit. */
  lemma ProfitsUniform(p: Params, n: nat)
    ensures forall k :: 0 <= k < n ==> Profits(Months(p, n))[k] == MonthOf(p, 1).profit
  {
    var ms := Months(p, n);
    forall k | 0 <= k < n
      ensures Profits(ms)[k] == MonthOf(p, 1).profit
    {
      assert SameFigures(ms[k], MonthOf(p, 1));
    }
  }

  /** `k` months of profit `c` cover a startup cost `startup`. */
  predicate Covers(k: int, c: real, startup: real) {
    k as real * c >= startup
  }

  /** With a uniform monthly profit `c`, the break-even month is the first
      number of months whose accumulated profit covers the startup cost. */
  lemma UniformBreakEvenMonth(profits: seq<real>, startup: real, c: real, m: int)
    requires forall k :: 0 <= k < |profits| ==> profits[k] == c
    requires IsBreakEven(profits, startup, m)
    ensures Covers(m, c, startup)
    ensures forall k :: 1 <= k < m ==> !Covers(k, c, startup)
  {
    CumulativeUniform(profits, startup, c, m);
    forall k | 1 <= k < m
      ensures !Covers(k, c, startup)
    {
      CumulativeUniform(profits, startup, c, k);
    }
  }

  /** Break-even of a whole projection in closed form. With monthly profit
      `c` and startup cost `S` over `n` months, the cumulative value after
      `m` months is `m * c - S`; break-even is reached exactly when
      `c >= S` or `n * c >= S`, and the month reported is the first `m` with
      `m * c >= S`. */
  lemma SimulateBreakEven(p: Params)
    requires p.months >= 1
    ensures Simulate(p).Success?
    ensures var cell := Simulate(p).value.BreakEvenMonth();
      var c := MonthOf(p, 1).profit;
      && (cell.ReachedIn? <==> (c >= p.startupCost || p.months as real * c >= p.startupCost))
      && (cell.ReachedIn? ==>
            && 1 <= cell.month <= p.months
            && Covers(cell.month, c, p.startupCost)
            && forall k :: 1 <= k < cell.month ==> !Covers(k, c, p.startupCost))
  {
    var pr := Simulate(p).value;
    var c := MonthOf(p, 1).profit;
    var profits := Profits(pr.monthly);
    ProfitsUniform(p, p.months);
    SummaryBreakEven(pr);
    BreakEvenUniform(profits, p.startupCost, c);
    if pr.BreakEvenMonth().ReachedIn? {
      UniformBreakEvenMonth(profits, p.startupCost, c, pr.BreakEvenMonth().month);
    }
  }
}
