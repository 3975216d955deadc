/** How the interactive form wires the two calculators together: the
    team's labour cost becomes the projection's fixed monthly cost, the
    consultant count doubles as the headcount, and policy counts are always
    rounded (the form never passes the rounding flag, so its default holds).
    Also the function's default arguments and three worked examples. */
module App {
  import opened Optional
  import opened Rounding
  import opened Projection
  import opened LaborCost

  /** The default arguments of `simulate_callcenter`: a horizon the
      projection accepts, rates that are proper fractions, rounding on. */
  function DefaultParams(): (p: Params)
    ensures Simulate(p).Success? && |Simulate(p).value.monthly| == 3
    ensures 0.0 < p.showUpRate < 1.0 && 0.0 < p.conversionRate < 1.0
    ensures 0.0 < p.tolerance < 1.0
    ensures p.roundPolicies
  {
    Params(
      workingDays := 22, consultants := 3, appointmentsPerDay := 6.0,
      showUpRate := 1.0 / 3.0, conversionRate := 1.0 / 8.0,
      revenuePerPolicy := 1875.0, monthlyCost := 24200.0, startupCost := 3900.0,
      months := 3, tolerance := 0.20, roundPolicies := true)
  }

  /** The projection the form runs: `p`'s own monthly cost and rounding flag
      are replaced by the team's labour cost and the default (rounded). Every
      month then costs the team's labour cost and sells a whole number of
      policies; everything else the form passes reaches the projection
      unchanged. */
  function ProjectWithLaborCost(p: Params, gross: real, t: Contributions): (r: Result<Projection, SimError>)
    ensures r.Failure? <==> p.months < 1
    ensures r.Success? ==> |r.value.monthly| == p.months
    ensures r.Success? ==> forall k :: 0 <= k < |r.value.monthly| ==>
              r.value.monthly[k].policies == r.value.monthly[k].policies.Floor as real
    ensures r.Success? ==> r.value.startupCost == p.startupCost && r.value.tolerance == p.tolerance
    ensures r.Success? ==> forall k :: 0 <= k < |r.value.monthly| ==>
              var m := MonthOf(p.(roundPolicies := true), 1);
              var labour := ComputeCost(gross, t, p.consultants).total;
              r.value.monthly[k] == m.(month := k + 1, cost := labour, profit := m.revenue - labour)
  {
    var q := p.(monthlyCost := ComputeCost(gross, t, p.consultants).total, roundPolicies := true);
    var r := Simulate(q);
    if r.Success? then
      assert forall k :: 0 <= k < |r.value.monthly| ==> SameFigures(r.value.monthly[k], MonthOf(q, 1));
      FormMonthFigures(p, q.monthlyCost);
      r
    else r
  }

  /** Replacing the monthly cost and switching rounding on touches no figure
      of a row but its cost and profit: the rest is `p`'s own row with
      rounding on. */
  lemma FormMonthFigures(p: Params, cost: real)
    ensures var q := p.(monthlyCost := cost, roundPolicies := true);
      MonthOf(q, 1).(cost := 0.0, profit := 0.0) == MonthOf(p.(roundPolicies := true), 1).(cost := 0.0, profit := 0.0)
  {
    var q := p.(monthlyCost := cost, roundPolicies := true);
    var pr := p.(roundPolicies := true);
    assert BookedExact(q) == BookedExact(pr);
    assert CompletedExact(q) == CompletedExact(pr);
    assert PoliciesExact(q) == PoliciesExact(pr);
    assert MonthOf(q, 1).booked == MonthOf(pr, 1).booked;
    assert MonthOf(q, 1).completed == MonthOf(pr, 1).completed;
    assert MonthOf(q, 1).revenue == MonthOf(pr, 1).revenue;
  }

  /** The form's total cost is `miesiace` times the team's labour cost plus
      the startup cost. */
  lemma FormTotalCost(p: Params, gross: real, t: Contributions)
    requires p.months >= 1
    ensures ProjectWithLaborCost(p, gross, t).Success?
    ensures ProjectWithLaborCost(p, gross, t).value.TotalCost()
            == p.months as real * ComputeCost(gross, t, p.consultants).total + p.startupCost
  {
    var q := p.(monthlyCost := ComputeCost(gross, t, p.consultants).total, roundPolicies := true);
    SimulateTotals(q);
  }

  /** With the default arguments: 396 booked, 132 completed, and 16.5
      policies rounded half-to-even to 16 a month, so 30000 revenue and 5800
      profit a month; over three months 13500 profit after the 3900 startup
      cost, break-even in month 1. */
  lemma DefaultScenario()
    ensures Simulate(DefaultParams()).Success?
    ensures var pr := Simulate(DefaultParams()).value;
      && |pr.monthly| == 3
      && pr.monthly[0] == MonthRecord(1, 396, 132, 16.0, 30000.0, 24200.0, 5800.0)
      && pr.TotalRevenue() == 90000.0
      && pr.TotalCost() == 76500.0
      && pr.TotalProfit() == 13500.0
      && pr.ProfitRange() == Band(10800.0, 16200.0)
      && pr.Margin() == Some(15.0)
      && pr.BreakEvenMonth() == ReachedIn(1)
  {
    var p := DefaultParams();
    assert BookedExact(p) == 396.0;
    assert CompletedExact(p) == 132.0;
    assert PoliciesExact(p) == 16.5;
    RoundWhole(132);
    RoundUnique(16.5, 16);
    assert MonthOf(p, 1) == MonthRecord(1, 396, 132, 16.0, 30000.0, 24200.0, 5800.0);
    SimulateTotals(p);
    SimulateBreakEven(p);
    assert Covers(1, 5800.0, 3900.0);
  }

  /** The form's defaults: 5000 gross under an employment contract for three
      consultants makes a monthly cost of 18297, so each month earns 11703
      and three months 31209 after the startup cost. */
  lemma FormDefaultScenario()
    ensures var r := ProjectWithLaborCost(DefaultParams(), 5000.0, DefaultContributions(EmploymentContract));
      && r.Success?
      && r.value.monthly[0] == MonthRecord(1, 396, 132, 16.0, 30000.0, 18297.0, 11703.0)
      && r.value.TotalCost() == 3.0 * 18297.0 + 3900.0
      && r.value.TotalProfit() == 31209.0
  {
    var p := DefaultParams();
    EmploymentExample();
    var q := p.(monthlyCost := 18297.0, roundPolicies := true);
    assert BookedExact(q) == 396.0;
    assert CompletedExact(q) == 132.0;
    assert PoliciesExact(q) == 16.5;
    RoundWhole(132);
    RoundUnique(16.5, 16);
    assert MonthOf(q, 1) == MonthRecord(1, 396, 132, 16.0, 30000.0, 18297.0, 11703.0);
    SimulateTotals(q);
  }

  /** A month whose meetings fall exactly half-way: 3 consultants booking one
      appointment a day for 11 days, half of which take place, give 16.5
      meetings. The table shows 16, the even neighbour, and 33 booked. */
  lemma MeetingTieRoundsToEven()
    ensures var p := DefaultParams().(workingDays := 11, appointmentsPerDay := 1.0, showUpRate := 0.5);
      && MonthOf(p, 1).booked == 33
      && MonthOf(p, 1).completed == 16
  {
    var p := DefaultParams().(workingDays := 11, appointmentsPerDay := 1.0, showUpRate := 0.5);
    assert BookedExact(p) == 33.0;
    assert CompletedExact(p) == 16.5;
    RoundUnique(16.5, 16);
  }
}
