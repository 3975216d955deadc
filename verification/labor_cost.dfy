/** The employer labour-cost calculator: gross salary plus the employer's
    statutory contributions, each a percentage of gross, for every
    consultant. The default contribution table depends on the contract
    type; every rate can be overridden before the cost is computed. */
module LaborCost {
  import opened Sums

  /** The three contract types offered. */
  datatype ContractType =
    | EmploymentContract    // "Umowa o pracę"
    | MandateContract       // "Umowa zlecenie"
    | SpecificWorkContract  // "Umowa o dzieło"

  /** The six employer contributions, in percent of gross salary. */
  datatype Contributions = Contributions(
    pension: real,                 // emerytalna
    disability: real,              // rentowa
    accident: real,                // wypadkowa
    laborFund: real,               // FP
    guaranteedBenefitsFund: real,  // FGŚP
    capitalPlan: real              // PPK
  )

  /** Employer cost of one employee and of the whole team. */
  datatype Cost = Cost(perEmployee: real, total: real)

  /** The default table for each contract type. A mandate contract carries
      the first three contributions of an employment contract only; a
      contract for specific work carries none. */
  function DefaultContributions(c: ContractType): (t: Contributions)
    ensures forall k :: 0 <= k < 6 ==> 0.0 <= Rates(t)[k] <= 20.0
    ensures c != EmploymentContract ==>
              t.laborFund == 0.0 && t.guaranteedBenefitsFund == 0.0 && t.capitalPlan == 0.0
    ensures c == SpecificWorkContract <==> t.pension == 0.0
    ensures c == EmploymentContract <==> t.capitalPlan > 0.0
  {
    match c
    case EmploymentContract => Contributions(9.76, 6.50, 1.67, 2.45, 0.10, 1.50)
    case MandateContract => Contributions(9.76, 6.50, 1.67, 0.00, 0.00, 0.00)
    case SpecificWorkContract => Contributions(0.00, 0.00, 0.00, 0.00, 0.00, 0.00)
  }

  /** The table's values in insertion order, as `dict.values()` yields them. */
  function Rates(t: Contributions): (rs: seq<real>)
    ensures |rs| == 6
  {
    [t.pension, t.disability, t.accident, t.laborFund, t.guaranteedBenefitsFund, t.capitalPlan]
  }

  /** `sum(skladki.values())`: the total contribution rate in percent. */
  function RateSum(t: Contributions): real {
    Sum(Rates(t))
  }

  /** The running sum over the six values is the plain total of the fields. */
  lemma RateSumIsFieldTotal(t: Contributions)
    ensures RateSum(t) == t.pension + t.disability + t.accident
                          + t.laborFund + t.guaranteedBenefitsFund + t.capitalPlan
  {
    var s1 := [t.pension];
    var s2 := s1 + [t.disability];
    var s3 := s2 + [t.accident];
    var s4 := s3 + [t.laborFund];
    var s5 := s4 + [t.guaranteedBenefitsFund];
    assert Rates(t) == s5 + [t.capitalPlan];
    SumAppend([], t.pension);
    SumAppend(s1, t.disability);
    SumAppend(s2, t.accident);
    SumAppend(s3, t.laborFund);
    SumAppend(s4, t.guaranteedBenefitsFund);
    SumAppend(s5, t.capitalPlan);
  }

  /** `t1` has no rate above the corresponding rate of `t2`. */
  predicate RatesAtMost(t1: Contributions, t2: Contributions) {
    forall k :: 0 <= k < 6 ==> Rates(t1)[k] <= Rates(t2)[k]
  }

  /** The employer cost: gross salary raised by the total contribution rate,
      then multiplied by the headcount. */
  function ComputeCost(gross: real, t: Contributions, headcount: int): (r: Cost)
    ensures r.perEmployee == gross + gross * (t.pension + t.disability + t.accident
                                              + t.laborFund + t.guaranteedBenefitsFund + t.capitalPlan) / 100.0
    ensures r.total == headcount as real * gross
                       + headcount as real * gross * (t.pension + t.disability + t.accident
                                                      + t.laborFund + t.guaranteedBenefitsFund + t.capitalPlan) / 100.0
  {
    RateSumIsFieldTotal(t);
    var perEmployee := gross * (1.0 + RateSum(t) / 100.0);
    Cost(perEmployee, perEmployee * headcount as real)
  }

  /** With no contribution at all, an employee costs exactly the gross salary. */
  lemma SpecificWorkCostsGross(gross: real, headcount: int)
    ensures ComputeCost(gross, DefaultContributions(SpecificWorkContract), headcount).perEmployee == gross
    ensures ComputeCost(gross, DefaultContributions(SpecificWorkContract), headcount).total
            == gross * headcount as real
  {
    RateSumIsFieldTotal(DefaultContributions(SpecificWorkContract));
  }

  /** The totals of the three default tables: 21.98%, 17.93% and 0%, and the
      mandate table never exceeds the employment one. */
  lemma DefaultRateSums()
    ensures RateSum(DefaultContributions(EmploymentContract)) == 21.98
    ensures RateSum(DefaultContributions(MandateContract)) == 17.93
    ensures RateSum(DefaultContributions(SpecificWorkContract)) == 0.0
    ensures RatesAtMost(DefaultContributions(SpecificWorkContract), DefaultContributions(MandateContract))
    ensures RatesAtMost(DefaultContributions(MandateContract), DefaultContributions(EmploymentContract))
  {
    RateSumIsFieldTotal(DefaultContributions(EmploymentContract));
    RateSumIsFieldTotal(DefaultContributions(MandateContract));
    RateSumIsFieldTotal(DefaultContributions(SpecificWorkContract));
  }

  /** Raising any contribution rate never lowers the cost, for a
      non-negative salary and headcount. */
  lemma CostMonotone(gross: real, t1: Contributions, t2: Contributions, headcount: int)
    requires 0.0 <= gross && 0 <= headcount
    requires RatesAtMost(t1, t2)
    ensures ComputeCost(gross, t1, headcount).perEmployee <= ComputeCost(gross, t2, headcount).perEmployee
    ensures ComputeCost(gross, t1, headcount).total <= ComputeCost(gross, t2, headcount).total
  {
    SumMonotone(Rates(t1), Rates(t2));
    var d := RateSum(t2) - RateSum(t1);
    assert gross * d >= 0.0;
    var c1 := ComputeCost(gross, t1, headcount).perEmployee;
    var c2 := ComputeCost(gross, t2, headcount).perEmployee;
    assert c2 - c1 == gross * d / 100.0;
    assert (c2 - c1) * headcount as real >= 0.0;
  }

  /** Non-negative rates never make an employee cheaper than the gross salary. */
  lemma CostAtLeastGross(gross: real, t: Contributions)
    requires 0.0 <= gross
    requires forall k :: 0 <= k < 6 ==> 0.0 <= Rates(t)[k]
    ensures gross <= ComputeCost(gross, t, 1).perEmployee
  {
    CostMonotone(gross, DefaultContributions(SpecificWorkContract), t, 1);
    SpecificWorkCostsGross(gross, 1);
  }

  /** A gross salary of 5000 under the employment defaults costs the employer
      6099 per employee, 18297 for three. */
  lemma EmploymentExample()
    ensures ComputeCost(5000.0, DefaultContributions(EmploymentContract), 3) == Cost(6099.0, 18297.0)
  {
    DefaultRateSums();
  }
}
