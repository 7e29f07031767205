/**
 * Debt payoff simulator (`calculateDebtPayoff` and its inner `simulatePayoff`):
 * the debts with a balance are ordered two ways, avalanche (highest rate
 * first) and snowball (lowest balance first), and each order is amortised
 * month by month, for at most 360 months, with the surplus of a debt retired
 * in a month cascading to the next debt in that same month.
 */
module DebtPayoff {
  import opened Base
  import opened Sorting

  /** `rate` is an annual percentage. */
  datatype Debt = Debt(name: string, balance: real, rate: real, minPayment: real)

  datatype Ordering = Avalanche | Snowball

  /** The strategy's display name and description are constant text and not kept. */
  datatype StrategyResult = StrategyResult(order: seq<string>, months: nat, totalInterest: int)

  datatype Strategies = Strategies(
    avalanche: StrategyResult,
    snowball: StrategyResult,
    recommended: Ordering,
    interestSaved: int)

  /** `totalMinPayment` is absent from the source's result for an empty list. */
  datatype PayoffResult = PayoffResult(
    totalDebt: real,
    totalMonthlyInterest: int,
    totalMinPayment: Option<real>,
    strategies: Option<Strategies>)

  /** The simulation's hard cap: 30 years. */
  const MaxMonths: nat := 360

  function MonthlyRate(d: Debt): real {
    d.rate / 100.0 / 12.0
  }

  // ---------------------------------------------------------------------------
  // Totals over the input list

  function TotalBalance(ds: seq<Debt>): real {
    if ds == [] then 0.0 else ds[0].balance + TotalBalance(ds[1..])
  }

  function TotalInterestDue(ds: seq<Debt>): real {
    if ds == [] then 0.0 else ds[0].balance * MonthlyRate(ds[0]) + TotalInterestDue(ds[1..])
  }

  function TotalMinPayment(ds: seq<Debt>): real {
    if ds == [] then 0.0 else ds[0].minPayment + TotalMinPayment(ds[1..])
  }

  // ---------------------------------------------------------------------------
  // Orderings

  /** `debts.filter(d => d.balance > 0)`. */
  function WithBalance(ds: seq<Debt>): (r: seq<Debt>)
    ensures |r| <= |ds|
    ensures forall i :: 0 <= i < |r| ==> r[i].balance > 0.0
  {
    if ds == [] then []
    else (if ds[0].balance > 0.0 then [ds[0]] else []) + WithBalance(ds[1..])
  }

  function NegatedRate(d: Debt): real { -d.rate }

  function Balance(d: Debt): real { d.balance }

  /** Comparator `(a, b) => b.rate - a.rate`: descending rate. */
  function AvalancheOrder(ds: seq<Debt>): seq<Debt> {
    SortBy(WithBalance(ds), NegatedRate)
  }

  /** Comparator `(a, b) => a.balance - b.balance`: ascending balance. */
  function SnowballOrder(ds: seq<Debt>): seq<Debt> {
    SortBy(WithBalance(ds), Balance)
  }

  function Names(ds: seq<Debt>): (r: seq<string>)
    ensures |r| == |ds|
    ensures forall i :: 0 <= i < |ds| ==> r[i] == ds[i].name
  {
    seq(|ds|, i requires 0 <= i < |ds| => ds[i].name)
  }

  function Balances(ds: seq<Debt>): (r: seq<real>)
    ensures |r| == |ds|
    ensures forall i :: 0 <= i < |ds| ==> r[i] == ds[i].balance
  {
    seq(|ds|, i requires 0 <= i < |ds| => ds[i].balance)
  }

  // ---------------------------------------------------------------------------
  // The amortisation, as a specification

  /** `remainingDebts.some(d => d.remaining > 0)`. */
  predicate AnyOwing(remaining: seq<real>) {
    exists j :: 0 <= j < |remaining| && remaining[j] > 0.0
  }

  /** The state of one month's pass over the debts, after some of them. */
  datatype Pass = Pass(remaining: seq<real>, extraAvailable: real, interest: real)

  /**
   * Debt `j`'s turn within a month: a debt still owing accrues a month's
   * interest and receives its minimum payment plus whatever extra is available;
   * if that covers it, it is retired and the surplus becomes the extra for the
   * next debt, otherwise the extra is used up. A paid-off debt is skipped.
   */
  function Turn(ds: seq<Debt>, p: Pass, j: nat): (r: Pass)
    requires |p.remaining| == |ds| && j < |ds|
    ensures |r.remaining| == |ds|
  {
    if p.remaining[j] <= 0.0 then p
    else
      var interest := p.remaining[j] * MonthlyRate(ds[j]);
      var payment := ds[j].minPayment + p.extraAvailable;
      var totalOwed := p.remaining[j] + interest;
      if payment >= totalOwed
      then Pass(p.remaining[j := 0.0], payment - totalOwed, p.interest + interest)
      else Pass(p.remaining[j := totalOwed - payment], 0.0, p.interest + interest)
  }

  /** The rest of one month's pass, from debt `j` on, in the fixed order. */
  function PassFrom(ds: seq<Debt>, p: Pass, j: nat): (r: Pass)
    requires |p.remaining| == |ds| && j <= |ds|
    ensures |r.remaining| == |ds|
    decreases |ds| - j
  {
    if j == |ds| then p else PassFrom(ds, Turn(ds, p, j), j + 1)
  }

  /** One month: a pass over every debt, starting with the caller's extra payment. */
  function Month(ds: seq<Debt>, remaining: seq<real>, monthlyExtra: real, interest: real): (r: Pass)
    requires |remaining| == |ds|
    ensures |r.remaining| == |ds|
  {
    PassFrom(ds, Pass(remaining, monthlyExtra, interest), 0)
  }

  datatype Simulation = Simulation(remaining: seq<real>, months: nat, interest: real)

  /**
   * Months are simulated while some debt is owing and the cap is not reached.
   * The result never passes the cap, and stops short of it only when every debt is paid.
   */
  function Simulate(ds: seq<Debt>, s: Simulation, monthlyExtra: real): (r: Simulation)
    requires |s.remaining| == |ds| && s.months <= MaxMonths
    ensures |r.remaining| == |ds|
    ensures s.months <= r.months <= MaxMonths
    ensures r.months < MaxMonths ==> !AnyOwing(r.remaining)
    decreases MaxMonths - s.months
  {
    if !AnyOwing(s.remaining) || s.months >= MaxMonths then s
    else
      var p := Month(ds, s.remaining, monthlyExtra, s.interest);
      Simulate(ds, Simulation(p.remaining, s.months + 1, p.interest), monthlyExtra)
  }

  /** The simulation of an ordering from its starting balances. */
  function Run(ordered: seq<Debt>, monthlyExtra: real): Simulation {
    Simulate(ordered, Simulation(Balances(ordered), 0, 0.0), monthlyExtra)
  }

  // ---------------------------------------------------------------------------
  // The amortisation, as the source runs it

  /**
   * The body of the inner loop for a debt still owing: a month's interest
   * accrues, the minimum payment plus the available extra is applied, and a
   * retired debt passes its surplus on as the next extra.
   */
  method PayDebt(ordered: seq<Debt>, remaining: array<real>, j: nat, extraAvailable: real, interestPaid: real)
    returns (extra: real, interestTotal: real)
    requires remaining.Length == |ordered| && j < |ordered| && remaining[j] > 0.0
    modifies remaining
    ensures Pass(remaining[..], extra, interestTotal)
         == Turn(ordered, Pass(old(remaining[..]), extraAvailable, interestPaid), j)
  {
    var interest := remaining[j] * MonthlyRate(ordered[j]);
    interestTotal := interestPaid + interest;
    var payment := ordered[j].minPayment + extraAvailable;
    extra := 0.0;
    var totalOwed := remaining[j] + interest;
    if payment >= totalOwed {
      extra := payment - totalOwed;
      remaining[j] := 0.0;
    } else {
      remaining[j] := totalOwed - payment;
    }
  }

  /**
   * `simulatePayoff`: a working copy of the balances in a fresh array, a loop
   * over the months and, inside it, a loop over the debts in their fixed order.
   */
  method SimulatePayoff(ordered: seq<Debt>, monthlyExtra: real) returns (months: nat, totalInterestPaid: int)
    ensures months == Run(ordered, monthlyExtra).months <= MaxMonths
    ensures totalInterestPaid == Round(Run(ordered, monthlyExtra).interest)
  {
    var remaining := new real[|ordered|](i requires 0 <= i < |ordered| => ordered[i].balance);
    assert remaining[..] == Balances(ordered);
    var interestPaid := 0.0;
    months := 0;
    while AnyOwing(remaining[..]) && months < MaxMonths
      invariant months <= MaxMonths && remaining.Length == |ordered|
      invariant Simulate(ordered, Simulation(remaining[..], months, interestPaid), monthlyExtra)
             == Run(ordered, monthlyExtra)
      decreases MaxMonths - months
    {
      ghost var start := remaining[..];
      ghost var startInterest := interestPaid;
      months := months + 1;
      var extraAvailable := monthlyExtra;
      for j := 0 to remaining.Length
        invariant PassFrom(ordered, Pass(remaining[..], extraAvailable, interestPaid), j)
               == Month(ordered, start, monthlyExtra, startInterest)
      {
        if remaining[j] <= 0.0 {
          continue;
        }
        extraAvailable, interestPaid := PayDebt(ordered, remaining, j, extraAvailable, interestPaid);
      }
    }
    totalInterestPaid := Round(interestPaid);
  }

  /** `calculateDebtPayoff`. */
  method CalculateDebtPayoff(debts: seq<Debt>, extraMonthlyPayment: real) returns (r: PayoffResult)
    ensures r.strategies.None? <==> debts == []
    ensures debts == [] ==> r == PayoffResult(0.0, 0, None, None)
    ensures debts != [] ==>
      && r.totalDebt == TotalBalance(debts)
      && r.totalMonthlyInterest == Round(TotalInterestDue(debts))
      && r.totalMinPayment == Some(TotalMinPayment(debts))
    ensures r.strategies.Some? ==>
      var s := r.strategies.value;
      var av, sn := Run(AvalancheOrder(debts), extraMonthlyPayment), Run(SnowballOrder(debts), extraMonthlyPayment);
      && s.avalanche == StrategyResult(Names(AvalancheOrder(debts)), av.months, Round(av.interest))
      && s.snowball == StrategyResult(Names(SnowballOrder(debts)), sn.months, Round(sn.interest))
      && s.avalanche.months <= MaxMonths && s.snowball.months <= MaxMonths
      && (s.recommended == Avalanche <==> s.avalanche.totalInterest <= s.snowball.totalInterest)
      && s.interestSaved == if s.avalanche.totalInterest >= s.snowball.totalInterest
                            then s.avalanche.totalInterest - s.snowball.totalInterest
                            else s.snowball.totalInterest - s.avalanche.totalInterest
  {
    if debts == [] {
      return PayoffResult(0.0, 0, None, None);
    }
    var avalancheOrder := AvalancheOrder(debts);
    var snowballOrder := SnowballOrder(debts);
    var avalancheMonths, avalancheInterest := SimulatePayoff(avalancheOrder, extraMonthlyPayment);
    var snowballMonths, snowballInterest := SimulatePayoff(snowballOrder, extraMonthlyPayment);
    var recommended := if avalancheInterest <= snowballInterest then Avalanche else Snowball;
    var saved := if avalancheInterest >= snowballInterest then avalancheInterest - snowballInterest
                 else snowballInterest - avalancheInterest;
    r := PayoffResult(
      TotalBalance(debts),
      Round(TotalInterestDue(debts)),
      Some(TotalMinPayment(debts)),
      Some(Strategies(
        StrategyResult(Names(avalancheOrder), avalancheMonths, avalancheInterest),
        StrategyResult(Names(snowballOrder), snowballMonths, snowballInterest),
        recommended,
        saved)));
  }

  // ---------------------------------------------------------------------------
  // Properties of the orderings

  /** The filter keeps exactly the debts with a positive balance. */
  lemma {:induction false} WithBalanceExact(ds: seq<Debt>)
    ensures forall d :: d in WithBalance(ds) <==> d in ds && d.balance > 0.0
  {
    if ds != [] {
      WithBalanceExact(ds[1..]);
      assert ds == [ds[0]] + ds[1..];
    }
  }

  /** Sorting the debts with a balance, by any key, keeps exactly those debts. */
  lemma OrderMembers(ds: seq<Debt>, key: Debt -> real)
    ensures multiset(SortBy(WithBalance(ds), key)) == multiset(WithBalance(ds))
    ensures forall d :: d in SortBy(WithBalance(ds), key) <==> d in ds && d.balance > 0.0
  {
    SortByCorrect(WithBalance(ds), key);
    WithBalanceExact(ds);
    var o := SortBy(WithBalance(ds), key);
    forall d ensures d in o <==> d in WithBalance(ds) {
      assert d in o <==> d in multiset(o);
    }
  }

  /** Avalanche order: rates never increase along it. */
  lemma AvalancheSorted(ds: seq<Debt>)
    ensures forall i, j :: 0 <= i < j < |AvalancheOrder(ds)| ==> AvalancheOrder(ds)[i].rate >= AvalancheOrder(ds)[j].rate
  {
    var av := AvalancheOrder(ds);
    SortByCorrect(WithBalance(ds), NegatedRate);
    assert SortedBy(av, NegatedRate);
    forall i, j | 0 <= i < j < |av| ensures av[i].rate >= av[j].rate {
      assert NegatedRate(av[i]) <= NegatedRate(av[j]);
    }
  }

  /**
   * Avalanche holds exactly the debts with a balance, by non-increasing rate;
   * debts with equal rates (equal negated rates) keep their input order.
   */
  lemma AvalancheOrderCorrect(ds: seq<Debt>, negatedRate: real)
    ensures multiset(AvalancheOrder(ds)) == multiset(WithBalance(ds))
    ensures forall d :: d in AvalancheOrder(ds) <==> d in ds && d.balance > 0.0
    ensures forall i, j :: 0 <= i < j < |AvalancheOrder(ds)| ==> AvalancheOrder(ds)[i].rate >= AvalancheOrder(ds)[j].rate
    ensures WithKey(AvalancheOrder(ds), NegatedRate, negatedRate) == WithKey(WithBalance(ds), NegatedRate, negatedRate)
  {
    OrderMembers(ds, NegatedRate);
    AvalancheSorted(ds);
    SortByStable(WithBalance(ds), NegatedRate, negatedRate);
  }

  /** Snowball order: balances never decrease along it. */
  lemma SnowballSorted(ds: seq<Debt>)
    ensures forall i, j :: 0 <= i < j < |SnowballOrder(ds)| ==>
              SnowballOrder(ds)[i].balance <= SnowballOrder(ds)[j].balance
  {
    var sn := SnowballOrder(ds);
    SortByCorrect(WithBalance(ds), Balance);
    assert SortedBy(sn, Balance);
    forall i, j | 0 <= i < j < |sn| ensures sn[i].balance <= sn[j].balance {
      assert Balance(sn[i]) <= Balance(sn[j]);
    }
  }

  /**
   * Snowball holds exactly the debts with a balance, by non-decreasing balance;
   * debts with equal balances keep their input order.
   */
  lemma SnowballOrderCorrect(ds: seq<Debt>, balance: real)
    ensures multiset(SnowballOrder(ds)) == multiset(WithBalance(ds))
    ensures forall d :: d in SnowballOrder(ds) <==> d in ds && d.balance > 0.0
    ensures forall i, j :: 0 <= i < j < |SnowballOrder(ds)| ==>
              SnowballOrder(ds)[i].balance <= SnowballOrder(ds)[j].balance
    ensures WithKey(SnowballOrder(ds), Balance, balance) == WithKey(WithBalance(ds), Balance, balance)
  {
    OrderMembers(ds, Balance);
    SnowballSorted(ds);
    SortByStable(WithBalance(ds), Balance, balance);
  }

  // ---------------------------------------------------------------------------
  // Properties of the amortisation

  lemma {:induction false} NoneWithBalance(ds: seq<Debt>)
    requires forall i :: 0 <= i < |ds| ==> ds[i].balance <= 0.0
    ensures WithBalance(ds) == []
  {
    if ds != [] {
      NoneWithBalance(ds[1..]);
    }
  }

  /**
   * A non-empty list in which no debt has a balance still gets both strategies,
   * each with empty order, 0 months and no interest.
   */
  lemma NoBalanceNoMonths(ds: seq<Debt>, monthlyExtra: real)
    requires forall i :: 0 <= i < |ds| ==> ds[i].balance <= 0.0
    ensures AvalancheOrder(ds) == [] && SnowballOrder(ds) == []
    ensures Run(AvalancheOrder(ds), monthlyExtra) == Simulation([], 0, 0.0)
    ensures Run(SnowballOrder(ds), monthlyExtra) == Simulation([], 0, 0.0)
  {
    NoneWithBalance(ds);
  }

  /** One month of a single interest-free debt with no extra: the minimum payment comes off the balance. */
  lemma InterestFreeMonth(d: Debt, owed: real)
    requires d.rate == 0.0 && 0.0 < d.minPayment <= owed
    ensures Month([d], [owed], 0.0, 0.0) == Pass([owed - d.minPayment], 0.0, 0.0)
  {
    var start := Pass([owed], 0.0, 0.0);
    assert Month([d], [owed], 0.0, 0.0) == PassFrom([d], Turn([d], start, 0), 1) == Turn([d], start, 0);
    assert MonthlyRate(d) == 0.0;
    assert owed * MonthlyRate(d) == 0.0;
    if owed == d.minPayment {
      assert Turn([d], start, 0) == Pass([0.0], 0.0, 0.0);
    } else {
      assert Turn([d], start, 0) == Pass([owed][0 := owed - d.minPayment], 0.0, 0.0);
      assert [owed][0 := owed - d.minPayment] == [owed - d.minPayment];
    }
  }

  /** A month of the simulation, while a debt is owing and the cap is not reached. */
  lemma SimulateStep(ds: seq<Debt>, s: Simulation, monthlyExtra: real)
    requires |s.remaining| == |ds| && s.months < MaxMonths && AnyOwing(s.remaining)
    ensures var p := Month(ds, s.remaining, monthlyExtra, s.interest);
      Simulate(ds, s, monthlyExtra) == Simulate(ds, Simulation(p.remaining, s.months + 1, p.interest), monthlyExtra)
  {
  }

  /**
   * One interest-free debt owing k minimum payments, with no extra, is paid off
   * in exactly k more months of the simulation (k within the cap).
   */
  lemma {:induction false} InterestFreeDebt(d: Debt, k: nat, owed: real, months: nat)
    requires d.rate == 0.0 && d.minPayment > 0.0 && owed == k as real * d.minPayment
    requires months + k <= MaxMonths
    ensures Simulate([d], Simulation([owed], months, 0.0), 0.0) == Simulation([0.0], months + k, 0.0)
  {
    if k == 0 {
      assert owed == 0.0;
      assert !AnyOwing([owed]);
    } else {
      var rest := owed - d.minPayment;
      assert rest == (k - 1) as real * d.minPayment;
      assert AnyOwing([owed]) by { assert [owed][0] > 0.0; }
      InterestFreeMonth(d, owed);
      SimulateStep([d], Simulation([owed], months, 0.0), 0.0);
      InterestFreeDebt(d, k - 1, rest, months + 1);
    }
  }

  /** A 1200 balance at 0% with a 100 minimum and no extra: 12 months and no interest under both orders. */
  lemma TwelveMonthExample()
    ensures var ds := [Debt("Loan", 1200.0, 0.0, 100.0)];
      && Run(AvalancheOrder(ds), 0.0).months == 12 && Round(Run(AvalancheOrder(ds), 0.0).interest) == 0
      && Run(SnowballOrder(ds), 0.0).months == 12 && Round(Run(SnowballOrder(ds), 0.0).interest) == 0
  {
    var d := Debt("Loan", 1200.0, 0.0, 100.0);
    var ds := [d];
    assert WithBalance(ds[1..]) == [];
    assert WithBalance(ds) == ds;
    assert AvalancheOrder(ds) == ds && SnowballOrder(ds) == ds;
    assert Balances(ds) == [1200.0];
    InterestFreeDebt(d, 12, 1200.0, 0);
  }

  /** Every rate is non-negative. */
  ghost predicate NonNegativeRates(ds: seq<Debt>) {
    forall i :: 0 <= i < |ds| ==> ds[i].rate >= 0.0
  }

  /** Every remaining balance is non-negative. */
  ghost predicate NoneNegative(remaining: seq<real>) {
    forall i :: 0 <= i < |remaining| ==> remaining[i] >= 0.0
  }

  lemma {:induction false} PassFromAccrues(ds: seq<Debt>, p: Pass, j: nat)
    requires |p.remaining| == |ds| && j <= |ds| && NonNegativeRates(ds)
    ensures PassFrom(ds, p, j).interest >= p.interest
    ensures NoneNegative(p.remaining) ==> NoneNegative(PassFrom(ds, p, j).remaining)
    decreases |ds| - j
  {
    if j < |ds| {
      var t := Turn(ds, p, j);
      if p.remaining[j] > 0.0 {
        assert p.remaining[j] * MonthlyRate(ds[j]) >= 0.0;
      }
      PassFromAccrues(ds, t, j + 1);
    }
  }

  /**
   * With non-negative rates, simulated interest only accumulates and no
   * balance is ever driven below zero.
   */
  lemma {:induction false} SimulateAccrues(ds: seq<Debt>, s: Simulation, monthlyExtra: real)
    requires |s.remaining| == |ds| && s.months <= MaxMonths && NonNegativeRates(ds)
    ensures Simulate(ds, s, monthlyExtra).interest >= s.interest
    ensures NoneNegative(s.remaining) ==> NoneNegative(Simulate(ds, s, monthlyExtra).remaining)
    decreases MaxMonths - s.months
  {
    if AnyOwing(s.remaining) && s.months < MaxMonths {
      var p := Month(ds, s.remaining, monthlyExtra, s.interest);
      PassFromAccrues(ds, Pass(s.remaining, monthlyExtra, s.interest), 0);
      SimulateAccrues(ds, Simulation(p.remaining, s.months + 1, p.interest), monthlyExtra);
    }
  }

  /**
   * With non-negative rates and balances, an ordering's interest is never
   * negative, and finishing before the cap means every balance is 0.
   */
  lemma RunAccrues(ordered: seq<Debt>, monthlyExtra: real)
    requires NonNegativeRates(ordered) && NoneNegative(Balances(ordered))
    ensures Run(ordered, monthlyExtra).interest >= 0.0
    ensures Run(ordered, monthlyExtra).months < MaxMonths ==>
              forall i :: 0 <= i < |ordered| ==> Run(ordered, monthlyExtra).remaining[i] == 0.0
  {
    var r := Run(ordered, monthlyExtra);
    SimulateAccrues(ordered, Simulation(Balances(ordered), 0, 0.0), monthlyExtra);
    if r.months < MaxMonths {
      forall i | 0 <= i < |ordered| ensures r.remaining[i] == 0.0 {
        assert !(r.remaining[i] > 0.0);
      }
    }
  }

  /** Every debt of an ordering comes from the input, so it inherits the input's non-negative rates. */
  lemma OrderingInherits(ds: seq<Debt>, ordered: seq<Debt>)
    requires NonNegativeRates(ds)
    requires forall d :: d in ordered <==> d in ds && d.balance > 0.0
    ensures NonNegativeRates(ordered) && NoneNegative(Balances(ordered))
  {
    forall i | 0 <= i < |ordered| ensures ordered[i].rate >= 0.0 && ordered[i].balance >= 0.0 {
      assert ordered[i] in ordered;
      var j :| 0 <= j < |ds| && ds[j] == ordered[i];
    }
  }

  /**
   * With non-negative rates, each strategy's interest is non-negative; a
   * strategy that finishes before the cap has retired every debt.
   */
  lemma RunOutcome(ds: seq<Debt>, monthlyExtra: real)
    requires NonNegativeRates(ds)
    ensures Run(AvalancheOrder(ds), monthlyExtra).interest >= 0.0
    ensures Run(SnowballOrder(ds), monthlyExtra).interest >= 0.0
    ensures Run(AvalancheOrder(ds), monthlyExtra).months < MaxMonths ==>
              forall i :: 0 <= i < |AvalancheOrder(ds)| ==> Run(AvalancheOrder(ds), monthlyExtra).remaining[i] == 0.0
    ensures Run(SnowballOrder(ds), monthlyExtra).months < MaxMonths ==>
              forall i :: 0 <= i < |SnowballOrder(ds)| ==> Run(SnowballOrder(ds), monthlyExtra).remaining[i] == 0.0
  {
    OrderMembers(ds, NegatedRate);
    OrderMembers(ds, Balance);
    OrderingInherits(ds, AvalancheOrder(ds));
    OrderingInherits(ds, SnowballOrder(ds));
    RunAccrues(AvalancheOrder(ds), monthlyExtra);
    RunAccrues(SnowballOrder(ds), monthlyExtra);
  }
}
