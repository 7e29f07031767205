/**
 * Salary versus dividend comparison (`compareSalaryVsDividend`): three ways of
 * paying the owner's personal needs out of a corporation, and the one with
 * the lowest combined corporate and personal tax.
 */
module SalaryDividend {
  import opened Base
  import opened TaxTables
  import opened BracketTax
  import opened Payroll
  import opened Corporate

  /** Eligible-dividend gross-up and the dividend tax credits, as fractions of the grossed-up amount. */
  const DividendGrossUp: real := 1.38
  const FederalDividendCredit: real := 0.150198
  const ProvincialDividendCredit: real := 0.10

  datatype Strategy = Salary | Dividend | Mix

  datatype StrategyOption = StrategyOption(
    kind: Strategy,
    grossPay: real,
    corporateTax: real,
    personalTax: real,
    cpp: real,
    totalTax: real,
    netPersonal: real,
    retainedInCorp: real)

  /** The mix option's extra `salary` and `dividend` fields are `mixSalary` and `mixDividend`. */
  datatype Comparison = Comparison(
    salary: StrategyOption,
    dividend: StrategyOption,
    mix: StrategyOption,
    mixSalary: real,
    mixDividend: real,
    recommended: Strategy,
    taxSavings: real)

  /** Federal plus provincial bracket tax on an amount. */
  function PersonalTax(amount: real, table: seq<Bracket>): real {
    TaxTotal(amount, FederalBrackets) + TaxTotal(amount, table)
  }

  /** Tax on a dividend: bracket tax on the grossed-up amount less both credits, floored at 0. */
  function DividendTax(dividend: real, table: seq<Bracket>): (r: real)
    ensures r >= 0.0
  {
    var grossedUp := dividend * DividendGrossUp;
    Max(0.0, PersonalTax(grossedUp, table) - grossedUp * FederalDividendCredit - grossedUp * ProvincialDividendCredit)
  }

  /** All salary: deductible for the corporation; the owner pays bracket tax and both halves of CPP. */
  function SalaryOption(corporateIncome: real, province: string, table: seq<Bracket>, needs: real): StrategyOption {
    var corpTax := CorporateTax(Max(0.0, corporateIncome - needs), province);
    var personalTax := PersonalTax(needs, table);
    var cpp := Cpp(needs, true);
    StrategyOption(Salary, needs, corpTax.totalTax, personalTax, cpp,
                   corpTax.totalTax + personalTax + cpp, needs - personalTax - cpp, corpTax.afterTaxIncome)
  }

  /** All dividend: full corporate tax on the income, then dividend tax. */
  function DividendOption(corporateIncome: real, province: string, table: seq<Bracket>, needs: real): StrategyOption {
    var corpTax := CorporateTax(corporateIncome, province);
    var personalTax := DividendTax(needs, table);
    StrategyOption(Dividend, needs, corpTax.totalTax, personalTax, 0.0,
                   corpTax.totalTax + personalTax, needs - personalTax, corpTax.afterTaxIncome - needs)
  }

  /** Salary up to the CPP earnings ceiling. */
  function MixSalary(needs: real): real {
    Min(needs, CppMaxEarnings)
  }

  /** The rest of the needs, paid as a dividend. */
  function MixDividend(needs: real): real {
    Max(0.0, needs - MixSalary(needs))
  }

  /** Salary up to the CPP ceiling, the remainder as a dividend. */
  function MixOption(corporateIncome: real, province: string, table: seq<Bracket>, needs: real): StrategyOption {
    var salary := MixSalary(needs);
    var dividend := MixDividend(needs);
    var corpTax := CorporateTax(Max(0.0, corporateIncome - salary), province);
    var salaryTax := PersonalTax(salary, table);
    var cpp := Cpp(salary, true);
    var dividendTax := DividendTax(dividend, table);
    StrategyOption(Mix, needs, corpTax.totalTax, salaryTax + dividendTax, cpp,
                   corpTax.totalTax + salaryTax + dividendTax + cpp,
                   needs - salaryTax - dividendTax - cpp, corpTax.afterTaxIncome - dividend)
  }

  /**
   * `options.reduce((best, current) => current.totalTax < best.totalTax ? current : best)`:
   * the index of the first option with the least total tax.
   */
  function BestIndex(options: seq<StrategyOption>): (k: nat)
    requires |options| > 0
    ensures k < |options|
    ensures forall j :: 0 <= j < |options| ==> options[k].totalTax <= options[j].totalTax
    ensures forall j :: 0 <= j < k ==> options[j].totalTax > options[k].totalTax
    decreases |options|
  {
    if |options| == 1 then 0
    else
      var best := BestIndex(options[..|options| - 1]);
      if options[|options| - 1].totalTax < options[best].totalTax then |options| - 1 else best
  }

  /** `compareSalaryVsDividend`; `None` when the province has no bracket table (the source throws). */
  function CompareSalaryVsDividend(corporateIncome: real, province: string, personalNeeds: real): (r: Option<Comparison>)
    ensures r.Some? <==> province in ProvincialBrackets
  {
    if province !in ProvincialBrackets then None
    else
      var table := ProvincialBrackets[province];
      var salary := SalaryOption(corporateIncome, province, table, personalNeeds);
      var dividend := DividendOption(corporateIncome, province, table, personalNeeds);
      var mix := MixOption(corporateIncome, province, table, personalNeeds);
      var options := [salary, dividend, mix];
      var best := options[BestIndex(options)];
      Some(Comparison(salary, dividend, mix, MixSalary(personalNeeds), MixDividend(personalNeeds),
                      best.kind, Max(salary.totalTax, dividend.totalTax) - best.totalTax))
  }

  /** The option a comparison holds for a strategy. */
  function OptionFor(c: Comparison, s: Strategy): StrategyOption {
    match s
    case Salary => c.salary
    case Dividend => c.dividend
    case Mix => c.mix
  }

  /** The reduce over salary, dividend and mix, in that order: cheapest wins, ties go to the earlier. */
  lemma CheapestOfThree(salary: StrategyOption, dividend: StrategyOption, mix: StrategyOption)
    requires salary.kind == Salary && dividend.kind == Dividend && mix.kind == Mix
    ensures var best := [salary, dividend, mix][BestIndex([salary, dividend, mix])];
      && best.totalTax <= salary.totalTax && best.totalTax <= dividend.totalTax && best.totalTax <= mix.totalTax
      && (best.kind == Salary ==> best == salary)
      && (best.kind == Dividend ==> best == dividend && dividend.totalTax < salary.totalTax)
      && (best.kind == Mix ==> best == mix && mix.totalTax < salary.totalTax && mix.totalTax < dividend.totalTax)
  {
    var options := [salary, dividend, mix];
    var k := BestIndex(options);
    assert options[0] == salary && options[1] == dividend && options[2] == mix;
  }

  /**
   * The recommended strategy has the least total tax of the three; ties go to
   * the earliest of salary, dividend, mix; the savings are measured against the
   * dearer of the two pure strategies and are never negative.
   */
  lemma RecommendedIsCheapest(corporateIncome: real, province: string, personalNeeds: real)
    requires province in ProvincialBrackets
    ensures var c := CompareSalaryVsDividend(corporateIncome, province, personalNeeds).value;
      var best := OptionFor(c, c.recommended).totalTax;
      && best <= c.salary.totalTax && best <= c.dividend.totalTax && best <= c.mix.totalTax
      && (c.recommended == Dividend ==> c.dividend.totalTax < c.salary.totalTax)
      && (c.recommended == Mix ==> c.mix.totalTax < c.salary.totalTax && c.mix.totalTax < c.dividend.totalTax)
      && c.taxSavings == Max(c.salary.totalTax, c.dividend.totalTax) - best
      && c.taxSavings >= 0.0
  {
    var table := ProvincialBrackets[province];
    CheapestOfThree(SalaryOption(corporateIncome, province, table, personalNeeds),
                    DividendOption(corporateIncome, province, table, personalNeeds),
                    MixOption(corporateIncome, province, table, personalNeeds));
  }

  /** A dividend of nothing bears no dividend tax. */
  lemma NoDividendNoTax(table: seq<Bracket>)
    requires Partitions(table)
    ensures DividendTax(0.0, table) == 0.0
  {
    TablesPartition();
    PartitionsIsWellFormed(FederalBrackets);
    PartitionsIsWellFormed(table);
    NoTaxWithoutIncome(0.0, FederalBrackets);
    NoTaxWithoutIncome(0.0, table);
  }

  /** Within the CPP ceiling the mix pays everything as salary, so it costs what all-salary costs. */
  lemma MixMatchesSalary(corporateIncome: real, province: string, table: seq<Bracket>, needs: real)
    requires Partitions(table) && needs <= CppMaxEarnings
    ensures MixOption(corporateIncome, province, table, needs).totalTax
         == SalaryOption(corporateIncome, province, table, needs).totalTax
  {
    assert MixSalary(needs) == needs;
    assert MixDividend(needs) == 0.0;
    NoDividendNoTax(table);
  }

  /**
   * When the needs fit under the CPP ceiling the mix pays them all as salary,
   * costing exactly what the salary option costs, so the mix is never recommended.
   */
  lemma MixIsSalaryWithinCppCeiling(corporateIncome: real, province: string, personalNeeds: real)
    requires province in ProvincialBrackets && personalNeeds <= CppMaxEarnings
    ensures var c := CompareSalaryVsDividend(corporateIncome, province, personalNeeds).value;
      c.mix.totalTax == c.salary.totalTax && c.recommended != Mix
  {
    var table := ProvincialBrackets[province];
    TablesPartition();
    MixMatchesSalary(corporateIncome, province, table, personalNeeds);
    RecommendedIsCheapest(corporateIncome, province, personalNeeds);
  }

  /** Each option's net pay is what is left of the needs after its personal tax and CPP. */
  lemma NetPersonalAccounting(corporateIncome: real, province: string, personalNeeds: real)
    requires province in ProvincialBrackets
    ensures var c := CompareSalaryVsDividend(corporateIncome, province, personalNeeds).value;
      && c.salary.netPersonal + c.salary.personalTax + c.salary.cpp == personalNeeds
      && c.dividend.netPersonal + c.dividend.personalTax == personalNeeds && c.dividend.cpp == 0.0
      && c.mix.netPersonal + c.mix.personalTax + c.mix.cpp == personalNeeds
      && c.mixSalary + c.mixDividend == personalNeeds
      && c.dividend.retainedInCorp == CorporateTax(corporateIncome, province).afterTaxIncome - personalNeeds
  {
  }
}
