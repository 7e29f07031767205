/**
 * Household aggregation (`calculateFamilyTax`): income tax, CPP and EI for the
 * primary earner and, when there is one, the spouse, then the family totals.
 */
module FamilyTax {
  import opened Base
  import opened TaxTables
  import opened BracketTax
  import opened Payroll

  /** One earner's block of the result. */
  datatype Person = Person(
    grossIncome: real,
    taxableIncome: real,
    federalTax: TaxResult,
    provincialTax: TaxResult,
    cpp: real,
    ei: real,
    totalDeductions: real,
    netAnnual: real,
    netMonthly: real,
    rrspContribution: real)

  datatype Family = Family(grossIncome: real, netAnnual: real, netMonthly: real)

  datatype FamilyResult = FamilyResult(primary: Person, spouse: Option<Person>, family: Family)

  /** The computation the source writes out twice, once for each earner. */
  function PersonTax(income: real, selfEmployed: bool, rrsp: real, provincial: seq<Bracket>): Person {
    var taxable := Max(0.0, income - rrsp);
    var federalTax := Tax(taxable, FederalBrackets);
    var provincialTax := Tax(taxable, provincial);
    var cpp := Cpp(income, selfEmployed);
    var ei := Ei(income, selfEmployed);
    var deductions := federalTax.total + provincialTax.total + cpp + ei;
    var net := income - deductions - rrsp;
    Person(income, taxable, federalTax, provincialTax, cpp, ei, deductions, net, net / 12.0, rrsp)
  }

  /**
   * `calculateFamilyTax`. An unknown province code makes the source's
   * `PROVINCIAL_BRACKETS[province]` undefined and `calculateTax` throw while
   * iterating it; that outcome is `None`.
   */
  function CalculateFamilyTax(
    primaryIncome: real, spouseIncome: real, province: string,
    primarySelfEmployed: bool, spouseSelfEmployed: bool,
    primaryRrsp: real, spouseRrsp: real): (r: Option<FamilyResult>)
    ensures r.Some? <==> province in ProvincialBrackets
  {
    if province !in ProvincialBrackets then None
    else
      var table := ProvincialBrackets[province];
      var primary := PersonTax(primaryIncome, primarySelfEmployed, primaryRrsp, table);
      var spouse := if spouseIncome > 0.0
                    then Some(PersonTax(spouseIncome, spouseSelfEmployed, spouseRrsp, table))
                    else None;
      // `spouseIncome || 0` is spouseIncome itself for every number; `spouseCalc?.netAnnual || 0`
      // is the spouse's net, or 0 without a spouse.
      var familyGross := primaryIncome + spouseIncome;
      var familyNet := primary.netAnnual + (if spouse.Some? then spouse.value.netAnnual else 0.0);
      Some(FamilyResult(primary, spouse, Family(familyGross, familyNet, familyNet / 12.0)))
  }

  /** Each earner's figures: RRSP-reduced taxable income, deductions as the four parts, net after RRSP. */
  lemma PersonTaxBreakdown(income: real, selfEmployed: bool, rrsp: real, table: seq<Bracket>)
    ensures var p := PersonTax(income, selfEmployed, rrsp, table);
      && p.taxableIncome == Max(0.0, income - rrsp)
      && p.taxableIncome >= 0.0
      && p.federalTax == Tax(p.taxableIncome, FederalBrackets)
      && p.provincialTax == Tax(p.taxableIncome, table)
      && p.totalDeductions == p.federalTax.total + p.provincialTax.total + p.cpp + p.ei
      && p.netAnnual + p.totalDeductions + rrsp == income
      && p.netMonthly * 12.0 == p.netAnnual
  {
  }

  /**
   * With a non-negative income and a known table, an earner's deductions are
   * non-negative, so the net never exceeds the gross less the RRSP contribution.
   */
  lemma DeductionsNonNegative(income: real, selfEmployed: bool, rrsp: real, province: string)
    requires income >= 0.0 && province in ProvincialBrackets
    ensures PersonTax(income, selfEmployed, rrsp, ProvincialBrackets[province]).totalDeductions >= 0.0
    ensures PersonTax(income, selfEmployed, rrsp, ProvincialBrackets[province]).netAnnual <= income - rrsp
  {
    var table := ProvincialBrackets[province];
    var taxable := Max(0.0, income - rrsp);
    TablesPartition();
    PartitionsIsWellFormed(FederalBrackets);
    PartitionsIsWellFormed(table);
    NoTaxWithoutIncome(0.0, FederalBrackets);
    NoTaxWithoutIncome(0.0, table);
    TaxMonotone(0.0, taxable, FederalBrackets);
    TaxMonotone(0.0, taxable, table);
  }

  /** The spouse block exists exactly when the spouse has positive income; the family totals add up. */
  lemma FamilyTotals(
    primaryIncome: real, spouseIncome: real, province: string,
    primarySelfEmployed: bool, spouseSelfEmployed: bool,
    primaryRrsp: real, spouseRrsp: real)
    requires province in ProvincialBrackets
    ensures var r := CalculateFamilyTax(primaryIncome, spouseIncome, province,
                                        primarySelfEmployed, spouseSelfEmployed, primaryRrsp, spouseRrsp).value;
      && (r.spouse.None? <==> spouseIncome <= 0.0)
      && r.primary == PersonTax(primaryIncome, primarySelfEmployed, primaryRrsp, ProvincialBrackets[province])
      && (r.spouse.Some? ==>
            r.spouse.value == PersonTax(spouseIncome, spouseSelfEmployed, spouseRrsp, ProvincialBrackets[province]))
      && r.family.grossIncome == primaryIncome + spouseIncome
      && r.family.netAnnual == r.primary.netAnnual + (if r.spouse.Some? then r.spouse.value.netAnnual else 0.0)
      && r.family.netMonthly * 12.0 == r.family.netAnnual
  {
  }

  /**
   * `spouseIncome || 0` keeps a negative spouse income: the spouse block is
   * dropped, yet the family gross still falls by that amount.
   */
  lemma NegativeSpouseIncomeStillCounted(primaryIncome: real, spouseIncome: real, province: string)
    requires province in ProvincialBrackets && spouseIncome < 0.0
    ensures var r := CalculateFamilyTax(primaryIncome, spouseIncome, province, false, false, 0.0, 0.0).value;
      r.spouse.None? && r.family.grossIncome < primaryIncome
  {
  }
}
