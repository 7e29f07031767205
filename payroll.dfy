/** Payroll contributions: Canada Pension Plan (two tiers) and Employment Insurance. */
module Payroll {
  import opened Base
  import opened TaxTables

  /** Base-tier CPP: pensionable earnings between the exemption and the first ceiling. */
  function CppBase(income: real): real {
    Max(0.0, Min(income, CppMaxEarnings) - CppBasicExemption) * CppRate
  }

  /** Second-tier CPP (CPP2): earnings between the first and second ceilings. */
  function Cpp2(income: real): real {
    Max(0.0, Min(income, Cpp2MaxEarnings) - CppMaxEarnings) * Cpp2Rate
  }

  /** `calculateCPP`: both tiers; a self-employed person pays the employer half too. */
  function Cpp(income: real, selfEmployed: bool): (r: real)
    ensures 0.0 <= r <= (if selfEmployed then 2.0 else 1.0) * 4430.1
  {
    var total := CppBase(income) + Cpp2(income);
    if selfEmployed then total * 2.0 else total
  }

  /** `calculateEI`: none for the self-employed, else a premium on earnings up to the ceiling. */
  function Ei(income: real, selfEmployed: bool): (r: real)
    ensures selfEmployed ==> r == 0.0
    ensures r <= EiMaxEarnings * EiRate
    ensures income >= 0.0 ==> r >= 0.0
  {
    if selfEmployed then 0.0 else Min(income, EiMaxEarnings) * EiRate
  }

  lemma CppMonotone(x: real, y: real, selfEmployed: bool)
    requires x <= y
    ensures Cpp(x, selfEmployed) <= Cpp(y, selfEmployed)
  {
  }

  /** At or above the second ceiling CPP stops growing: 4430.10 (twice that when self-employed). */
  lemma CppFlatAboveCeiling(income: real, selfEmployed: bool)
    requires income >= Cpp2MaxEarnings
    ensures Cpp(income, selfEmployed) == if selfEmployed then 8860.2 else 4430.1
  {
  }

  /** Up to the first ceiling only the base tier applies. */
  lemma CppBaseTierOnly(income: real)
    requires income <= CppMaxEarnings
    ensures Cpp(income, false) == Max(0.0, income - CppBasicExemption) * CppRate
  {
  }

  /** Earnings exactly at the first ceiling: (71300 - 3500) * 0.0595. */
  lemma CppAtFirstCeiling()
    ensures Cpp(71300.0, false) == 4034.1
  {
  }

  lemma CppSelfEmployedDoubles(income: real)
    ensures Cpp(income, true) == 2.0 * Cpp(income, false)
  {
  }

  lemma EiMonotone(x: real, y: real, selfEmployed: bool)
    requires x <= y
    ensures Ei(x, selfEmployed) <= Ei(y, selfEmployed)
  {
  }

  /** At or above the EI ceiling the premium is the fixed maximum 1077.48. */
  lemma EiFlatAboveCeiling(income: real)
    requires income >= EiMaxEarnings
    ensures Ei(income, false) == 1077.48
  {
  }
}
