/**
 * Corporate tax (`calculateCorporateTax`): income up to the small-business
 * limit at the small-business rates, the excess at the general rates.
 */
module Corporate {
  import opened Base
  import opened TaxTables

  datatype CorporateResult = CorporateResult(
    corporateIncome: real,
    smallBusinessIncome: real,
    generalIncome: real,
    federalTax: real,
    provincialTax: real,
    totalTax: real,
    afterTaxIncome: real,
    effectiveRate: real)

  /**
   * JavaScript's `table[key] || fallback` on a table of numbers: a missing key
   * and a stored 0 are both falsy and yield the fallback.
   */
  function LookupOr(table: map<string, real>, key: string, fallback: real): (r: real)
    ensures r == fallback || (key in table && r == table[key])
    ensures key in table && table[key] != 0.0 ==> r == table[key]
    ensures key !in table || table[key] == 0.0 ==> r == fallback
  {
    if key in table && table[key] != 0.0 then table[key] else fallback
  }

  function SmallBusinessProvincialRate(province: string): real {
    LookupOr(ProvincialSmallBusiness, province, 0.03)
  }

  function GeneralProvincialRate(province: string): real {
    LookupOr(ProvincialGeneral, province, 0.12)
  }

  /** The federal part: the small-business rate on the first part, the general rate on the rest. */
  function FederalCorporateTax(smallBusinessIncome: real, generalIncome: real): real {
    smallBusinessIncome * SmallBusinessFederalRate + generalIncome * GeneralFederalRate
  }

  /** The provincial part, at the province's two rates. */
  function ProvincialCorporateTax(smallBusinessIncome: real, generalIncome: real, province: string): real {
    smallBusinessIncome * SmallBusinessProvincialRate(province)
    + generalIncome * GeneralProvincialRate(province)
  }

  /** `calculateCorporateTax`. */
  function CorporateTax(corporateIncome: real, province: string): (r: CorporateResult)
    ensures r.corporateIncome == corporateIncome
    ensures r.smallBusinessIncome + r.generalIncome == corporateIncome
    ensures r.smallBusinessIncome <= SmallBusinessLimit && r.generalIncome >= 0.0
    ensures r.totalTax == r.federalTax + r.provincialTax
    ensures r.afterTaxIncome == corporateIncome - r.totalTax
    ensures corporateIncome <= 0.0 ==> r.effectiveRate == 0.0
    ensures corporateIncome > 0.0 ==> r.effectiveRate * corporateIncome == r.totalTax * 100.0
  {
    var smallBusinessIncome := Min(corporateIncome, SmallBusinessLimit);
    var generalIncome := Max(0.0, corporateIncome - SmallBusinessLimit);
    var federalTax := FederalCorporateTax(smallBusinessIncome, generalIncome);
    var provincialTax := ProvincialCorporateTax(smallBusinessIncome, generalIncome, province);
    var totalTax := federalTax + provincialTax;
    var effectiveRate := EffectiveRate(totalTax, corporateIncome);
    CorporateResult(corporateIncome, smallBusinessIncome, generalIncome, federalTax, provincialTax,
                    totalTax, corporateIncome - totalTax, effectiveRate)
  }

  /**
   * The income is split at the small-business limit: income up to the limit is
   * all small-business income, and general income appears only once the limit
   * is used up. Each part is taxed at its own federal and provincial rate.
   */
  lemma CorporateTaxSplit(corporateIncome: real, province: string)
    ensures var r := CorporateTax(corporateIncome, province);
      && (corporateIncome <= SmallBusinessLimit ==> r.smallBusinessIncome == corporateIncome && r.generalIncome == 0.0)
      && (r.generalIncome > 0.0 ==> r.smallBusinessIncome == SmallBusinessLimit)
      && r.federalTax == r.smallBusinessIncome * SmallBusinessFederalRate + r.generalIncome * GeneralFederalRate
      && r.provincialTax == r.smallBusinessIncome * SmallBusinessProvincialRate(province)
                          + r.generalIncome * GeneralProvincialRate(province)
  {
  }

  /** A percentage of a positive amount, scaled back, gives the part. */
  lemma EffectiveRateScales(part: real, whole: real)
    ensures whole > 0.0 ==> (part / whole) * 100.0 * whole == part * 100.0
  {
  }

  /** `totalTax / corporateIncome * 100` for a positive income, else 0. */
  function EffectiveRate(totalTax: real, corporateIncome: real): (p: real)
    ensures corporateIncome <= 0.0 ==> p == 0.0
    ensures corporateIncome > 0.0 ==> p * corporateIncome == totalTax * 100.0
  {
    EffectiveRateScales(totalTax, corporateIncome);
    if corporateIncome > 0.0 then (totalTax / corporateIncome) * 100.0 else 0.0
  }

  /**
   * Manitoba's and Yukon's small-business rate of 0.00 is falsy, so both get the
   * 0.03 fallback; an unknown code gets 0.03 and 0.12; every other listed
   * province gets its own rates.
   */
  lemma ProvincialRateFallbacks(province: string)
    ensures SmallBusinessProvincialRate("MB") == 0.03 && SmallBusinessProvincialRate("YT") == 0.03
    ensures province !in ProvincialSmallBusiness ==>
              SmallBusinessProvincialRate(province) == 0.03 && GeneralProvincialRate(province) == 0.12
    ensures province in ProvincialSmallBusiness && province != "MB" && province != "YT" ==>
              SmallBusinessProvincialRate(province) == ProvincialSmallBusiness[province]
    ensures province in ProvincialGeneral ==> GeneralProvincialRate(province) == ProvincialGeneral[province]
  {
  }

  /** Every provincial rate applied is positive, the fallbacks included. */
  lemma ProvincialRatesPositive(province: string)
    ensures 0.0 < SmallBusinessProvincialRate(province) && 0.0 < GeneralProvincialRate(province)
  {
    assert forall p :: p in ProvincialSmallBusiness ==> ProvincialSmallBusiness[p] >= 0.0;
    assert forall p :: p in ProvincialGeneral ==> ProvincialGeneral[p] > 0.0;
  }

  /** Both parts are non-negative and grow with each of the two income parts. */
  lemma PartsMonotone(sx: real, gx: real, sy: real, gy: real, province: string)
    requires 0.0 <= sx <= sy && 0.0 <= gx <= gy
    ensures 0.0 <= FederalCorporateTax(sx, gx) <= FederalCorporateTax(sy, gy)
    ensures 0.0 <= ProvincialCorporateTax(sx, gx, province) <= ProvincialCorporateTax(sy, gy, province)
  {
    var s, g := SmallBusinessProvincialRate(province), GeneralProvincialRate(province);
    ProvincialRatesPositive(province);
    assert sx * s <= sy * s;
    assert gx * g <= gy * g;
  }

  /** Corporate tax is never negative on non-negative income and grows with it. */
  lemma CorporateTaxMonotone(x: real, y: real, province: string)
    requires 0.0 <= x <= y
    ensures 0.0 <= CorporateTax(x, province).totalTax <= CorporateTax(y, province).totalTax
  {
    PartsMonotone(Min(x, SmallBusinessLimit), Max(0.0, x - SmallBusinessLimit),
                  Min(y, SmallBusinessLimit), Max(0.0, y - SmallBusinessLimit), province);
  }

  /** Up to the small-business limit in Ontario the corporation pays 9% federal plus 3.2% provincial. */
  lemma OntarioSmallBusiness(income: real)
    requires 0.0 < income <= SmallBusinessLimit
    ensures CorporateTax(income, "ON").totalTax == income * 0.122
    ensures CorporateTax(income, "ON").effectiveRate == 12.2
  {
  }
}
