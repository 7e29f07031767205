/** Hourly rate calculator (`calculateAnnualFromHourly`). */
module Hourly {

  /** Annual earnings from an hourly rate, weekly hours and working weeks. */
  function AnnualFromHourly(hourlyRate: real, hoursPerWeek: real, weeksPerYear: real): (r: real)
    ensures hourlyRate >= 0.0 && hoursPerWeek >= 0.0 && weeksPerYear >= 0.0 ==> r >= 0.0
    ensures hoursPerWeek == 0.0 || weeksPerYear == 0.0 ==> r == 0.0
  {
    hourlyRate * hoursPerWeek * weeksPerYear
  }

  /**
   * The annual figure grows with the rate when hours and weeks are
   * non-negative; the order of the three factors does not matter; zero weeks
   * give nothing; a standard 40-hour, 52-week year is rate × 2,080.
   */
  lemma AnnualFromHourlyScales(rate: real, rate': real, hours: real, weeks: real)
    requires hours >= 0.0 && weeks >= 0.0 && rate <= rate'
    ensures AnnualFromHourly(rate, hours, weeks) <= AnnualFromHourly(rate', hours, weeks)
    ensures AnnualFromHourly(rate, hours, weeks) == AnnualFromHourly(hours, weeks, rate)
    ensures AnnualFromHourly(rate, hours, 0.0) == 0.0
    ensures AnnualFromHourly(rate, 40.0, 52.0) == rate * 2080.0
  {
    assert (rate' - rate) * hours >= 0.0;
    assert (rate' - rate) * hours * weeks >= 0.0;
  }

  /** With non-negative inputs, raising any of rate, hours or weeks never lowers the annual figure. */
  lemma AnnualFromHourlyMonotone(rate: real, rate': real, hours: real, hours': real,
                                 weeks: real, weeks': real)
    requires 0.0 <= rate <= rate' && 0.0 <= hours <= hours' && 0.0 <= weeks <= weeks'
    ensures AnnualFromHourly(rate, hours, weeks) <= AnnualFromHourly(rate', hours', weeks')
  {
    assert rate * hours <= rate' * hours by {
      assert (rate' - rate) * hours >= 0.0;
    }
    assert rate' * hours <= rate' * hours' by {
      assert rate' * (hours' - hours) >= 0.0;
    }
    var p, p' := rate * hours, rate' * hours';
    assert 0.0 <= p <= p';
    assert AnnualFromHourly(rate, hours, weeks) == p * weeks;
    assert AnnualFromHourly(rate', hours', weeks') == p' * weeks';
    assert p * weeks <= p' * weeks by {
      assert (p' - p) * weeks >= 0.0;
    }
    assert p' * weeks <= p' * weeks' by {
      assert p' * (weeks' - weeks) >= 0.0;
    }
  }
}
