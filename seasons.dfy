/**
 * The two season helpers of the outfit service: the northern-hemisphere
 * season of a month, and the season suggested by a temperature.
 */
module Seasons {
  import opened Builtins

  /** A month as `Date.prototype.getMonth` returns it: 0 is January, 11 is December. */
  type MonthIndex = m: int | 0 <= m < 12

  const SEASONS: seq<string> := ["Winter", "Spring", "Summer", "Fall"]

  /**
   * `SEASONS[Math.floor((month / 12) * 4) % 4]`, computed on exact
   * rationals; for these twelve inputs the floating-point quotient rounds
   * to the same floor.
   */
  function SeasonNorth(month: MonthIndex): (s: string)
    ensures s in SEASONS
  {
    var index := ((month as real / 12.0) * 4.0).Floor % 4;
    SEASONS[index]
  }

  /** The floored quotient is the quarter of the year: `month / 3` in integer division. */
  lemma {:induction false} SeasonNorthIsQuarter(month: MonthIndex)
    ensures SeasonNorth(month) == SEASONS[month / 3]
  {
    var x := (month as real / 12.0) * 4.0;
    assert x == month as real / 3.0;
    var q := month / 3;
    assert q as real <= x < q as real + 1.0;
    assert x.Floor == q;
  }

  /** Months 0-2 are Winter, 3-5 Spring, 6-8 Summer and 9-11 Fall. */
  lemma SeasonNorthTable(month: MonthIndex)
    ensures 0 <= month <= 2 ==> SeasonNorth(month) == "Winter"
    ensures 3 <= month <= 5 ==> SeasonNorth(month) == "Spring"
    ensures 6 <= month <= 8 ==> SeasonNorth(month) == "Summer"
    ensures 9 <= month <= 11 ==> SeasonNorth(month) == "Fall"
  {
    SeasonNorthIsQuarter(month);
  }

  /**
   * The season for a temperature, branch by branch as written: above 20 is
   * Summer, 15 to 20 is Fall, 10 up to 15 is Spring; the last test
   * (`temperature > 10`) can no longer succeed, so below 10 there is no
   * season at all (`undefined`).
   */
  function SeasonFromTemperature(temperature: real): Option<string>
  {
    if temperature > 20.0 then Some("Summer")
    else if temperature <= 20.0 && temperature >= 15.0 then Some("Fall")
    else if temperature < 15.0 && temperature >= 10.0 then Some("Spring")
    else if temperature > 10.0 then Some("Winter")
    else None
  }

  /** What `SeasonFromTemperature` returns, by temperature range; never "Winter". */
  lemma SeasonFromTemperatureRanges(t: real)
    ensures t > 20.0 ==> SeasonFromTemperature(t) == Some("Summer")
    ensures 15.0 <= t <= 20.0 ==> SeasonFromTemperature(t) == Some("Fall")
    ensures 10.0 <= t < 15.0 ==> SeasonFromTemperature(t) == Some("Spring")
    ensures SeasonFromTemperature(t).None? <==> t < 10.0
    ensures SeasonFromTemperature(t) != Some("Winter")
  {
  }
}
