/** The simplified Köppen–Geiger classifier of the climate report script
    (`determine_koppen_classification`): twelve monthly mean temperatures in
    °C and twelve monthly precipitation totals in mm give a climate code of
    one group letter (B, E, A, D or C, tested in that order), a
    precipitation letter and, for C and D, a temperature letter. */
module Koppen {
  import opened ClimateStats

  /** Calendar months (1 = January) the script treats as northern-hemisphere
      summer and winter. */
  const SummerMonths: seq<int> := [4, 5, 6, 7, 8, 9]
  const WinterMonths: seq<int> := [10, 11, 12, 1, 2, 3]

  /** What the script raises instead of returning a code: `min` of an empty
      temperature list (ValueError), or a month index past the end of the
      precipitation list (IndexError). */
  datatype ClassifyError = EmptyTemperatures | MissingMonth

  datatype Result<T> = Ok(value: T) | Err(error: ClassifyError)

  /** The inputs on which the script runs to completion. */
  predicate WellFormed(temps: seq<real>, precips: seq<real>)
  {
    |temps| > 0 && |precips| >= 12
  }

  predicate MonthsIn(months: seq<int>, n: nat)
  {
    forall i :: 0 <= i < |months| ==> 1 <= months[i] <= n
  }

  /** The values of the given calendar months (`precips[i-1] for i in months`). */
  function Seasonal(precips: seq<real>, months: seq<int>): (r: seq<real>)
    requires MonthsIn(months, |precips|)
    ensures |r| == |months|
  {
    seq(|months|, i requires 0 <= i < |months| => precips[months[i] - 1])
  }

  /** Every seasonal value is one of the monthly values. */
  lemma SeasonalValuesAreMonthly(precips: seq<real>, months: seq<int>)
    requires MonthsIn(months, |precips|)
    ensures forall x :: x in Seasonal(precips, months) ==> x in precips
  {
    var r := Seasonal(precips, months);
    forall x | x in r ensures x in precips {
      var i :| 0 <= i < |r| && r[i] == x;
      assert precips[months[i] - 1] == x;
    }
  }

  /** The helper quantities the classifier computes before choosing letters. */
  datatype Aggregates = Aggregates(
    annualPrecip: real,
    annualAvgTemp: real,
    coldestMonthTemp: real,
    hottestMonthTemp: real,
    summerPrecip: real,
    winterPrecip: real,
    wettestSummerMonthPrecip: real,
    driestSummerMonthPrecip: real,
    wettestWinterMonthPrecip: real,
    driestWinterMonthPrecip: real,
    driestMonthPrecip: real,
    monthsAbove10C: nat)

  /** The aggregates; they are mutually consistent: the coldest month is no
      warmer than the hottest, the driest month of the year is no wetter than
      the driest month of either season, and months at or above 10 °C exist
      exactly when the hottest month reaches 10 °C. */
  function ComputeAggregates(temps: seq<real>, precips: seq<real>): (a: Aggregates)
    requires WellFormed(temps, precips)
    ensures a.coldestMonthTemp <= a.hottestMonthTemp
    ensures a.driestMonthPrecip <= a.driestSummerMonthPrecip <= a.wettestSummerMonthPrecip
    ensures a.driestMonthPrecip <= a.driestWinterMonthPrecip <= a.wettestWinterMonthPrecip
    ensures a.monthsAbove10C <= |temps|
    ensures a.monthsAbove10C > 0 <==> a.hottestMonthTemp >= 10.0
  {
    var summer := Seasonal(precips, SummerMonths);
    var winter := Seasonal(precips, WinterMonths);
    SeasonalValuesAreMonthly(precips, SummerMonths);
    SeasonalValuesAreMonthly(precips, WinterMonths);
    MaxReachesIffCounted(temps, 10.0);
    assert Min(temps) in temps;
    assert Min(summer) in summer && Min(winter) in winter;
    assert summer[0] in summer && winter[0] in winter;
    Aggregates(
      Sum(precips),
      Sum(temps) / 12.0,
      Min(temps),
      Max(temps),
      Sum(summer),
      Sum(winter),
      Max(summer),
      Min(summer),
      Max(winter),
      Min(winter),
      Min(precips),
      CountAtLeast(temps, 10.0))
  }

  /** Annual precipitation below this makes the climate arid (group B).
      Only two branches: +280 when more than 70% of the rain falls in
      summer, nothing otherwise. */
  function AridThreshold(a: Aggregates): (r: real)
    ensures r == 20.0 * a.annualAvgTemp || r == 20.0 * a.annualAvgTemp + 280.0
  {
    if a.summerPrecip > 0.7 * a.annualPrecip then 20.0 * a.annualAvgTemp + 280.0
    else 20.0 * a.annualAvgTemp
  }

  /** Group letter: B, then E, A, D, C. */
  function FirstLetter(a: Aggregates): (c: char)
    ensures c in "BEADC"
  {
    if a.annualPrecip < AridThreshold(a) then 'B'
    else if a.hottestMonthTemp < 10.0 then 'E'
    else if a.coldestMonthTemp >= 18.0 then 'A'
    else if a.coldestMonthTemp < -3.0 then 'D'
    else 'C'
  }

  /** Precipitation letter; empty for E. */
  function SecondLetter(first: char, a: Aggregates): (s: string)
    ensures |s| <= 1
    ensures |s| == 1 <==> first in "ABCD"
  {
    if first == 'A' then
      if a.driestMonthPrecip >= 60.0 then "f"
      else if a.driestMonthPrecip < 100.0 - a.annualPrecip / 25.0 then "w"
      else "m"
    else if first == 'B' then
      if a.annualPrecip < AridThreshold(a) / 2.0 then "W" else "S"
    else if first in "CD" then
      if a.driestSummerMonthPrecip < a.wettestWinterMonthPrecip / 3.0
         && a.driestSummerMonthPrecip < 40.0 then "s"
      else if a.driestWinterMonthPrecip < a.wettestSummerMonthPrecip / 10.0 then "w"
      else "f"
    else ""
  }

  /** Temperature letter; only C and D get one. */
  function ThirdLetter(first: char, a: Aggregates): (s: string)
    ensures |s| <= 1
    ensures |s| == 1 <==> first in "CD"
  {
    if first in "CD" then
      if first == 'D' && a.coldestMonthTemp <= -38.0 then "d"
      else if a.hottestMonthTemp >= 22.0 then "a"
      else if a.monthsAbove10C >= 4 then "b"
      else "c"
    else ""
  }

  /** Joins the letters: always "ET" for E, two letters for B, all three for
      A, C and D, and "Unknown" for any other group letter. */
  function Combine(first: char, second: string, third: string): (r: string)
    ensures first == 'E' ==> r == "ET"
    ensures first in "ABCDE" ==> |r| > 0 && r[0] == first && r != "Unknown"
    ensures first == 'B' ==> r[1..] == second
    ensures first in "ACD" ==> r[1..] == second + third
    ensures first !in "ABCDE" ==> r == "Unknown"
  {
    if first == 'E' then "ET"
    else if first == 'B' then [first] + second
    else if first in "ACD" then [first] + second + third
    else "Unknown"
  }

  /** The codes the classifier can produce: ET; BW or BS; Af, Aw or Am; and C
      or D followed by s, w or f and by a, b or c, where D may also end in d. */
  predicate IsKoppenCode(code: string)
  {
    code == "ET"
    || (|code| == 2 && code[0] == 'B' && code[1] in "WS")
    || (|code| == 2 && code[0] == 'A' && code[1] in "fwm")
    || (|code| == 3 && code[0] in "CD" && code[1] in "swf" && code[2] in "abc")
    || (|code| == 3 && code[0] == 'D' && code[1] in "swf" && code[2] == 'd')
  }

  /** The classifier. It fails exactly where the script raises: on an empty
      temperature list first, then on fewer than twelve precipitation totals.
      Otherwise it returns a well-shaped code, never the "Unknown" fallback. */
  function Classify(temps: seq<real>, precips: seq<real>): (r: Result<string>)
    ensures r.Err? <==> !WellFormed(temps, precips)
    ensures |temps| == 0 ==> r == Err(EmptyTemperatures)
    ensures |temps| > 0 && |precips| < 12 ==> r == Err(MissingMonth)
    ensures r.Ok? ==> IsKoppenCode(r.value) && r.value != "Unknown"
  {
    if |temps| == 0 then Err(EmptyTemperatures)
    else if |precips| < 12 then Err(MissingMonth)
    else
      var a := ComputeAggregates(temps, precips);
      var first := FirstLetter(a);
      Ok(Combine(first, SecondLetter(first, a), ThirdLetter(first, a)))
  }
}
