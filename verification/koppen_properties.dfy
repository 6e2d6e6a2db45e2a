/** What the classifier promises: which codes occur, which rule takes
    precedence, which letters go together, and the worked Billings sample. */
module KoppenProperties {
  import opened ClimateStats
  import opened Koppen

  /** The code the classifier returns for inputs it accepts. */
  function CodeOf(temps: seq<real>, precips: seq<real>): string
    requires WellFormed(temps, precips)
  {
    Classify(temps, precips).value
  }

  predicate IsArid(a: Aggregates)
  {
    a.annualPrecip < AridThreshold(a)
  }

  /** The arid threshold is twenty times the mean temperature, plus 280 exactly
      when more than 70% of the year's precipitation falls in summer. */
  lemma AridThresholdBranches(a: Aggregates)
    ensures AridThreshold(a) == 20.0 * a.annualAvgTemp + 280.0 <==> a.summerPrecip > 0.7 * a.annualPrecip
    ensures AridThreshold(a) == 20.0 * a.annualAvgTemp <==> a.summerPrecip <= 0.7 * a.annualPrecip
  {
  }

  /** Aridity is tested first: the code is a B code exactly when annual
      precipitation is below the threshold, whatever the temperatures; it is
      BW below half the threshold and BS otherwise. */
  lemma AridOverridesTemperature(temps: seq<real>, precips: seq<real>)
    requires WellFormed(temps, precips)
    ensures var a := ComputeAggregates(temps, precips);
      CodeOf(temps, precips)[0] == 'B' <==> IsArid(a)
    ensures var a := ComputeAggregates(temps, precips);
      CodeOf(temps, precips) == "BW" <==> IsArid(a) && a.annualPrecip < AridThreshold(a) / 2.0
    ensures var a := ComputeAggregates(temps, precips);
      CodeOf(temps, precips) == "BS" <==> IsArid(a) && a.annualPrecip >= AridThreshold(a) / 2.0
  {
  }

  /** Once a climate is arid, the monthly temperatures matter only through
      their total: two temperature records with the same total give the same
      code for the same precipitation. */
  lemma {:induction false} AridIgnoresMonthlyTemperatures(temps1: seq<real>, temps2: seq<real>, precips: seq<real>)
    requires WellFormed(temps1, precips) && WellFormed(temps2, precips)
    requires Sum(temps1) == Sum(temps2)
    requires IsArid(ComputeAggregates(temps1, precips))
    ensures Classify(temps1, precips) == Classify(temps2, precips)
  {
    var a1 := ComputeAggregates(temps1, precips);
    var a2 := ComputeAggregates(temps2, precips);
    assert AridThreshold(a1) == AridThreshold(a2);
    AridOverridesTemperature(temps1, precips);
    AridOverridesTemperature(temps2, precips);
  }

  /** A non-arid climate whose hottest month is below 10 °C is polar, and its
      code is always exactly "ET": there is no EF. */
  lemma PolarIsAlwaysET(temps: seq<real>, precips: seq<real>)
    requires WellFormed(temps, precips)
    ensures var a := ComputeAggregates(temps, precips);
      CodeOf(temps, precips) == "ET" <==> !IsArid(a) && a.hottestMonthTemp < 10.0
    ensures CodeOf(temps, precips)[0] == 'E' ==> CodeOf(temps, precips) == "ET"
    ensures CodeOf(temps, precips) != "EF"
  {
  }

  /** Polar climates have no month at or above 10 °C. */
  lemma PolarHasNoWarmMonth(temps: seq<real>, precips: seq<real>)
    requires WellFormed(temps, precips)
    requires CodeOf(temps, precips) == "ET"
    ensures ComputeAggregates(temps, precips).monthsAbove10C == 0
  {
    PolarIsAlwaysET(temps, precips);
  }

  /** For a non-arid climate whose hottest month reaches 10 °C the group is
      decided by the coldest month alone: A from 18 °C, D below -3 °C, C in
      between. */
  lemma GroupFollowsColdestMonth(temps: seq<real>, precips: seq<real>)
    requires WellFormed(temps, precips)
    requires !IsArid(ComputeAggregates(temps, precips))
    requires ComputeAggregates(temps, precips).hottestMonthTemp >= 10.0
    ensures var c := ComputeAggregates(temps, precips).coldestMonthTemp;
      CodeOf(temps, precips)[0] == 'A' <==> c >= 18.0
    ensures var c := ComputeAggregates(temps, precips).coldestMonthTemp;
      CodeOf(temps, precips)[0] == 'D' <==> c < -3.0
    ensures var c := ComputeAggregates(temps, precips).coldestMonthTemp;
      CodeOf(temps, precips)[0] == 'C' <==> -3.0 <= c < 18.0
  {
  }

  /** Two such climates with the same coldest month fall in the same group,
      however different the rest of their records. */
  lemma {:induction false} GroupDependsOnlyOnColdestMonth(
    temps1: seq<real>, precips1: seq<real>, temps2: seq<real>, precips2: seq<real>)
    requires WellFormed(temps1, precips1) && WellFormed(temps2, precips2)
    requires !IsArid(ComputeAggregates(temps1, precips1)) && !IsArid(ComputeAggregates(temps2, precips2))
    requires ComputeAggregates(temps1, precips1).hottestMonthTemp >= 10.0
    requires ComputeAggregates(temps2, precips2).hottestMonthTemp >= 10.0
    requires Min(temps1) == Min(temps2)
    ensures CodeOf(temps1, precips1)[0] == CodeOf(temps2, precips2)[0]
  {
    GroupFollowsColdestMonth(temps1, precips1);
    GroupFollowsColdestMonth(temps2, precips2);
    var c1 := CodeOf(temps1, precips1)[0];
    var c2 := CodeOf(temps2, precips2)[0];
    assert c1 in "ACD" && c2 in "ACD";
  }

  /** A codes have two letters: f when the driest month has at least 60 mm,
      otherwise w when it is below 100 - annual/25, otherwise m. */
  lemma TropicalLetters(temps: seq<real>, precips: seq<real>)
    requires WellFormed(temps, precips)
    requires CodeOf(temps, precips)[0] == 'A'
    ensures |CodeOf(temps, precips)| == 2
    ensures var a := ComputeAggregates(temps, precips);
      CodeOf(temps, precips)[1] == 'f' <==> a.driestMonthPrecip >= 60.0
    ensures var a := ComputeAggregates(temps, precips);
      (CodeOf(temps, precips)[1] == 'w')
        <==> a.driestMonthPrecip < 60.0 && a.driestMonthPrecip < 100.0 - a.annualPrecip / 25.0
    ensures var a := ComputeAggregates(temps, precips);
      (CodeOf(temps, precips)[1] == 'm')
        <==> a.driestMonthPrecip < 60.0 && a.driestMonthPrecip >= 100.0 - a.annualPrecip / 25.0
  {
  }

  /** C and D precipitation letter, in order: s when the driest summer month
      is below a third of the wettest winter month and below 40 mm; else w when
      the driest winter month is below a tenth of the wettest summer month;
      else f. */
  lemma DrySeasonLetters(temps: seq<real>, precips: seq<real>)
    requires WellFormed(temps, precips)
    requires CodeOf(temps, precips)[0] in "CD"
    ensures |CodeOf(temps, precips)| == 3
    ensures var a := ComputeAggregates(temps, precips);
      (CodeOf(temps, precips)[1] == 's')
        <==> a.driestSummerMonthPrecip < a.wettestWinterMonthPrecip / 3.0 && a.driestSummerMonthPrecip < 40.0
    ensures var a := ComputeAggregates(temps, precips);
      (CodeOf(temps, precips)[1] == 'w')
        <==> !(a.driestSummerMonthPrecip < a.wettestWinterMonthPrecip / 3.0 && a.driestSummerMonthPrecip < 40.0)
             && a.driestWinterMonthPrecip < a.wettestSummerMonthPrecip / 10.0
    ensures var a := ComputeAggregates(temps, precips);
      (CodeOf(temps, precips)[1] == 'f')
        <==> !(a.driestSummerMonthPrecip < a.wettestWinterMonthPrecip / 3.0 && a.driestSummerMonthPrecip < 40.0)
             && a.driestWinterMonthPrecip >= a.wettestSummerMonthPrecip / 10.0
  {
  }

  /** C and D temperature letter: d only for D with the coldest month at or
      below -38 °C (so a C code never ends in d); otherwise a when the hottest
      month reaches 22 °C, b when at least four months reach 10 °C, else c,
      which then has between one and three such months. */
  lemma TemperatureLetters(temps: seq<real>, precips: seq<real>)
    requires WellFormed(temps, precips)
    requires CodeOf(temps, precips)[0] in "CD"
    ensures var a := ComputeAggregates(temps, precips);
      CodeOf(temps, precips)[2] == 'd' <==> CodeOf(temps, precips)[0] == 'D' && a.coldestMonthTemp <= -38.0
    ensures CodeOf(temps, precips)[0] == 'C' ==> CodeOf(temps, precips)[2] != 'd'
    ensures var a := ComputeAggregates(temps, precips);
      (CodeOf(temps, precips)[2] == 'a')
        <==> !(CodeOf(temps, precips)[0] == 'D' && a.coldestMonthTemp <= -38.0) && a.hottestMonthTemp >= 22.0
    ensures var a := ComputeAggregates(temps, precips);
      (CodeOf(temps, precips)[2] == 'b')
        <==> !(CodeOf(temps, precips)[0] == 'D' && a.coldestMonthTemp <= -38.0) && a.hottestMonthTemp < 22.0
             && a.monthsAbove10C >= 4
    ensures var a := ComputeAggregates(temps, precips);
      (CodeOf(temps, precips)[2] == 'c')
        <==> !(CodeOf(temps, precips)[0] == 'D' && a.coldestMonthTemp <= -38.0) && a.hottestMonthTemp < 22.0
             && a.monthsAbove10C < 4
    ensures var a := ComputeAggregates(temps, precips);
      CodeOf(temps, precips)[2] == 'c' ==> 1 <= a.monthsAbove10C <= 3
  {
  }

  /** The classification rules stated letter by letter, independently of the
      order in which the classifier tests them. */
  predicate ObeysKoppenRules(a: Aggregates, code: string)
  {
    IsKoppenCode(code)
    && var dryCold := code[0] == 'D' && a.coldestMonthTemp <= -38.0;
    var drySummer := a.driestSummerMonthPrecip < a.wettestWinterMonthPrecip / 3.0 && a.driestSummerMonthPrecip < 40.0;
    var dryWinter := a.driestWinterMonthPrecip < a.wettestSummerMonthPrecip / 10.0;
    (code[0] == 'B' <==> IsArid(a))
    && (code[0] == 'E' <==> !IsArid(a) && a.hottestMonthTemp < 10.0)
    && (code[0] == 'A' <==> !IsArid(a) && a.hottestMonthTemp >= 10.0 && a.coldestMonthTemp >= 18.0)
    && (code[0] == 'D' <==> !IsArid(a) && a.hottestMonthTemp >= 10.0 && a.coldestMonthTemp < -3.0)
    && (code[0] == 'B' ==> (code[1] == 'W' <==> a.annualPrecip < AridThreshold(a) / 2.0))
    && (code[0] == 'A' ==>
          (code[1] == 'f' <==> a.driestMonthPrecip >= 60.0)
          && (code[1] == 'w' <==> a.driestMonthPrecip < 60.0 && a.driestMonthPrecip < 100.0 - a.annualPrecip / 25.0))
    && (code[0] in "CD" ==>
          (code[1] == 's' <==> drySummer)
          && (code[1] == 'w' <==> !drySummer && dryWinter)
          && (code[2] == 'd' <==> dryCold)
          && (code[2] == 'a' <==> !dryCold && a.hottestMonthTemp >= 22.0)
          && (code[2] == 'b' <==> !dryCold && a.hottestMonthTemp < 22.0 && a.monthsAbove10C >= 4))
  }

  /** The classifier's code obeys every rule. */
  lemma {:induction false} ClassifyObeysRules(temps: seq<real>, precips: seq<real>)
    requires WellFormed(temps, precips)
    ensures ObeysKoppenRules(ComputeAggregates(temps, precips), CodeOf(temps, precips))
  {
    var code := CodeOf(temps, precips);
    AridOverridesTemperature(temps, precips);
    PolarIsAlwaysET(temps, precips);
    if code[0] == 'A' {
      TropicalLetters(temps, precips);
    } else if code[0] in "CD" {
      DrySeasonLetters(temps, precips);
      TemperatureLetters(temps, precips);
    }
  }

  /** At most one code obeys the rules for given aggregates. */
  lemma {:induction false} RulesDetermineCode(a: Aggregates, code1: string, code2: string)
    requires ObeysKoppenRules(a, code1) && ObeysKoppenRules(a, code2)
    ensures code1 == code2
  {
    assert code1[0] == code2[0];
    if code1[0] in "ABCD" {
      assert code1[1] == code2[1];
    }
    if code1[0] in "CD" {
      assert code1[2] == code2[2];
    }
  }

  /** The rules are a complete reference definition: the classifier returns
      `code` exactly when `code` obeys them. */
  lemma ClassifyIffRules(temps: seq<real>, precips: seq<real>, code: string)
    requires WellFormed(temps, precips)
    ensures Classify(temps, precips) == Ok(code) <==> ObeysKoppenRules(ComputeAggregates(temps, precips), code)
  {
    ClassifyObeysRules(temps, precips);
    if ObeysKoppenRules(ComputeAggregates(temps, precips), code) {
      RulesDetermineCode(ComputeAggregates(temps, precips), code, CodeOf(temps, precips));
    }
  }

  /** The two season lists name each calendar month exactly once. */
  lemma SeasonsCoverEachMonthOnce()
    ensures |SummerMonths| + |WinterMonths| == 12
    ensures forall m :: 1 <= m <= 12 ==> (m in SummerMonths <==> m !in WinterMonths)
    ensures MonthsIn(SummerMonths, 12) && MonthsIn(WinterMonths, 12)
  {
  }

  /** With exactly twelve totals, summer plus winter precipitation is the
      annual precipitation. */
  lemma {:induction false} SeasonsPartitionAnnual(temps: seq<real>, precips: seq<real>)
    requires |temps| > 0 && |precips| == 12
    ensures var a := ComputeAggregates(temps, precips);
      a.summerPrecip + a.winterPrecip == a.annualPrecip
  {
    var summer := Seasonal(precips, SummerMonths);
    var winter := Seasonal(precips, WinterMonths);
    assert summer == precips[3..9];
    assert winter == precips[9..] + precips[..3];
    assert precips == precips[..3] + precips[3..9] + precips[9..];
    SumAppend(precips[..3], precips[3..9]);
    SumAppend(precips[..3] + precips[3..9], precips[9..]);
    SumAppend(precips[9..], precips[..3]);
  }

  /** The Billings sample kept in the script's comment. */
  const BillingsTemps: seq<real> := [-2.0, 0.5, 4.0, 9.0, 14.0, 19.0, 23.0, 21.5, 16.0, 9.5, 2.5, -1.5]
  const BillingsPrecips: seq<real> := [15.0, 13.0, 25.0, 45.0, 65.0, 65.0, 35.0, 30.0, 35.0, 30.0, 18.0, 15.0]

  /** The classifier answers "BS" for the Billings sample, not the "Dfb" the
      comment expects: 275 mm of the 391 mm fall in summer (more than 70%), so
      the threshold is 20 * 9.625 + 280 = 472.5 and 391 mm is below it, but not
      below half of it. */
  lemma {:induction false} BillingsIsSteppe()
    ensures var a := ComputeAggregates(BillingsTemps, BillingsPrecips);
      a.annualPrecip == 391.0 && a.summerPrecip == 275.0 && a.annualAvgTemp == 9.625
      && AridThreshold(a) == 472.5
    ensures Classify(BillingsTemps, BillingsPrecips) == Ok("BS")
  {
    BillingsAnnualPrecip();
    BillingsMeanTemp();
    BillingsSummerPrecip();
    AridOverridesTemperature(BillingsTemps, BillingsPrecips);
  }

  lemma BillingsAnnualPrecip()
    ensures ComputeAggregates(BillingsTemps, BillingsPrecips).annualPrecip == 391.0
  {
    SumTwelve(BillingsPrecips);
  }

  lemma BillingsMeanTemp()
    ensures ComputeAggregates(BillingsTemps, BillingsPrecips).annualAvgTemp == 9.625
  {
    SumTwelve(BillingsTemps);
  }

  lemma BillingsSummerPrecip()
    ensures ComputeAggregates(BillingsTemps, BillingsPrecips).summerPrecip == 275.0
  {
    var summer := Seasonal(BillingsPrecips, SummerMonths);
    assert summer == BillingsPrecips[3..9];
    SumSix(summer);
  }

  /** Sum of a twelve-value record, written out. */
  lemma SumTwelve(s: seq<real>)
    requires |s| == 12
    ensures Sum(s) == s[0] + s[1] + s[2] + s[3] + s[4] + s[5] + s[6] + s[7] + s[8] + s[9] + s[10] + s[11]
  {
    SumAppend(s[..6], s[6..]);
    assert s == s[..6] + s[6..];
    SumSix(s[..6]);
    SumSix(s[6..]);
  }

  /** Sum of a six-value season, written out. */
  lemma SumSix(s: seq<real>)
    requires |s| == 6
    ensures Sum(s) == s[0] + s[1] + s[2] + s[3] + s[4] + s[5]
  {
    assert Sum(s[5..]) == s[5] by { assert s[5..][1..] == []; }
    assert Sum(s[4..]) == s[4] + Sum(s[5..]) by { assert s[4..][1..] == s[5..]; }
    assert Sum(s[3..]) == s[3] + Sum(s[4..]) by { assert s[3..][1..] == s[4..]; }
    assert Sum(s[2..]) == s[2] + Sum(s[3..]) by { assert s[2..][1..] == s[3..]; }
    assert Sum(s[1..]) == s[1] + Sum(s[2..]) by { assert s[1..][1..] == s[2..]; }
  }
}
