/**
 * Statistics over the cleaned 24-hour window (weather.py,
 * `calculate_statistics`): maximum, minimum and mean of the temperatures
 * converted to the display unit, and the most frequent condition.
 * Means are over `real`; floating-point rounding is not modelled.
 */
module Statistics {
  import opened Wrappers
  import opened Units
  import opened History

  /** The four statistics; an empty window has none of them. */
  datatype WindowStats = WindowStats(maxTemp: real, minTemp: real, avgTemp: real, dominant: string)

  /** The temperatures of the points, converted to `unit`, in list order. */
  function ConvertedTemps(data: seq<Sample>, unit: string): (temps: seq<real>)
    ensures |temps| == |data|
    ensures forall i {:trigger temps[i]} :: 0 <= i < |data| ==> temps[i] == ConvertTemperature(data[i].tempK, unit)
  {
    seq(|data|, i requires 0 <= i < |data| => ConvertTemperature(data[i].tempK, unit))
  }

  /** The condition descriptions of the points, in list order. */
  function Conditions(data: seq<Sample>): (conds: seq<string>)
    ensures |conds| == |data|
    ensures forall i {:trigger conds[i]} :: 0 <= i < |data| ==> conds[i] == data[i].condition
  {
    seq(|data|, i requires 0 <= i < |data| => data[i].condition)
  }

  /** Python's `max` over a non-empty list. */
  function MaxOf(s: seq<real>): (m: real)
    requires |s| > 0
    ensures m in s
    ensures forall x :: x in s ==> x <= m
  {
    if |s| == 1 then s[0]
    else
      var rest := MaxOf(s[1..]);
      assert forall x :: x in s ==> x == s[0] || x in s[1..];
      if s[0] >= rest then s[0] else rest
  }

  /** Python's `min` over a non-empty list. */
  function MinOf(s: seq<real>): (m: real)
    requires |s| > 0
    ensures m in s
    ensures forall x :: x in s ==> m <= x
  {
    if |s| == 1 then s[0]
    else
      var rest := MinOf(s[1..]);
      assert forall x :: x in s ==> x == s[0] || x in s[1..];
      if s[0] <= rest then s[0] else rest
  }

  /** Python's `sum` as it runs: starting from 0, each value is added in
      turn from left to right. */
  function LeftToRightSum(s: seq<real>): real
  {
    if s == [] then 0.0 else LeftToRightSum(s[..|s| - 1]) + s[|s| - 1]
  }

  lemma {:induction false} LeftToRightSumCons(s: seq<real>)
    requires s != []
    ensures LeftToRightSum(s) == s[0] + LeftToRightSum(s[1..])
    decreases |s|
  {
    var n := |s|;
    if n == 1 {
      assert s[..0] == [] && s[1..] == [];
    } else {
      LeftToRightSumCons(s[..n - 1]);
      assert s[..n - 1][1..] == s[1..][..n - 2];
      assert s[1..][n - 2] == s[n - 1];
    }
  }

  /** The sum of a list, taken from the right. */
  function Sum(s: seq<real>): real
  {
    if s == [] then 0.0 else s[0] + Sum(s[1..])
  }

  /** Summing from the right gives Python's left-to-right sum (over `real`,
      the order of the additions is immaterial). */
  lemma {:induction false} SumIsLeftToRight(s: seq<real>)
    ensures Sum(s) == LeftToRightSum(s)
  {
    if s != [] {
      SumIsLeftToRight(s[1..]);
      LeftToRightSumCons(s);
    }
  }

  /** The mean: the sum over the number of values. It lies between the
      minimum and the maximum. */
  function Mean(s: seq<real>): (m: real)
    requires |s| > 0
    ensures MinOf(s) <= m <= MaxOf(s)
  {
    MeanBetween(s, MinOf(s), MaxOf(s));
    Sum(s) / (|s| as real)
  }

  /** Python's `list.count`. */
  function Count(s: seq<string>, c: string): (n: nat)
    ensures n <= |s|
    ensures n > 0 <==> c in s
    ensures n == multiset(s)[c]
  {
    if s == [] then 0
    else
      assert s == [s[0]] + s[1..];
      (if s[0] == c then 1 else 0) + Count(s[1..], c)
  }

  /** A candidate of greatest count among `candidates`. Which of several
      equally frequent candidates is chosen is not part of the contract. */
  function MostFrequentAmong(candidates: seq<string>, conds: seq<string>): (best: string)
    requires |candidates| > 0
    ensures best in candidates
    ensures forall c :: c in candidates ==> Count(conds, c) <= Count(conds, best)
  {
    if |candidates| == 1 then candidates[0]
    else
      var rest := MostFrequentAmong(candidates[1..], conds);
      assert forall c :: c in candidates ==> c == candidates[0] || c in candidates[1..];
      if Count(conds, candidates[0]) >= Count(conds, rest) then candidates[0] else rest
  }

  /** The dominant condition: one that occurs, and that no condition
      (listed or not) occurs more often than. */
  function DominantCondition(conds: seq<string>): (d: string)
    requires |conds| > 0
    ensures d in conds
    ensures forall c :: Count(conds, c) <= Count(conds, d)
  {
    MostFrequentAmong(conds, conds)
  }

  /** `calculate_statistics`: nothing for an empty window; otherwise the
      extrema and mean of the converted temperatures and the dominant condition. */
  function CalculateStatistics(data: seq<Sample>, unit: string): (r: Option<WindowStats>)
    ensures r.None? <==> data == []
    ensures r.Some? ==>
              var temps := ConvertedTemps(data, unit);
              && r.value.maxTemp in temps
              && r.value.minTemp in temps
              && (forall t :: t in temps ==> r.value.minTemp <= t <= r.value.maxTemp)
              && r.value.avgTemp == Sum(temps) / (|temps| as real)
              && r.value.minTemp <= r.value.avgTemp <= r.value.maxTemp
              && r.value.dominant in Conditions(data)
              && (forall c :: Count(Conditions(data), c) <= Count(Conditions(data), r.value.dominant))
  {
    if data == [] then None
    else
      var temps := ConvertedTemps(data, unit);
      Some(WindowStats(MaxOf(temps), MinOf(temps), Mean(temps), DominantCondition(Conditions(data))))
  }

  /** A sum of values that all lie in [lo, hi] lies in [n * lo, n * hi]. */
  lemma {:induction false} SumBetween(s: seq<real>, lo: real, hi: real)
    requires forall x :: x in s ==> lo <= x <= hi
    ensures (|s| as real) * lo <= Sum(s) <= (|s| as real) * hi
  {
    if s != [] {
      var rest, n := s[1..], |s[1..]| as real;
      assert forall x :: x in rest ==> x in s;
      SumBetween(rest, lo, hi);
      assert lo <= s[0] <= hi by { assert s[0] in s; }
      assert Sum(s) == s[0] + Sum(rest);
      AddBetween(s[0], Sum(rest), n, lo, hi);
      assert |s| as real == n + 1.0;
    }
  }

  /** One more value in [lo, hi] added to a total of n such values. */
  lemma AddBetween(x: real, total: real, n: real, lo: real, hi: real)
    requires lo <= x <= hi
    requires n * lo <= total <= n * hi
    ensures (n + 1.0) * lo <= x + total <= (n + 1.0) * hi
  {
  }

  /** The sum over the length of a non-empty list of values in [lo, hi] lies in [lo, hi]. */
  lemma MeanBetween(s: seq<real>, lo: real, hi: real)
    requires |s| > 0
    requires forall x :: x in s ==> lo <= x <= hi
    ensures lo <= Sum(s) / (|s| as real) <= hi
  {
    SumBetween(s, lo, hi);
    DivideBounds(Sum(s), |s| as real, lo, hi);
  }

  lemma DivideBounds(total: real, n: real, lo: real, hi: real)
    requires n > 0.0
    requires n * lo <= total <= n * hi
    ensures lo <= total / n <= hi
  {
  }

  /** The Kelvin temperatures of the points: conversion to "Kelvin" is the identity. */
  lemma KelvinTempsAreRaw(data: seq<Sample>)
    ensures forall i :: 0 <= i < |data| ==> ConvertedTemps(data, "Kelvin")[i] == data[i].tempK
  {
  }

  /** Converting a list of points then dropping the first point is the same
      as dropping it first. */
  lemma ConvertedTempsTail(data: seq<Sample>, unit: string)
    requires data != []
    ensures ConvertedTemps(data, unit)[1..] == ConvertedTemps(data[1..], unit)
  {
  }

  /** The sum of converted temperatures is the affine image of the Kelvin sum. */
  lemma {:induction false} SumConverted(data: seq<Sample>, unit: string)
    ensures Sum(ConvertedTemps(data, unit))
         == Scale(unit) * Sum(ConvertedTemps(data, "Kelvin")) + (|data| as real) * Offset(unit)
  {
    if data != [] {
      ConvertedTempsTail(data, unit);
      ConvertedTempsTail(data, "Kelvin");
      SumConverted(data[1..], unit);
      ConvertIsAffine(data[0].tempK, unit);
      var a, b := Scale(unit), Offset(unit);
      var k := Sum(ConvertedTemps(data[1..], "Kelvin"));
      var m := |data[1..]| as real;
      assert a * (data[0].tempK + k) + (m + 1.0) * b == (a * data[0].tempK + b) + (a * k + m * b);
    }
  }

  /** Conversion preserves order, so the largest converted temperature is
      the converted largest Kelvin temperature. */
  lemma ConvertedMax(data: seq<Sample>, unit: string)
    requires data != []
    ensures MaxOf(ConvertedTemps(data, unit)) == ConvertTemperature(MaxOf(ConvertedTemps(data, "Kelvin")), unit)
  {
    var ks, us := ConvertedTemps(data, "Kelvin"), ConvertedTemps(data, unit);
    var top := MaxOf(ks);
    KelvinTempsAreRaw(data);
    forall i | 0 <= i < |us|
      ensures us[i] <= ConvertTemperature(top, unit)
    {
      assert ks[i] in ks;
      ConvertMonotone(ks[i], top, unit);
    }
    var i :| 0 <= i < |ks| && ks[i] == top;
    assert us[i] in us;
  }

  /** Likewise for the smallest temperature. */
  lemma ConvertedMin(data: seq<Sample>, unit: string)
    requires data != []
    ensures MinOf(ConvertedTemps(data, unit)) == ConvertTemperature(MinOf(ConvertedTemps(data, "Kelvin")), unit)
  {
    var ks, us := ConvertedTemps(data, "Kelvin"), ConvertedTemps(data, unit);
    var bottom := MinOf(ks);
    KelvinTempsAreRaw(data);
    forall i | 0 <= i < |us|
      ensures ConvertTemperature(bottom, unit) <= us[i]
    {
      assert ks[i] in ks;
      ConvertMonotone(bottom, ks[i], unit);
    }
    var i :| 0 <= i < |ks| && ks[i] == bottom;
    assert us[i] in us;
  }

  /** Conversion is affine, so the mean of the converted temperatures is the
      converted mean: averaging before or after converting agrees. */
  lemma ConvertedMean(data: seq<Sample>, unit: string)
    requires data != []
    ensures Mean(ConvertedTemps(data, unit)) == ConvertTemperature(Mean(ConvertedTemps(data, "Kelvin")), unit)
  {
    var ks, us := ConvertedTemps(data, "Kelvin"), ConvertedTemps(data, unit);
    SumConverted(data, unit);
    AverageOfConverted(Sum(ks), Sum(us), |data| as real, unit);
  }

  /** A total of converted values, divided by their number, is the
      conversion of the Kelvin total divided by that number. */
  lemma AverageOfConverted(totalK: real, total: real, n: real, unit: string)
    requires n > 0.0
    requires total == Scale(unit) * totalK + n * Offset(unit)
    ensures total / n == ConvertTemperature(totalK / n, unit)
  {
    ConvertIsAffine(totalK / n, unit);
    MeanOfAffine(totalK, n, Scale(unit), Offset(unit));
  }

  /** Statistics in a display unit are the Kelvin statistics converted, and
      the dominant condition does not depend on the unit. */
  lemma StatisticsCommuteWithConversion(data: seq<Sample>, unit: string)
    requires data != []
    ensures var inK := CalculateStatistics(data, "Kelvin").value;
            var inUnit := CalculateStatistics(data, unit).value;
            && inUnit.maxTemp == ConvertTemperature(inK.maxTemp, unit)
            && inUnit.minTemp == ConvertTemperature(inK.minTemp, unit)
            && inUnit.avgTemp == ConvertTemperature(inK.avgTemp, unit)
            && inUnit.dominant == inK.dominant
  {
    ConvertedMax(data, unit);
    ConvertedMin(data, unit);
    ConvertedMean(data, unit);
  }

  lemma MeanOfAffine(total: real, n: real, a: real, b: real)
    requires n > 0.0
    ensures (a * total + n * b) / n == a * (total / n) + b
  {
  }

  /** The points of the worked window below. */
  function ExamplePoints(): seq<Sample>
  {
    [Sample(1, 10.0, "rain"), Sample(2, 20.0, "clear"), Sample(3, 30.0, "rain")]
  }

  lemma ExampleTemps()
    ensures var temps := ConvertedTemps(ExamplePoints(), "Kelvin");
            MaxOf(temps) == 30.0 && MinOf(temps) == 10.0 && Mean(temps) == 20.0
  {
    var temps := ConvertedTemps(ExamplePoints(), "Kelvin");
    assert temps == [10.0, 20.0, 30.0];
    assert temps[1..] == [20.0, 30.0];
    assert [20.0, 30.0][1..] == [30.0] && [30.0][1..] == [];
    assert Sum([30.0]) == 30.0;
    assert Sum([20.0, 30.0]) == 50.0;
    assert 30.0 in temps && 10.0 in temps;
  }

  lemma ExampleDominant()
    ensures DominantCondition(Conditions(ExamplePoints())) == "rain"
  {
    var conds := Conditions(ExamplePoints());
    assert conds == ["rain", "clear", "rain"];
    assert multiset(conds)["rain"] == 2 && multiset(conds)["clear"] == 1;
  }

  /** A worked window: Kelvin values 10, 20 and 30 with conditions rain,
      clear, rain give maximum 30, minimum 10, mean 20 and "rain". */
  lemma ExampleWindow()
    ensures CalculateStatistics(ExamplePoints(), "Kelvin") == Some(WindowStats(30.0, 10.0, 20.0, "rain"))
  {
    ExampleTemps();
    ExampleDominant();
  }
}
