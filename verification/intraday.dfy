/** The intraday out-of-range scan behind `isHeartRateOutsideSafeRange`: one
    pass over the readings that remembers the reading whose deviation from
    the safe range is the largest seen so far. */
module Intraday {
  import opened Base
  import opened Records

  /** How far `value` lies outside `[lo, hi]`: the distance below `lo` when it
      is below, else the distance above `hi` when it is above, else 0. */
  function Deviation(value: int, lo: int, hi: int): (d: nat)
    ensures d > 0 <==> value < lo || hi < value
  {
    if value < lo then lo - value
    else if value > hi then value - hi
    else 0
  }

  /** With a proper range the deviation is the distance from `value` to the
      range: the largest of 0, `lo - value` and `value - hi`. With `lo > hi`
      a reading below `lo` still measures its distance to `lo`, and one at or
      above `lo` its distance to `hi`. */
  lemma DeviationAmount(value: int, lo: int, hi: int)
    ensures lo <= hi ==>
      var d := Deviation(value, lo, hi);
      && d >= lo - value && d >= value - hi
      && (d == 0 || d == lo - value || d == value - hi)
    ensures value < lo ==> Deviation(value, lo, hi) == lo - value
    ensures lo <= value && hi < value ==> Deviation(value, lo, hi) == value - hi
  {
  }

  /** The two variables of the scan loop: the largest deviation seen so far
      and the reading that had it, both unset until a reading deviates. */
  datatype ScanState = ScanState(maxDeviation: Option<nat>, mostExtremeValue: Option<int>)

  /** One iteration: a reading replaces the remembered one only when it
      deviates strictly more. */
  function Step(st: ScanState, value: int, lo: int, hi: int): ScanState {
    var deviation := Deviation(value, lo, hi);
    if deviation > 0 && (st.maxDeviation.None? || deviation > st.maxDeviation.value)
    then ScanState(Some(deviation), Some(value))
    else st
  }

  /** The loop state after the first `n` readings. */
  function ScanPrefix(points: seq<HeartRatePoint>, n: nat, lo: int, hi: int): ScanState
    requires n <= |points|
  {
    if n == 0 then ScanState(None, None)
    else Step(ScanPrefix(points, n - 1, lo, hi), points[n - 1].value, lo, hi)
  }

  /** No reading among the first `n` is outside the range. */
  ghost predicate NoneDeviate(points: seq<HeartRatePoint>, n: nat, lo: int, hi: int)
    requires n <= |points|
  {
    forall i :: 0 <= i < n ==> Deviation(points[i].value, lo, hi) == 0
  }

  /** Among the first `n` readings, `k` is the earliest one whose positive
      deviation is not exceeded by any other. */
  ghost predicate IsFirstPeak(points: seq<HeartRatePoint>, n: nat, lo: int, hi: int, k: int)
    requires n <= |points|
  {
    && 0 <= k < n
    && Deviation(points[k].value, lo, hi) > 0
    && (forall j :: 0 <= j < n ==> Deviation(points[j].value, lo, hi) <= Deviation(points[k].value, lo, hi))
    && (forall j :: 0 <= j < k ==> Deviation(points[j].value, lo, hi) < Deviation(points[k].value, lo, hi))
  }

  /** The loop state after `n` readings is unset exactly when none of them
      deviates, and otherwise holds the deviation and the value of the
      earliest reading with the largest deviation. */
  lemma {:induction false} ScanPrefixSpec(points: seq<HeartRatePoint>, n: nat, lo: int, hi: int)
    requires n <= |points|
    ensures var st := ScanPrefix(points, n, lo, hi);
      && (st.maxDeviation.None? <==> st.mostExtremeValue.None?)
      && (st.maxDeviation.None? <==> NoneDeviate(points, n, lo, hi))
      && (st.maxDeviation.Some? ==>
            exists k :: IsFirstPeak(points, n, lo, hi, k)
                     && st.maxDeviation.value == Deviation(points[k].value, lo, hi)
                     && st.mostExtremeValue.value == points[k].value)
  {
    if n > 0 {
      ScanPrefixSpec(points, n - 1, lo, hi);
      var before := ScanPrefix(points, n - 1, lo, hi);
      var value := points[n - 1].value;
      var d := Deviation(value, lo, hi);
      if d > 0 && (before.maxDeviation.None? || d > before.maxDeviation.value) {
        if before.maxDeviation.Some? {
          var k :| IsFirstPeak(points, n - 1, lo, hi, k) && before.maxDeviation.value == Deviation(points[k].value, lo, hi);
        }
        assert IsFirstPeak(points, n, lo, hi, n - 1);
      } else if before.maxDeviation.Some? {
        var k :| IsFirstPeak(points, n - 1, lo, hi, k)
              && before.maxDeviation.value == Deviation(points[k].value, lo, hi)
              && before.mostExtremeValue.value == points[k].value;
        assert IsFirstPeak(points, n, lo, hi, k);
      }
    }
  }

  /** The largest deviation among the readings, 0 when there are none: the
      reference the scan is measured against. */
  function MaxDeviation(points: seq<HeartRatePoint>, lo: int, hi: int): (m: nat)
    ensures forall i :: 0 <= i < |points| ==> Deviation(points[i].value, lo, hi) <= m
    ensures m > 0 ==> FirstWithDeviation(points, lo, hi, m) < |points|
  {
    if |points| == 0 then 0
    else
      var d, rest := Deviation(points[0].value, lo, hi), MaxDeviation(points[1..], lo, hi);
      assert forall i :: 1 <= i < |points| ==> points[i] == points[1..][i - 1];
      if d > rest then d else rest
  }

  /** A bound on every reading's deviation bounds the largest one. */
  lemma {:induction false} MaxDeviationLeast(points: seq<HeartRatePoint>, lo: int, hi: int, bound: int)
    requires forall i :: 0 <= i < |points| ==> Deviation(points[i].value, lo, hi) <= bound
    requires 0 <= bound
    ensures MaxDeviation(points, lo, hi) <= bound
    decreases |points|
  {
    if |points| > 0 {
      assert forall i :: 0 <= i < |points[1..]| ==> points[1..][i] == points[i + 1];
      MaxDeviationLeast(points[1..], lo, hi, bound);
    }
  }

  /** The position of the first reading whose deviation is `d`, or `|points|`
      when no reading has it. */
  function FirstWithDeviation(points: seq<HeartRatePoint>, lo: int, hi: int, d: nat): (i: nat)
    ensures i <= |points|
    ensures i < |points| ==> Deviation(points[i].value, lo, hi) == d
  {
    if |points| == 0 then 0
    else if Deviation(points[0].value, lo, hi) == d then 0
    else 1 + FirstWithDeviation(points[1..], lo, hi, d)
  }

  /** A reading with deviation `d` and no earlier one with it is the first. */
  lemma {:induction false} FirstWithDeviationFinds(points: seq<HeartRatePoint>, lo: int, hi: int, d: nat, k: int)
    requires 0 <= k < |points| && Deviation(points[k].value, lo, hi) == d
    requires forall j :: 0 <= j < k ==> Deviation(points[j].value, lo, hi) != d
    ensures FirstWithDeviation(points, lo, hi, d) == k
    decreases |points|
  {
    if k > 0 {
      assert points[0] == points[0 + 0];
      assert forall j :: 0 <= j < k - 1 ==> points[1..][j] == points[j + 1];
      FirstWithDeviationFinds(points[1..], lo, hi, d, k - 1);
    }
  }

  /** The scan agrees with the reference: it ends holding the largest
      deviation, unset when that is 0, and the value of the first reading
      that has it. */
  lemma ScanMatchesReference(points: seq<HeartRatePoint>, lo: int, hi: int)
    ensures var st, m := ScanPrefix(points, |points|, lo, hi), MaxDeviation(points, lo, hi);
      && st.maxDeviation.GetOr(0) == m
      && (m == 0 ==> st.mostExtremeValue == None)
      && (m > 0 ==> st.mostExtremeValue == Some(points[FirstWithDeviation(points, lo, hi, m)].value))
  {
    var n := |points|;
    ScanPrefixSpec(points, n, lo, hi);
    var st := ScanPrefix(points, n, lo, hi);
    if st.maxDeviation.None? {
      MaxDeviationLeast(points, lo, hi, 0);
    } else {
      var k :| IsFirstPeak(points, n, lo, hi, k)
            && st.maxDeviation.value == Deviation(points[k].value, lo, hi)
            && st.mostExtremeValue.value == points[k].value;
      var d := Deviation(points[k].value, lo, hi);
      MaxDeviationLeast(points, lo, hi, d);
      FirstWithDeviationFinds(points, lo, hi, d, k);
    }
  }

  /** The readings of the intraday block, when it and its dataset exist. */
  function IntradayPoints(data: HeartRateData): seq<HeartRatePoint> {
    match data.activitiesHeartIntraday
    case None => []
    case Some(intraday) => intraday.dataset.GetOr([])
  }

  /** `isHeartRateOutsideSafeRange` on one day's record: 0 when there are no
      readings or none is outside `[lo, hi]`; otherwise the value (not the
      deviation) of the first reading with the largest deviation. */
  function OutOfRangeValue(data: HeartRateData, lo: int, hi: int): (r: int)
    ensures var points := IntradayPoints(data);
      var m := MaxDeviation(points, lo, hi);
      && (m == 0 ==> r == 0)
      && (m > 0 ==> r == points[FirstWithDeviation(points, lo, hi, m)].value)
  {
    match data.activitiesHeartIntraday
    case None => 0
    case Some(intraday) =>
      match intraday.dataset
      case None => 0
      case Some(points) =>
        if |points| == 0 then 0
        else
          ScanMatchesReference(points, lo, hi);
          ScanPrefix(points, |points|, lo, hi).mostExtremeValue.GetOr(0)
  }

  /** In the terms of the loop: 0 exactly when no reading deviates (or a
      deviating reading is itself 0), and otherwise the value of the earliest
      reading whose deviation no other reading exceeds. */
  lemma OutOfRangeValueIsFirstPeak(data: HeartRateData, lo: int, hi: int)
    ensures var points, r := IntradayPoints(data), OutOfRangeValue(data, lo, hi);
      && (NoneDeviate(points, |points|, lo, hi) ==> r == 0)
      && (!NoneDeviate(points, |points|, lo, hi) ==>
            exists k :: IsFirstPeak(points, |points|, lo, hi, k) && r == points[k].value)
  {
    var points := IntradayPoints(data);
    ScanPrefixSpec(points, |points|, lo, hi);
    ScanMatchesReference(points, lo, hi);
  }

  /** The result is 0 or the value of one of the day's readings. */
  lemma OutOfRangeValueIsReading(data: HeartRateData, lo: int, hi: int)
    ensures var r := OutOfRangeValue(data, lo, hi);
      r == 0 || exists i :: 0 <= i < |IntradayPoints(data)| && IntradayPoints(data)[i].value == r
  {
    var points := IntradayPoints(data);
    var m := MaxDeviation(points, lo, hi);
    if m > 0 {
      var i := FirstWithDeviation(points, lo, hi, m);
      assert points[i].value == OutOfRangeValue(data, lo, hi);
    }
  }

  /** Only one reading is the earliest with the largest deviation. */
  lemma FirstPeakUnique(points: seq<HeartRatePoint>, n: nat, lo: int, hi: int, k1: int, k2: int)
    requires n <= |points|
    requires IsFirstPeak(points, n, lo, hi, k1) && IsFirstPeak(points, n, lo, hi, k2)
    ensures k1 == k2
  {
  }

  /** Moving either threshold of a well-formed range outwards never moves a
      reading further outside it. */
  lemma DeviationShrinksWhenWidened(value: int, lo: int, hi: int, lo': int, hi': int)
    requires lo' <= lo <= hi <= hi'
    ensures Deviation(value, lo', hi') <= Deviation(value, lo, hi)
  {
  }

  /** Widening a well-formed range never increases the largest deviation of a
      day's readings. */
  lemma WideningNeverIncreasesPeak(points: seq<HeartRatePoint>, lo: int, hi: int, lo': int, hi': int)
    requires lo' <= lo <= hi <= hi'
    ensures MaxDeviation(points, lo', hi') <= MaxDeviation(points, lo, hi)
  {
    forall i | 0 <= i < |points|
      ensures Deviation(points[i].value, lo', hi') <= MaxDeviation(points, lo, hi)
    {
      DeviationShrinksWhenWidened(points[i].value, lo, hi, lo', hi');
    }
    MaxDeviationLeast(points, lo', hi', MaxDeviation(points, lo, hi));
  }

  /** When the thresholds are inverted (`lo > hi`), widening can increase
      the peak: a reading of 80 deviates by 20 from `[100, 50]` but by 30 from
      `[60, 50]`, because a reading above `lo` is then measured against `hi`. */
  lemma InvertedThresholdsNotMonotone()
    ensures var points := [HeartRatePoint(None, 80)];
      MaxDeviation(points, 60, 50) > MaxDeviation(points, 100, 50)
  {
    var points := [HeartRatePoint(None, 80)];
    assert points[1..] == [];
    assert MaxDeviation(points, 100, 50) == 20;
    assert MaxDeviation(points, 60, 50) == 30;
  }

  /** With no readings outside the range, the answer is 0 whatever the
      readings are. */
  lemma EmptyOrInRangeGivesZero(data: HeartRateData, lo: int, hi: int)
    requires forall i :: 0 <= i < |IntradayPoints(data)| ==> lo <= IntradayPoints(data)[i].value <= hi
    ensures OutOfRangeValue(data, lo, hi) == 0
  {
    MaxDeviationLeast(IntradayPoints(data), lo, hi, 0);
  }
}
