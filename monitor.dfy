/** The live-monitor page of app.py: a loop of simulated readings around a saved fertility
    score, each classified by a trend ladder and a status ladder, with an alert log and the
    alert counts of the closing summary. */
module LiveMonitor {
  import opened Common
  import Draws

  /** The trend label of a reading, by change from the previous reading. */
  datatype Trend = Stable | StronglyIncreasing | Increasing | StronglyDecreasing | Decreasing

  /** `trend_strength`, which the loop sets together with the label. */
  function Strength(t: Trend): int
  {
    match t
    case Stable => 0
    case StronglyIncreasing => 2
    case Increasing => 1
    case StronglyDecreasing => -2
    case Decreasing => -1
  }

  /** One step of the trend ladder, `abs(diff) < 1` first. */
  function NextTrend(prev: Trend, diff: real): Trend
  {
    if -1.0 < diff < 1.0 then Stable
    else if diff > 3.0 then StronglyIncreasing
    else if diff > 1.0 then Increasing
    else if diff < -3.0 then StronglyDecreasing
    else if diff < -1.0 then Decreasing
    else prev
  }

  /** The ladder by ranges of the change. A change of exactly one point in either direction
      matches none of the branches, so the previous label is kept: a reading one point below
      the previous one leaves a Strongly Increasing label in place. */
  lemma TrendLadder(prev: Trend, diff: real)
    ensures -1.0 < diff < 1.0 ==> NextTrend(prev, diff) == Stable
    ensures diff > 3.0 ==> NextTrend(prev, diff) == StronglyIncreasing
    ensures 1.0 < diff <= 3.0 ==> NextTrend(prev, diff) == Increasing
    ensures diff < -3.0 ==> NextTrend(prev, diff) == StronglyDecreasing
    ensures -3.0 <= diff < -1.0 ==> NextTrend(prev, diff) == Decreasing
    ensures diff == 1.0 || diff == -1.0 ==> NextTrend(prev, diff) == prev
  {
  }

  /** A new label always points the way the score moved: a rising label needs a rise of more
      than one point, a falling one a fall of more than one, Stable a change under one. */
  lemma NewTrendFollowsChange(prev: Trend, diff: real)
    requires NextTrend(prev, diff) != prev
    ensures Strength(NextTrend(prev, diff)) > 0 <==> diff > 1.0
    ensures Strength(NextTrend(prev, diff)) < 0 <==> diff < -1.0
    ensures Strength(NextTrend(prev, diff)) == 0 <==> -1.0 < diff < 1.0
  {
  }

  /** The status of a reading against the alert threshold. */
  datatype Status = Critical | Warning | LowInfo | Normal

  function StatusOf(f: real, threshold: int): (s: Status)
    ensures s == Critical <==> f > threshold as real
    ensures s == Warning <==> (threshold - 5) as real < f <= threshold as real
    ensures s == LowInfo <==> f < 30.0 && f <= (threshold - 5) as real
    ensures s == Normal <==> 30.0 <= f <= (threshold - 5) as real
  {
    if f > threshold as real then Critical
    else if f > (threshold - 5) as real then Warning
    else if f < 30.0 then LowInfo
    else Normal
  }

  /** `alert_triggered`: critical and warning readings raise an alert, the others do not. */
  predicate Triggered(s: Status)
  {
    s == Critical || s == Warning
  }

  /** One entry of `monitoring_data` (its wall-clock string is not modelled). */
  datatype Reading = Reading(time: int, fertility: real)

  /** One entry of `alert_log` (its message text is not modelled). */
  datatype AlertEntry = AlertEntry(time: int, score: real, kind: Status)

  /** The label the loop gives reading `i`: Stable for the first, otherwise a ladder step
      from the previous label by the change from the previous reading. */
  function TrendAt(data: seq<Reading>, i: nat): Trend
    requires i < |data|
  {
    if i == 0 then Stable
    else NextTrend(TrendAt(data, i - 1), data[i].fertility - data[i - 1].fertility)
  }

  /** A reading's label depends only on the readings up to it, so later readings never
      relabel earlier ones. */
  lemma {:induction false} TrendAtPrefix(data: seq<Reading>, more: seq<Reading>, i: nat)
    requires i < |data|
    ensures TrendAt(data + more, i) == TrendAt(data, i)
  {
    if i > 0 {
      TrendAtPrefix(data, more, i - 1);
      assert (data + more)[i] == data[i] && (data + more)[i - 1] == data[i - 1];
    }
  }

  /** The alert log a sequence of readings produces when logging is on. */
  function AlertLog(data: seq<Reading>, threshold: int): seq<AlertEntry>
  {
    if data == [] then []
    else
      var last := data[|data| - 1];
      var s := StatusOf(last.fertility, threshold);
      AlertLog(data[..|data| - 1], threshold)
      + (if Triggered(s) then [AlertEntry(last.time, last.fertility, s)] else [])
  }

  /** The number of readings with a given status. */
  function CountStatus(data: seq<Reading>, threshold: int, s: Status): nat
  {
    if data == [] then 0
    else
      CountStatus(data[..|data| - 1], threshold, s)
      + (if StatusOf(data[|data| - 1].fertility, threshold) == s then 1 else 0)
  }

  /** `high_alerts`: readings above the threshold. */
  function HighAlerts(data: seq<Reading>, threshold: int): nat
  {
    if data == [] then 0
    else HighAlerts(data[..|data| - 1], threshold)
         + (if data[|data| - 1].fertility > threshold as real then 1 else 0)
  }

  /** `warning_alerts`: readings within five points below the threshold, inclusive. */
  function WarningAlerts(data: seq<Reading>, threshold: int): nat
  {
    if data == [] then 0
    else
      var f := data[|data| - 1].fertility;
      WarningAlerts(data[..|data| - 1], threshold)
      + (if (threshold - 5) as real < f <= threshold as real then 1 else 0)
  }

  /** The summary's counts agree with the loop's statuses: critical alerts are the critical
      readings, warning alerts the warning readings, and together they are the alert log. */
  lemma {:induction false} SummaryMatchesLog(data: seq<Reading>, threshold: int)
    ensures HighAlerts(data, threshold) == CountStatus(data, threshold, Critical)
    ensures WarningAlerts(data, threshold) == CountStatus(data, threshold, Warning)
    ensures |AlertLog(data, threshold)| == HighAlerts(data, threshold) + WarningAlerts(data, threshold)
    ensures HighAlerts(data, threshold) + WarningAlerts(data, threshold) <= |data|
  {
    if data != [] {
      SummaryMatchesLog(data[..|data| - 1], threshold);
    }
  }

  /** The alert log holds exactly one entry per triggering reading, carrying its time, score
      and status. */
  lemma {:induction false} AlertLogExact(data: seq<Reading>, threshold: int)
    ensures forall e :: e in AlertLog(data, threshold) ==>
              Triggered(e.kind) && e.kind == StatusOf(e.score, threshold)
              && Reading(e.time, e.score) in data
    ensures forall r :: r in data && Triggered(StatusOf(r.fertility, threshold)) ==>
              AlertEntry(r.time, r.fertility, StatusOf(r.fertility, threshold)) in AlertLog(data, threshold)
  {
    if data != [] {
      var init, last := data[..|data| - 1], data[|data| - 1];
      AlertLogExact(init, threshold);
      assert data == init + [last];
    }
  }

  /** `total_intervals`. */
  function TotalIntervals(durationMinutes: nat, updateInterval: int): (n: nat)
    requires updateInterval >= 1
    ensures n * updateInterval <= durationMinutes * 60 < (n + 1) * updateInterval
  {
    (durationMinutes * 60) / updateInterval
  }

  lemma AlertLogStep(data: seq<Reading>, r: Reading, threshold: int)
    ensures AlertLog(data + [r], threshold)
            == AlertLog(data, threshold)
               + (if Triggered(StatusOf(r.fertility, threshold))
                  then [AlertEntry(r.time, r.fertility, StatusOf(r.fertility, threshold))] else [])
  {
    assert (data + [r])[..|data|] == data;
  }

  /** Reading `k` is stamped `k * interval` and lies in [0, 100]. */
  predicate Scheduled(data: seq<Reading>, updateInterval: int)
  {
    forall k :: 0 <= k < |data| ==> data[k].time == k * updateInterval && 0.0 <= data[k].fertility <= 100.0
  }

  /** `trends` holds the label of every reading. */
  predicate Labelled(data: seq<Reading>, trends: seq<Trend>)
  {
    |trends| == |data| && forall k :: 0 <= k < |data| ==> trends[k] == TrendAt(data, k)
  }

  /** `statuses` holds the status of every reading. */
  predicate Classified(data: seq<Reading>, statuses: seq<Status>, threshold: int)
  {
    |statuses| == |data| && forall k :: 0 <= k < |data| ==> statuses[k] == StatusOf(data[k].fertility, threshold)
  }

  lemma ScheduleStep(data: seq<Reading>, updateInterval: int, score: real)
    requires Scheduled(data, updateInterval) && 0.0 <= score <= 100.0
    ensures Scheduled(data + [Reading(|data| * updateInterval, score)], updateInterval)
  {
    var d := data + [Reading(|data| * updateInterval, score)];
    forall k | 0 <= k < |d| ensures d[k].time == k * updateInterval && 0.0 <= d[k].fertility <= 100.0 {
      if k < |data| {
        assert d[k] == data[k];
      }
    }
  }

  lemma LabelStep(data: seq<Reading>, trends: seq<Trend>, r: Reading, trend: Trend)
    requires Labelled(data, trends)
    requires |data| == 0 ==> trend == Stable
    requires |data| > 0 ==> trend == NextTrend(trends[|data| - 1], r.fertility - data[|data| - 1].fertility)
    ensures Labelled(data + [r], trends + [trend])
  {
    var d, t := data + [r], trends + [trend];
    forall k | 0 <= k < |d| ensures t[k] == TrendAt(d, k) {
      if k < |data| {
        TrendAtPrefix(data, [r], k);
      } else if k > 0 {
        TrendAtPrefix(data, [r], k - 1);
        assert d[k - 1] == data[k - 1];
      }
    }
  }

  lemma ClassifyStep(data: seq<Reading>, statuses: seq<Status>, threshold: int, r: Reading)
    requires Classified(data, statuses, threshold)
    ensures Classified(data + [r], statuses + [StatusOf(r.fertility, threshold)], threshold)
  {
    var d, s := data + [r], statuses + [StatusOf(r.fertility, threshold)];
    forall k | 0 <= k < |d| ensures s[k] == StatusOf(d[k].fertility, threshold) {
      if k < |data| {
        assert d[k] == data[k] && s[k] == statuses[k];
      }
    }
  }

  /** The monitoring loop. The normal variation around the base score is any real; each
      reading is clamped to [0, 100] and stamped with its interval's time. */
  method RunMonitor(baseFertility: real, durationMinutes: nat, updateInterval: int,
                    threshold: int, logging: bool)
    returns (data: seq<Reading>, trends: seq<Trend>, statuses: seq<Status>, alertLog: seq<AlertEntry>)
    requires updateInterval >= 1
    ensures |data| == TotalIntervals(durationMinutes, updateInterval)
    ensures Scheduled(data, updateInterval)
    ensures Labelled(data, trends)
    ensures Classified(data, statuses, threshold)
    ensures alertLog == if logging then AlertLog(data, threshold) else []
  {
    var total := (durationMinutes * 60) / updateInterval;
    data, trends, statuses, alertLog := [], [], [], [];
    var trend := Stable;
    for i := 0 to total
      invariant |data| == i
      invariant Scheduled(data, updateInterval)
      invariant Labelled(data, trends)
      invariant i > 0 ==> trend == trends[i - 1]
      invariant Classified(data, statuses, threshold)
      invariant alertLog == if logging then AlertLog(data, threshold) else []
    {
      var variation := Draws.Normal();
      var score := Clamp(0.0, 100.0, baseFertility + variation);
      var reading := Reading(i * updateInterval, score);
      if i == 0 {
        trend := Stable;
      } else {
        var diff := score - data[i - 1].fertility;
        trend := NextTrend(trend, diff);
      }
      ScheduleStep(data, updateInterval, score);
      LabelStep(data, trends, reading, trend);
      ClassifyStep(data, statuses, threshold, reading);
      AlertLogStep(data, reading, threshold);
      data := data + [reading];
      trends := trends + [trend];
      var status := StatusOf(score, threshold);
      statuses := statuses + [status];
      if Triggered(status) && logging {
        alertLog := alertLog + [AlertEntry(i * updateInterval, score, status)];
      }
    }
  }
}
