/** generate_enhanced_recommendation of prediction.py: a priority decision over the session
    averages and event counts. The model returns which message the function picks; the
    message texts and their formatted numbers are not modelled. */
module Recommendation {

  datatype Advice =
    | HealthConcern          // high distress: veterinary attention
    | PatternsDespiteHigh    // low-fertility patterns, fertility >= 85
    | PatternsModerate       // low-fertility patterns, 75 <= fertility < 85
    | PatternsConcern        // low-fertility patterns, fertility < 75
    | Optimal | High | Good | ModerateHigh | Moderate
    | LowModerate | Low | VeryLow | Minimal | Poor

  predicate DistressAlarm(distress: real, distressCount: int)
  {
    distress > 60.0 || distressCount > 5
  }

  predicate PatternAlarm(lowFertility: real, lowFertilityCount: int)
  {
    lowFertility > 60.0 || lowFertilityCount > 5
  }

  predicate IsPatternAdvice(a: Advice)
  {
    a == PatternsDespiteHigh || a == PatternsModerate || a == PatternsConcern
  }

  predicate IsLadderAdvice(a: Advice)
  {
    !a.HealthConcern? && !IsPatternAdvice(a)
  }

  /** The ten fertility bands of the standard ladder, best first, with their inclusive lower
      bounds; Poor is everything below the last bound. */
  const Ladder: seq<(real, Advice)> := [
    (90.0, Optimal), (85.0, High), (80.0, Good), (75.0, ModerateHigh), (70.0, Moderate),
    (65.0, LowModerate), (60.0, Low), (55.0, VeryLow), (50.0, Minimal)]

  /** The band of the ladder that a fertility score falls in, read off the table: the first
      entry whose lower bound the score reaches. */
  function BandOf(fertility: real, k: nat): Advice
    requires k <= |Ladder|
    decreases |Ladder| - k
  {
    if k == |Ladder| then Poor
    else if fertility >= Ladder[k].0 then Ladder[k].1
    else BandOf(fertility, k + 1)
  }

  /** The inclusive lower bound of a ladder band and the exclusive upper bound (the lower
      bound of the band above); Optimal has no upper bound and Poor no lower bound. */
  function Floor(a: Advice): real
  {
    match a
    case Optimal => 90.0 case High => 85.0 case Good => 80.0 case ModerateHigh => 75.0
    case Moderate => 70.0 case LowModerate => 65.0 case Low => 60.0 case VeryLow => 55.0
    case Minimal => 50.0 case _ => 0.0
  }

  function Ceiling(a: Advice): real
  {
    match a
    case High => 90.0 case Good => 85.0 case ModerateHigh => 80.0 case Moderate => 75.0
    case LowModerate => 70.0 case Low => 65.0 case VeryLow => 60.0 case Minimal => 55.0
    case Poor => 50.0 case _ => 0.0
  }

  predicate InBand(fertility: real, a: Advice)
  {
    (a == Poor || Floor(a) <= fertility) && (a == Optimal || fertility < Ceiling(a))
  }

  /** generate_enhanced_recommendation. Distress is checked first and wins over everything;
      low-fertility patterns come next and split at 85 and 75; otherwise the score picks
      exactly the ladder band it falls in. */
  function Recommend(fertility: real, distress: real, lowFertility: real,
                     distressCount: int, lowFertilityCount: int): (a: Advice)
    ensures a == HealthConcern <==> DistressAlarm(distress, distressCount)
    ensures IsPatternAdvice(a) <==> !DistressAlarm(distress, distressCount) && PatternAlarm(lowFertility, lowFertilityCount)
    ensures a == PatternsDespiteHigh ==> fertility >= 85.0
    ensures a == PatternsModerate ==> 75.0 <= fertility < 85.0
    ensures a == PatternsConcern ==> fertility < 75.0
    ensures IsLadderAdvice(a) ==> InBand(fertility, a)
  {
    if DistressAlarm(distress, distressCount) then HealthConcern
    else if PatternAlarm(lowFertility, lowFertilityCount) then
      if fertility >= 85.0 then PatternsDespiteHigh
      else if fertility >= 75.0 then PatternsModerate
      else PatternsConcern
    else if fertility >= 90.0 then Optimal
    else if fertility >= 85.0 then High
    else if fertility >= 80.0 then Good
    else if fertility >= 75.0 then ModerateHigh
    else if fertility >= 70.0 then Moderate
    else if fertility >= 65.0 then LowModerate
    else if fertility >= 60.0 then Low
    else if fertility >= 55.0 then VeryLow
    else if fertility >= 50.0 then Minimal
    else Poor
  }

  /** The ladder of if/elif branches agrees with the band table: without an alarm, the advice
      is the first band whose lower bound the score reaches. */
  lemma {:induction false} LadderMatchesTable(fertility: real, distress: real, lowFertility: real,
                                              distressCount: int, lowFertilityCount: int)
    requires !DistressAlarm(distress, distressCount) && !PatternAlarm(lowFertility, lowFertilityCount)
    ensures Recommend(fertility, distress, lowFertility, distressCount, lowFertilityCount) == BandOf(fertility, 0)
  {
    var a := Recommend(fertility, distress, lowFertility, distressCount, lowFertilityCount);
    assert BandOf(fertility, 9) == Poor;
    assert fertility < 50.0 ==> BandOf(fertility, 8) == Poor;
    assert BandOf(fertility, 0) == a by {
      assert BandOf(fertility, 8) == if fertility >= 50.0 then Minimal else Poor;
      assert BandOf(fertility, 7) == if fertility >= 55.0 then VeryLow else BandOf(fertility, 8);
      assert BandOf(fertility, 6) == if fertility >= 60.0 then Low else BandOf(fertility, 7);
      assert BandOf(fertility, 5) == if fertility >= 65.0 then LowModerate else BandOf(fertility, 6);
      assert BandOf(fertility, 4) == if fertility >= 70.0 then Moderate else BandOf(fertility, 5);
      assert BandOf(fertility, 3) == if fertility >= 75.0 then ModerateHigh else BandOf(fertility, 4);
      assert BandOf(fertility, 2) == if fertility >= 80.0 then Good else BandOf(fertility, 3);
      assert BandOf(fertility, 1) == if fertility >= 85.0 then High else BandOf(fertility, 2);
      assert BandOf(fertility, 0) == if fertility >= 90.0 then Optimal else BandOf(fertility, 1);
    }
  }

  /** Exactly one ladder band contains any given score. */
  lemma BandsPartition(fertility: real, a: Advice, b: Advice)
    requires IsLadderAdvice(a) && IsLadderAdvice(b)
    requires InBand(fertility, a) && InBand(fertility, b)
    ensures a == b
  {
  }

  /** Worked examples of the ladder and its priority: a high score with no alarm, a low
      score, and a distress alarm that overrides any score. */
  lemma WorkedCases(anyFertility: real)
    ensures Recommend(92.0, 10.0, 10.0, 0, 0) == Optimal
    ensures Recommend(40.0, 10.0, 10.0, 0, 0) == Poor
    ensures Recommend(anyFertility, 65.0, 10.0, 6, 0) == HealthConcern
  {
  }
}
