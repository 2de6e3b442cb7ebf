/** The frame scorer of prediction.py (analyze_frame_enhanced and the final clamp of each of
    the seven sub-score functions). The pixel formulas themselves are not modelled: each
    frame arrives as the seven values those formulas compute before their final clamp. */
module Scoring {
  import opened Common
  import Draws

  /** The value each sub-score formula computes before the final clamp of its function.
      The motion formula is 60 plus a non-negative activity term plus a non-negative
      contour count, which is why it may be clamped above only. */
  datatype RawScores = RawScores(
    motion: real, posture: real, behavior: real, physical: real,
    estrus: real, distress: real, lowFertility: real)

  /** The seven sub-scores of one frame after clamping, as analyze_frame_enhanced returns them. */
  datatype SubScores = SubScores(
    motion: real, posture: real, behavior: real, physical: real,
    estrus: real, distress: real, lowFertility: real)

  /** One entry of the `detailed_features` list. */
  datatype FeatureRecord = FeatureRecord(timestamp: real, scores: SubScores, fertility: real)

  /** The lower bound the motion formula guarantees before its `min(100, ...)`. */
  predicate WellFormedRaw(raw: RawScores)
  {
    raw.motion >= 60.0
  }

  predicate InScoreRange(x: real)
  {
    0.0 <= x <= 100.0
  }

  predicate AllInRange(s: SubScores)
  {
    && InScoreRange(s.motion) && InScoreRange(s.posture) && InScoreRange(s.behavior)
    && InScoreRange(s.physical) && InScoreRange(s.estrus) && InScoreRange(s.distress)
    && InScoreRange(s.lowFertility)
  }

  /** The clamps that end the seven sub-score functions: motion is only capped at 100,
      every other score is clamped to [0, 100]. */
  function ClampSubScores(raw: RawScores): (s: SubScores)
    requires WellFormedRaw(raw)
    ensures AllInRange(s)
  {
    SubScores(
      Min(100.0, raw.motion),
      Clamp(0.0, 100.0, raw.posture),
      Clamp(0.0, 100.0, raw.behavior),
      Clamp(0.0, 100.0, raw.physical),
      Clamp(0.0, 100.0, raw.estrus),
      Clamp(0.0, 100.0, raw.distress),
      Clamp(0.0, 100.0, raw.lowFertility))
  }

  /** Clamping keeps every sub-score that is already a score and replaces one outside
      [0, 100] by the bound it passes; motion never drops below the 60 its formula starts
      from. */
  lemma ClampSubScoresKeeps(raw: RawScores)
    requires WellFormedRaw(raw)
    ensures ClampSubScores(raw).motion >= 60.0
    ensures raw.motion <= 100.0 ==> ClampSubScores(raw).motion == raw.motion
    ensures InScoreRange(raw.posture) ==> ClampSubScores(raw).posture == raw.posture
    ensures InScoreRange(raw.behavior) ==> ClampSubScores(raw).behavior == raw.behavior
    ensures InScoreRange(raw.physical) ==> ClampSubScores(raw).physical == raw.physical
    ensures InScoreRange(raw.estrus) ==> ClampSubScores(raw).estrus == raw.estrus
    ensures InScoreRange(raw.distress) ==> ClampSubScores(raw).distress == raw.distress
    ensures InScoreRange(raw.lowFertility) ==> ClampSubScores(raw).lowFertility == raw.lowFertility
    ensures raw.motion > 100.0 ==> ClampSubScores(raw).motion == 100.0
    ensures raw.posture < 0.0 ==> ClampSubScores(raw).posture == 0.0
    ensures raw.posture > 100.0 ==> ClampSubScores(raw).posture == 100.0
    ensures raw.behavior < 0.0 ==> ClampSubScores(raw).behavior == 0.0
    ensures raw.behavior > 100.0 ==> ClampSubScores(raw).behavior == 100.0
    ensures raw.physical < 0.0 ==> ClampSubScores(raw).physical == 0.0
    ensures raw.physical > 100.0 ==> ClampSubScores(raw).physical == 100.0
    ensures raw.estrus < 0.0 ==> ClampSubScores(raw).estrus == 0.0
    ensures raw.estrus > 100.0 ==> ClampSubScores(raw).estrus == 100.0
    ensures raw.distress < 0.0 ==> ClampSubScores(raw).distress == 0.0
    ensures raw.distress > 100.0 ==> ClampSubScores(raw).distress == 100.0
    ensures raw.lowFertility < 0.0 ==> ClampSubScores(raw).lowFertility == 0.0
    ensures raw.lowFertility > 100.0 ==> ClampSubScores(raw).lowFertility == 100.0
  {
  }

  const MotionWeight: real := 0.15
  const PostureWeight: real := 0.10
  const BehaviorWeight: real := 0.25
  const PhysicalWeight: real := 0.15
  const EstrusWeight: real := 0.20
  const CalmWeight: real := 0.10    // weight of (100 - distress)
  const FertileWeight: real := 0.05 // weight of (100 - low-fertility pattern)

  /** The weights are non-negative and add up to one, so the combination is convex. */
  lemma WeightsAreConvex()
    ensures MotionWeight + PostureWeight + BehaviorWeight + PhysicalWeight
            + EstrusWeight + CalmWeight + FertileWeight == 1.0
    ensures MotionWeight >= 0.0 && PostureWeight >= 0.0 && BehaviorWeight >= 0.0
    ensures PhysicalWeight >= 0.0 && EstrusWeight >= 0.0 && CalmWeight >= 0.0 && FertileWeight >= 0.0
  {
  }

  /** The weighted combination before jitter. Every term is a [0, 100] value (distress and
      low-fertility enter inverted), so the convex combination stays in range. */
  function WeightedSum(s: SubScores): (w: real)
    requires AllInRange(s)
    ensures InScoreRange(w)
  {
    s.motion * MotionWeight
    + s.posture * PostureWeight
    + s.behavior * BehaviorWeight
    + s.physical * PhysicalWeight
    + s.estrus * EstrusWeight
    + (100.0 - s.distress) * CalmWeight
    + (100.0 - s.lowFertility) * FertileWeight
  }

  /** Being a convex combination, the weighted sum lies between the smallest and the
      largest of its seven terms. */
  lemma WeightedSumBetween(s: SubScores, lo: real, hi: real)
    requires AllInRange(s)
    requires lo <= s.motion <= hi && lo <= s.posture <= hi && lo <= s.behavior <= hi
    requires lo <= s.physical <= hi && lo <= s.estrus <= hi
    requires lo <= 100.0 - s.distress <= hi && lo <= 100.0 - s.lowFertility <= hi
    ensures lo <= WeightedSum(s) <= hi
  {
  }

  /** The combined fertility score of a frame: the weighted sum plus a jitter, clamped.
      It is a score, and it differs from the weighted sum by no more than the jitter. */
  function FrameFertility(s: SubScores, jitter: real): (f: real)
    requires AllInRange(s)
    ensures InScoreRange(f)
    ensures f - WeightedSum(s) <= (if jitter >= 0.0 then jitter else -jitter)
    ensures WeightedSum(s) - f <= (if jitter >= 0.0 then jitter else -jitter)
    ensures InScoreRange(WeightedSum(s) + jitter) ==> f == WeightedSum(s) + jitter
    ensures WeightedSum(s) + jitter > 100.0 ==> f == 100.0
    ensures WeightedSum(s) + jitter < 0.0 ==> f == 0.0
  {
    ClampShiftWithin(WeightedSum(s), jitter);
    Clamp(0.0, 100.0, WeightedSum(s) + jitter)
  }

  /** The per-frame seed `(video_hash + int(timestamp * 1000)) % 2**31`; timestamps are never
      negative, so int() truncation is the floor. The seed is the sum reduced modulo 2^31. */
  function FrameSeed(videoHash: nat, timestamp: real): (seed: nat)
    requires timestamp >= 0.0
    ensures seed < 0x8000_0000
    ensures videoHash + (timestamp * 1000.0).Floor < 0x8000_0000
            ==> seed == videoHash + (timestamp * 1000.0).Floor
    ensures (videoHash + (timestamp * 1000.0).Floor - seed) % 0x8000_0000 == 0
  {
    (videoHash + (timestamp * 1000.0).Floor) % 0x8000_0000
  }

  /** What analyze_frame_enhanced can return for a frame: the clamped sub-scores and a
      fertility score that is in range and within the ±0.5 jitter of the weighted sum. */
  ghost predicate PossibleFrameResult(raw: RawScores, s: SubScores, fertility: real)
    requires WellFormedRaw(raw)
  {
    && s == ClampSubScores(raw)
    && InScoreRange(fertility)
    && -0.5 <= fertility - WeightedSum(s) <= 0.5
  }

  /** analyze_frame_enhanced. In the source the seed it derives fixes numpy's jitter draw;
      here the draw is any value in [-0.5, 0.5], so the seed influences nothing in the model. */
  method ScoreFrame(raw: RawScores, timestamp: real, videoHash: nat) returns (s: SubScores, fertility: real)
    requires WellFormedRaw(raw) && timestamp >= 0.0
    ensures PossibleFrameResult(raw, s, fertility)
  {
    var seed := FrameSeed(videoHash, timestamp);
    s := ClampSubScores(raw);
    var jitter := Draws.Uniform(-0.5, 0.5);
    fertility := FrameFertility(s, jitter);
  }

  /** Every fertility score allowed by PossibleFrameResult is produced by some jitter in
      [-0.5, 0.5]: the characterisation is exact. */
  lemma PossibleFrameResultIsReachable(raw: RawScores, fertility: real)
    requires WellFormedRaw(raw)
    requires PossibleFrameResult(raw, ClampSubScores(raw), fertility)
    ensures exists j :: -0.5 <= j <= 0.5 && FrameFertility(ClampSubScores(raw), j) == fertility
  {
    var s := ClampSubScores(raw);
    var j := fertility - WeightedSum(s);
    assert FrameFertility(s, j) == fertility;
  }
}
