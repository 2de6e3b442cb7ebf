/** analyze_video of prediction.py: sample the frames of a video, score each sampled frame,
    average the scores, apply the hash-based demo override and then the configured
    simulation override, and pick the recommendation. */
module VideoAnalysis {
  import opened Common
  import Draws
  import opened Scoring
  import opened SimulationSettings
  import Recommendation

  /** A video as the capture object delivers it: whether it opened, the frame rate and frame
      count it reports, and every frame `cap.read()` returns, in order, each given by the
      values of the seven sub-score formulas. */
  datatype Video = Video(isOpen: bool, fps: real, frameCount: int, frames: seq<RawScores>)

  /** One entry of `distress_indicators` or `low_fertility_patterns`. */
  datatype Event = Event(timestamp: real, score: real)

  /** One entry of `frame_data`. */
  datatype FramePoint = FramePoint(timestamp: real, fertility: real)

  /** The `feature_analysis` dictionary. */
  datatype FeatureAverages = FeatureAverages(
    motion: real, posture: real, behavior: real, physicalCondition: real,
    estrusBehavior: real, distressIndicators: real, lowFertilityPatterns: real)

  /** The five values the overrides rewrite: the fertility, distress and low-fertility
      averages and the two event lists. */
  datatype Aggregate = Aggregate(
    fertility: real, distress: real, lowFertility: real,
    distressEvents: seq<Event>, lowEvents: seq<Event>)

  /** The dictionary analyze_video returns. */
  datatype AnalysisResult = AnalysisResult(
    fertilityPercentage: real,
    recommendation: Recommendation.Advice,
    frameData: seq<FramePoint>,
    videoDuration: real,
    framesAnalyzed: nat,
    featureAnalysis: FeatureAverages,
    detailedFeatures: seq<FeatureRecord>,
    distressIndicators: seq<Event>,
    lowFertilityPatterns: seq<Event>,
    simulatedLowFertility: bool)

  // ---------------------------------------------------------------- sampling

  /** `frame_count / fps if fps > 0 else 0`: the video's length in seconds, or 0 when the
      rate is unknown. */
  function Duration(fps: real, frameCount: int): (d: real)
    ensures fps > 0.0 ==> d * fps == frameCount as real
    ensures fps <= 0.0 ==> d == 0.0
  {
    if fps > 0.0 then (frameCount as real) / fps else 0.0
  }

  /** `max(1, int(fps / 2)) if fps > 0 else 15`: about two samples per second of video,
      never fewer than every frame, and every 15th frame when the rate is unknown. */
  function SampleInterval(fps: real): (k: nat)
    ensures k >= 1
    ensures fps >= 2.0 ==> (k as real) <= fps / 2.0 < (k + 1) as real
    ensures 0.0 < fps < 4.0 ==> k == 1
    ensures fps <= 0.0 ==> k == 15
  {
    if fps > 0.0 then (if (fps / 2.0).Floor >= 1 then (fps / 2.0).Floor else 1) else 15
  }

  /** The timestamp of frame `idx`: seconds when the rate is known, else the index itself. */
  function Timestamp(idx: nat, fps: real): (t: real)
    ensures t >= 0.0
    ensures fps > 0.0 ==> t * fps == idx as real
    ensures fps <= 0.0 ==> t == idx as real
  {
    if fps > 0.0 then (idx as real) / fps else idx as real
  }

  lemma TimestampIncreasing(i: nat, j: nat, fps: real)
    requires i < j
    ensures Timestamp(i, fps) < Timestamp(j, fps)
  {
    if fps > 0.0 {
      assert Timestamp(j, fps) - Timestamp(i, fps) == ((j - i) as real) / fps;
    }
  }

  /** The indices of the frames the loop scores among the first `n` it reads, in reading order. */
  function SampledIndices(n: nat, k: nat): (r: seq<nat>)
    requires k >= 1
    ensures forall j :: 0 <= j < |r| ==> r[j] < n
  {
    if n == 0 then []
    else SampledIndices(n - 1, k) + (if (n - 1) % k == 0 then [n - 1] else [])
  }

  /** A frame is scored exactly when its index is a multiple of the interval; the scored
      indices come in increasing order; and a video with at least one frame always yields
      at least one sample, the first frame. */
  lemma {:induction false} SampledExactly(n: nat, k: nat)
    requires k >= 1
    ensures forall i :: i in SampledIndices(n, k) <==> 0 <= i < n && i % k == 0
    ensures forall a, b :: 0 <= a < b < |SampledIndices(n, k)| ==> SampledIndices(n, k)[a] < SampledIndices(n, k)[b]
    ensures |SampledIndices(n, k)| == 0 <==> n == 0
    ensures n > 0 ==> SampledIndices(n, k)[0] == 0
  {
    if n > 0 {
      SampledExactly(n - 1, k);
      var prev := SampledIndices(n - 1, k);
      var tail: seq<nat> := if (n - 1) % k == 0 then [n - 1] else [];
      var r := SampledIndices(n, k);
      assert r == prev + tail;
      forall i ensures i in r <==> 0 <= i < n && i % k == 0 {
        assert i in r <==> i in prev || i in tail;
      }
      forall a, b | 0 <= a < b < |r| ensures r[a] < r[b] {
        if b < |prev| {
          assert r[a] == prev[a] && r[b] == prev[b];
        } else {
          assert r[b] == n - 1 && r[a] == prev[a];
        }
      }
      if n - 1 == 0 {
        assert 0 % k == 0;
        assert r == [0];
      } else {
        assert r[0] == prev[0];
      }
    }
  }

  /** The records the sampling loop builds for the first `n` frames: one per sampled frame,
      with that frame's timestamp and a possible result of the frame scorer. */
  ghost predicate SamplesMatch(frames: seq<RawScores>, n: nat, fps: real, records: seq<FeatureRecord>)
    requires n <= |frames|
    requires forall i :: 0 <= i < |frames| ==> WellFormedRaw(frames[i])
  {
    var idx := SampledIndices(n, SampleInterval(fps));
    && |records| == |idx|
    && forall j :: 0 <= j < |records| ==>
         && records[j].timestamp == Timestamp(idx[j], fps)
         && PossibleFrameResult(frames[idx[j]], records[j].scores, records[j].fertility)
  }

  // ---------------------------------------------------------------- columns and events

  datatype Feature = Motion | Posture | Behavior | Physical | Estrus | Distress | LowFertility

  function ScoreOf(s: SubScores, f: Feature): real
  {
    match f
    case Motion => s.motion
    case Posture => s.posture
    case Behavior => s.behavior
    case Physical => s.physical
    case Estrus => s.estrus
    case Distress => s.distress
    case LowFertility => s.lowFertility
  }

  /** One column of `detailed_features`, as the list comprehensions feeding np.mean build it. */
  function Column(rs: seq<FeatureRecord>, f: Feature): seq<real>
  {
    seq(|rs|, j requires 0 <= j < |rs| => ScoreOf(rs[j].scores, f))
  }

  /** The fertility score of every record, the list np.mean averages. */
  function Fertilities(rs: seq<FeatureRecord>): seq<real>
  {
    seq(|rs|, j requires 0 <= j < |rs| => rs[j].fertility)
  }

  /** `frame_data`: each record's timestamp with its fertility score. */
  function Points(rs: seq<FeatureRecord>): seq<FramePoint>
  {
    seq(|rs|, j requires 0 <= j < |rs| => FramePoint(rs[j].timestamp, rs[j].fertility))
  }

  /** The event threshold: a sub-score strictly above 70. */
  const EventThreshold: real := 70.0

  /** The events the loop records for one feature, in the order of the records. */
  function EventsOver(rs: seq<FeatureRecord>, f: Feature): seq<Event>
  {
    if rs == [] then []
    else
      var last := rs[|rs| - 1];
      EventsOver(rs[..|rs| - 1], f)
      + (if ScoreOf(last.scores, f) > EventThreshold then [Event(last.timestamp, ScoreOf(last.scores, f))] else [])
  }

  predicate IncreasingRecords(rs: seq<FeatureRecord>)
  {
    forall a, b :: 0 <= a < b < |rs| ==> rs[a].timestamp < rs[b].timestamp
  }

  predicate IncreasingEvents(es: seq<Event>)
  {
    forall a, b :: 0 <= a < b < |es| ==> es[a].timestamp < es[b].timestamp
  }

  /** `e` is the event that record `j` contributes to the list of feature `f`. */
  predicate EventAt(rs: seq<FeatureRecord>, f: Feature, j: int, e: Event)
  {
    0 <= j < |rs| && ScoreOf(rs[j].scores, f) > EventThreshold
    && e == Event(rs[j].timestamp, ScoreOf(rs[j].scores, f))
  }

  /** An event list holds exactly the events of the records whose score exceeds 70. */
  lemma {:induction false} EventsOverMembers(rs: seq<FeatureRecord>, f: Feature)
    ensures forall e :: e in EventsOver(rs, f) <==> exists j :: EventAt(rs, f, j, e)
  {
    if rs != [] {
      var init, last := rs[..|rs| - 1], rs[|rs| - 1];
      EventsOverMembers(init, f);
      var tail := if ScoreOf(last.scores, f) > EventThreshold then [Event(last.timestamp, ScoreOf(last.scores, f))] else [];
      assert EventsOver(rs, f) == EventsOver(init, f) + tail;
      forall e ensures e in EventsOver(rs, f) <==> exists j :: EventAt(rs, f, j, e) {
        if e in EventsOver(init, f) {
          var j :| EventAt(init, f, j, e);
          assert EventAt(rs, f, j, e);
        }
        if e in tail {
          assert EventAt(rs, f, |rs| - 1, e);
        }
        if exists j :: EventAt(rs, f, j, e) {
          var j :| EventAt(rs, f, j, e);
          if j < |init| {
            assert EventAt(init, f, j, e);
          }
        }
      }
    }
  }

  /** Records in time order give events in time order. */
  lemma {:induction false} EventsOverOrdered(rs: seq<FeatureRecord>, f: Feature)
    requires IncreasingRecords(rs)
    ensures IncreasingEvents(EventsOver(rs, f))
  {
    if rs != [] {
      var init, last := rs[..|rs| - 1], rs[|rs| - 1];
      assert IncreasingRecords(init) by {
        forall a, b | 0 <= a < b < |init| ensures init[a].timestamp < init[b].timestamp {
          assert init[a] == rs[a] && init[b] == rs[b];
        }
      }
      EventsOverOrdered(init, f);
      EventsOverMembers(init, f);
      var es := EventsOver(init, f);
      var tail := if ScoreOf(last.scores, f) > EventThreshold then [Event(last.timestamp, ScoreOf(last.scores, f))] else [];
      forall a | 0 <= a < |es| ensures es[a].timestamp < last.timestamp {
        assert es[a] in es;
        var j :| EventAt(init, f, j, es[a]);
        assert init[j] == rs[j];
      }
      var all := es + tail;
      forall a, b | 0 <= a < b < |all| ensures all[a].timestamp < all[b].timestamp {
        if b < |es| {
          assert all[a] == es[a] && all[b] == es[b];
        } else {
          assert all[a] == es[a] && all[b] == tail[0];
        }
      }
    }
  }

  /** An event list holds exactly the records whose score exceeds 70, each with that record's
      timestamp and score, in the records' time order; every event's score exceeds 70. */
  lemma EventsOverExact(rs: seq<FeatureRecord>, f: Feature)
    ensures forall e :: e in EventsOver(rs, f) <==> exists j :: EventAt(rs, f, j, e)
    ensures IncreasingRecords(rs) ==> IncreasingEvents(EventsOver(rs, f))
    ensures forall e :: e in EventsOver(rs, f) ==> e.score > EventThreshold
  {
    EventsOverMembers(rs, f);
    if IncreasingRecords(rs) {
      EventsOverOrdered(rs, f);
    }
  }

  /** The aggregate of the measured frames, before either override. */
  function Measured(rs: seq<FeatureRecord>): Aggregate
    requires |rs| > 0
  {
    Aggregate(Mean(Fertilities(rs)), Mean(Column(rs, Distress)), Mean(Column(rs, LowFertility)),
              EventsOver(rs, Distress), EventsOver(rs, LowFertility))
  }

  predicate AggregateInRange(a: Aggregate)
  {
    InScoreRange(a.fertility) && InScoreRange(a.distress) && InScoreRange(a.lowFertility)
  }

  lemma MeasuredInRange(rs: seq<FeatureRecord>)
    requires |rs| > 0
    requires forall j :: 0 <= j < |rs| ==> AllInRange(rs[j].scores) && InScoreRange(rs[j].fertility)
    ensures AggregateInRange(Measured(rs))
  {
    MeanBounds(Fertilities(rs), 0.0, 100.0);
    MeanBounds(Column(rs, Distress), 0.0, 100.0);
    MeanBounds(Column(rs, LowFertility), 0.0, 100.0);
  }

  // ---------------------------------------------------------------- the sampling loop

  /** What the read loop has built after reading the first `n` frames. */
  ghost predicate LoopState(frames: seq<RawScores>, n: nat, fps: real, records: seq<FeatureRecord>,
                            frameData: seq<FramePoint>, distress: seq<Event>, lowFertility: seq<Event>)
  {
    && n <= |frames|
    && (forall i :: 0 <= i < |frames| ==> WellFormedRaw(frames[i]))
    && SamplesMatch(frames, n, fps, records)
    && frameData == Points(records)
    && distress == EventsOver(records, Distress)
    && lowFertility == EventsOver(records, LowFertility)
  }

  /** The read loop of analyze_video: every frame is read, frames whose index is a multiple
      of the interval are scored, and an event is recorded when the distress or
      low-fertility score exceeds 70. */
  method SampleFrames(video: Video, videoHash: nat)
    returns (records: seq<FeatureRecord>, frameData: seq<FramePoint>,
             distress: seq<Event>, lowFertility: seq<Event>)
    requires forall i :: 0 <= i < |video.frames| ==> WellFormedRaw(video.frames[i])
    ensures SamplesMatch(video.frames, |video.frames|, video.fps, records)
    ensures frameData == Points(records)
    ensures distress == EventsOver(records, Distress)
    ensures lowFertility == EventsOver(records, LowFertility)
  {
    var frames, fps := video.frames, video.fps;
    var k := SampleInterval(fps);
    records, frameData, distress, lowFertility := [], [], [], [];
    var idx := 0;
    while idx < |frames|
      invariant LoopState(frames, idx, fps, records, frameData, distress, lowFertility)
      decreases |frames| - idx
    {
      if idx % k == 0 {
        records, frameData, distress, lowFertility := ScoreSample(frames, idx, fps, videoHash, records, frameData, distress, lowFertility);
      } else {
        SkippedStep(frames, idx, fps, records, frameData, distress, lowFertility);
      }
      idx := idx + 1;
    }
  }

  /** One sampled frame of the read loop: score it, append its record and point, and record
      its distress and low-fertility events when their scores exceed 70. */
  method ScoreSample(frames: seq<RawScores>, idx: nat, fps: real, videoHash: nat,
                     records: seq<FeatureRecord>, frameData: seq<FramePoint>,
                     distress: seq<Event>, lowFertility: seq<Event>)
    returns (records': seq<FeatureRecord>, frameData': seq<FramePoint>,
             distress': seq<Event>, lowFertility': seq<Event>)
    requires LoopState(frames, idx, fps, records, frameData, distress, lowFertility)
    requires idx < |frames| && idx % SampleInterval(fps) == 0
    ensures LoopState(frames, idx + 1, fps, records', frameData', distress', lowFertility')
  {
    var t := Timestamp(idx, fps);
    var scores, fertility := ScoreFrame(frames[idx], t, videoHash);
    var rec := FeatureRecord(t, scores, fertility);
    records' := records + [rec];
    frameData' := frameData + [FramePoint(t, fertility)];
    distress', lowFertility' := distress, lowFertility;
    if scores.distress > EventThreshold {
      distress' := distress + [Event(t, scores.distress)];
    }
    if scores.lowFertility > EventThreshold {
      lowFertility' := lowFertility + [Event(t, scores.lowFertility)];
    }
    SampledStep(frames, idx, fps, records, frameData, distress, lowFertility, rec, distress', lowFertility');
  }

  lemma SampledStep(frames: seq<RawScores>, n: nat, fps: real, records: seq<FeatureRecord>,
                    frameData: seq<FramePoint>, distress: seq<Event>, lowFertility: seq<Event>,
                    rec: FeatureRecord, distress': seq<Event>, lowFertility': seq<Event>)
    requires LoopState(frames, n, fps, records, frameData, distress, lowFertility)
    requires n < |frames| && n % SampleInterval(fps) == 0
    requires rec.timestamp == Timestamp(n, fps)
    requires PossibleFrameResult(frames[n], rec.scores, rec.fertility)
    requires distress' == distress
      + if rec.scores.distress > EventThreshold then [Event(rec.timestamp, rec.scores.distress)] else []
    requires lowFertility' == lowFertility
      + if rec.scores.lowFertility > EventThreshold then [Event(rec.timestamp, rec.scores.lowFertility)] else []
    ensures LoopState(frames, n + 1, fps, records + [rec],
                      frameData + [FramePoint(rec.timestamp, rec.fertility)], distress', lowFertility')
  {
    var k := SampleInterval(fps);
    var idx, idx' := SampledIndices(n, k), SampledIndices(n + 1, k);
    assert idx' == idx + [n];
    var rs' := records + [rec];
    forall j | 0 <= j < |rs'|
      ensures rs'[j].timestamp == Timestamp(idx'[j], fps)
      ensures PossibleFrameResult(frames[idx'[j]], rs'[j].scores, rs'[j].fertility)
    {
      if j < |records| {
        assert rs'[j] == records[j] && idx'[j] == idx[j];
      } else {
        assert rs'[j] == rec && idx'[j] == n;
      }
    }
    assert SamplesMatch(frames, n + 1, fps, rs');
    AppendRecord(records, rec);
  }

  lemma SkippedStep(frames: seq<RawScores>, n: nat, fps: real, records: seq<FeatureRecord>,
                    frameData: seq<FramePoint>, distress: seq<Event>, lowFertility: seq<Event>)
    requires LoopState(frames, n, fps, records, frameData, distress, lowFertility)
    requires n < |frames| && n % SampleInterval(fps) != 0
    ensures LoopState(frames, n + 1, fps, records, frameData, distress, lowFertility)
  {
    var k := SampleInterval(fps);
    assert SampledIndices(n + 1, k) == SampledIndices(n, k);
  }

  /** Appending a record appends its point and extends each event list by at most its event. */
  lemma AppendRecord(records: seq<FeatureRecord>, rec: FeatureRecord)
    ensures Points(records + [rec]) == Points(records) + [FramePoint(rec.timestamp, rec.fertility)]
    ensures EventsOver(records + [rec], Distress) == EventsOver(records, Distress)
      + if rec.scores.distress > EventThreshold then [Event(rec.timestamp, rec.scores.distress)] else []
    ensures EventsOver(records + [rec], LowFertility) == EventsOver(records, LowFertility)
      + if rec.scores.lowFertility > EventThreshold then [Event(rec.timestamp, rec.scores.lowFertility)] else []
  {
    assert (records + [rec])[..|records|] == records;
  }

  /** The records of the sampling loop are in strictly increasing time order. */
  lemma SamplesIncreasing(frames: seq<RawScores>, fps: real, records: seq<FeatureRecord>)
    requires forall i :: 0 <= i < |frames| ==> WellFormedRaw(frames[i])
    requires SamplesMatch(frames, |frames|, fps, records)
    ensures IncreasingRecords(records)
  {
    var idx := SampledIndices(|frames|, SampleInterval(fps));
    SampledExactly(|frames|, SampleInterval(fps));
    forall a, b | 0 <= a < b < |records| ensures records[a].timestamp < records[b].timestamp {
      TimestampIncreasing(idx[a], idx[b], fps);
    }
  }

  // ---------------------------------------------------------------- override 1

  /** A synthetic event list of the demo override: between `least` and `most` events, scores
      in [lo, hi], timestamps anywhere in [0, duration] (or the event's position when the
      duration is not positive). */
  ghost predicate DemoEvents(es: seq<Event>, least: int, most: int, lo: real, hi: real, duration: real)
  {
    && least <= |es| <= most
    && forall m :: 0 <= m < |es| ==>
         && lo <= es[m].score <= hi
         && (if duration > 0.0 then 0.0 <= es[m].timestamp <= duration else es[m].timestamp == m as real)
  }

  /** What the demo override may do: nothing unless the hash is a multiple of 3, and then
      replace all five values with draws from fixed ranges. */
  ghost predicate DemoOutcome(videoHash: nat, duration: real, before: Aggregate, after: Aggregate)
  {
    if videoHash % 3 != 0 then after == before
    else
      && 30.0 <= after.fertility <= 45.0
      && 50.0 <= after.distress <= 70.0
      && 60.0 <= after.lowFertility <= 80.0
      && DemoEvents(after.distressEvents, 3, 7, 65.0, 85.0, duration)
      && DemoEvents(after.lowEvents, 2, 5, 60.0, 80.0, duration)
  }

  method SyntheticEvents(count: nat, lo: real, hi: real, duration: real) returns (es: seq<Event>)
    requires lo <= hi
    ensures |es| == count
    ensures forall m :: 0 <= m < |es| ==>
      && lo <= es[m].score <= hi
      && (if duration > 0.0 then 0.0 <= es[m].timestamp <= duration else es[m].timestamp == m as real)
  {
    es := [];
    for i := 0 to count
      invariant |es| == i
      invariant forall m :: 0 <= m < i ==>
        && lo <= es[m].score <= hi
        && (if duration > 0.0 then 0.0 <= es[m].timestamp <= duration else es[m].timestamp == m as real)
    {
      var t: real;
      if duration > 0.0 {
        t := Draws.Uniform(0.0, duration);
      } else {
        t := i as real;
      }
      var score := Draws.Uniform(lo, hi);
      es := es + [Event(t, score)];
    }
  }

  /** The `video_hash % 3 == 0` demo override. It REPLACES the event lists rather than
      extending them, and reports whether it fired. */
  method DemoOverride(videoHash: nat, duration: real, before: Aggregate)
    returns (after: Aggregate, simulated: bool)
    ensures simulated <==> videoHash % 3 == 0
    ensures DemoOutcome(videoHash, duration, before, after)
  {
    after, simulated := before, false;
    if videoHash % 3 == 0 {
      simulated := true;
      var fertility := Draws.Uniform(30.0, 45.0);
      var distress := Draws.Uniform(50.0, 70.0);
      var lowFertility := Draws.Uniform(60.0, 80.0);
      var distressCount := Draws.RandInt(3, 7);
      var distressEvents := SyntheticEvents(distressCount, 65.0, 85.0, duration);
      var lowCount := Draws.RandInt(2, 5);
      var lowEvents := SyntheticEvents(lowCount, 60.0, 80.0, duration);
      after := Aggregate(fertility, distress, lowFertility, distressEvents, lowEvents);
    }
  }

  // ---------------------------------------------------------------- override 2

  /** The timestamp of the i-th of n appended events: `(i + 1) * (duration / (n + 1))`
      when the duration is positive, else `i`. */
  function SpacedTimestamp(i: nat, n: nat, duration: real): real
  {
    if duration > 0.0 then ((i + 1) as real) * (duration / ((n + 1) as real)) else i as real
  }

  /** The appended events are evenly spaced strictly inside the video and strictly increasing. */
  lemma SpacedTimestampsInside(i: nat, j: nat, n: nat, duration: real)
    requires i < j < n && duration > 0.0
    ensures 0.0 < SpacedTimestamp(i, n, duration) < SpacedTimestamp(j, n, duration) < duration
  {
    var step := duration / ((n + 1) as real);
    assert step > 0.0;
    assert step * ((n + 1) as real) == duration;
    var ti, tj := ((i + 1) as real) * step, ((j + 1) as real) * step;
    assert ti > 0.0;
    assert tj - ti == ((j - i) as real) * step;
    assert duration - tj == ((n - j) as real) * step;
  }

  /** What the configured override does when it fires. */
  ghost predicate OverrideApplied(c: SimulationConfig, duration: real, before: Aggregate, after: Aggregate)
  {
    var (lo, hi) := TargetRange(c);
    var old_ := |before.lowEvents|;
    && InScoreRange(after.fertility) && lo - 2.5 <= after.fertility <= hi + 2.5
    && Max(before.lowFertility, 65.0) <= after.lowFertility <= Max(before.lowFertility, 85.0)
    && Max(before.distress, 45.0) <= after.distress <= Max(before.distress, 65.0)
    && after.distressEvents == before.distressEvents
    && old_ + 2 <= |after.lowEvents| <= old_ + 6
    && after.lowEvents[..old_] == before.lowEvents
    && forall i :: old_ <= i < |after.lowEvents| ==>
         && after.lowEvents[i].timestamp == SpacedTimestamp(i - old_, |after.lowEvents| - old_, duration)
         && 70.0 <= after.lowEvents[i].score <= 90.0
  }

  /** What the configured override may do: nothing when disabled or when the probability is
      0, always fire when enabled with probability 1, and otherwise either. */
  ghost predicate ConfiguredOutcome(c: SimulationConfig, duration: real, before: Aggregate, after: Aggregate)
  {
    && (after == before || (c.enabled && OverrideApplied(c, duration, before, after)))
    && (!c.enabled || c.probability <= 0.0 ==> after == before)
    && (c.enabled && c.probability >= 1.0 ==> OverrideApplied(c, duration, before, after))
  }

  /** `sim_enabled and random.random() < sim_prob`, then the forced low-fertility scenario:
      a target from the configured range, averages raised with max, 2-6 evenly spaced
      low-fertility events appended, and a final ±2.5 jitter clamped to [0, 100]. The flag
      it sets (`simulated_flag`) is never returned, so the model does not return it either. */
  method ConfiguredOverride(c: SimulationConfig, duration: real, before: Aggregate)
    returns (after: Aggregate)
    ensures ConfiguredOutcome(c, duration, before, after)
  {
    after := before;
    var fires := false;
    if c.enabled {
      var u := Draws.Unit();
      fires := u < c.probability;
    }
    if fires {
      var (lowMin, lowMax) := TargetRange(c);
      var target := Draws.Uniform(lowMin, lowMax);
      var lowDraw := Draws.Uniform(65.0, 85.0);
      var lowFertility := Max(before.lowFertility, lowDraw);
      var distressDraw := Draws.Uniform(45.0, 65.0);
      var distress := Max(before.distress, distressDraw);
      var extra := Draws.RandInt(2, 6);
      var events := before.lowEvents;
      var old_ := |before.lowEvents|;
      for i := 0 to extra
        invariant |events| == old_ + i
        invariant events[..old_] == before.lowEvents
        invariant forall e :: old_ <= e < |events| ==>
          events[e].timestamp == SpacedTimestamp(e - old_, extra, duration)
          && 70.0 <= events[e].score <= 90.0
      {
        var score := Draws.Uniform(70.0, 90.0);
        events := events + [Event(SpacedTimestamp(i, extra, duration), score)];
      }
      var jitter := Draws.Uniform(-2.5, 2.5);
      after := Aggregate(Clamp(0.0, 100.0, target + jitter), distress, lowFertility,
                         before.distressEvents, events);
    }
  }

  lemma ConfiguredKeepsRange(c: SimulationConfig, duration: real, before: Aggregate, after: Aggregate)
    requires AggregateInRange(before)
    requires ConfiguredOutcome(c, duration, before, after)
    ensures AggregateInRange(after)
  {
  }

  // ---------------------------------------------------------------- the whole analysis

  function Averages(rs: seq<FeatureRecord>, a: Aggregate): FeatureAverages
    requires |rs| > 0
  {
    FeatureAverages(Mean(Column(rs, Motion)), Mean(Column(rs, Posture)), Mean(Column(rs, Behavior)),
                    Mean(Column(rs, Physical)), Mean(Column(rs, Estrus)), a.distress, a.lowFertility)
  }

  /** Every reported feature average is a score, and the motion average keeps the motion
      formula's floor of 60, when the records are scored frames and the aggregate is in range. */
  lemma AveragesInRange(rs: seq<FeatureRecord>, a: Aggregate)
    requires |rs| > 0 && AggregateInRange(a)
    requires forall j :: 0 <= j < |rs| ==> AllInRange(rs[j].scores) && rs[j].scores.motion >= 60.0
    ensures var avg := Averages(rs, a);
      && 60.0 <= avg.motion <= 100.0
      && InScoreRange(avg.posture) && InScoreRange(avg.behavior)
      && InScoreRange(avg.physicalCondition) && InScoreRange(avg.estrusBehavior)
      && InScoreRange(avg.distressIndicators) && InScoreRange(avg.lowFertilityPatterns)
  {
    MeanBounds(Column(rs, Motion), 60.0, 100.0);
    MeanBounds(Column(rs, Posture), 0.0, 100.0);
    MeanBounds(Column(rs, Behavior), 0.0, 100.0);
    MeanBounds(Column(rs, Physical), 0.0, 100.0);
    MeanBounds(Column(rs, Estrus), 0.0, 100.0);
  }

  /** analyze_video. It fails (None) when OpenCV is unavailable, when the video does not open
      and when no frame is read; otherwise the result reports the sampled frames, their
      averages after both overrides, and the recommendation for those averages. The demo
      flag reflects the hash override only. */
  method AnalyzeVideo(opencvAvailable: bool, video: Video, videoHash: nat,
                      env: Env, parseFloat: string -> Option<real>)
    returns (result: Option<AnalysisResult>, ghost measured: Aggregate, ghost demo: Aggregate)
    requires videoHash < 0x8000_0000
    requires forall i :: 0 <= i < |video.frames| ==> WellFormedRaw(video.frames[i])
    ensures result.None? <==> !opencvAvailable || !video.isOpen || |video.frames| == 0
    ensures result.Some? ==>
      var r := result.value;
      var rs := r.detailedFeatures;
      var duration := Duration(video.fps, video.frameCount);
      var final := Aggregate(r.fertilityPercentage, r.featureAnalysis.distressIndicators,
                             r.featureAnalysis.lowFertilityPatterns, r.distressIndicators,
                             r.lowFertilityPatterns);
      && |rs| > 0
      && SamplesMatch(video.frames, |video.frames|, video.fps, rs)
      && r.framesAnalyzed == |rs|
      && r.frameData == Points(rs)
      && r.videoDuration == duration
      && r.featureAnalysis == Averages(rs, final)
      && measured == Measured(rs)
      && DemoOutcome(videoHash, duration, measured, demo)
      && ConfiguredOutcome(ReadConfig(env, parseFloat), duration, demo, final)
      && r.simulatedLowFertility == (videoHash % 3 == 0)
      && AggregateInRange(final)
      && r.recommendation == Recommendation.Recommend(
           r.fertilityPercentage, r.featureAnalysis.distressIndicators,
           r.featureAnalysis.lowFertilityPatterns, |r.distressIndicators|, |r.lowFertilityPatterns|)
  {
    measured, demo := Aggregate(0.0, 0.0, 0.0, [], []), Aggregate(0.0, 0.0, 0.0, [], []);
    if !opencvAvailable || !video.isOpen {
      return None, measured, demo;
    }
    var duration := Duration(video.fps, video.frameCount);
    var records, frameData, distressEvents, lowEvents := SampleFrames(video, videoHash);
    if |records| == 0 {
      SampledExactly(|video.frames|, SampleInterval(video.fps));
      return None, measured, demo;
    }
    assert |video.frames| > 0;
    var averaged := Aggregate(Mean(Fertilities(records)), Mean(Column(records, Distress)),
                              Mean(Column(records, LowFertility)), distressEvents, lowEvents);
    assert averaged == Measured(records);
    forall j | 0 <= j < |records| ensures AllInRange(records[j].scores) && InScoreRange(records[j].fertility) {
      var idx := SampledIndices(|video.frames|, SampleInterval(video.fps));
      assert PossibleFrameResult(video.frames[idx[j]], records[j].scores, records[j].fertility);
    }
    MeasuredInRange(records);
    var overridden, simulated := DemoOverride(videoHash, duration, averaged);
    var config := ReadConfig(env, parseFloat);
    var final := ConfiguredOverride(config, duration, overridden);
    assert AggregateInRange(overridden);
    ConfiguredKeepsRange(config, duration, overridden, final);
    measured, demo := averaged, overridden;
    var advice := Recommendation.Recommend(final.fertility, final.distress, final.lowFertility,
                                           |final.distressEvents|, |final.lowEvents|);
    result := Some(AnalysisResult(final.fertility, advice, frameData, duration, |records|,
                                  Averages(records, final), records, final.distressEvents,
                                  final.lowEvents, simulated));
  }

  // ---------------------------------------------------------------- properties of the whole

  /** With no override in play, the final aggregate (the three averages and both event
      lists) is exactly the measured one. */
  lemma {:induction false} UnoverriddenIsMeasured(videoHash: nat, c: SimulationConfig, duration: real,
                                                        measured: Aggregate, demo: Aggregate, final: Aggregate)
    requires videoHash % 3 != 0 && (!c.enabled || c.probability <= 0.0)
    requires DemoOutcome(videoHash, duration, measured, demo)
    requires ConfiguredOutcome(c, duration, demo, final)
    ensures final == measured
  {
  }

  /** The configured override takes precedence over the demo override: enabled with
      probability 1, the final score lies within the configured range widened by the
      jitter, whatever the hash. */
  lemma OverridePrecedence(c: SimulationConfig, duration: real, demo: Aggregate, final: Aggregate)
    requires c.enabled && c.probability >= 1.0
    requires ConfiguredOutcome(c, duration, demo, final)
    ensures TargetRange(c).0 - 2.5 <= final.fertility <= TargetRange(c).1 + 2.5
    ensures 0.0 <= final.fertility <= 100.0
  {
  }

  /** The configured override never touches the distress events, keeps every low-fertility
      event that was there before at its position, and never lowers either average it raises. */
  lemma ConfiguredPreservesEvents(c: SimulationConfig, duration: real, before: Aggregate, after: Aggregate, m: nat)
    requires ConfiguredOutcome(c, duration, before, after)
    requires m < |before.lowEvents|
    ensures after.distressEvents == before.distressEvents
    ensures m < |after.lowEvents| && after.lowEvents[m] == before.lowEvents[m]
    ensures after.lowFertility >= before.lowFertility && after.distress >= before.distress
  {
    if after != before {
      assert after.lowEvents[..|before.lowEvents|] == before.lowEvents;
      assert after.lowEvents[..|before.lowEvents|][m] == after.lowEvents[m];
    }
  }
}
