# Livestock fertility analysis — a Dafny model

This project models the decision logic of a livestock fertility-prediction application.

The application scores sampled frames of a cow's video on seven behavioural and physical
sub-scores. It combines each frame's sub-scores into a fertility percentage and averages them
over the video. The averages can then be rewritten by two simulation overrides:

- a demo override chosen by the video's hash;
- an override configured through environment variables.

Finally the application picks a recommendation. Besides the analysis, it keeps:

- a per-user prediction history in a JSON file;
- a user registry in a second JSON file, with hashed passwords and roles.

It also offers a live-monitor page, which simulates readings around a saved score and
classifies each one by trend and alert status.

The modules follow the program:

- `Common` holds clamps, sums and means. `Draws` holds the random draws, each of which may
  return any value in its documented range.
- `Scoring` models `analyze_frame_enhanced`.
- `Recommendation` models `generate_enhanced_recommendation`.
- `SimulationSettings` models the environment-driven override settings.
- `VideoAnalysis` models `analyze_video`: the sampling loop, the event lists, both overrides
  and the assembled result.
- `History` models the prediction history file, with `HistoryStore` as a class over it.
- `Auth` models `auth.py`, with `UserRegistry` as a class over the users file.
- `UploadFlow` models the upload page's choice of simulation settings from the number of
  earlier uploads.
- `LiveMonitor` models the monitoring loop and its summary counts.

The two override paths are specified as relations between the aggregate before and after:

- `DemoOutcome`, where the override fires exactly when the hash is a multiple of 3;
- `ConfiguredOutcome`, where the override never fires when disabled or at probability 0, always
  fires at probability 1, and otherwise may do either.

`AnalyzeVideo` is proved to produce a result that those two relations connect to the measured
averages. The recommendation in that result is the one `Recommend` gives for the final
averages and event counts.

With the configured probability at 1, the final fertility is not confined to the configured
range: the ±2.5 jitter added after drawing the target (prediction.py:188-189) can carry the
score up to 2.5 points outside it. `OverridePrecedence` proves the bound
[min − 2.5, max + 2.5] inside [0, 100].

## Model

| member | source | states |
|---|---|---|
| Common.Clamp | prediction.py:285 | the `max(lo, min(hi, x))` pattern lands in [lo, hi], returns x unchanged when it is already inside, and returns the bound that x passes otherwise |
| Draws.Uniform | prediction.py:282 | a uniform draw is some value in the closed range [lo, hi] |
| Draws.RandInt | prediction.py:180 | `randint` gives an integer in [lo, hi], both ends included |
| Draws.Unit | prediction.py:164 | `random.random()` is in [0, 1) |
| Scoring.ClampSubScores | prediction.py:298-429 | all seven sub-scores end in [0, 100]; `ClampSubScoresKeeps` gives the value of each, kept in range and saturated at the bound it passes outside |
| Scoring.ClampSubScoresKeeps | prediction.py:298-429 | motion is only capped at 100, becoming exactly 100 above it, and its formula keeps it at 60 or more; every raw value already in [0, 100] is kept, and one below 0 or above 100 becomes exactly 0 or 100 |
| Scoring.WeightsAreConvex | prediction.py:270-278 | the seven weights are non-negative and sum to 1 |
| Scoring.WeightedSum | prediction.py:270-278 | the weighted combination of in-range sub-scores, with distress and low-fertility inverted, is itself in [0, 100] |
| Scoring.WeightedSumBetween | prediction.py:270-278 | the combination lies between the smallest and the largest of its seven terms |
| Scoring.FrameFertility | prediction.py:280-285 | the jittered and clamped frame score is in [0, 100], lies within the jitter's size of the weighted sum, equals sum plus jitter when that is in range, and is exactly 100 or 0 when sum plus jitter lies above or below it |
| Scoring.FrameSeed | prediction.py:242 | the frame seed is below 2^31 and congruent to hash + ⌊1000·t⌋ modulo 2^31, so it equals that sum when the sum is below 2^31 |
| Scoring.ScoreFrame | prediction.py:237-296 | a scored frame has the clamped sub-scores and a fertility in [0, 100] within ±0.5 of the weighted sum |
| Scoring.PossibleFrameResultIsReachable | prediction.py:280-285 | every fertility allowed by that description comes from some jitter in [-0.5, 0.5], so the description is exact |
| Recommendation.Recommend | prediction.py:431-467 | health concern exactly when distress > 60 or more than 5 distress events; pattern advice exactly when there is no distress alarm and low-fertility > 60 or more than 5 pattern events, split at 85 and 75; otherwise the band that contains the score |
| Recommendation.LadderMatchesTable | prediction.py:447-467 | with no alarm, the if/elif ladder gives the first band of the 90/85/…/50 table whose lower bound the score reaches |
| Recommendation.BandsPartition | prediction.py:447-467 | no score lies in two ladder bands |
| Recommendation.WorkedCases | prediction.py:435-467 | 92 with low distress is Optimal, 40 is Poor, and high distress overrides any score |
| SimulationSettings.ReadConfig | prediction.py:152-162 | the probability is always clamped to [0, 1]; a failed float conversion gives the disabled defaults (0, 40, 60); otherwise the two flags come from "1"/"true"/"True" and the numbers from the parsed variables or their defaults |
| SimulationSettings.TargetRange | prediction.py:170-171 | the target range satisfies 0 ≤ min ≤ max ≤ 100; the minimum is kept when in [0, 100] and becomes 0 or 100 when below or above; the maximum is kept when between the new minimum and 100, becomes 100 above it, and collapses onto the minimum below it |
| VideoAnalysis.Duration | prediction.py:40 | for a positive rate the duration times the rate is the frame count; otherwise the duration is 0 |
| VideoAnalysis.SampleInterval | prediction.py:50 | the interval is at least 1, is ⌊fps/2⌋ from 2 fps upwards, is 1 below 4 fps, and is 15 when the rate is not positive |
| VideoAnalysis.Timestamp | prediction.py:59 | a frame's timestamp is idx/fps for a positive rate and the index otherwise, never negative |
| VideoAnalysis.TimestampIncreasing | prediction.py:59 | later frames have strictly later timestamps |
| VideoAnalysis.SampledIndices | prediction.py:52-57 | only frames that were read are scored |
| VideoAnalysis.SampledExactly | prediction.py:49-96 | a frame is scored exactly when its index is a multiple of the interval; scored indices increase; a non-empty video yields at least one sample, frame 0 |
| VideoAnalysis.EventsOverMembers | prediction.py:83-94 | an event list holds exactly the events of the records whose score exceeds 70, each with that record's timestamp and score |
| VideoAnalysis.EventsOverOrdered | prediction.py:83-94 | records in time order give event lists in time order |
| VideoAnalysis.EventsOverExact | prediction.py:83-94 | the two facts above together, and every event's score exceeds 70 |
| VideoAnalysis.MeasuredInRange | prediction.py:104-113 | the measured fertility, distress and low-fertility averages are in [0, 100] |
| VideoAnalysis.AveragesInRange | prediction.py:107-113 | every reported feature average of scored frames is in [0, 100], and the motion average is at least 60 |
| VideoAnalysis.SampleFrames | prediction.py:49-96 | the read loop yields one record per sampled frame, with that frame's timestamp and scorer result, plus the matching `frame_data` and both event lists |
| VideoAnalysis.ScoreSample | prediction.py:57-94 | scoring one sampled frame extends the loop's records, `frame_data` and event lists, so they describe one more frame read |
| VideoAnalysis.SamplesIncreasing | prediction.py:57-81 | the records are in strictly increasing time order |
| VideoAnalysis.SyntheticEvents | prediction.py:134-148 | a synthetic list has the drawn count of events, scores in the given range, and timestamps in [0, duration], or the index when duration ≤ 0 |
| VideoAnalysis.DemoOverride | prediction.py:117-148 | fires exactly when hash % 3 == 0; it then replaces the averages with draws from 30-45, 50-70 and 60-80, and both event lists with 3-7 and 2-5 synthetic events |
| VideoAnalysis.SpacedTimestampsInside | prediction.py:180-186 | the appended events are evenly spaced, strictly increasing and strictly inside (0, duration) |
| VideoAnalysis.ConfiguredOverride | prediction.py:164-189 | fires only when enabled, never at probability 0, always at probability 1; when it fires it sets the fertility to the target plus jitter, clamped; raises low-fertility and distress with `max`; appends 2-6 spaced events scored 70-90 and leaves everything else alone |
| VideoAnalysis.ConfiguredKeepsRange | prediction.py:170-189 | the configured override keeps the three averages in [0, 100] |
| VideoAnalysis.AnalyzeVideo | prediction.py:16-226 | None exactly when OpenCV is missing, the video does not open or no frame is read; otherwise the result holds the sampled records, `frame_data`, duration and count; its averages come from the measured ones through the demo and then the configured override; all three stay in [0, 100]; the flag reflects the hash test; the recommendation is the one for the final values |
| VideoAnalysis.UnoverriddenIsMeasured | prediction.py:117-189 | when neither override can fire, the result is exactly the measured aggregate |
| VideoAnalysis.OverridePrecedence | prediction.py:164-189 | enabled at probability 1, the final fertility lies within the configured range widened by ±2.5 and inside [0, 100], whatever the hash did |
| VideoAnalysis.ConfiguredPreservesEvents | prediction.py:176-186 | the configured override keeps every earlier low-fertility event in place, leaves distress events alone and never lowers the two averages it raises |
| History.UserHistoryMembers | prediction.py:501-504 | a user's history holds exactly the stored records with that username |
| History.UserHistoryIdempotent | prediction.py:501-504 | a user's history is no longer than the whole history, and filtering it again changes nothing |
| History.UserHistoryAppend | prediction.py:501-504 | filtering a concatenation is the concatenation of the filtered parts |
| History.SaveAddsToOwnHistoryOnly | prediction.py:469-504 | appending a record adds it to its own user's history and to no one else's |
| History.HistoryStore.SavePrediction | prediction.py:469-484 | the file afterwards holds the previous contents (empty if missing or unreadable) followed by exactly the new record |
| History.HistoryStore.LoadHistory | prediction.py:486-494 | loading returns the stored list, or [] for a missing or unreadable file |
| History.HistoryStore.ClearHistory | prediction.py:496-499 | afterwards the file is gone and loading returns [] |
| History.HistoryStore.GetUserHistory | prediction.py:501-504 | returns the user's filter of the loaded history |
| Auth.Registered | auth.py:35-51 | a taken name leaves the users unchanged; a new name is added with the password's digest and role 'user'; no existing entry changes |
| Auth.RegisterThenAuthenticate | auth.py:27-51 | a new user then logs in with exactly the passwords whose digest matches the registered one |
| Auth.RegisterKeepsOthers | auth.py:35-58 | registering never changes another user's login or admin status, and it never replaces a taken name's password |
| Auth.RegisteredAdminOnlyByName | auth.py:44-58 | a self-registered account is an admin exactly when its name is 'admin' |
| Auth.DemoAccounts | auth.py:61-76 | farmer1/demo123 and admin/admin123 log in; only admin is an admin; no other name is known |
| Auth.UserRegistry.RegisterUser | auth.py:35-51 | succeeds exactly for a name not already loaded; it then writes the registered object, and otherwise leaves the file unchanged |
| Auth.UserRegistry.AuthenticateUser | auth.py:27-33 | true exactly when the name is known and the password's digest matches |
| Auth.UserRegistry.IsAdmin | auth.py:53-58 | true exactly for a known user whose role, defaulting to 'user', is 'admin', or whose name is 'admin' |
| Auth.UserRegistry.InitializeDemoUsers | auth.py:61-76 | creates the two demo accounts only when no file exists; an existing file, readable or not, is kept |
| LiveMonitor.TrendLadder | app.py:1249-1271 | a change under 1 point is Stable, over 3 points is Strongly Increasing or Decreasing, between is Increasing or Decreasing, and exactly ±1 keeps the previous label, so a fall of exactly one point leaves a Strongly Increasing label in place |
| LiveMonitor.NewTrendFollowsChange | app.py:1257-1271 | whenever the label changes, its strength has the sign of the change (positive above +1, negative below -1, zero under 1 in size) |
| LiveMonitor.StatusOf | app.py:1278-1295 | Critical exactly above the threshold, Warning exactly within five points below it, Low below 30 otherwise, Normal for the rest |
| LiveMonitor.TrendAtPrefix | app.py:1249-1271 | a reading's label depends only on the readings up to it, so later readings never relabel it |
| LiveMonitor.TotalIntervals | app.py:1223 | the number of intervals is the largest n with n × interval ≤ 60 × minutes |
| LiveMonitor.SummaryMatchesLog | app.py:1464-1465 | the summary's high and warning counts are the numbers of Critical and Warning readings, add up to the alert log's length, and never exceed the number of readings |
| LiveMonitor.AlertLogExact | app.py:1297-1304 | the alert log holds one entry per Critical or Warning reading, with that reading's time, score and status, and nothing else |
| LiveMonitor.RunMonitor | app.py:1223-1304 | yields one reading per interval, stamped i × interval and clamped to [0, 100], with the label `TrendAt` and the status of each reading; the alert log is non-empty only when logging is on and is then exactly `AlertLog` |
| UploadFlow.SelectedEnv | app.py:549-562 | the five simulation variables are set to 1/0.7 or 0.3/30/45/1, chosen by prior < 2, and every other variable is kept |
| UploadFlow.SelectedConfig | app.py:549-562 | after the assignments, analyze_video reads an enabled, nondeterministic simulation with probability 0.7 for the first two uploads and 0.3 after, and target range 30-45 |
| UploadFlow.Environment.SelectSimulationConfig | app.py:543-562 | the environment afterwards is the selection for the user's number of saved predictions |

## Left out

- The OpenCV pixel formulas of the seven sub-score functions (prediction.py:298-429) are left out. Each frame arrives as the value its formula computes before the final clamp. Only the clamps, and the fact that the motion formula is 60 plus non-negative terms, are modelled.
- MD5 video hashing (`get_video_hash`) and its file-read failure are left out: the hash is an input below 2^31.
- SHA-256 password hashing is left out: `hash_password` is an uninterpreted function held by the registry.
- Random number streams and seeding (`random.seed`, `np.random.seed`, `SystemRandom`) are not modelled, and neither is the way a seed fixes the draws. Every draw is any value in its documented range, and the nondeterministic flag has no effect on the model.
- Scoring.ScoreFrame: the jitter is any value in [-0.5, 0.5], not the one its seed fixes, so the frame score is described by a range and not one value.
- The normal variation of the live monitor, and the `sensitivity` slider that sets its spread, are left out: the variation is any real.
- JSON reading and writing, file-system errors, and the outer `try/except` of analyze_video are left out, except that a missing or undecodable file loads as empty. Unexpected exceptions are not modelled, only the documented `None` returns.
- The call to `initialize_demo_users()` when auth.py is imported (auth.py:79) is not modelled: `InitializeDemoUsers` is an operation the caller invokes, so a registry may start from a missing file.
- `users[u]['password']` on an entry without a password key raises in the source. That case is not modelled: every entry has a password.
- The `except` branch of the upload page that sets `prior = 0` is left out: `get_user_history` does not raise in the model.
- The recommendation message texts and their formatted numbers are left out. The model returns which message is picked.
- The wall-clock timestamps (`datetime.now()`) of history records and users are inputs. The wall-clock string of each monitor reading is dropped: a reading keeps only its offset in seconds.
- The Streamlit user interface is left out: progress bars, charts, sleeps, and the monitor's average, peak, standard deviation and fitted final trend.
- The separate `fertility_scores` list is not kept: it always equals the fertility column of `detailed_features`.
- `simulated_flag` of the configured override is set but never returned by the source, so the model does not return it.
- Floating-point rounding, NaN and infinities are left out: scores are mathematical reals.
