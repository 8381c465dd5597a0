# MindEase dashboard logic in Dafny

MindEase is a marketing site with a small dashboard for a wearable
stress-monitoring headband. Almost all of it is presentational React wired to a
hosted backend. This project models the three pieces of deterministic logic in
it and proves properties of them:

- **Stress scorer and classifier** (`src/pages/Dashboard.tsx`), in `stress.dfy`
  (module `StressScore`). `calculateStressScore` turns four biometric readings
  into a weighted sum of clipped, normalised deviations. `getStressState`
  buckets that score into Relaxed, Moderate or High. A row's stored
  `stress_score` wins over the computed one.
- **Dashboard score state** (`src/pages/Dashboard.tsx`), in `dashboard.dfy`
  (class `Dashboard.DashboardState`). It holds the latest row, the score shown
  and the blink flag. A fetched row and a realtime insert both set the score. A
  500 ms blink timer flips the flag, and it runs only while the score is in the
  Moderate band. The flag is cleared whenever the score leaves that band.
- **Breathing exercise** (`src/components/BreathingExercise.tsx`), in
  `breathing.dfy` (module `Breathing`). It is a state machine over
  `phaseIndex`, `cycles` and `running`. Pure step functions (`TickStep`,
  `StartStep`, `StopStep`, `AutoStop`) specify the class methods. Lemmas about
  iterated ticks prove that a default session stops after exactly 15 ticks
  (60 seconds).
- **Resource library** (`src/components/Resources.tsx`), in `resources.dfy`
  (module `Resources`). It has the twelve-entry table, the tab filter and the
  card background class per type.

`wrappers.dfy` holds the `Option` type shared by the modules.

Modelling choices:

- Readings are exact `real`s.
- A column of a row has three forms: absent (`Missing`, JavaScript
  `undefined`), `Null`, or a number (`Num`).
- The destructuring defaults (`gsr = 0`, `heartbeat = 0`, `spo2 = 100`,
  `temperature = 0`) apply only to an absent column. A `null` column takes part
  in the subtraction as 0. So a `null` spo2 gives spo2 factor 98 / 3, and a row
  whose columns are all `null` scores 49/6, which is High stress
  (`NullSpo2ScoresHigh`). The model keeps this behaviour, as the code does.
- The `??` operator on `stress_score` treats `null` and absent alike. A stored
  number, including 0, is used unchanged.
- React effects are folded into the step that triggers them. The score setter
  is followed by the blink effect, which reruns only when the score value
  changes. The timer tick and Start are each followed by the auto-stop effect.

The dashboard code has no Critical level, no configurable critical threshold,
and no alert records or notifications. It has exactly three levels, with
thresholds 0.3 and 0.7.

## Model

| member | source | states |
|---|---|---|
| `StressScore.RawScore` | src/pages/Dashboard.tsx:99-120 | the weighted score of four readings is never negative |
| `StressScore.CalculateStressScore` | src/pages/Dashboard.tsx:88-121 | a missing sample scores 0; the score of any sample is non-negative |
| `StressScore.EffectiveScore` | src/pages/Dashboard.tsx:83 | a stored numeric score is used unchanged; a null or absent one is replaced by the computed, non-negative score |
| `StressScore.Classify` | src/pages/Dashboard.tsx:203-223 | Relaxed iff score < 0.3, Moderate iff 0.3 <= score < 0.7, High iff score >= 0.7; the three cases are total and exclusive |
| `StressScore.StressBadge` | src/pages/Dashboard.tsx:203-223 | the badge's state is the classification of the score |
| `StressScore.ScoreZeroIff` | src/pages/Dashboard.tsx:111-120 | the score is 0 exactly when gsr <= 1500, heartbeat <= 72, temperature <= 36.5 and spo2 >= 98 |
| `StressScore.NominalScoresZero` | src/pages/Dashboard.tsx:99-120 | readings 1500 / 72 / 98 / 36.5 score exactly 0 |
| `StressScore.ThresholdScoresOne` | src/pages/Dashboard.tsx:105-120 | readings 2500 / 80 / 95 / 37.2 score exactly 1 |
| `StressScore.EmptySampleScoresZero` | src/pages/Dashboard.tsx:89-96 | no sample, or a sample with every column absent, scores 0 |
| `StressScore.NullSpo2ScoresHigh` | src/pages/Dashboard.tsx:91-96 | an all-null row scores 49/6 because a null spo2 is not defaulted, and it is classified High |
| `StressScore.ScoreMonotone` | src/pages/Dashboard.tsx:111-120 | the score never decreases as gsr, heartbeat or temperature rise or spo2 falls |
| `StressScore.ScoreUnbounded` | src/pages/Dashboard.tsx:117-120 | the score is not clamped: every bound is exceeded by some gsr reading |
| `StressScore.ClassifyMonotone` | src/pages/Dashboard.tsx:204-222 | a higher score never gives a lower state |
| `StressScore.BlinkBandIsModerate` | src/pages/Dashboard.tsx:42 | the blink timer's band is exactly the Moderate state |
| `StressScore.BlinkVisibleOnlyWhenModerate` | src/pages/Dashboard.tsx:210-215 | the blink flag changes the badge iff the state is Moderate |
| `StressScore.ClassifyBoundaries` | src/pages/Dashboard.tsx:37-38 | 0.29 is Relaxed, 0.3 and 0.69 are Moderate, 0.7 is High |
| `Dashboard.DashboardState.CurrentBadge` | src/pages/Dashboard.tsx:225 | the badge shown has the classification of the current score |
| `Dashboard.DashboardState.constructor` | src/pages/Dashboard.tsx:32-34 | no row, score 0, not blinking |
| `Dashboard.DashboardState.SetStressScore` | src/pages/Dashboard.tsx:41-50 | the score is set; the flag survives only inside the blink band; outside it the flag is false |
| `Dashboard.DashboardState.OnLatestFetched` | src/pages/Dashboard.tsx:80-84 | no row changes nothing; a row becomes the latest metrics and sets the score from its stored score, else the computed one |
| `Dashboard.DashboardState.OnNewSample` | src/pages/Dashboard.tsx:135-138 | a realtime row becomes the latest metrics and sets the score, stored score first |
| `Dashboard.DashboardState.BlinkTick` | src/pages/Dashboard.tsx:43-45 | inside the blink band the flag flips; outside it stays false |
| `Breathing.Duration` | src/components/BreathingExercise.tsx:5-9 | every phase lasts a positive time |
| `Breathing.SumDurations` | src/components/BreathingExercise.tsx:5-9 | any sequence of phases lasts 4000 ms per phase |
| `Breathing.Succ` | src/components/BreathingExercise.tsx:4 | every phase is followed by a different phase |
| `Breathing.SuccCycles` | src/components/BreathingExercise.tsx:4 | three successors return to the same phase, and the successor follows the order of `PHASES` with wrap-around |
| `Breathing.TickShowsNextPhase` | src/components/BreathingExercise.tsx:24-38 | a running tick moves the phase on display to its successor; a stopped one keeps it |
| `Breathing.CycleTakesTwelveSeconds` | src/components/BreathingExercise.tsx:4-9 | Inhale, Hold and Exhale last 12000 ms together |
| `Breathing.AutoStop` | src/components/BreathingExercise.tsx:48-52 | the session keeps running iff it was running and has fewer cycles than the total; phase and cycles are unchanged |
| `Breathing.TickStep` | src/components/BreathingExercise.tsx:34-46 | a stopped state does not change; a running one moves to phase (i + 1) % 3, adds a cycle exactly on wrapping to phase 0, and stops once the cycles reach the total; reachable states stay reachable |
| `Breathing.StartStep` | src/components/BreathingExercise.tsx:54-58 | phase 0, no cycles, running (unless the total is 0) |
| `Breathing.StopStep` | src/components/BreathingExercise.tsx:60-62 | not running; phase and cycles unchanged |
| `Breathing.Ticks` | src/components/BreathingExercise.tsx:34-52 | any number of ticks keeps a reachable state reachable: phase index below 3, cycles at most the total |
| `Breathing.StoppedIsStable` | src/components/BreathingExercise.tsx:35 | no number of ticks changes a stopped state |
| `Breathing.RunFromStart` | src/components/BreathingExercise.tsx:37-52 | after k < 3 * total ticks from Start the state is phase k % 3, cycle k / 3, running; after 3 * total ticks it is phase 0, total cycles, stopped |
| `Breathing.ElapsedFromStart` | src/components/BreathingExercise.tsx:36-43 | k ticks from Start wait 4000 * k ms |
| `Breathing.DefaultSession` | src/components/BreathingExercise.tsx:21 | with 5 cycles the session runs for ticks 0 to 14, stops at tick 15, and takes five 12-second cycles |
| `Breathing.BreathingExercise.constructor` | src/components/BreathingExercise.tsx:18-21 | phase 0, no cycles, not running, five cycles per session |
| `Breathing.BreathingExercise.AutoStopEffect` | src/components/BreathingExercise.tsx:48-52 | the new state is `AutoStop` of the old one; the invariant is kept |
| `Breathing.BreathingExercise.Tick` | src/components/BreathingExercise.tsx:34-46 | the new state is `TickStep` of the old one; the phase shown moves to its successor when running and stays when stopped; the invariant is kept |
| `Breathing.BreathingExercise.Start` | src/components/BreathingExercise.tsx:54-58 | the new state is `StartStep`, whatever the old one |
| `Breathing.BreathingExercise.Stop` | src/components/BreathingExercise.tsx:60-62 | the new state is `StopStep` of the old one |
| `Resources.FilterByType` | src/components/Resources.tsx:135 | the result is no longer than the input and holds only input resources of the given type |
| `Resources.FilteredResources` | src/components/Resources.tsx:133-135 | the All tab yields the list unchanged; no tab yields a longer list |
| `Resources.GetBgColor` | src/components/Resources.tsx:220-229 | the default class is given exactly to the non-concrete type |
| `Resources.BgColorsDistinct` | src/components/Resources.tsx:221-227 | different types get different classes |
| `Resources.FilterIsSubsequence` | src/components/Resources.tsx:135 | the filtered list is a subsequence of the input: order is kept |
| `Resources.FilterKeepsExactlyMatching` | src/components/Resources.tsx:135 | each resource of the type occurs in the result as often as in the input; others do not occur |
| `Resources.FilterOfAbsentType` | src/components/Resources.tsx:135 | a type the list does not contain filters it to nothing |
| `Resources.FilterOfUniform` | src/components/Resources.tsx:135 | a list of one type filters to itself |
| `Resources.FilterIdempotent` | src/components/Resources.tsx:133-135 | filtering a filtered list by the same tab returns it unchanged |
| `Resources.FilterLength` | src/components/Resources.tsx:135 | the filtered length is the number of resources of that type |
| `Resources.ConcreteTabsPartition` | src/components/Resources.tsx:16 | the five concrete tabs' lengths add up to the length of any list without All-typed entries |
| `Resources.TableTabs` | src/components/Resources.tsx:28-128 | the table has 12 entries of concrete types; any tab lists at most 12; the five concrete tabs list 12 in all |

## Left out

- All backend calls are left out because they are network I/O against a library that is not part of this model. That covers the profile fetch and upsert, the metric queries, the realtime channel subscription and removal, and the avatar upload. Their results become the arguments of `OnLatestFetched` and `OnNewSample`.
- Authentication and session handling (`src/context/AuthContext.tsx`) are left out: they are callbacks from an external auth library.
- Timer lifetimes (`setInterval`, `setTimeout`, their cleanup) are modelled only as discrete `BlinkTick` and `Tick` steps. The model has no wall clock. `Elapsed` only adds up the delays the timers would wait.
- The blink effect restarts its interval when the score changes inside the band. This moves the next toggle in time but does not change the flag, so the model does not show it.
- Audio play and pause in the breathing exercise are left out because they are media I/O.
- Dashboard.DashboardState.CurrentBadge: the badge's emoji icons and the emoji in its text are left out. The text is kept without them.
- The `Math.round(stressScore * 100)` percentage display and IEEE-754 rounding are left out. The model uses exact reals, so values such as `NaN` or `Infinity` cannot occur.
- Form string parsing (`parseFloat`, `parseInt`, `Number(x) || null`, `trim`) and date formatting are left out because they depend on JavaScript library semantics.
- Resource card icons (JSX elements) and all other presentational components are left out.
- Resources.GetBgColor: the type is modelled as a closed enumeration. The `default` branch therefore covers only `"all"` and not arbitrary strings.
- There is no Critical level, alert record or notification delivery: the modelled code has none.
