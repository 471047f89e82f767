# Ventilation optimizer: comfort scoring and classroom competition

This project models the decision logic of `VentilationOptimizer`. The optimizer scores two
classrooms for a "football competition". Classroom 10c ("team A") is read from a live MQTT feed.
Classroom 9b ("team B") is read from averages of historical CSV data. Each side gets a comfort
score from a fixed rubric over temperature, CO2 and humidity.

The model has five modules:

- `Results` (results.dfy): `Option`, `Result` and the error kinds. The source catches exceptions
  at each step; the model makes them explicit error values.
- `Comfort` (comfort.dfy): the scorer. It is parameterised by the optimal ranges the object
  holds. The temperature margin is relative to its range (two degrees either side). The humidity
  margin (40-60) and the CO2 margin (below 1000) are literals, as in the source.
- `History` (history.dfy): the historical data frames, the single-row fallback frames, exact
  arithmetic means, and classroom 9b's averages.
- `Selection` (selection.dfy): team A's live reading, the class-data pair, and the assembled,
  scored competition, all as pure functions.
- `Optimizer` (optimizer.dfy): the class `VentilationOptimizer`. Its constructor loads the frames,
  sets the ranges and computes the averages step by step, as `__init__` does. Its query methods
  have no `modifies` clause, so they cannot change the averages.

Behaviour of the code that the model follows:

- Averaging is all-or-nothing. All three averages fall back to 22.0 / 600.0 / 50.0 together
  when any column fails, even a temperature average that was already assigned.
- When the live feed raises, `get_class_data` returns a fixed error pair. That pair's team B is
  (22.0, 50.0, 600.0), not the stored averages. `get_competition_data` then scores it normally,
  so both sides score 100 with tag `error_fallback` (`Selection.ErrorPathScores`).
- No step inside `get_competition_data` can raise, so its own fallback (scores 75 and 80) is never
  returned. The model keeps it as the constant `CompetitionFallback` and proves it unreachable.
  Its scores also disagree with what the scorer gives the same readings (100 and 100).

Inputs that are I/O in the source become parameters. The CSV load becomes a `LoadOutcome`: two
frames or a failure. The MQTT client's `combined_data` becomes an `Option<map<string,
Option<seq<Sample>>>>`, where `None` means the attribute is missing or empty.

## Model

| member | source | states |
|---|---|---|
| `Comfort.Score` | smart_ventilation/ventilation_optimizer.py:109-150 | for every input and any ranges, the score lies in [20, 100] |
| `Comfort.CapNeverApplies` | smart_ventilation/ventilation_optimizer.py:114-150 | each part is one of its three tier values, the uncapped total is at most 100, and `min(100, total)` never changes it |
| `Comfort.PerfectScoreIff` | smart_ventilation/ventilation_optimizer.py:115-150 | with the optimal ranges, the score is 100 iff temperature is in [20,22], CO2 in [400,800] and humidity in [45,55], bounds included |
| `Comfort.TemperatureTiers` | smart_ventilation/ventilation_optimizer.py:115-121 | temperature tier is 25 exactly on [20,22], 15 exactly on [18,24] outside it, 5 exactly elsewhere |
| `Comfort.HumidityTiers` | smart_ventilation/ventilation_optimizer.py:133-139 | humidity tier is 25 exactly on [45,55], 15 exactly on [40,60] outside it, 5 exactly elsewhere |
| `Comfort.Co2EdgeCases` | smart_ventilation/ventilation_optimizer.py:124-146 | below 400: tier 20, bonus 15; at exactly 1000: tier 5, bonus 10; above 1000: 5 and 5; the other bands too |
| `Comfort.Co2Monotonic` | smart_ventilation/ventilation_optimizer.py:124-148 | with temperature and humidity fixed, the score is non-increasing in CO2 from 800 up and constant below 400 |
| `Comfort.OptimalCo2IsBest` | smart_ventilation/ventilation_optimizer.py:124-148 | a CO2 value in [400,800] scores at least as much as any other CO2 value, and strictly more than any value outside [400,800] |
| `Comfort.ScoreExamples` | smart_ventilation/ventilation_optimizer.py:114-150 | (23.1, 850, 58) scores 60; (21.5, 650, 50) scores 100; (-50, 5000, 0) scores 20 |
| `History.LoadedFrames` | smart_ventilation/ventilation_optimizer.py:22-41 | the frames held are the loaded ones, or on any load failure both single-row fallback frames together, which average to exactly 22.0 / 600.0 / 50.0 |
| `History.SumBounds` | smart_ventilation/ventilation_optimizer.py:47-51 | a sum of n samples in [lo, hi] lies in [n*lo, n*hi] |
| `History.MeanBounds` | smart_ventilation/ventilation_optimizer.py:47-51 | the mean of samples in [lo, hi] lies in [lo, hi] |
| `History.MeanOfConstant` | smart_ventilation/ventilation_optimizer.py:40-51 | the mean of equal samples is that value, so a single-row column averages to its sample |
| `History.ColumnMean` | smart_ventilation/ventilation_optimizer.py:47-51 | a column mean succeeds iff the column exists, is numeric and is non-empty, and is then the arithmetic mean of its samples |
| `History.ColumnMeanWithinSamples` | smart_ventilation/ventilation_optimizer.py:47-51 | a successful column mean lies within the bounds of its samples |
| `History.ClassBAverages` | smart_ventilation/ventilation_optimizer.py:43-61 | when all three columns average, each average is the mean of its column; otherwise all three are 22.0 / 600.0 / 50.0 |
| `History.FailedLoadGivesDefaults` | smart_ventilation/ventilation_optimizer.py:37-51 | after a failed load, the fallback frames average to exactly the default averages |
| `History.TemperatureDiscardedOnLaterFailure` | smart_ventilation/ventilation_optimizer.py:45-61 | a temperature average already computed is overwritten with 22.0 when a later column fails |
| `History.EmptyTemperatureGivesDefaults` | smart_ventilation/ventilation_optimizer.py:43-61 | a missing or empty temperature column gives temperature 22.0 and default values for the other two averages (an empty column is treated as a failed average; see Left out) |
| `Selection.SelectLive` | smart_ventilation/ventilation_optimizer.py:66-88 | team A is live iff all three series are present and non-empty, with each field the last sample; an unconvertible last sample is an error; otherwise team A is exactly (22.0, 55.0, 600.0) tagged fallback |
| `Selection.ClassData` | smart_ventilation/ventilation_optimizer.py:63-107 | team A is classroom 10c, team B classroom 9b; team B carries the averages tagged historical_average iff live selection did not raise, otherwise the pair is the fixed error pair |
| `Selection.WithScore` | smart_ventilation/ventilation_optimizer.py:162-172 | attaching a score changes nothing but the score, which is the comfort score of the snapshot's own reading |
| `Selection.Assemble` | smart_ventilation/ventilation_optimizer.py:156-177 | each side's score is the comfort score of that side's own reading, and each side is otherwise its class-data snapshot |
| `Selection.NoPartialFallback` | smart_ventilation/ventilation_optimizer.py:67-88 | team A is always classroom 10c, and its reading is wholly live or wholly the defaults, never a mix |
| `Selection.MissingHumidityFallsBack` | smart_ventilation/ventilation_optimizer.py:67-88 | a feed without humidity gives the full fallback (22.0, 55.0, 600.0) tagged "fallback" |
| `Selection.AssembledLiveScores` | smart_ventilation/ventilation_optimizer.py:90-97 | when live selection succeeds, team B carries the stored averages, tag "historical_average", name "Klassenraum 9b", and their comfort score |
| `Selection.ErrorPathScores` | smart_ventilation/ventilation_optimizer.py:101-172 | when the live feed raises, both sides are tagged error_fallback and both score 100 |
| `Selection.CompetitionFallbackUnreachable` | smart_ventilation/ventilation_optimizer.py:179-199 | the assembled competition never equals the fixed 75/80 fallback, whose scores differ from what the scorer gives its readings |
| `Selection.ScenarioScores` | smart_ventilation/ventilation_optimizer.py:156-177 | a live feed of 21.5 / 650 / 50 gives team A tag mqtt_live and score 100; averages 23.1 / 850 / 58 give team B score 60 |
| `Optimizer.VentilationOptimizer.constructor` | smart_ventilation/ventilation_optimizer.py:9-20 | the object holds the loaded frames and the optimal ranges, and its averages are those of the frames (the defaults after a failed load) |
| `Optimizer.VentilationOptimizer.LoadHistoricalData` | smart_ventilation/ventilation_optimizer.py:22-41 | the frame fields become the loaded frames or the fallback frames; ranges and averages are unchanged |
| `Optimizer.VentilationOptimizer.CalculateClassBAverages` | smart_ventilation/ventilation_optimizer.py:43-61 | the averages fields become the class-B averages of the held frames; frames and ranges are unchanged |
| `Optimizer.VentilationOptimizer.GetClassData` | smart_ventilation/ventilation_optimizer.py:63-107 | returns the class-data pair for the stored averages without changing the object |
| `Optimizer.VentilationOptimizer.CalculateComfortScore` | smart_ventilation/ventilation_optimizer.py:109-150 | when the object holds the optimal ranges, the result is the rubric score under the optimal ranges and lies in [20, 100] |
| `Optimizer.VentilationOptimizer.GetCompetitionData` | smart_ventilation/ventilation_optimizer.py:156-199 | when the object holds the optimal ranges, returns the assembled competition for the stored averages, never the fixed fallback, and changes nothing |
| `Optimizer.RepeatedQueries` | smart_ventilation/ventilation_optimizer.py:91-97 | two queries on one optimizer give the same competition; after a failed load team B carries 22.0 / 600.0 / 50.0 |

## Left out

- CSV reading (`pd.read_csv`, `os.path.join`, `pd.to_datetime` on the time column): file I/O and a foreign library. The model receives the loaded frames or a load failure as a `LoadOutcome`.
- The `time` column of each frame: it is parsed on load and never read afterwards.
- `logging` calls: side effects only.
- The MQTT client's duck-typed access (`hasattr`, truthiness of `.get`): replaced by an explicit optional map of optional sample series. A series value that is not a list is not modelled.
- History.ColumnMean: an empty numeric column makes pandas return NaN without raising. NaN is not modelled, so the model treats an empty column as a failed average, which gives the defaults.
- History.Mean: pandas' NaN skipping and floating-point rounding of the mean are not modelled; the mean is exact `real` arithmetic.
- `calculate_comfort_score`'s exception branch, which returns 50: with typed `real` inputs it cannot be reached, so it is not modelled. Scores use exact reals, not floats.
- `datasets_path` and the unused `numpy`, `random`, `datetime` and `timedelta` imports.
