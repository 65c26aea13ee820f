# Water-quality telemetry engine

This project models the synthetic telemetry engine of a water-quality monitoring dashboard
and proves properties of it. Its parts:

- **The metric table.** Five metrics (pH, turbidity, salinity, dissolved oxygen,
  temperature). Each has hard bounds, an optimal band and a unit.
- **The reading generator.** A biased random walk per metric. Each step adds the stored
  trend and a bounded random change to the stored baseline. The step may resample the
  trend, clamps the value to `[min + 1, max - 1]` and writes it back as the new baseline.
- **The device registry.** Three stations, each with its own generator seeded with
  station-specific baselines. Requests for an unknown station fail.
- **The classifiers.** Per-metric status (normal / warning / critical) and trend
  (up / down / stable).
- **The dashboard's state logic.** The overall status, the timer tick (current becomes
  previous, and the history window slides) and the station-selection handler.

The modules:

| module | file | what it holds |
|---|---|---|
| `Metrics` | `metrics.dfy` | `Metric`, the per-metric record `PerMetric<T>`, `Reading`, the metric table `Config` and the step sizes `MaxChange` |
| `Walk` | `walk.dfy` | the random walk as functions of a generator state and the draws: one metric (`WalkValue`, `NextTrend`, `Update`), one reading (`Next`), many readings (`Advance`, `Trace`), and the lemmas about them |
| `Generator` | `generator.dfy` | the class `DataGenerator`, whose fields `baseValues` and `trends` are updated in place and whose methods are proved against `Walk`; the history functions |
| `Devices` | `devices.dfy` | the station table, `DeviceInfo`, and the class `MultiDeviceDataGenerator` holding a `map` from id to generator |
| `Classification` | `classification.dfy` | `GetStatus` and `GetTrend`, with characterisations by an independent definition |
| `Dashboard` | `dashboard.dfy` | the overall status, the sliding window, and the class `Dashboard` holding the state cells and the two handlers |

How the inputs are modelled:

- Numbers are `real`.
- Every `Math.random()` result is a caller-supplied value of the subset type
  `Walk.Unit` (a real in `[0, 1)`). A `Draw` holds the three draws one `updateValue`
  call may consume. A `StatusDraw` holds the draws of one row of `getDeviceInfo`.
- The clock is an `int` parameter `now`, in milliseconds.

## Model

| member | source | states |
|---|---|---|
| `Metrics.Config` | src/utils/dataGenerator.ts:17-23 | every metric satisfies `min <= optimal.min < optimal.max <= max` (the lower end may touch, as for turbidity), and the clamp range `[min + 1, max - 1]` is non-empty |
| `Metrics.MaxChange` | src/utils/dataGenerator.ts:49-53 | every step size `generateReading` passes is positive and at most 0.3 |
| `Walk.Clamp` | src/utils/dataGenerator.ts:78 | `Math.max(lo, Math.min(hi, x))` lies in `[lo, hi]`, is `x` when `x` is inside, and is the nearer end otherwise |
| `Walk.NewTrend` | src/utils/dataGenerator.ts:42 | a drawn trend lies in `[-0.01, 0.01)` |
| `Walk.RandomChange` | src/utils/dataGenerator.ts:67 | the random change lies in `[-maxChange/2, maxChange/2)` |
| `Walk.WalkValue` | src/utils/dataGenerator.ts:64-80 | the walked value lies in the clamp range, and when the old baseline lies there it moves by at most `|trend| + maxChange/2` |
| `Walk.NextTrend` | src/utils/dataGenerator.ts:73-75 | the trend changes only when the flip draw is below 0.05, and a bounded trend stays in `[-0.01, 0.01)` |
| `Walk.Update` | src/utils/dataGenerator.ts:60-82 | one `updateValue(m)` replaces the baseline of `m` by the walked value (computed with the OLD trend) and the trend by the next trend; every other metric is untouched |
| `Walk.Next` | src/utils/dataGenerator.ts:47-58 | after one reading every metric lies in its clamp range, and bounded trends stay bounded |
| `Walk.SequentialUpdatesAreNext` | src/utils/dataGenerator.ts:47-58 | the five updates run one after another give the same state as every metric walking from the old state, because each update touches only its own metric |
| `Walk.Advance` | src/utils/dataGenerator.ts:88-92 | after one or more readings every metric lies in its clamp range; being in range and having bounded trends are preserved |
| `Walk.AdvanceConcat` | src/utils/dataGenerator.ts:84-95 | running the draws `a` and then `b` is running `a + b`, so the walk continues across calls |
| `Walk.TraceAt` | src/utils/dataGenerator.ts:88-92 | entry `k` of the trace is the baseline after step `k` (the walk is cumulative), so it lies in the clamp range |
| `Walk.StepBounded` | src/utils/dataGenerator.ts:67-78 | with bounded trends, one step moves an in-range metric by at most `0.01 + maxChange/2` |
| `Walk.SuccessiveValuesBounded` | src/utils/dataGenerator.ts:88-92 | successive values of a history differ by at most `0.01 + maxChange/2` per metric, and so does the first value from an in-range start |
| `Generator.InitialTrends` | src/utils/dataGenerator.ts:40-44 | a fresh generator draws one trend per metric, each `(r - 0.5) * 0.02` and in `[-0.01, 0.01)` |
| `Generator.DefaultBaselinesInRange` | src/utils/dataGenerator.ts:30-36 | the baselines every fresh generator starts from lie in every clamp range |
| `Generator.History` | src/utils/dataGenerator.ts:84-95 | a history built from `n` draws has `n` readings |
| `Generator.HistoryAt` | src/utils/dataGenerator.ts:88-91 | reading `k` carries the values of step `k` and the time stamp `now - (points - 1 - k) * 60000` |
| `Generator.HistoryEvenlySpaced` | src/utils/dataGenerator.ts:90 | successive time stamps are exactly 60000 ms apart, so they strictly increase |
| `Generator.HistoryEndsNow` | src/utils/dataGenerator.ts:90 | the last reading of a `points`-point history is stamped `now` |
| `Generator.DataGenerator.constructor` | src/utils/dataGenerator.ts:29-45 | the generator starts from the default baselines (pH 7.2, turbidity 2.5, salinity 32.8, dissolved oxygen 8.5, temperature 24.2), with one drawn trend per metric (the time-stamp key is skipped), so its trends are bounded |
| `Generator.DataGenerator.OverrideBaseValues` | src/utils/dataGenerator.ts:124-126 | writing a station's baselines key by key replaces all five baselines and keeps the drawn trends, so the generator stays valid |
| `Generator.DataGenerator.UpdateValue` | src/utils/dataGenerator.ts:60-82 | the time-stamp key returns 0 and changes nothing; a metric key performs `Walk.Update` on the fields and returns the new stored baseline, which lies in the clamp range |
| `Generator.DataGenerator.GenerateReading` | src/utils/dataGenerator.ts:47-58 | the fields step by `Walk.Next`, and the reading carries the new baselines |
| `Generator.DataGenerator.GenerateHistoricalData` | src/utils/dataGenerator.ts:84-95 | the count-down loop returns `Generator.History`, i.e. `max(points, 0)` readings; the fields advance by exactly that many steps, so a second call continues from where the first stopped |
| `Devices.TimeClip` | src/utils/dataGenerator.ts:137 | a `Date` built from a fractional time is cut toward zero, to within one millisecond |
| `Devices.LastSeen` | src/utils/dataGenerator.ts:137 | a last-seen time lies in the five minutes up to `now` |
| `Devices.ConnectivityOf` | src/utils/dataGenerator.ts:136 | online iff the first draw exceeds 0.1; warning iff it does not and the second draw exceeds 0.5; offline iff neither |
| `Devices.DeviceInfo` | src/utils/dataGenerator.ts:131-139 | one row per station in table order, with the station's id, name and location; online iff the first draw exceeds 0.1, otherwise warning iff the second exceeds 0.5 (else offline); a last-seen time in the last five minutes |
| `Devices.TableIds` | src/utils/dataGenerator.ts:102-118 | the station table lists exactly the three known ids, each once |
| `Devices.SeededStatesInRange` | src/utils/dataGenerator.ts:102-126 | every station's seeded baselines lie in the clamp range, and its drawn trends are bounded |
| `Devices.NewStationGenerator` | src/utils/dataGenerator.ts:122-126 | a station's generator is fresh and valid, starts from that station's baselines, and keeps the trends its constructor drew |
| `Devices.MultiDeviceDataGenerator.constructor` | src/utils/dataGenerator.ts:120-129 | one fresh generator per station, keyed by its id, started from the station's baselines; no two stations share a generator |
| `Devices.MultiDeviceDataGenerator.GenerateReading` | src/utils/dataGenerator.ts:141-147 | fails with `DeviceNotFound` exactly for an unknown id; for a known id that station's generator steps once and every other station is untouched |
| `Devices.MultiDeviceDataGenerator.GenerateHistoricalData` | src/utils/dataGenerator.ts:149-155 | fails with `DeviceNotFound` exactly for an unknown id; for a known id it returns that station's history, that station advances, and every other station is untouched |
| `Classification.DistanceFromOptimal` | src/utils/dataGenerator.ts:161 | the distance from the optimal band is non-negative, and zero exactly inside the band |
| `Classification.GetStatus` | src/utils/dataGenerator.ts:160-175 | normal iff the value is in the optimal band; warning iff it lies outside but within 20% of the band's width; critical iff farther |
| `Classification.SeverityMonotone` | src/utils/dataGenerator.ts:160-175 | a value farther from the optimal band never has a milder status |
| `Classification.EveryStatusReachable` | src/utils/dataGenerator.ts:160-175 | on every metric, each status is taken by some value in the clamp range |
| `Classification.PHExamples` | src/utils/dataGenerator.ts:160-175 | pH 7.0 is normal, 8.9 is warning, and 9.0 is critical (above 8.5 + 0.4) |
| `Classification.GetTrend` | src/utils/dataGenerator.ts:177-183 | up iff the value rose by at least 0.01, down iff it fell by at least 0.01, stable iff it moved by less |
| `Classification.TrendAntisymmetric` | src/utils/dataGenerator.ts:177-183 | swapping the two values swaps up and down and keeps stable |
| `Classification.TrendExamples` | src/utils/dataGenerator.ts:177-183 | equal values are stable; a rise of 0.02 is up; a fall of 0.02 is down |
| `Dashboard.StatusesOf` | src/App.tsx:60-66 | five statuses, one per metric: every metric's status is among them, and every entry is some metric's status |
| `Dashboard.Aggregate` | src/App.tsx:68-71 | critical iff some status is critical; warning iff none is critical and one is warning; excellent iff all are normal; `good` never comes out |
| `Dashboard.OverallOf` | src/App.tsx:59-72 | a reading is overall critical exactly when one of its five metrics is critical, whatever the others are; excellent exactly when all five are normal; warning exactly when none is critical and one is warning |
| `Dashboard.Slide` | src/App.tsx:46-49 | `[...h.slice(1), x]` on a non-empty window keeps its length, ends with `x` and shifts every other entry down by one; on an empty window it is `[x]` |
| `Dashboard.SlideAllKeepsLatest` | src/App.tsx:46-49 | after any number of ticks the window holds the latest `|h|` readings, oldest first |
| `Dashboard.Dashboard.constructor` | src/App.tsx:16-27 | the initial state: the device list, `device-001` selected, and current, previous and history drawn from `device-001` in that order |
| `Dashboard.Dashboard.Tick` | src/App.tsx:41-53 | previous becomes the old current; the selected station steps once for the new current reading; the window slides by it; the device list is redrawn; other stations are untouched |
| `Dashboard.Dashboard.HandleDeviceSelect` | src/App.tsx:29-38 | the new station is selected, steps once for the current reading and then backfills a fresh 20-point history; previous becomes the old current (of the previously selected station); other stations are untouched |

## Left out

- Rendering (the JSX and the card, chart, selector and indicator components) is not modelled.
  It is layout and colour with no state logic.
- React scheduling is not modelled. That covers `useState`, `useEffect`, `setInterval` and the
  30-second timer. Each handler is one method call, and its setters take effect together when it
  returns.
- The `useState` initial values are re-evaluated on every render. Each render therefore draws
  from `device-001` again, advancing its generator by two readings and a 20-point history, and
  the results are discarded. This follows from React's render cycle rather than from the handlers
  themselves, so it is not modelled.
- The singletons `dataGenerator` and `multiDeviceGenerator` are not modelled as module state.
  Generators and registries are constructed explicitly, and the registry is passed to each
  dashboard handler.
- The `(generator as any).baseValues` override writes a private field from outside the class.
  It is modelled as the method `OverrideBaseValues` of the generator, which the registry calls.
- `getDeviceInfo` reads `Date.now()` once per row. The model stamps all three rows from the
  one `now` of the call, so it does not capture the clock moving between rows.
- `Date`, `toLocaleTimeString` and `toLocaleString` are not modelled. Times are integer
  milliseconds, and `lastUpdate` is the `now` of the handler.
- Floating point is not modelled; values are exact reals. Near a threshold, IEEE arithmetic can
  differ. For example, `getTrend(5.01, 5.00)` computes a difference just below 0.01 in
  doubles and says stable, while the model says up.
- Probabilities are not stated. Only facts that hold for every draw in `[0, 1)` are proved.
- `points` is taken as an integer. The source's default parameter (20) is the dashboard's
  explicit `Devices.DefaultHistoryPoints`.
- Dashboard.Dashboard.HandleDeviceSelect: requires a known station id. The selector only
  offers ids from `getDeviceInfo`, and the registry's error path for an unknown id is modelled
  in `Devices.MultiDeviceDataGenerator.GenerateReading`.
- The optimal band's lower end is allowed to equal the hard minimum. The table has turbidity
  with `optimal.min == min == 0`, so `Metrics.Config` states `min <= optimal.min` (not `<`).
