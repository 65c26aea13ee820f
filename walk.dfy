/** The per-metric biased random walk of a reading generator, as functions of the
    generator state and the random draws. The class in module Generator is proved
    against these functions. */
module Walk {
  import opened Metrics

  /** A `Math.random()` result: a real in [0, 1). */
  type Unit = r: real | 0.0 <= r < 1.0

  /** The `Math.random()` results one `updateValue` call may consume: `change` for the
      random step, `flip` for the decision to resample the trend, and `newTrend` for the
      resampled trend (consumed only when `flip` is below the resample chance). */
  datatype Draw = Draw(change: Unit, flip: Unit, newTrend: Unit)

  /** A trend is resampled when the flip draw is below this. */
  const TrendFlipChance: real := 0.05

  /** Largest trend magnitude: trends lie in [-TrendBound, TrendBound). */
  const TrendBound: real := 0.01

  function Abs(x: real): real {
    if x < 0.0 then -x else x
  }

  /** `Math.max(lo, Math.min(hi, x))`. */
  function Clamp(x: real, lo: real, hi: real): (y: real)
    ensures lo <= y
    ensures lo <= hi ==> y <= hi
    ensures lo <= x <= hi ==> y == x
    ensures lo <= hi && x < lo ==> y == lo
    ensures lo <= hi && hi < x ==> y == hi
  {
    var upper := if hi < x then hi else x;
    if lo < upper then upper else lo
  }

  /** A freshly drawn trend, `(r - 0.5) * 0.02`. */
  function NewTrend(r: Unit): (t: real)
    ensures -TrendBound <= t < TrendBound
  {
    (r - 0.5) * 0.02
  }

  /** The random part of one step, `(r - 0.5) * maxChange`. */
  function RandomChange(r: Unit, maxChange: real): (c: real)
    requires 0.0 < maxChange
    ensures -maxChange / 2.0 <= c < maxChange / 2.0
  {
    UnitOffsetScaled(r, maxChange);
    (r - 0.5) * maxChange
  }

  lemma UnitOffsetScaled(r: Unit, k: real)
    requires 0.0 < k
    ensures -k / 2.0 <= (r - 0.5) * k < k / 2.0
  {
  }

  /** The clamp range of a metric: a hard bound plus or minus one. */
  function ClampLow(m: Metric): real {
    Config(m).min + 1.0
  }

  function ClampHigh(m: Metric): real {
    Config(m).max - 1.0
  }

  predicate InClampRange(m: Metric, v: real) {
    ClampLow(m) <= v <= ClampHigh(m)
  }

  /** The value one step of the walk produces for metric `m`: baseline plus the OLD
      trend plus the random change, clamped. It lands in the clamp range, and when the
      baseline is already there it moves by at most the trend plus half the step size. */
  function WalkValue(m: Metric, base: real, trend: real, maxChange: real, d: Draw): (v: real)
    requires 0.0 < maxChange
    ensures InClampRange(m, v)
    ensures InClampRange(m, base) ==> Abs(v - base) <= Abs(trend) + maxChange / 2.0
  {
    Clamp(base + trend + RandomChange(d.change, maxChange), ClampLow(m), ClampHigh(m))
  }

  /** The trend after one step: resampled only when the flip draw is below the
      resample chance, and bounded whenever it was bounded before. */
  function NextTrend(trend: real, d: Draw): (t: real)
    ensures t != trend ==> d.flip < TrendFlipChance
    ensures -TrendBound <= trend < TrendBound ==> -TrendBound <= t < TrendBound
  {
    if d.flip < TrendFlipChance then NewTrend(d.newTrend) else trend
  }

  /** A generator's state: the current baseline and the current trend of each metric. */
  datatype GenState = GenState(baseValues: PerMetric<real>, trends: PerMetric<real>)

  ghost predicate TrendsBounded(s: GenState) {
    forall m :: -TrendBound <= s.trends.Get(m) < TrendBound
  }

  ghost predicate InRange(s: GenState) {
    forall m :: InClampRange(m, s.baseValues.Get(m))
  }

  /** One `updateValue(m, maxChange)` call on a state: only the entries of `m` change,
      the baseline to the walked value and the trend to the next trend. */
  function Update(s: GenState, m: Metric, maxChange: real, d: Draw): (s': GenState)
    requires 0.0 < maxChange
    ensures s'.baseValues.Get(m) == WalkValue(m, s.baseValues.Get(m), s.trends.Get(m), maxChange, d)
    ensures s'.trends.Get(m) == NextTrend(s.trends.Get(m), d)
    ensures forall n :: n != m ==> s'.baseValues.Get(n) == s.baseValues.Get(n) && s'.trends.Get(n) == s.trends.Get(n)
  {
    var v := WalkValue(m, s.baseValues.Get(m), s.trends.Get(m), maxChange, d);
    GenState(s.baseValues.With(m, v), s.trends.With(m, NextTrend(s.trends.Get(m), d)))
  }

  /** One `generateReading` step: every metric walks from the old state with its own
      draw and step size, and the new state is in range with bounded trends whenever
      the old trends were bounded. */
  function Next(s: GenState, ds: PerMetric<Draw>): (s': GenState)
    ensures InRange(s')
    ensures TrendsBounded(s) ==> TrendsBounded(s')
  {
    GenState(
      PerMetric(Walked(s, ds, PH), Walked(s, ds, Turbidity), Walked(s, ds, Salinity),
                Walked(s, ds, DissolvedOxygen), Walked(s, ds, Temperature)),
      PerMetric(Trended(s, ds, PH), Trended(s, ds, Turbidity), Trended(s, ds, Salinity),
                Trended(s, ds, DissolvedOxygen), Trended(s, ds, Temperature)))
  }

  function Walked(s: GenState, ds: PerMetric<Draw>, m: Metric): real
  {
    WalkValue(m, s.baseValues.Get(m), s.trends.Get(m), MaxChange(m), ds.Get(m))
  }

  function Trended(s: GenState, ds: PerMetric<Draw>, m: Metric): real
  {
    NextTrend(s.trends.Get(m), ds.Get(m))
  }

  /** `generateReading` runs the five updates one after another, each on the state the
      previous one left; since an update touches only its own metric, the result is the
      step in which every metric walks from the old state. */
  lemma SequentialUpdatesAreNext(s: GenState, ds: PerMetric<Draw>)
    ensures Update(Update(Update(Update(Update(s,
              PH, MaxChange(PH), ds.Get(PH)),
              Turbidity, MaxChange(Turbidity), ds.Get(Turbidity)),
              Salinity, MaxChange(Salinity), ds.Get(Salinity)),
              DissolvedOxygen, MaxChange(DissolvedOxygen), ds.Get(DissolvedOxygen)),
              Temperature, MaxChange(Temperature), ds.Get(Temperature))
            == Next(s, ds)
  {
  }

  /** The state after one step per element of `dss`, in order. */
  function Advance(s: GenState, dss: seq<PerMetric<Draw>>): (s': GenState)
    ensures dss != [] ==> InRange(s')
    ensures InRange(s) ==> InRange(s')
    ensures TrendsBounded(s) ==> TrendsBounded(s')
    decreases |dss|
  {
    if dss == [] then s else Next(Advance(s, dss[..|dss| - 1]), dss[|dss| - 1])
  }

  /** Running one more step is one more `Next`. */
  lemma AdvanceSnoc(s: GenState, dss: seq<PerMetric<Draw>>, k: nat)
    requires k < |dss|
    ensures Advance(s, dss[..k + 1]) == Next(Advance(s, dss[..k]), dss[k])
  {
    assert dss[..k + 1][..k] == dss[..k];
  }

  /** The metric values returned by the steps of `dss`, one entry per step. */
  function Trace(s: GenState, dss: seq<PerMetric<Draw>>): (vs: seq<PerMetric<real>>)
    ensures |vs| == |dss|
    decreases |dss|
  {
    if dss == [] then [] else Trace(s, dss[..|dss| - 1]) + [Advance(s, dss).baseValues]
  }

  /** Entry k of a trace is the baseline after step k (the walk is cumulative), so it
      lies in the clamp range. */
  lemma {:induction false} TraceAt(s: GenState, dss: seq<PerMetric<Draw>>, k: nat)
    requires k < |dss|
    ensures Trace(s, dss)[k] == Advance(s, dss[..k + 1]).baseValues
    ensures forall m :: InClampRange(m, Trace(s, dss)[k].Get(m))
    decreases |dss|
  {
    var init := dss[..|dss| - 1];
    if k < |init| {
      TraceAt(s, init, k);
      assert init[..k + 1] == dss[..k + 1];
    } else {
      assert dss[..k + 1] == dss;
    }
  }

  /** Steps compose: running `a` and then `b` is running `a + b`. */
  lemma {:induction false} AdvanceConcat(s: GenState, a: seq<PerMetric<Draw>>, b: seq<PerMetric<Draw>>)
    ensures Advance(Advance(s, a), b) == Advance(s, a + b)
    decreases |b|
  {
    if b == [] {
      assert a + b == a;
    } else {
      var init := b[..|b| - 1];
      AdvanceConcat(s, a, init);
      assert (a + b)[..|a + b| - 1] == a + init;
    }
  }

  /** One step moves a metric that starts in range by at most the trend bound plus half
      its step size, when the trends are bounded. */
  lemma StepBounded(t: GenState, ds: PerMetric<Draw>, m: Metric)
    requires TrendsBounded(t) && InClampRange(m, t.baseValues.Get(m))
    ensures Abs(Next(t, ds).baseValues.Get(m) - t.baseValues.Get(m)) <= TrendBound + MaxChange(m) / 2.0
  {
  }

  /** Entry k of a trace is the value of step k taken from the state after the first
      k steps. */
  lemma TraceStep(s: GenState, dss: seq<PerMetric<Draw>>, k: nat)
    requires k < |dss|
    ensures Trace(s, dss)[k] == Next(Advance(s, dss[..k]), dss[k]).baseValues
  {
    TraceAt(s, dss, k);
    AdvanceSnoc(s, dss, k);
  }

  /** The value before step k, the start value for k = 0, is the baseline of the state
      after the first k steps. */
  lemma TracePrevious(s: GenState, dss: seq<PerMetric<Draw>>, k: nat)
    requires k < |dss|
    ensures (if k == 0 then s.baseValues else Trace(s, dss)[k - 1]) == Advance(s, dss[..k]).baseValues
  {
    if k == 0 {
      assert dss[..0] == [];
    } else {
      TraceAt(s, dss, k - 1);
    }
  }

  /** The step bound between successive values of a trace: once the trends are bounded,
      no metric moves by more than the trend bound plus half its step size, the first
      step included when the start state is in range. */
  lemma {:induction false} SuccessiveValuesBounded(s: GenState, dss: seq<PerMetric<Draw>>, k: nat, m: Metric)
    requires TrendsBounded(s)
    requires k < |dss| && (0 < k || InRange(s))
    ensures var prev := if k == 0 then s.baseValues else Trace(s, dss)[k - 1];
            Abs(Trace(s, dss)[k].Get(m) - prev.Get(m)) <= TrendBound + MaxChange(m) / 2.0
  {
    var before := Advance(s, dss[..k]);
    TraceStep(s, dss, k);
    TracePrevious(s, dss, k);
    assert k == 0 ==> before == s by {
      if k == 0 { assert dss[..k] == []; }
    }
    StepBounded(before, dss[k], m);
  }
}
