/** The reading generator of one device: a class whose baselines and trends are updated
    in place by every step, proved against the functions of module Walk. */
module Generator {
  import opened Metrics
  import opened Walk

  /** The keys `updateValue` accepts: a metric, or the reading's time stamp. */
  datatype Field = MetricField(metric: Metric) | TimestampField

  /** The keys of a reading in declaration order, time stamp last. */
  const ReadingKeys: seq<Field> := [MetricField(PH), MetricField(Turbidity), MetricField(Salinity),
                                    MetricField(DissolvedOxygen), MetricField(Temperature), TimestampField]

  function KeyIndex(m: Metric): (j: nat)
    ensures j < |ReadingKeys| && ReadingKeys[j] == MetricField(m)
  {
    match m
    case PH => 0
    case Turbidity => 1
    case Salinity => 2
    case DissolvedOxygen => 3
    case Temperature => 4
  }

  /** The trends a fresh generator draws, one per metric. */
  function InitialTrends(draws: PerMetric<Unit>): (t: PerMetric<real>)
    ensures forall m :: t.Get(m) == NewTrend(draws.Get(m))
    ensures forall m :: -TrendBound <= t.Get(m) < TrendBound
  {
    PerMetric(NewTrend(draws.pH), NewTrend(draws.turbidity), NewTrend(draws.salinity),
              NewTrend(draws.dissolvedOxygen), NewTrend(draws.temperature))
  }

  /** The baselines the generator starts from when no device overrides them. */
  const DefaultBaselines: PerMetric<real> := PerMetric(7.2, 2.5, 32.8, 8.5, 24.2)

  /** The default baselines lie in every metric's clamp range. */
  lemma DefaultBaselinesInRange()
    ensures forall m :: InClampRange(m, DefaultBaselines.Get(m))
  {
  }

  /** Number of milliseconds between two points of a backfilled history. */
  const HistoryIntervalMs: int := 60000

  /** Time stamp of point k of a `points`-point history that ends at `now`. */
  function HistoryTimestamp(now: int, points: int, k: int): int {
    now - (points - 1 - k) * HistoryIntervalMs
  }

  /** Number of readings `generateHistoricalData(points)` returns. */
  function HistoryLength(points: int): nat {
    if points > 0 then points else 0
  }

  /** The readings of a history: the values of the successive steps, stamped one
      interval apart so that the last one is stamped `now`. */
  function History(s: GenState, dss: seq<PerMetric<Draw>>, now: int, points: int): (h: seq<Reading>)
    ensures |h| == |dss|
    decreases |dss|
  {
    if dss == [] then []
    else History(s, dss[..|dss| - 1], now, points) + [Reading(Advance(s, dss).baseValues, HistoryTimestamp(now, points, |dss| - 1))]
  }

  /** Reading k of a history carries entry k of the trace and time stamp k. */
  lemma {:induction false} HistoryAt(s: GenState, dss: seq<PerMetric<Draw>>, now: int, points: int, k: nat)
    requires k < |dss|
    ensures History(s, dss, now, points)[k] == Reading(Trace(s, dss)[k], HistoryTimestamp(now, points, k))
    decreases |dss|
  {
    if k < |dss| - 1 {
      HistoryAt(s, dss[..|dss| - 1], now, points, k);
    }
  }

  /** The time stamps of a history are one interval apart, hence strictly increasing. */
  lemma HistoryEvenlySpaced(s: GenState, dss: seq<PerMetric<Draw>>, now: int, points: int, k: nat)
    requires k + 1 < |dss|
    ensures History(s, dss, now, points)[k + 1].timestamp == History(s, dss, now, points)[k].timestamp + HistoryIntervalMs
    ensures History(s, dss, now, points)[k].timestamp < History(s, dss, now, points)[k + 1].timestamp
  {
  }

  /** A history of `points` readings ends with a reading stamped `now`. */
  lemma HistoryEndsNow(s: GenState, dss: seq<PerMetric<Draw>>, now: int, points: int)
    requires 0 < points && |dss| == HistoryLength(points)
    ensures History(s, dss, now, points)[points - 1].timestamp == now
  {
  }

  /** A history one point longer ends with the reading of the extra step. */
  lemma HistorySnoc(s: GenState, dss: seq<PerMetric<Draw>>, now: int, points: int, k: nat)
    requires k < |dss|
    ensures Advance(s, dss[..k + 1]) == Next(Advance(s, dss[..k]), dss[k])
    ensures History(s, dss[..k + 1], now, points)
            == History(s, dss[..k], now, points) + [Reading(Advance(s, dss[..k + 1]).baseValues, HistoryTimestamp(now, points, k))]
  {
    assert dss[..k + 1][..k] == dss[..k];
  }

  class DataGenerator {
    var baseValues: PerMetric<real>
    var trends: PerMetric<real>

    function State(): GenState
      reads this
    {
      GenState(baseValues, trends)
    }

    ghost predicate Valid()
      reads this
    {
      TrendsBounded(State())
    }

    /** A generator starting from the default baselines, each trend drawn from its own
        draw. The loop walks the reading's keys and skips the time stamp. */
    constructor (trendDraws: PerMetric<Unit>)
      ensures Valid()
      ensures State() == GenState(DefaultBaselines, InitialTrends(trendDraws))
    {
      baseValues := DefaultBaselines;
      var initial := PerMetric(0.0, 0.0, 0.0, 0.0, 0.0);
      for i := 0 to |ReadingKeys|
        invariant forall j :: 0 <= j < i && ReadingKeys[j].MetricField? ==>
                    initial.Get(ReadingKeys[j].metric) == NewTrend(trendDraws.Get(ReadingKeys[j].metric))
      {
        var key := ReadingKeys[i];
        if key != TimestampField {
          initial := initial.With(key.metric, NewTrend(trendDraws.Get(key.metric)));
        }
      }
      assert forall m :: ReadingKeys[KeyIndex(m)] == MetricField(m);
      assert forall m :: initial.Get(m) == InitialTrends(trendDraws).Get(m);
      trends := initial;
    }

    /** The registry's override of the baselines, one metric key at a time; the trends
        drawn by the constructor stay. */
    method OverrideBaseValues(overrides: PerMetric<real>)
      requires Valid()
      modifies this
      ensures Valid()
      ensures State() == GenState(overrides, old(trends))
    {
      for i := 0 to |ReadingKeys| - 1
        invariant trends == old(trends)
        invariant forall j :: 0 <= j < i ==>
                    baseValues.Get(ReadingKeys[j].metric) == overrides.Get(ReadingKeys[j].metric)
      {
        var m := ReadingKeys[i].metric;
        baseValues := baseValues.With(m, overrides.Get(m));
      }
      assert forall m :: KeyIndex(m) < |ReadingKeys| - 1 && ReadingKeys[KeyIndex(m)] == MetricField(m);
      assert forall m :: baseValues.Get(m) == overrides.Get(m);
    }

    /** One walk step of one metric: the returned value is the new baseline, computed
        with the OLD trend; the trend may then be resampled. The time-stamp key
        returns 0 and changes nothing. */
    method UpdateValue(key: Field, maxChange: real, d: Draw) returns (v: real)
      requires Valid() && 0.0 < maxChange
      modifies this
      ensures Valid()
      ensures key == TimestampField ==> v == 0.0 && State() == old(State())
      ensures key.MetricField? ==>
                State() == Update(old(State()), key.metric, maxChange, d) &&
                v == baseValues.Get(key.metric) && InClampRange(key.metric, v)
    {
      if key == TimestampField {
        return 0.0;
      }
      var m := key.metric;
      var config := Config(m);
      var currentValue := baseValues.Get(m);
      var randomChange := RandomChange(d.change, maxChange);
      currentValue := currentValue + trends.Get(m) + randomChange;
      if d.flip < TrendFlipChance {
        trends := trends.With(m, NewTrend(d.newTrend));
      }
      currentValue := Clamp(currentValue, config.min + 1.0, config.max - 1.0);
      baseValues := baseValues.With(m, currentValue);
      v := currentValue;
    }

    /** One reading: every metric steps once, in the source's order, and the reading
        carries the new baselines. */
    method GenerateReading(now: int, ds: PerMetric<Draw>) returns (r: Reading)
      requires Valid()
      modifies this
      ensures Valid()
      ensures State() == Next(old(State()), ds)
      ensures r == Reading(baseValues, now)
    {
      ghost var s := State();
      var pH := UpdateValue(MetricField(PH), MaxChange(PH), ds.Get(PH));
      var turbidity := UpdateValue(MetricField(Turbidity), MaxChange(Turbidity), ds.Get(Turbidity));
      var salinity := UpdateValue(MetricField(Salinity), MaxChange(Salinity), ds.Get(Salinity));
      var dissolvedOxygen := UpdateValue(MetricField(DissolvedOxygen), MaxChange(DissolvedOxygen), ds.Get(DissolvedOxygen));
      var temperature := UpdateValue(MetricField(Temperature), MaxChange(Temperature), ds.Get(Temperature));
      SequentialUpdatesAreNext(s, ds);
      r := Reading(PerMetric(pH, turbidity, salinity, dissolvedOxygen, temperature), now);
    }

    /** A backfilled history of `points` readings ending at `now`: the generator steps
        once per point (so the call is not idempotent) and each reading is restamped. */
    method GenerateHistoricalData(points: int, now: int, dss: seq<PerMetric<Draw>>) returns (data: seq<Reading>)
      requires Valid() && |dss| == HistoryLength(points)
      modifies this
      ensures Valid()
      ensures State() == Advance(old(State()), dss)
      ensures data == History(old(State()), dss, now, points)
    {
      ghost var s := State();
      data := [];
      var i := points - 1;
      while i >= 0
        invariant if points > 0 then -1 <= i && |data| == points - 1 - i else i == points - 1 && data == []
        invariant Valid() && State() == Advance(s, dss[..|data|])
        invariant data == History(s, dss[..|data|], now, points)
        decreases i + 1
      {
        var k := points - 1 - i;
        var reading := GenerateReading(now, dss[k]);
        reading := reading.(timestamp := now - i * HistoryIntervalMs);
        HistorySnoc(s, dss, now, points, k);
        assert reading == Reading(Advance(s, dss[..k + 1]).baseValues, HistoryTimestamp(now, points, k)) by {
          assert points - 1 - k == i;
        }
        data := data + [reading];
        i := i - 1;
      }
      assert dss[..|data|] == dss;
    }
  }
}
