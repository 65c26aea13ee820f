/** The classifiers the dashboard applies to readings: a metric value's status against
    its optimal band, and the direction of change between two values. */
module Classification {
  import opened Metrics
  import opened Walk

  datatype Status = Normal | Warning | Critical

  datatype Trend = Up | Down | Stable

  /** How far the warning band reaches beyond each end of the optimal band, as a
      fraction of the optimal band's width. */
  const WarningThreshold: real := 0.2

  /** Changes smaller than this count as stable. */
  const TrendThreshold: real := 0.01

  /** `getStatus(value, config)`: normal inside the optimal band, warning inside the
      band widened by 20% of its width on each side, critical elsewhere. Read off the
      distance from the optimal band: inside is normal, within 20% of the band's width
      is warning, farther is critical. */
  function GetStatus(value: real, config: MetricConfig): (s: Status)
    ensures config.optimalMin <= config.optimalMax ==>
              var d := DistanceFromOptimal(value, config);
              var w := config.optimalMax - config.optimalMin;
              && (s == Normal <==> d == 0.0)
              && (s == Warning <==> 0.0 < d <= WarningThreshold * w)
              && (s == Critical <==> WarningThreshold * w < d)
  {
    if config.optimalMin <= value && value <= config.optimalMax then Normal
    else
      var optimalRange := config.optimalMax - config.optimalMin;
      var lowerWarning := config.optimalMin - optimalRange * WarningThreshold;
      var upperWarning := config.optimalMax + optimalRange * WarningThreshold;
      if lowerWarning <= value && value <= upperWarning then Warning else Critical
  }

  /** How far `value` lies outside the optimal band (0 inside it). */
  function DistanceFromOptimal(value: real, config: MetricConfig): (d: real)
    ensures 0.0 <= d
    ensures d == 0.0 <==> config.optimalMin <= value <= config.optimalMax
  {
    if value < config.optimalMin then config.optimalMin - value
    else if config.optimalMax < value then value - config.optimalMax
    else 0.0
  }

  function Severity(s: Status): nat {
    match s
    case Normal => 0
    case Warning => 1
    case Critical => 2
  }

  /** Severity never decreases as a value moves away from the optimal band. */
  lemma SeverityMonotone(v: real, u: real, config: MetricConfig)
    requires config.optimalMin <= config.optimalMax
    requires DistanceFromOptimal(v, config) <= DistanceFromOptimal(u, config)
    ensures Severity(GetStatus(v, config)) <= Severity(GetStatus(u, config))
  {
  }

  /** On every metric, each of the three statuses is taken by some value the generator
      can produce, so none of the classes is dead. */
  lemma EveryStatusReachable(m: Metric, s: Status)
    ensures exists v :: InClampRange(m, v) && GetStatus(v, Config(m)) == s
  {
    var c := Config(m);
    var w := c.optimalMax - c.optimalMin;
    var v := match s
      case Normal => c.optimalMax
      case Warning => c.optimalMax + w / 10.0
      case Critical => c.max - 1.0;
    assert InClampRange(m, v) && GetStatus(v, c) == s;
  }

  /** pH 7.0 is normal and pH 9.0 is critical, since 9.0 lies above 8.5 + 0.2 * 2 = 8.9. */
  lemma PHExamples()
    ensures GetStatus(7.0, Config(PH)) == Normal
    ensures GetStatus(8.9, Config(PH)) == Warning
    ensures GetStatus(9.0, Config(PH)) == Critical
  {
  }

  /** `getTrend(current, previous)`: stable when the values differ by less than 0.01;
      otherwise up when the value rose and down when it fell. */
  function GetTrend(current: real, previous: real): (t: Trend)
    ensures t == Up <==> current - previous >= TrendThreshold
    ensures t == Down <==> previous - current >= TrendThreshold
    ensures t == Stable <==> -TrendThreshold < current - previous < TrendThreshold
  {
    var diff := Abs(current - previous);
    if diff < TrendThreshold then Stable
    else if current > previous then Up
    else Down
  }

  function Reverse(t: Trend): Trend {
    match t
    case Up => Down
    case Down => Up
    case Stable => Stable
  }

  /** Swapping the two values reverses the trend: up becomes down and stable stays. */
  lemma TrendAntisymmetric(a: real, b: real)
    ensures GetTrend(b, a) == Reverse(GetTrend(a, b))
  {
  }

  lemma TrendExamples()
    ensures GetTrend(5.00, 5.00) == Stable
    ensures GetTrend(5.02, 5.00) == Up
    ensures GetTrend(4.98, 5.00) == Down
  {
  }
}
