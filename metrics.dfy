/** The five water-quality metrics, the per-metric record every reading and every
    generator state is built from, and the static table of metric bounds. */
module Metrics {

  /** The five metrics a reading carries, in the order the source lists them. */
  datatype Metric = PH | Turbidity | Salinity | DissolvedOxygen | Temperature

  /** One value per metric: the metric fields of a reading, a generator's baselines or
      trends, or the random draws of one step. */
  datatype PerMetric<T> = PerMetric(pH: T, turbidity: T, salinity: T, dissolvedOxygen: T, temperature: T)
  {
    function Get(m: Metric): T {
      match m
      case PH => pH
      case Turbidity => turbidity
      case Salinity => salinity
      case DissolvedOxygen => dissolvedOxygen
      case Temperature => temperature
    }

    /** The record with the entry for `m` replaced by `v`. */
    function With(m: Metric, v: T): (r: PerMetric<T>)
      ensures r.Get(m) == v
      ensures forall n :: n != m ==> r.Get(n) == Get(n)
    {
      match m
      case PH => this.(pH := v)
      case Turbidity => this.(turbidity := v)
      case Salinity => this.(salinity := v)
      case DissolvedOxygen => this.(dissolvedOxygen := v)
      case Temperature => this.(temperature := v)
    }
  }

  /** A water-quality reading: five metric values and a time stamp in milliseconds. */
  datatype Reading = Reading(values: PerMetric<real>, timestamp: int)

  /** Hard bounds of a metric and its optimal ("healthy") band. */
  datatype MetricConfig = MetricConfig(min: real, max: real, optimalMin: real, optimalMax: real, unit: string)

  /** The static metric table. The lower end of the optimal band may touch the hard
      minimum (turbidity), the upper end never passes the hard maximum, and the range
      the generator clamps to, [min + 1, max - 1], is never empty. */
  function Config(m: Metric): (c: MetricConfig)
    ensures c.min <= c.optimalMin < c.optimalMax <= c.max
    ensures c.min + 1.0 < c.max - 1.0
  {
    match m
    case PH => MetricConfig(0.0, 14.0, 6.5, 8.5, "pH")
    case Turbidity => MetricConfig(0.0, 100.0, 0.0, 5.0, "NTU")
    case Salinity => MetricConfig(0.0, 50.0, 30.0, 35.0, "ppt")
    case DissolvedOxygen => MetricConfig(0.0, 20.0, 6.0, 12.0, "mg/L")
    case Temperature => MetricConfig(0.0, 40.0, 20.0, 28.0, "°C")
  }

  /** The step size `generateReading` passes to `updateValue` for each metric. */
  function MaxChange(m: Metric): (c: real)
    ensures 0.0 < c <= 0.3
  {
    match m
    case PH => 0.05
    case Turbidity => 0.3
    case Salinity => 0.2
    case DissolvedOxygen => 0.1
    case Temperature => 0.3
  }
}
