/** Metric declarations of an evaluation plan. */
module Metrics {
  import opened Prelude
  import opened Plans

  datatype Category = Physical | Performance

  datatype Direction = Minimize | Maximize | Target

  datatype Aggregation = Least | Greatest

  datatype Normalization = Ratio | SaturatingRatio | Db20 | TargetDistance | Degradation

  /** A reference to one measurement of one job. */
  datatype Observation = Observation(job: Id, name: Id)

  datatype Metric = Metric(
    id: Id, category: Category, observations: seq<Observation>, unit: string, direction: Direction,
    aggregation: Aggregation, lower: Option<real>, upper: Option<real>, dimension: Option<string>,
    baseline: seq<Observation>, normalization: Option<Normalization>, scale: Option<real>, qualityTarget: Option<real>)

  /** The declared bounds admit the value. */
  predicate Within(metric: Metric, value: real) {
    && (metric.lower.Some? ==> value >= metric.lower.value)
    && (metric.upper.Some? ==> value <= metric.upper.value)
  }
}
