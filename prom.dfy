/**
 * The parts of the Prometheus client library the exporter relies on, as plain
 * records: metric descriptors, constant metrics and fully-qualified names.
 */
module Prom {

  /** A metric descriptor (prometheus.NewDesc). */
  datatype Desc = Desc(fqName: string, help: string, variableLabels: seq<string>, constLabels: map<string, string>)

  function NewDesc(fqName: string, help: string, variableLabels: seq<string>, constLabels: map<string, string>): Desc
  {
    Desc(fqName, help, variableLabels, constLabels)
  }

  /** prometheus.BuildFQName: joins the non-empty parts with '_'; an empty name gives "". */
  function BuildFQName(namespace: string, subsystem: string, name: string): (r: string)
    ensures name == [] ==> r == []
    ensures name != [] && namespace != [] && subsystem != [] ==> r == namespace + "_" + subsystem + "_" + name
    ensures name != [] && namespace != [] && subsystem == [] ==> r == namespace + "_" + name
  {
    if name == [] then []
    else if namespace != [] && subsystem != [] then namespace + "_" + subsystem + "_" + name
    else if namespace != [] then namespace + "_" + name
    else if subsystem != [] then subsystem + "_" + name
    else name
  }

  /** For a fixed namespace and subsystem, distinct names give distinct full names. */
  lemma BuildFQNameInjective(namespace: string, subsystem: string, a: string, b: string)
    requires a != [] && b != []
    ensures BuildFQName(namespace, subsystem, a) == BuildFQName(namespace, subsystem, b) <==> a == b
  {
    var p := if namespace != [] && subsystem != [] then namespace + "_" + subsystem + "_"
             else if namespace != [] then namespace + "_"
             else if subsystem != [] then subsystem + "_"
             else [];
    assert BuildFQName(namespace, subsystem, a) == p + a;
    assert BuildFQName(namespace, subsystem, b) == p + b;
    if p + a == p + b {
      assert a == (p + a)[|p|..];
      assert b == (p + b)[|p|..];
    }
  }

  datatype ValueType = CounterValue | GaugeValue

  /**
   * A sample value. Counters carry the exact unsigned integer that was decoded; a gauge
   * computed as a quotient is kept as the exact pair of integers it is computed from,
   * since floating point is not modelled.
   */
  datatype Value = Count(n: nat) | Ratio(num: nat, den: nat)

  /** A constant metric: a descriptor, a value and one value per variable label. */
  datatype Metric = Metric(desc: Desc, valueType: ValueType, value: Value, labelValues: seq<string>)

  /**
   * prometheus.MustNewConstMetric: panics unless there is exactly one label value
   * per variable label of the descriptor.
   */
  function MustNewConstMetric(desc: Desc, valueType: ValueType, value: Value, labelValues: seq<string>): (m: Metric)
    requires |labelValues| == |desc.variableLabels|
    ensures m.desc == desc && m.value == value && m.labelValues == labelValues
    ensures |m.labelValues| == |m.desc.variableLabels|
  {
    Metric(desc, valueType, value, labelValues)
  }
}
