/**
 * The records the client decodes and encodes: hosts of a site, the metric
 * query sent for them and the items of the realtime-data reply, together with
 * the two fixed metric catalogs.
 */
module Records {

  /** One entry of the site's host list: {urn, name, ip}. */
  datatype Host = Host(urn: string, name: string, ip: string)

  /** One entry of the metric query: {urn, metric_id: [...]}. */
  datatype MonitorElement = MonitorElement(urn: string, metricIDs: seq<string>)

  /** The kinds a decoded JSON value other than a string can have. */
  datatype JsonKind = Number | Boolean | Null | Object | Array

  /** A metric_value as decoded into an untyped Go value. */
  datatype MetricValue = StringValue(text: string) | NonString(kind: JsonKind)

  /** {metric_id, metric_value} */
  datatype MetricSample = MetricSample(metricID: string, value: MetricValue)

  /** {object_name, value: [...]} */
  datatype MonitorItem = MonitorItem(objectName: string, values: seq<MetricSample>)

  /** The metrics requested for every host, in declaration order. */
  const HostMetrics: seq<string> := [
    "cpu_usage",
    "mem_usage",
    "nic_byte_in",
    "nic_byte_out",
    "disk_io_in",
    "disk_io_out",
    "logic_disk_usage",
    "vm_mem_usage",
    "vm_mem_total",
    "vm_mem_free",
    "vm_run_num",
    "hosts_vio_in",
    "hosts_vio_out",
    "hosts_vbyte_in",
    "hosts_vbyte_out"
  ]

  /** The virtual-machine catalog: declared, never requested. */
  const VmMetrics: seq<string> := [
    "cpu_usage",
    "mem_usage",
    "mem_free",
    "disk_usage",
    "nic_byte_in",
    "nic_byte_out",
    "nic_byte_in_out",
    "disk_io_in",
    "disk_io_out"
  ]

  /** The two catalogs: 15 and 9 identifiers, each without repetition, and different. */
  lemma CatalogShapes()
    ensures |HostMetrics| == 15 && |VmMetrics| == 9
    ensures forall i, j :: 0 <= i < j < |HostMetrics| ==> HostMetrics[i] != HostMetrics[j]
    ensures forall i, j :: 0 <= i < j < |VmMetrics| ==> VmMetrics[i] != VmMetrics[j]
    ensures HostMetrics != VmMetrics
  {
  }
}
