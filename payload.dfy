/** The metric query built from the host list: one entry per host, each asking for the host catalog. */
module Payload {
  import opened Records

  /** The query for hosts, as the loop leaves it once it has seen all of them. */
  function PayloadFor(hosts: seq<Host>): (p: seq<MonitorElement>)
    ensures |p| == |hosts|
    ensures forall i :: 0 <= i < |hosts| ==> p[i].urn == hosts[i].urn && p[i].metricIDs == HostMetrics
  {
    if |hosts| == 0 then []
    else PayloadFor(hosts[..|hosts| - 1]) + [MonitorElement(hosts[|hosts| - 1].urn, HostMetrics)]
  }

  /** The for-range loop appending to L2Obj, starting from an empty, non-nil list. */
  method BuildPayload(hosts: seq<Host>) returns (payload: seq<MonitorElement>)
    ensures payload == PayloadFor(hosts)
  {
    payload := [];
    for i := 0 to |hosts|
      invariant payload == PayloadFor(hosts[..i])
    {
      assert hosts[..i + 1][..i] == hosts[..i];
      payload := payload + [MonitorElement(hosts[i].urn, HostMetrics)];
    }
    assert hosts[..|hosts|] == hosts;
  }

  /** No entry of any query carries the virtual-machine catalog, and no host list yields an error or extra entries. */
  lemma PayloadNeverUsesVmMetrics(hosts: seq<Host>)
    ensures forall e :: e in PayloadFor(hosts) ==> e.metricIDs == HostMetrics && e.metricIDs != VmMetrics
    ensures hosts == [] <==> PayloadFor(hosts) == []
  {
    CatalogShapes();
    var p := PayloadFor(hosts);
    forall e | e in p
      ensures e.metricIDs == HostMetrics
    {
      var i :| 0 <= i < |p| && p[i] == e;
    }
  }
}
