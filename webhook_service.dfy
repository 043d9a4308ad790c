/** GenerateServiceItem of pkg/k8s/webhook.go: reconciling a service reference with the cluster. */
module WebhookService {
  import opened Wrappers
  import opened Seqs
  import opened GoStd
  import opened Cluster
  import opened PrinterModel

  function PortItem(p: ServicePort): PrintServicePortItem
  {
    PrintServicePortItem(p.port, p.targetPort.IntVal(), p.protocol)
  }

  function PortItems(ports: seq<ServicePort>): seq<PrintServicePortItem>
  {
    if ports == [] then [] else PortItems(Init(ports)) + [PortItem(Last(ports))]
  }

  /** The ports of a found service are reported one for one, in order. */
  lemma {:induction false} PortItemsAt(ports: seq<ServicePort>)
    ensures |PortItems(ports)| == |ports|
    ensures forall i :: 0 <= i < |ports| ==>
              PortItems(ports)[i] == PrintServicePortItem(ports[i].port, ports[i].targetPort.IntVal(), ports[i].protocol)
  {
    if ports != [] {
      PortItemsAt(Init(ports));
    }
  }

  /** What is reported for the service `lookup` returned for `namespace`/`name`. */
  function ServiceItem(lookup: Option<Service>, namespace: string, name: string, path: Option<string>): PrintServiceItem
  {
    match lookup
    case None => PrintServiceItem(false, name, namespace, path, [], "", "")
    case Some(svc) => PrintServiceItem(true, name, namespace, path, PortItems(svc.ports), svc.clusterIP, svc.serviceType)
  }

  /**
   * GenerateServiceItem: looks the service up (one attempt; any error counts as
   * not found) and echoes the reference. The `port` argument is not used.
   */
  method GenerateServiceItem(env: Environment, namespace: string, name: string, path: Option<string>, port: Option<int32>)
    returns (result: PrintServiceItem)
    ensures result == ServiceItem(env.services(namespace, name), namespace, name, path)
  {
    var lookup := env.services(namespace, name);
    result := PrintServiceItem(false, name, namespace, path, [], "", "");
    if lookup.None? {
      return;
    }
    var ss := lookup.value;
    var ports: seq<PrintServicePortItem> := [];
    for i := 0 to |ss.ports|
      invariant ports == PortItems(ss.ports[..i])
    {
      InitLastOfPrefix(ss.ports, i);
      ports := ports + [PrintServicePortItem(ss.ports[i].port, ss.ports[i].targetPort.IntVal(), ss.ports[i].protocol)];
    }
    assert ss.ports[..|ss.ports|] == ss.ports;
    result := result.(ports := ports, found := true, clusterIP := ss.clusterIP, serviceType := ss.serviceType);
  }

  /**
   * The service item echoes the reference; a service that is not found has
   * no ports, address or type; a found one reports its address, its type and
   * every port, in order, with a named target port read as 0.
   */
  lemma ServiceItemFacts(lookup: Option<Service>, namespace: string, name: string, path: Option<string>)
    ensures var result := ServiceItem(lookup, namespace, name, path);
            && result.name == name && result.namespace == namespace && result.path == path
            && (result.found <==> lookup.Some?)
            && (!result.found ==> result.ports == [] && result.clusterIP == "" && result.serviceType == "")
            && (result.found ==>
                  && result.clusterIP == lookup.value.clusterIP && result.serviceType == lookup.value.serviceType
                  && |result.ports| == |lookup.value.ports|
                  && forall i :: 0 <= i < |lookup.value.ports| ==>
                       result.ports[i] == PrintServicePortItem(lookup.value.ports[i].port,
                                                               lookup.value.ports[i].targetPort.IntVal(),
                                                               lookup.value.ports[i].protocol))
  {
    if lookup.Some? {
      PortItemsAt(lookup.value.ports);
    }
  }
}
