/**
 * What the core reads from the cluster, as plain values: admission webhook
 * configurations (the fields of the admissionregistration v1 and v1beta1
 * types that the core reads, which are the same in both versions), namespaces
 * with their labels, services, and the certificate decoding it calls.
 */
module Cluster {
  import opened Wrappers
  import opened GoStd

  /** A rule of a webhook: operations (CREATE, UPDATE, DELETE, CONNECT, *) and resource names. */
  datatype Rule = Rule(operations: seq<string>, resources: seq<string>)

  /** Where the API server calls a webhook when it is served from inside the cluster. */
  datatype ServiceReference = ServiceReference(
    namespace: string,
    name: string,
    path: Option<string>,
    port: Option<int32>)

  datatype WebhookClientConfig = WebhookClientConfig(
    url: Option<string>,
    service: Option<ServiceReference>,
    caBundle: Slice<byte>)

  /** A label selector; only its `matchLabels` part is read by the core. */
  datatype LabelSelector = LabelSelector(matchLabels: map<string, string>)

  datatype Webhook = Webhook(
    name: string,
    clientConfig: WebhookClientConfig,
    rules: seq<Rule>,
    namespaceSelector: Option<LabelSelector>)

  datatype WebhookConfiguration = WebhookConfiguration(name: string, webhooks: seq<Webhook>)

  /** What a typed `Get` leaves behind when the lookup fails: a configuration with no webhooks. */
  const ZeroConfiguration := WebhookConfiguration("", [])

  datatype Namespace = Namespace(name: string, labels: map<string, string>)

  /** A service port's target: a number or a named port, whose `IntVal` is then 0. */
  datatype IntOrString = IntValue(intVal: int32) | StringValue(strVal: string)
  {
    function IntVal(): int32
    {
      if IntValue? then intVal else 0
    }
  }

  datatype ServicePort = ServicePort(port: int32, targetPort: IntOrString, protocol: string)

  datatype Service = Service(clusterIP: string, serviceType: string, ports: seq<ServicePort>)

  /**
   * The cluster and library state one report is built from. `services(ns, name)`
   * is the service lookup (None when the Get fails); `pemDecode` gives the bytes
   * of the first PEM block of its input; `parseCertificate` gives the NotAfter
   * instant (nanoseconds) of a DER certificate or None when parsing fails;
   * `now` is the wall clock in nanoseconds.
   */
  datatype Environment = Environment(
    namespaces: seq<Namespace>,
    services: (string, string) -> Option<Service>,
    pemDecode: seq<byte> -> Option<seq<byte>>,
    parseCertificate: seq<byte> -> Option<int>,
    now: int)
  {
    /** `pem.Decode`: an empty input holds no PEM block. */
    function PemBlock(data: seq<byte>): Option<seq<byte>>
    {
      if data == [] then None else pemDecode(data)
    }
  }

  /** Ways the process stops instead of returning. */
  datatype Crash =
    | NilBlockDereference     // `block.Bytes` after pem.Decode found no block
    | FatalCertificateError   // log.Fatalf after x509.ParseCertificate failed
    | NilServiceDereference   // `ClientConfig.Service.Name` on a nil service
    | IndexOutOfRange         // `args[1]` with no arguments

  /** The first configuration named `name`, if any. */
  function FindConfiguration(configurations: seq<WebhookConfiguration>, name: string): (r: Option<WebhookConfiguration>)
    ensures r.None? <==> forall i :: 0 <= i < |configurations| ==> configurations[i].name != name
    ensures r.Some? ==> exists i :: 0 <= i < |configurations| && configurations[i] == r.value
                                  && r.value.name == name
                                  && forall j :: 0 <= j < i ==> configurations[j].name != name
  {
    if configurations == [] then None
    else if configurations[0].name == name then Some(configurations[0])
    else
      var r := FindConfiguration(configurations[1..], name);
      assert forall i :: 1 <= i < |configurations| ==> configurations[i] == configurations[1..][i - 1];
      r
  }
}
