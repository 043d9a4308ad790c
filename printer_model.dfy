/** The record types that the aggregation hands to the renderer (pkg/printer/model.go). */
module PrinterModel {
  import opened Wrappers
  import opened GoStd

  datatype ResourceModel = ResourceModel(operations: seq<string>, resources: seq<string>)

  datatype PrintServicePortItem = PrintServicePortItem(port: int32, targetPort: int32, protocol: string)

  datatype PrintServiceItem = PrintServiceItem(
    found: bool,
    name: string,
    namespace: string,
    path: Option<string>,
    ports: seq<PrintServicePortItem>,
    clusterIP: string,
    serviceType: string)

  datatype PrintWebhookItem = PrintWebhookItem(name: string, service: PrintServiceItem)

  datatype PrintItem = PrintItem(
    name: string,
    webhook: PrintWebhookItem,
    kind: string,
    resourceModels: seq<ResourceModel>,
    validUntil: Duration,
    activeNamespaces: Slice<string>)

  datatype PrintModel = PrintModel(items: seq<PrintItem>)

  /** The zero value of PrintServiceItem, kept when a webhook names no service. */
  const ZeroServiceItem := PrintServiceItem(false, "", "", None, [], "", "")
}
