/**
 * The renderer of pkg/printer/printer.go, up to the terminal libraries: Print
 * builds, for every item, the namespace bullet list, the leveled lists from
 * which the service and resources trees are drawn, and the remaining-time
 * cell; the table is the header and one row per item. Colours are kept as
 * tags; tree drawing, table layout and the human-readable duration text are
 * the libraries' and are not modelled.
 */
module Printer {
  import opened Wrappers
  import opened Seqs
  import opened GoStd
  import opened PrinterModel
  import Cluster
  import WebhookV1

  datatype Colour = FgGreen | FgLightWhite | FgRed | FgLightRed | FgWhite | FgBlue | FgYellow

  // ---- bullet lists (Active NS column) ---------------------------------------

  datatype BulletListItem = BulletListItem(
    level: nat,
    text: string,
    textStyle: Option<Colour>,
    bullet: string,
    bulletStyle: Option<Colour>)

  /** What a Modify callback returns for one string. */
  datatype Decoration = Decoration(text: string, textStyle: Option<Colour>, bullet: string, bulletStyle: Option<Colour>)

  datatype BulletItem = BulletItem(decorate: Option<string -> Decoration>, items: Slice<string>)

  /** The bullet of the default bullet list. */
  const DefaultBullet: string := "•"

  /** The single entry shown for a nil namespace list. */
  const NoActiveNamespaces := BulletListItem(0, "No Active Namespaces", Some(FgRed), "✖", Some(FgLightRed))

  /** modifyNamespaces: the name in green behind a light-white default bullet. */
  function ModifyNamespaces(str: string): (d: Decoration)
    ensures d.text == str
    ensures d.bullet == DefaultBullet
  {
    Decoration(str, Some(FgGreen), DefaultBullet, Some(FgLightWhite))
  }

  function BulletFor(decorate: Option<string -> Decoration>, t: string): BulletListItem
  {
    match decorate
    case None => BulletListItem(0, t, None, "", None)
    case Some(f) =>
      var d := f(t);
      BulletListItem(0, d.text, d.textStyle, d.bullet, d.bulletStyle)
  }

  function BulletsOf(decorate: Option<string -> Decoration>, items: seq<string>): seq<BulletListItem>
  {
    if items == [] then [] else BulletsOf(decorate, Init(items)) + [BulletFor(decorate, Last(items))]
  }

  /** The list convertStringArrayToBulletListItem builds. */
  function BulletItems(s: BulletItem): seq<BulletListItem>
  {
    match s.items
    case None => [NoActiveNamespaces]
    case Some(items) => BulletsOf(s.decorate, items)
  }

  lemma {:induction false} BulletsOfShape(decorate: Option<string -> Decoration>, items: seq<string>)
    ensures |BulletsOf(decorate, items)| == |items|
    ensures forall i :: 0 <= i < |items| ==> BulletsOf(decorate, items)[i] == BulletFor(decorate, items[i])
  {
    if items != [] {
      BulletsOfShape(decorate, Init(items));
    }
  }

  /**
   * convertStringArrayToBulletListItem: one level-0 entry per string, through
   * Modify when there is one; a nil list gives the "No Active Namespaces"
   * entry, an empty non-nil list gives nothing.
   */
  method ConvertStringArrayToBulletListItem(s: BulletItem) returns (bulletItems: seq<BulletListItem>)
    ensures bulletItems == BulletItems(s)
    ensures s.items.None? ==> bulletItems == [NoActiveNamespaces]
    ensures s.items.Some? ==>
              |bulletItems| == |s.items.value|
              && forall i :: 0 <= i < |bulletItems| ==> bulletItems[i] == BulletFor(s.decorate, s.items.value[i])
  {
    bulletItems := [];
    if s.items.Some? {
      var items := s.items.value;
      for i := 0 to |items|
        invariant bulletItems == BulletsOf(s.decorate, items[..i])
      {
        InitLastOfPrefix(items, i);
        var t := items[i];
        if s.decorate.Some? {
          var d := s.decorate.value(t);
          bulletItems := bulletItems + [BulletListItem(0, d.text, d.textStyle, d.bullet, d.bulletStyle)];
        } else {
          bulletItems := bulletItems + [BulletListItem(0, t, None, "", None)];
        }
      }
      assert items[..|items|] == items;
      BulletsOfShape(s.decorate, items);
    } else {
      bulletItems := bulletItems + [NoActiveNamespaces];
    }
  }

  /** The Active NS cell: the namespaces in green, one bullet each, in order; a red cross for nil. */
  lemma NamespaceBullets(activeNamespaces: Slice<string>)
    ensures activeNamespaces.None? ==>
              BulletItems(BulletItem(Some(ModifyNamespaces), activeNamespaces)) == [NoActiveNamespaces]
    ensures activeNamespaces.Some? ==>
              var names := activeNamespaces.value;
              var bullets := BulletItems(BulletItem(Some(ModifyNamespaces), activeNamespaces));
              |bullets| == |names|
              && forall i :: 0 <= i < |names| ==>
                   bullets[i] == BulletListItem(0, names[i], Some(FgGreen), DefaultBullet, Some(FgLightWhite))
  {
    if activeNamespaces.Some? {
      BulletsOfShape(Some(ModifyNamespaces), activeNamespaces.value);
    }
  }

  // ---- leveled lists (Service and Resources&Operations columns) ---------------

  datatype LeveledListItem = LeveledListItem(level: nat, text: string, style: Option<Colour>)

  function ResourceItem(rs: string): LeveledListItem
  {
    LeveledListItem(0, rs, Some(FgWhite))
  }

  /** An operation at level 1, marked by what it reads in upper case. */
  function OperationItem(op: string): LeveledListItem
  {
    var upper := ToUpper(op);
    if upper == "CREATE" then LeveledListItem(1, "+" + op, Some(FgGreen))
    else if upper == "UPDATE" then LeveledListItem(1, "^" + op, Some(FgBlue))
    else if upper == "DELETE" then LeveledListItem(1, "-" + op, Some(FgRed))
    else LeveledListItem(1, op, None)
  }

  function ResourceItems(resources: seq<string>): seq<LeveledListItem>
  {
    if resources == [] then [] else ResourceItems(Init(resources)) + [ResourceItem(Last(resources))]
  }

  function OperationItems(operations: seq<string>): seq<LeveledListItem>
  {
    if operations == [] then [] else OperationItems(Init(operations)) + [OperationItem(Last(operations))]
  }

  /** Per model: its resources, then its operations. */
  function ResourcesList(models: seq<ResourceModel>): seq<LeveledListItem>
  {
    if models == [] then []
    else ResourcesList(Init(models)) + ResourceItems(Last(models).resources) + OperationItems(Last(models).operations)
  }

  /** The resources loop of Print. */
  method BuildResourcesList(models: seq<ResourceModel>) returns (list: seq<LeveledListItem>)
    ensures list == ResourcesList(models)
  {
    list := [];
    for m := 0 to |models|
      invariant list == ResourcesList(models[..m])
    {
      InitLastOfPrefix(models, m);
      var rm := models[m];
      var before := list;
      for j := 0 to |rm.resources|
        invariant list == before + ResourceItems(rm.resources[..j])
      {
        InitLastOfPrefix(rm.resources, j);
        list := list + [LeveledListItem(0, rm.resources[j], Some(FgWhite))];
      }
      assert rm.resources[..|rm.resources|] == rm.resources;
      var middle := list;
      for j := 0 to |rm.operations|
        invariant list == middle + OperationItems(rm.operations[..j])
      {
        InitLastOfPrefix(rm.operations, j);
        list := list + [OperationItem(rm.operations[j])];
      }
      assert rm.operations[..|rm.operations|] == rm.operations;
    }
    assert models[..|models|] == models;
  }

  lemma {:induction false} ResourceItemsShape(resources: seq<string>)
    ensures |ResourceItems(resources)| == |resources|
    ensures forall j :: 0 <= j < |resources| ==> ResourceItems(resources)[j] == LeveledListItem(0, resources[j], Some(FgWhite))
  {
    if resources != [] {
      ResourceItemsShape(Init(resources));
    }
  }

  lemma {:induction false} OperationItemsShape(operations: seq<string>)
    ensures |OperationItems(operations)| == |operations|
    ensures forall j :: 0 <= j < |operations| ==> OperationItems(operations)[j] == OperationItem(operations[j])
  {
    if operations != [] {
      var init := Init(operations);
      OperationItemsShape(init);
      assert OperationItems(operations) == OperationItems(init) + [OperationItem(Last(operations))];
      forall j | 0 <= j < |operations|
        ensures OperationItems(operations)[j] == OperationItem(operations[j])
      {
        if j < |init| {
          assert operations[j] == init[j];
        }
      }
    }
  }

  /** The entries one model contributes: every resource at level 0, then every operation at level 1. */
  lemma ModelEntries(rm: ResourceModel)
    ensures var entries := ResourcesList([rm]);
            && |entries| == |rm.resources| + |rm.operations|
            && (forall j :: 0 <= j < |rm.resources| ==>
                  entries[j].level == 0 && entries[j].text == rm.resources[j])
            && (forall k :: |rm.resources| <= k < |entries| ==>
                  entries[k].level == 1 && entries[k] == OperationItem(rm.operations[k - |rm.resources|]))
  {
    InitLastOfAppend([], rm);
    ResourceItemsShape(rm.resources);
    OperationItemsShape(rm.operations);
  }

  /** Two models' entries are the first model's followed by the second's. */
  lemma ResourcesListAppend(models: seq<ResourceModel>, rm: ResourceModel)
    ensures ResourcesList(models + [rm]) == ResourcesList(models) + ResourcesList([rm])
  {
    var items := ResourceItems(rm.resources) + OperationItems(rm.operations);
    InitLastOfAppend(models, rm);
    assert ResourcesList(models + [rm]) == ResourcesList(models) + items;
    InitLastOfAppend([], rm);
    assert ResourcesList([rm]) == [] + items;
  }

  /** The number of resources and operations of all models together. */
  function EntryCount(models: seq<ResourceModel>): nat
  {
    if models == [] then 0
    else EntryCount(Init(models)) + |Last(models).resources| + |Last(models).operations|
  }

  /** The list holds one entry per resource and one per operation, over all models. */
  lemma {:induction false} ResourcesListLength(models: seq<ResourceModel>)
    ensures |ResourcesList(models)| == EntryCount(models)
  {
    if models != [] {
      ResourcesListLength(Init(models));
      ResourceItemsShape(Last(models).resources);
      OperationItemsShape(Last(models).operations);
    }
  }

  /**
   * An operation at level 1: CREATE, UPDATE and DELETE, in any case, get a
   * green "+", a blue "^" and a red "-" before their own spelling; any other
   * operation is shown unchanged.
   */
  lemma OperationItemShape(op: string)
    ensures OperationItem(op).level == 1
    ensures OperationItem(op).style.Some? <==> ToUpper(op) in ["CREATE", "UPDATE", "DELETE"]
    ensures OperationItem(op).style.Some? ==> |OperationItem(op).text| == |op| + 1 && OperationItem(op).text[1..] == op
    ensures OperationItem(op).style.None? ==> OperationItem(op).text == op
    ensures ToUpper(op) == "CREATE" ==> OperationItem(op) == LeveledListItem(1, "+" + op, Some(FgGreen))
    ensures ToUpper(op) == "UPDATE" ==> OperationItem(op) == LeveledListItem(1, "^" + op, Some(FgBlue))
    ensures ToUpper(op) == "DELETE" ==> OperationItem(op) == LeveledListItem(1, "-" + op, Some(FgRed))
  {
  }

  /**
   * The mark and colour of an operation depend only on its upper-case form:
   * two spellings that differ only in case are marked alike.
   */
  lemma OperationMarking(op: string, other: string)
    ensures ToUpper(op) == ToUpper(other) ==>
              OperationItem(op).style == OperationItem(other).style
              && (OperationItem(op).style.Some? ==> OperationItem(op).text[0] == OperationItem(other).text[0])
  {
  }

  /** A lower-case operation is marked like its upper-case spelling. */
  lemma LowerCaseCreateIsMarked()
    ensures OperationItem("create") == LeveledListItem(1, "+create", Some(FgGreen))
  {
    assert ToUpper("create") == "CREATE" by {
      assert forall i :: 0 <= i < 6 ==> ToUpper("create")[i] == "CREATE"[i];
    }
  }

  // ---- the service list ---------------------------------------------------------

  /** getPortInfo: `port/protocol`, or `port::targetPort/protocol` when a target port is set. */
  function PortInfo(p: PrintServicePortItem): string
  {
    if p.targetPort == 0 then Decimal(p.port) + "/" + p.protocol
    else Decimal(p.port) + "::" + Decimal(p.targetPort) + "/" + p.protocol
  }

  function AsInt32(n: Option<int>): Option<int32>
  {
    if n.Some? && -0x8000_0000 <= n.value < 0x8000_0000 then Some(n.value as int32) else None
  }

  /** Reads a port line back: the text before the first '/' holds the ports, the rest is the protocol. */
  function ParsePortInfo(text: string): Option<PrintServicePortItem>
  {
    var head := Split(text, '/')[0];
    if |head| >= |text| then None
    else
      var protocol := text[|head| + 1..];
      var ports := Split(head, ':');
      if |ports| == 1 && AsInt32(ParseDecimal(ports[0])).Some? then
        Some(PrintServicePortItem(AsInt32(ParseDecimal(ports[0])).value, 0, protocol))
      else if |ports| == 3 && ports[1] == "" && AsInt32(ParseDecimal(ports[0])).Some?
              && AsInt32(ParseDecimal(ports[2])).Some? then
        Some(PrintServicePortItem(AsInt32(ParseDecimal(ports[0])).value, AsInt32(ParseDecimal(ports[2])).value, protocol))
      else None
  }

  lemma DecimalHasNoSeparator(n: int)
    ensures '/' !in Decimal(n) && ':' !in Decimal(n)
  {
    var s := Decimal(n);
    assert forall i :: 0 <= i < |s| ==> s[i] != '/' && s[i] != ':';
  }

  /** The text before the first '/' and the text after it. */
  lemma CutAtSlash(head: string, protocol: string)
    requires '/' !in head
    ensures Split(head + "/" + protocol, '/')[0] == head
    ensures (head + "/" + protocol)[|head| + 1..] == protocol
  {
    SplitAtFirstSeparator(head, '/', protocol);
  }

  /** `a::b` splits at ':' into a, the empty string and b. */
  lemma DoubleColonSplit(a: string, b: string)
    requires ':' !in a && ':' !in b
    ensures Split(a + "::" + b, ':') == [a, "", b]
  {
    assert a + "::" + b == a + [':'] + ([':'] + b);
    SplitAtFirstSeparator(a, ':', [':'] + b);
    assert [':'] + b == [] + [':'] + b;
    SplitAtFirstSeparator([], ':', b);
    SplitWithoutSeparator(b, ':');
  }

  lemma PlainPortRoundTrip(p: PrintServicePortItem)
    requires p.targetPort == 0
    ensures ParsePortInfo(PortInfo(p)) == Some(p)
    ensures ':' !in Split(PortInfo(p), '/')[0]
  {
    var port := Decimal(p.port);
    DecimalHasNoSeparator(p.port);
    DecimalRoundTrip(p.port);
    CutAtSlash(port, p.protocol);
    SplitWithoutSeparator(port, ':');
  }

  lemma TargetPortRoundTrip(p: PrintServicePortItem)
    requires p.targetPort != 0
    ensures ParsePortInfo(PortInfo(p)) == Some(p)
    ensures ':' in Split(PortInfo(p), '/')[0]
  {
    var port, target := Decimal(p.port), Decimal(p.targetPort);
    DecimalHasNoSeparator(p.port);
    DecimalHasNoSeparator(p.targetPort);
    DecimalRoundTrip(p.port);
    DecimalRoundTrip(p.targetPort);
    var head := port + "::" + target;
    assert '/' !in head;
    CutAtSlash(head, p.protocol);
    DoubleColonSplit(port, target);
    assert head[|port|] == ':';
  }

  function PortLines(ports: seq<PrintServicePortItem>): seq<LeveledListItem>
  {
    if ports == [] then [] else PortLines(Init(ports)) + [LeveledListItem(2, PortInfo(Last(ports)), None)]
  }

  /** The lines of a found service above its ports: name, namespace, the path if any, and the address. */
  function FoundHeader(service: PrintServiceItem): (header: seq<LeveledListItem>)
    ensures |header| == if service.path.Some? then 4 else 3
  {
    [LeveledListItem(0, service.name, None), LeveledListItem(1, "NS  : " + service.namespace, None)]
    + (if service.path.Some? then [LeveledListItem(1, "Path: " + service.path.value, None)] else [])
    + [LeveledListItem(1, "IP  : " + service.clusterIP + " (" + service.serviceType + ")", None)]
  }

  /** The service list: name, namespace, optional path, address and ports; a red cross when not found. */
  function ServiceList(service: PrintServiceItem): (list: seq<LeveledListItem>)
    ensures |list| >= 2
    ensures !service.found ==> |list| == 2
    ensures list[0].level == 0 && list[1] == LeveledListItem(1, "NS  : " + service.namespace, None)
  {
    if service.found then FoundHeader(service) + PortLines(service.ports)
    else
      [LeveledListItem(0, "✖ " + service.name, Some(FgRed)), LeveledListItem(1, "NS  : " + service.namespace, None)]
  }

  /** The service loop of Print. The "No Services" fallback is left out: the list is never empty. */
  method BuildServiceList(service: PrintServiceItem) returns (list: seq<LeveledListItem>)
    ensures list == ServiceList(service)
  {
    list := [];
    if service.found {
      list := list + [LeveledListItem(0, service.name, None)];
      list := list + [LeveledListItem(1, "NS  : " + service.namespace, None)];
      if service.path.Some? {
        list := list + [LeveledListItem(1, "Path: " + service.path.value, None)];
      }
      list := list + [LeveledListItem(1, "IP  : " + service.clusterIP + " (" + service.serviceType + ")", None)];
      var header := list;
      assert header == FoundHeader(service);
      for i := 0 to |service.ports|
        invariant list == header + PortLines(service.ports[..i])
      {
        InitLastOfPrefix(service.ports, i);
        list := list + [LeveledListItem(2, PortInfo(service.ports[i]), None)];
      }
      assert service.ports[..|service.ports|] == service.ports;
    } else {
      list := list + [LeveledListItem(0, "✖ " + service.name, Some(FgRed))];
      list := list + [LeveledListItem(1, "NS  : " + service.namespace, None)];
    }
  }

  lemma {:induction false} PortLinesShape(ports: seq<PrintServicePortItem>)
    ensures |PortLines(ports)| == |ports|
    ensures forall j :: 0 <= j < |ports| ==> PortLines(ports)[j] == LeveledListItem(2, PortInfo(ports[j]), None)
  {
    if ports != [] {
      var init := Init(ports);
      PortLinesShape(init);
      assert PortLines(ports) == PortLines(init) + [LeveledListItem(2, PortInfo(Last(ports)), None)];
      forall j | 0 <= j < |ports|
        ensures PortLines(ports)[j] == LeveledListItem(2, PortInfo(ports[j]), None)
      {
        if j < |init| {
          assert ports[j] == init[j];
        }
      }
    }
  }

  /** A found service's list is its header followed by its port lines. */
  lemma FoundListPorts(service: PrintServiceItem)
    requires service.found
    ensures var list := ServiceList(service);
            var first := if service.path.Some? then 4 else 3;
            && |list| == first + |service.ports|
            && forall k :: first <= k < |list| ==> list[k] == PortLines(service.ports)[k - first]
  {
    PortLinesShape(service.ports);
    var header, lines := FoundHeader(service), PortLines(service.ports);
    assert ServiceList(service) == header + lines;
    ConcatTail(header, lines);
  }

  /** A found service lists every port at level 2 after its header, in order, each readable back from its line. */
  lemma ServicePortsReadBack(service: PrintServiceItem)
    requires service.found
    ensures var list := ServiceList(service);
            var first := if service.path.Some? then 4 else 3;
            && |list| == first + |service.ports|
            && forall k :: first <= k < |list| ==>
                 list[k].level == 2 && ParsePortInfo(list[k].text) == Some(service.ports[k - first])
  {
    FoundListPorts(service);
    PortLinesShape(service.ports);
    forall j | 0 <= j < |service.ports|
      ensures ParsePortInfo(PortInfo(service.ports[j])) == Some(service.ports[j])
    {
      PortInfoRoundTrip(service.ports[j]);
    }
  }

  /** A port line loses nothing: the port, the target port and the protocol read back from it. */
  lemma PortInfoRoundTrip(p: PrintServicePortItem)
    ensures ParsePortInfo(PortInfo(p)) == Some(p)
    ensures ':' in Split(PortInfo(p), '/')[0] <==> p.targetPort != 0
  {
    if p.targetPort == 0 {
      PlainPortRoundTrip(p);
    } else {
      TargetPortRoundTrip(p);
    }
  }

  // ---- the remaining-time cell -----------------------------------------------------

  const Hour: int := 3600 * 1_000_000_000
  const Day: int := 24 * Hour

  /** The cell: "No CABundle" in red, or the duration shown to `units` units in a colour. */
  datatype Remaining = NoCABundle | Formatted(duration: Duration, units: nat, colour: Colour)

  /**
   * remainingTime: a zero duration reads "No CABundle"; otherwise under two
   * days shows two units, and the colour is red under 4000 days, yellow
   * under 60000 days and green beyond.
   */
  function RemainingTime(t: Duration): (r: Remaining)
    ensures r.NoCABundle? <==> t == 0
    ensures r.Formatted? ==> r.duration == t && (r.units == 2 <==> t < 2 * Day) && 1 <= r.units <= 2
    ensures r.Formatted? && t < 0 ==> r.colour == FgRed && r.units == 2
  {
    if t == 0 then NoCABundle
    else
      var units := if t < 2 * Day then 2 else 1;
      var colour := if t < 4000 * Day then FgRed else if t < 60000 * Day then FgYellow else FgGreen;
      Formatted(t, units, colour)
  }

  function Urgency(c: Colour): nat
  {
    match c
    case FgRed => 2
    case FgYellow => 1
    case _ => 0
  }

  /** The longer a certificate stays valid, the less alarming its colour. */
  lemma RemainingColourMonotone(t1: Duration, t2: Duration)
    requires t1 != 0 && t2 != 0 && t1 <= t2
    ensures Urgency(RemainingTime(t1).colour) >= Urgency(RemainingTime(t2).colour)
  {
  }

  /**
   * A CA bundle whose certificate expires at this very instant renders like a
   * webhook without a bundle: both cells read "No CABundle".
   */
  lemma ExpiringNowLooksMissing(env: Cluster.Environment, bundle: Slice<byte>)
    requires bundle.Some? && env.PemBlock(bundle.value).Some?
    requires env.parseCertificate(env.PemBlock(bundle.value).value) == Some(env.now)
    ensures WebhookV1.RetrieveValidDateCount(env, bundle).Success?
    ensures WebhookV1.RetrieveValidDateCount(env, None).Success?
    ensures RemainingTime(WebhookV1.RetrieveValidDateCount(env, bundle).value)
            == RemainingTime(WebhookV1.RetrieveValidDateCount(env, None).value)
            == NoCABundle
  {
  }

  // ---- the table ------------------------------------------------------------------

  const Header: seq<string> := ["Kind", "Name", "Webhook", "Service", "Resources&Operations", "Remaining Day", "Active NS"]

  datatype Row = Row(
    kind: string,
    name: string,
    webhook: string,
    service: seq<LeveledListItem>,
    resources: seq<LeveledListItem>,
    remaining: Remaining,
    activeNamespaces: seq<BulletListItem>)

  datatype Table = Table(header: seq<string>, rows: seq<Row>)

  function RowFor(item: PrintItem): Row
  {
    Row(item.kind, item.name, item.webhook.name,
        ServiceList(item.webhook.service),
        ResourcesList(item.resourceModels),
        RemainingTime(item.validUntil),
        BulletItems(BulletItem(Some(ModifyNamespaces), item.activeNamespaces)))
  }

  /** Print: the fixed seven-column header and one row per item, in the model's order. */
  method Print(model: PrintModel) returns (table: Table)
    ensures table.header == Header && |table.header| == 7
    ensures |table.rows| == |model.items|
    ensures forall i :: 0 <= i < |model.items| ==> table.rows[i] == RowFor(model.items[i])
  {
    var data: seq<Row> := [];
    for i := 0 to |model.items|
      invariant |data| == i
      invariant forall k :: 0 <= k < i ==> data[k] == RowFor(model.items[k])
    {
      var item := model.items[i];
      var namespacesData := ConvertStringArrayToBulletListItem(BulletItem(Some(ModifyNamespaces), item.activeNamespaces));
      var resourcesList := BuildResourcesList(item.resourceModels);
      var serviceList := BuildServiceList(item.webhook.service);
      data := data + [Row(item.kind, item.name, item.webhook.name, serviceList, resourcesList,
                          RemainingTime(item.validUntil), namespacesData)];
    }
    table := Table(Header, data);
  }
}
