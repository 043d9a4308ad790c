/**
 * The admissionregistration v1 aggregation of pkg/k8s/webhook.go: Run, the
 * fill*WebhookConfigurations loops and retrieveValidDateCount. Configuration
 * lists are inputs (a failed List reads as an empty list, a failed Get as the
 * zero configuration); a process abort is a Failure carrying the Crash.
 */
module WebhookV1 {
  import opened Wrappers
  import opened Seqs
  import opened GoStd
  import opened Cluster
  import opened PrinterModel
  import opened WebhookNamespaces
  import opened WebhookRules
  import opened WebhookService

  datatype Kind = Mutating | Validating

  function KindName(kind: Kind): string
  {
    match kind
    case Mutating => "Mutating"
    case Validating => "Validating"
  }

  // ---- retrieveValidDateCount ------------------------------------------------

  /**
   * The remaining validity of a CA bundle: 0 for a nil bundle; otherwise the
   * first PEM block is parsed as a certificate and the result is its NotAfter
   * minus now (negative once expired). No PEM block means a nil dereference;
   * a parse failure ends the process through log.Fatalf.
   */
  function RetrieveValidDateCount(env: Environment, certificate: Slice<byte>): (r: Result<Duration, Crash>)
    ensures certificate.None? ==> r == Success(0)
    ensures certificate.Some? && env.PemBlock(certificate.value).None? ==> r == Failure(NilBlockDereference)
    ensures (certificate.Some? && env.PemBlock(certificate.value).Some?
             && env.parseCertificate(env.PemBlock(certificate.value).value).None?) ==> r == Failure(FatalCertificateError)
    ensures (certificate.Some? && env.PemBlock(certificate.value).Some?
             && env.parseCertificate(env.PemBlock(certificate.value).value).Some?) ==>
              r == Success(Sub(env.parseCertificate(env.PemBlock(certificate.value).value).value, env.now))
  {
    match certificate
    case None => Success(0)
    case Some(bytes) =>
      match env.PemBlock(bytes)
      case None => Failure(NilBlockDereference)
      case Some(block) =>
        match env.parseCertificate(block)
        case None => Failure(FatalCertificateError)
        case Some(notAfter) => Success(Sub(notAfter, env.now))
  }

  /** The CA bundle of `webhook` does not abort the process. */
  predicate Readable(env: Environment, webhook: Webhook)
  {
    RetrieveValidDateCount(env, webhook.clientConfig.caBundle).Success?
  }

  predicate AllReadable(env: Environment, webhooks: seq<Webhook>)
  {
    forall j :: 0 <= j < |webhooks| ==> Readable(env, webhooks[j])
  }

  predicate AllConfigurationsReadable(env: Environment, configurations: seq<WebhookConfiguration>)
  {
    forall c :: 0 <= c < |configurations| ==> AllReadable(env, configurations[c].webhooks)
  }

  // ---- the item of one webhook entry -----------------------------------------

  /** The service part of an item: the zero value when the webhook names no service. */
  function ServiceOf(env: Environment, webhook: Webhook): PrintServiceItem
  {
    match webhook.clientConfig.service
    case None => ZeroServiceItem
    case Some(ref) => ServiceItem(env.services(ref.namespace, ref.name), ref.namespace, ref.name, ref.path)
  }

  function RuleModelsFor(kind: Kind, rules: seq<Rule>): seq<ResourceModel>
  {
    match kind
    case Mutating => MutatingRuleModels(rules)
    case Validating => ValidatingRuleModels(rules)
  }

  /** The item appended for `webhook` of the configuration named `configName`, valid for `validUntil`. */
  function ItemOf(env: Environment, kind: Kind, configName: string, webhook: Webhook, validUntil: Duration): PrintItem
  {
    PrintItem(
      configName,
      PrintWebhookItem(webhook.name, ServiceOf(env, webhook)),
      KindName(kind),
      RuleModelsFor(kind, webhook.rules),
      validUntil,
      ActiveNamespacesSlice(webhook.namespaceSelector, env.namespaces))
  }

  /** The item of one webhook entry, or the crash its CA bundle causes. */
  function ItemFor(env: Environment, kind: Kind, configName: string, webhook: Webhook): Result<PrintItem, Crash>
  {
    match RetrieveValidDateCount(env, webhook.clientConfig.caBundle)
    case Failure(e) => Failure(e)
    case Success(d) => Success(ItemOf(env, kind, configName, webhook, d))
  }

  /** The items of the webhooks of one configuration, in order; the first crash ends the walk. */
  function Items(env: Environment, kind: Kind, configName: string, webhooks: seq<Webhook>): Result<seq<PrintItem>, Crash>
  {
    if webhooks == [] then Success([])
    else
      match Items(env, kind, configName, Init(webhooks))
      case Failure(e) => Failure(e)
      case Success(prev) =>
        match ItemFor(env, kind, configName, Last(webhooks))
        case Failure(e) => Failure(e)
        case Success(item) => Success(prev + [item])
  }

  /** The items of every configuration, configuration after configuration. */
  function AllItems(env: Environment, kind: Kind, configurations: seq<WebhookConfiguration>): Result<seq<PrintItem>, Crash>
  {
    if configurations == [] then Success([])
    else
      match AllItems(env, kind, Init(configurations))
      case Failure(e) => Failure(e)
      case Success(prev) =>
        match Items(env, kind, Last(configurations).name, Last(configurations).webhooks)
        case Failure(e) => Failure(e)
        case Success(items) => Success(prev + items)
  }

  function TotalWebhooks(configurations: seq<WebhookConfiguration>): nat
  {
    if configurations == [] then 0 else TotalWebhooks(Init(configurations)) + |Last(configurations).webhooks|
  }

  // ---- fill*WebhookConfigurations ---------------------------------------------

  method FillRules(kind: Kind, webhook: Webhook) returns (resources: seq<ResourceModel>)
    ensures resources == RuleModelsFor(kind, webhook.rules)
  {
    match kind
    case Mutating => resources := FillRulesForMutating(webhook);
    case Validating => resources := FillRulesForValidating(webhook);
  }

  /**
   * The body of the loop of fill*WebhookConfigurations for one webhook entry:
   * `item` is reused from entry to entry, keeping the configuration's name and
   * the kind, and gets the entry's webhook, rules, validity and namespaces.
   */
  method FillItem(env: Environment, kind: Kind, webhook: Webhook, item: PrintItem) returns (r: Result<PrintItem, Crash>)
    requires item.kind == KindName(kind)
    ensures r == ItemFor(env, kind, item.name, webhook)
  {
    var activeNamespaces := FillActiveNamespaces(env, webhook, None);
    FromNilSlice(activeNamespaces, webhook.namespaceSelector, env.namespaces);
    var webhookItem := PrintWebhookItem(webhook.name, ZeroServiceItem);
    if webhook.clientConfig.service.Some? {
      var ref := webhook.clientConfig.service.value;
      var ss := GenerateServiceItem(env, ref.namespace, ref.name, ref.path, ref.port);
      webhookItem := webhookItem.(service := ss);
    }
    var resources := FillRules(kind, webhook);
    var validUntil := RetrieveValidDateCount(env, webhook.clientConfig.caBundle);
    if validUntil.Failure? {
      return Failure(validUntil.error);
    }
    r := Success(item.(webhook := webhookItem, resourceModels := resources,
                       validUntil := validUntil.value, activeNamespaces := activeNamespaces));
  }

  /**
   * The loop shared by fillMutatingWebhookConfigurations and
   * fillValidatingWebhookConfigurations: one item per webhook entry, appended
   * in order after `items`; the first unreadable CA bundle aborts.
   */
  method FillWebhookConfiguration(env: Environment, kind: Kind, configuration: WebhookConfiguration, items: seq<PrintItem>)
    returns (r: Result<seq<PrintItem>, Crash>)
    ensures r == Prepend(items, Items(env, kind, configuration.name, configuration.webhooks))
  {
    var webhooks := configuration.webhooks;
    var item := PrintItem(configuration.name, PrintWebhookItem("", ZeroServiceItem), KindName(kind), [], 0, None);
    var acc := items;
    for i := 0 to |webhooks|
      invariant Items(env, kind, configuration.name, webhooks[..i]).Success?
      invariant acc == items + Items(env, kind, configuration.name, webhooks[..i]).value
      invariant item.name == configuration.name && item.kind == KindName(kind)
    {
      ItemsStep(env, kind, configuration.name, webhooks, i);
      var next := FillItem(env, kind, webhooks[i], item);
      if next.Failure? {
        ItemsFailurePropagates(env, kind, configuration.name, webhooks, i + 1);
        return Failure(next.error);
      }
      item := next.value;
      acc := acc + [item];
    }
    assert webhooks[..|webhooks|] == webhooks;
    return Success(acc);
  }

  /** fillMutatingWebhookConfigurations: items tagged "Mutating", rules copied rule by rule. */
  method FillMutatingWebhookConfigurations(env: Environment, mwc: WebhookConfiguration, items: seq<PrintItem>)
    returns (r: Result<seq<PrintItem>, Crash>)
    ensures r == Prepend(items, Items(env, Mutating, mwc.name, mwc.webhooks))
  {
    r := FillWebhookConfiguration(env, Mutating, mwc, items);
  }

  /** fillValidatingWebhookConfigurations: items tagged "Validating", rules flattened as written. */
  method FillValidatingWebhookConfigurations(env: Environment, vwc: WebhookConfiguration, items: seq<PrintItem>)
    returns (r: Result<seq<PrintItem>, Crash>)
    ensures r == Prepend(items, Items(env, Validating, vwc.name, vwc.webhooks))
  {
    r := FillWebhookConfiguration(env, Validating, vwc, items);
  }

  // ---- Run -------------------------------------------------------------------

  /** A typed Get by name: the configuration, or the zero configuration when it is absent. */
  function GetConfiguration(configurations: seq<WebhookConfiguration>, name: string): (c: WebhookConfiguration)
    ensures (forall i :: 0 <= i < |configurations| ==> configurations[i].name != name) ==> c == ZeroConfiguration
    ensures (exists i :: 0 <= i < |configurations| && configurations[i].name == name) ==>
              c.name == name && c in configurations
  {
    match FindConfiguration(configurations, name)
    case None => ZeroConfiguration
    case Some(c) => c
  }

  /** The configurations Run expands: all of them without arguments, else the one named args[0]. */
  function Selected(configurations: seq<WebhookConfiguration>, args: seq<string>): seq<WebhookConfiguration>
  {
    if |args| == 0 then configurations else [GetConfiguration(configurations, args[0])]
  }

  /** The `for _, c := range list.Items` loops of Run: every configuration, in order. */
  method FillConfigurations(env: Environment, kind: Kind, configurations: seq<WebhookConfiguration>, items: seq<PrintItem>)
    returns (r: Result<seq<PrintItem>, Crash>)
    ensures r == Prepend(items, AllItems(env, kind, configurations))
  {
    var acc := items;
    assert items + [] == items;
    for i := 0 to |configurations|
      invariant Prepend(items, AllItems(env, kind, configurations[..i])) == Success(acc)
    {
      var res := FillWebhookConfiguration(env, kind, configurations[i], acc);
      AllItemsPrependStep(env, kind, configurations, i, items, acc, res);
      if res.Failure? {
        return Failure(res.error);
      }
      acc := res.value;
    }
    assert configurations[..|configurations|] == configurations;
    return Success(acc);
  }

  /**
   * Run: the items of the mutating configurations, then those of the
   * validating ones. Fetch errors are discarded and no error is ever
   * returned, but an unreadable CA bundle aborts the process: the first one
   * met, mutating configurations first, decides the crash.
   */
  method Run(env: Environment, mutating: seq<WebhookConfiguration>, validating: seq<WebhookConfiguration>, args: seq<string>)
    returns (r: Result<PrintModel, Crash>)
    ensures r.Success? <==> AllConfigurationsReadable(env, Selected(mutating, args))
                            && AllConfigurationsReadable(env, Selected(validating, args))
    ensures r.Success? ==>
              && AllItems(env, Mutating, Selected(mutating, args)).Success?
              && AllItems(env, Validating, Selected(validating, args)).Success?
              && r.value.items == AllItems(env, Mutating, Selected(mutating, args)).value
                                  + AllItems(env, Validating, Selected(validating, args)).value
    ensures r.Failure? ==>
              if AllItems(env, Mutating, Selected(mutating, args)).Failure?
              then r.error == AllItems(env, Mutating, Selected(mutating, args)).error
              else AllItems(env, Validating, Selected(validating, args)).Failure?
                   && r.error == AllItems(env, Validating, Selected(validating, args)).error
  {
    AllItemsSucceedIff(env, Mutating, Selected(mutating, args));
    AllItemsSucceedIff(env, Validating, Selected(validating, args));
    var items: seq<PrintItem> := [];
    var res;
    if |args| == 0 {
      res := FillConfigurations(env, Mutating, mutating, items);
      if res.Failure? {
        return Failure(res.error);
      }
      items := res.value;
      res := FillConfigurations(env, Validating, validating, items);
      if res.Failure? {
        return Failure(res.error);
      }
      items := res.value;
    } else {
      var mutatingConfiguration := GetConfiguration(mutating, args[0]);
      var validatingConfiguration := GetConfiguration(validating, args[0]);
      SingleConfiguration(env, Mutating, mutatingConfiguration);
      SingleConfiguration(env, Validating, validatingConfiguration);
      res := FillMutatingWebhookConfigurations(env, mutatingConfiguration, items);
      if res.Failure? {
        return Failure(res.error);
      }
      items := res.value;
      res := FillValidatingWebhookConfigurations(env, validatingConfiguration, items);
      if res.Failure? {
        return Failure(res.error);
      }
      items := res.value;
    }
    return Success(PrintModel(items));
  }

  // ---- properties --------------------------------------------------------------

  /** One more entry: its item is appended, or its crash ends the walk. */
  lemma ItemsStep(env: Environment, kind: Kind, configName: string, webhooks: seq<Webhook>, i: nat)
    requires i < |webhooks| && Items(env, kind, configName, webhooks[..i]).Success?
    ensures ItemFor(env, kind, configName, webhooks[i]).Failure? ==>
              Items(env, kind, configName, webhooks[..i + 1]) == Failure(ItemFor(env, kind, configName, webhooks[i]).error)
    ensures ItemFor(env, kind, configName, webhooks[i]).Success? ==>
              Items(env, kind, configName, webhooks[..i + 1])
              == Success(Items(env, kind, configName, webhooks[..i]).value + [ItemFor(env, kind, configName, webhooks[i]).value])
  {
    InitLastOfPrefix(webhooks, i);
  }

  /** One more configuration: its items are appended, or its crash ends the walk. */
  lemma AllItemsStep(env: Environment, kind: Kind, configurations: seq<WebhookConfiguration>, i: nat)
    requires i < |configurations| && AllItems(env, kind, configurations[..i]).Success?
    ensures var c := configurations[i];
            && (Items(env, kind, c.name, c.webhooks).Failure? ==>
                  AllItems(env, kind, configurations[..i + 1]) == Failure(Items(env, kind, c.name, c.webhooks).error))
            && (Items(env, kind, c.name, c.webhooks).Success? ==>
                  AllItems(env, kind, configurations[..i + 1])
                  == Success(AllItems(env, kind, configurations[..i]).value + Items(env, kind, c.name, c.webhooks).value))
  {
    InitLastOfPrefix(configurations, i);
  }

  /** Once a prefix of the entries crashes, the walk over all of them ends with that crash. */
  lemma {:induction false} ItemsFailurePropagates(env: Environment, kind: Kind, configName: string, webhooks: seq<Webhook>, i: nat)
    requires i <= |webhooks|
    requires Items(env, kind, configName, webhooks[..i]).Failure?
    ensures Items(env, kind, configName, webhooks) == Items(env, kind, configName, webhooks[..i])
    decreases |webhooks| - i
  {
    if i < |webhooks| {
      var init := Init(webhooks);
      assert init[..i] == webhooks[..i];
      ItemsFailurePropagates(env, kind, configName, init, i);
    } else {
      assert webhooks[..i] == webhooks;
    }
  }

  /** One turn of FillConfigurations' loop: the items grow by the configuration's items, or its crash is final. */
  lemma AllItemsPrependStep(env: Environment, kind: Kind, configurations: seq<WebhookConfiguration>, i: nat,
                            items: seq<PrintItem>, acc: seq<PrintItem>, res: Result<seq<PrintItem>, Crash>)
    requires i < |configurations|
    requires Prepend(items, AllItems(env, kind, configurations[..i])) == Success(acc)
    requires res == Prepend(acc, Items(env, kind, configurations[i].name, configurations[i].webhooks))
    ensures res.Failure? ==> Prepend(items, AllItems(env, kind, configurations)) == Failure(res.error)
    ensures res.Success? ==> Prepend(items, AllItems(env, kind, configurations[..i + 1])) == Success(res.value)
  {
    AllItemsStep(env, kind, configurations, i);
    if res.Failure? {
      AllItemsFailurePropagates(env, kind, configurations, i + 1);
    } else {
      var done := AllItems(env, kind, configurations[..i]).value;
      var added := Items(env, kind, configurations[i].name, configurations[i].webhooks).value;
      assert res.value == (items + done) + added == items + (done + added);
    }
  }

  lemma {:induction false} AllItemsFailurePropagates(env: Environment, kind: Kind, configurations: seq<WebhookConfiguration>, i: nat)
    requires i <= |configurations|
    requires AllItems(env, kind, configurations[..i]).Failure?
    ensures AllItems(env, kind, configurations) == AllItems(env, kind, configurations[..i])
    decreases |configurations| - i
  {
    if i < |configurations| {
      var init := Init(configurations);
      assert init[..i] == configurations[..i];
      AllItemsFailurePropagates(env, kind, init, i);
    } else {
      assert configurations[..i] == configurations;
    }
  }

  /** The walk over one configuration's entries crashes exactly when some CA bundle is unreadable. */
  lemma {:induction false} ItemsSucceedIff(env: Environment, kind: Kind, configName: string, webhooks: seq<Webhook>)
    ensures Items(env, kind, configName, webhooks).Success? <==> AllReadable(env, webhooks)
  {
    if webhooks != [] {
      var init := Init(webhooks);
      ItemsSucceedIff(env, kind, configName, init);
      assert forall j :: 0 <= j < |init| ==> init[j] == webhooks[j];
      assert webhooks == init + [Last(webhooks)];
    }
  }

  lemma {:induction false} AllItemsSucceedIff(env: Environment, kind: Kind, configurations: seq<WebhookConfiguration>)
    ensures AllItems(env, kind, configurations).Success? <==> AllConfigurationsReadable(env, configurations)
  {
    if configurations != [] {
      var init, last := Init(configurations), Last(configurations);
      AllItemsSucceedIff(env, kind, init);
      ItemsSucceedIff(env, kind, last.name, last.webhooks);
      assert forall c :: 0 <= c < |init| ==> init[c] == configurations[c];
      assert configurations == init + [last];
    }
  }

  /** The crash is that of the FIRST entry whose CA bundle is unreadable. */
  lemma {:induction false} ItemsFirstCrash(env: Environment, kind: Kind, configName: string, webhooks: seq<Webhook>)
    requires Items(env, kind, configName, webhooks).Failure?
    ensures exists j :: 0 <= j < |webhooks| && AllReadable(env, webhooks[..j])
                        && RetrieveValidDateCount(env, webhooks[j].clientConfig.caBundle)
                           == Failure(Items(env, kind, configName, webhooks).error)
  {
    var init := Init(webhooks);
    var e := Items(env, kind, configName, webhooks).error;
    if Items(env, kind, configName, init).Failure? {
      ItemsFirstCrash(env, kind, configName, init);
      var j :| 0 <= j < |init| && AllReadable(env, init[..j])
               && RetrieveValidDateCount(env, init[j].clientConfig.caBundle) == Failure(e);
      assert init[..j] == webhooks[..j];
    } else {
      ItemsSucceedIff(env, kind, configName, init);
      assert webhooks[..|init|] == init;
    }
  }

  /** One item per webhook entry, in the entries' order, each ItemOf its entry. */
  lemma {:induction false} ItemsShape(env: Environment, kind: Kind, configName: string, webhooks: seq<Webhook>)
    requires Items(env, kind, configName, webhooks).Success?
    ensures |Items(env, kind, configName, webhooks).value| == |webhooks|
    ensures forall j :: 0 <= j < |webhooks| ==>
              ItemFor(env, kind, configName, webhooks[j]).Success?
              && Items(env, kind, configName, webhooks).value[j] == ItemFor(env, kind, configName, webhooks[j]).value
  {
    if webhooks != [] {
      ItemsShape(env, kind, configName, Init(webhooks));
    }
  }

  /** Every item carries the configuration's name and the kind's tag. */
  lemma ItemsTagged(env: Environment, kind: Kind, configName: string, webhooks: seq<Webhook>)
    requires Items(env, kind, configName, webhooks).Success?
    ensures forall j :: 0 <= j < |Items(env, kind, configName, webhooks).value| ==>
              Items(env, kind, configName, webhooks).value[j].name == configName
              && Items(env, kind, configName, webhooks).value[j].kind == KindName(kind)
  {
    ItemsShape(env, kind, configName, webhooks);
  }

  /**
   * Every item of AllItems carries the kind's tag; there is one per webhook
   * entry of the configurations, and each names one of the configurations.
   */
  lemma {:induction false} AllItemsShape(env: Environment, kind: Kind, configurations: seq<WebhookConfiguration>)
    requires AllItems(env, kind, configurations).Success?
    ensures |AllItems(env, kind, configurations).value| == TotalWebhooks(configurations)
    ensures forall i :: 0 <= i < |AllItems(env, kind, configurations).value| ==>
              AllItems(env, kind, configurations).value[i].kind == KindName(kind)
              && exists c :: 0 <= c < |configurations| && configurations[c].name == AllItems(env, kind, configurations).value[i].name
  {
    if configurations != [] {
      var init, last := Init(configurations), Last(configurations);
      AllItemsShape(env, kind, init);
      ItemsShape(env, kind, last.name, last.webhooks);
      ItemsTagged(env, kind, last.name, last.webhooks);
      var prev := AllItems(env, kind, init).value;
      var all := AllItems(env, kind, configurations).value;
      assert all == prev + Items(env, kind, last.name, last.webhooks).value;
      forall i | 0 <= i < |all|
        ensures all[i].kind == KindName(kind)
        ensures exists c :: 0 <= c < |configurations| && configurations[c].name == all[i].name
      {
        if i < |prev| {
          assert all[i] == prev[i];
          var c :| 0 <= c < |init| && init[c].name == prev[i].name;
          assert configurations[c] == init[c];
        } else {
          assert all[i] == Items(env, kind, last.name, last.webhooks).value[i - |prev|];
          assert configurations[|configurations| - 1].name == all[i].name;
        }
      }
    }
  }

  /** Run lists every mutating item before every validating item. */
  lemma MutatingBeforeValidating(env: Environment, mutating: seq<WebhookConfiguration>, validating: seq<WebhookConfiguration>)
    requires AllItems(env, Mutating, mutating).Success? && AllItems(env, Validating, validating).Success?
    ensures var items := AllItems(env, Mutating, mutating).value + AllItems(env, Validating, validating).value;
            |items| == TotalWebhooks(mutating) + TotalWebhooks(validating)
            && forall i :: 0 <= i < |items| ==>
                 items[i].kind == (if i < TotalWebhooks(mutating) then "Mutating" else "Validating")
  {
    AllItemsShape(env, Mutating, mutating);
    AllItemsShape(env, Validating, validating);
  }

  /** Every namespace an item lists as active is a namespace of the catalog, picked by the selector. */
  lemma ItemNamespacesFromCatalog(env: Environment, kind: Kind, configName: string, webhook: Webhook, name: string)
    requires ItemFor(env, kind, configName, webhook).Success?
    requires name in Elems(ItemFor(env, kind, configName, webhook).value.activeNamespaces)
    ensures webhook.namespaceSelector.Some?
    ensures exists i :: 0 <= i < |env.namespaces| && env.namespaces[i].name == name
                        && Selects(webhook.namespaceSelector.value.matchLabels, env.namespaces[i].labels)
  {
    if webhook.namespaceSelector.Some? {
      ActiveNamespacesMembership(webhook.namespaceSelector.value, env.namespaces, name);
    }
  }

  /** A single configuration, taken as a list of one. */
  lemma SingleConfiguration(env: Environment, kind: Kind, configuration: WebhookConfiguration)
    ensures AllItems(env, kind, [configuration]) == Items(env, kind, configuration.name, configuration.webhooks)
  {
    InitLastOfAppend([], configuration);
    assert Init([configuration]) == [];
    match Items(env, kind, configuration.name, configuration.webhooks)
    case Failure(_) =>
    case Success(items) => assert [] + items == items;
  }

  /** A name missing from a list selects its zero configuration, which contributes no item. */
  lemma AbsentNameContributesNothing(env: Environment, kind: Kind, configurations: seq<WebhookConfiguration>, name: string)
    requires forall i :: 0 <= i < |configurations| ==> configurations[i].name != name
    ensures AllItems(env, kind, Selected(configurations, [name])) == Success([])
  {
    SingleConfiguration(env, kind, ZeroConfiguration);
  }
}
