/**
 * The admissionregistration v1beta1 mutating-only path of
 * pkg/k8s/mutating_webhook.go. Its items have their own shape: one flat list
 * of operations and one of resources per webhook entry, the service reference
 * copied field by field, dereferenced without a nil check.
 */
module MutatingWebhookBeta {
  import opened Wrappers
  import opened Seqs
  import opened GoStd
  import opened Cluster
  import opened WebhookNamespaces
  import opened WebhookRules
  import PrinterModel
  import WebhookV1

  datatype BetaWebhookItem = BetaWebhookItem(
    name: string,
    serviceName: string,
    serviceNamespace: string,
    servicePath: Option<string>,
    servicePort: Option<int32>)

  datatype BetaPrintItem = BetaPrintItem(
    name: string,
    webhook: BetaWebhookItem,
    kind: string,
    operations: seq<string>,
    resources: seq<string>,
    validUntil: Duration,
    activeNamespaces: Slice<string>)

  datatype BetaPrintModel = BetaPrintModel(items: seq<BetaPrintItem>)

  /** Run either returns the API's error or the process aborts with a crash. */
  datatype RunError = ApiError | Crashed(crash: Crash)

  /**
   * retrieveValidDateCount of this file: no nil guard, so a nil or empty
   * bundle yields no PEM block and its dereference aborts; otherwise it
   * agrees with the v1 function.
   */
  function RetrieveValidDateCount(env: Environment, certificate: Slice<byte>): (r: Result<Duration, Crash>)
    ensures certificate.None? ==> r == Failure(NilBlockDereference)
    ensures certificate.Some? ==> r == WebhookV1.RetrieveValidDateCount(env, certificate)
  {
    match env.PemBlock(Elems(certificate))
    case None => Failure(NilBlockDereference)
    case Some(block) =>
      match env.parseCertificate(block)
      case None => Failure(FatalCertificateError)
      case Some(notAfter) => Success(Sub(notAfter, env.now))
  }

  /** A webhook entry the loop gets through: it names a service and its bundle parses. */
  predicate Processable(env: Environment, webhook: Webhook)
  {
    webhook.clientConfig.service.Some? && RetrieveValidDateCount(env, webhook.clientConfig.caBundle).Success?
  }

  predicate AllProcessable(env: Environment, webhooks: seq<Webhook>)
  {
    forall j :: 0 <= j < |webhooks| ==> Processable(env, webhooks[j])
  }

  /**
   * The item of one webhook entry: the service reference is read first (a
   * nil one aborts), then the bundle.
   */
  function ItemFor(env: Environment, configName: string, webhook: Webhook): Result<BetaPrintItem, Crash>
  {
    match webhook.clientConfig.service
    case None => Failure(NilServiceDereference)
    case Some(ref) =>
      match RetrieveValidDateCount(env, webhook.clientConfig.caBundle)
      case Failure(e) => Failure(e)
      case Success(d) =>
        Success(BetaPrintItem(
          configName,
          BetaWebhookItem(webhook.name, ref.name, ref.namespace, ref.path, ref.port),
          "Mutating",
          ConcatOperations(webhook.rules),
          ConcatResources(webhook.rules),
          d,
          ActiveNamespacesSlice(webhook.namespaceSelector, env.namespaces)))
  }

  function Items(env: Environment, configName: string, webhooks: seq<Webhook>): Result<seq<BetaPrintItem>, Crash>
  {
    if webhooks == [] then Success([])
    else
      match Items(env, configName, Init(webhooks))
      case Failure(e) => Failure(e)
      case Success(prev) =>
        match ItemFor(env, configName, Last(webhooks))
        case Failure(e) => Failure(e)
        case Success(item) => Success(prev + [item])
  }

  function AllItems(env: Environment, configurations: seq<WebhookConfiguration>): Result<seq<BetaPrintItem>, Crash>
  {
    if configurations == [] then Success([])
    else
      match AllItems(env, Init(configurations))
      case Failure(e) => Failure(e)
      case Success(prev) =>
        match Items(env, Last(configurations).name, Last(configurations).webhooks)
        case Failure(e) => Failure(e)
        case Success(items) => Success(prev + items)
  }

  /** The `for _, rule := range webhook.Rules` loop: every operation and every resource, rule after rule. */
  method FlattenRules(rules: seq<Rule>) returns (operations: seq<string>, resources: seq<string>)
    ensures operations == ConcatOperations(rules)
    ensures resources == ConcatResources(rules)
  {
    operations, resources := [], [];
    for k := 0 to |rules|
      invariant operations == ConcatOperations(rules[..k])
      invariant resources == ConcatResources(rules[..k])
    {
      InitLastOfPrefix(rules, k);
      var rule := rules[k];
      for j := 0 to |rule.operations|
        invariant operations == ConcatOperations(rules[..k]) + rule.operations[..j]
      {
        assert rule.operations[..j + 1] == rule.operations[..j] + [rule.operations[j]];
        operations := operations + [rule.operations[j]];
      }
      for j := 0 to |rule.resources|
        invariant resources == ConcatResources(rules[..k]) + rule.resources[..j]
      {
        assert rule.resources[..j + 1] == rule.resources[..j] + [rule.resources[j]];
        resources := resources + [rule.resources[j]];
      }
      assert rule.operations[..|rule.operations|] == rule.operations;
      assert rule.resources[..|rule.resources|] == rule.resources;
    }
    assert rules[..|rules|] == rules;
  }

  /** fillPrintItems: one item per webhook entry, appended after `items`. */
  method FillPrintItems(env: Environment, mwc: WebhookConfiguration, items: seq<BetaPrintItem>)
    returns (r: Result<seq<BetaPrintItem>, Crash>)
    ensures r == Prepend(items, Items(env, mwc.name, mwc.webhooks))
  {
    var item := BetaPrintItem(mwc.name, BetaWebhookItem("", "", "", None, None), "Mutating", [], [], 0, None);
    var acc := items;
    var webhooks := mwc.webhooks;
    for i := 0 to |webhooks|
      invariant Items(env, mwc.name, webhooks[..i]).Success?
      invariant acc == items + Items(env, mwc.name, webhooks[..i]).value
      invariant item.name == mwc.name && item.kind == "Mutating"
    {
      InitLastOfPrefix(webhooks, i);
      var webhook := webhooks[i];
      var activeNamespaces := FillActiveNamespaces(env, webhook, None);
      FromNilSlice(activeNamespaces, webhook.namespaceSelector, env.namespaces);
      if webhook.clientConfig.service.None? {
        ItemsFailurePropagates(env, mwc.name, webhooks, i + 1);
        return Failure(NilServiceDereference);
      }
      var ref := webhook.clientConfig.service.value;
      item := item.(webhook := BetaWebhookItem(webhook.name, ref.name, ref.namespace, ref.path, ref.port));
      var operations, resources := FlattenRules(webhook.rules);
      var validUntil := RetrieveValidDateCount(env, webhook.clientConfig.caBundle);
      if validUntil.Failure? {
        ItemsFailurePropagates(env, mwc.name, webhooks, i + 1);
        return Failure(validUntil.error);
      }
      item := item.(operations := operations, resources := resources,
                    validUntil := validUntil.value, activeNamespaces := activeNamespaces);
      assert Success(item) == ItemFor(env, mwc.name, webhook);
      acc := acc + [item];
    }
    assert webhooks[..|webhooks|] == webhooks;
    return Success(acc);
  }

  /**
   * Run: with exactly one argument every configuration is listed; otherwise
   * the one named args[1] is fetched, which fails when it does not exist and
   * aborts when there is no args[1]. `configurations` is what the API would
   * list, None when listing fails.
   */
  method Run(env: Environment, configurations: Option<seq<WebhookConfiguration>>, args: seq<string>)
    returns (r: Result<BetaPrintModel, RunError>)
    ensures |args| == 0 ==> r == Failure(Crashed(IndexOutOfRange))
    ensures |args| == 1 && configurations.None? ==> r == Failure(ApiError)
    ensures |args| == 1 && configurations.Some? ==>
              && (r.Success? <==> AllItems(env, configurations.value).Success?)
              && (r.Success? ==> r.value.items == AllItems(env, configurations.value).value)
              && (r.Failure? ==> r.error == Crashed(AllItems(env, configurations.value).error))
    ensures |args| >= 2 && (configurations.None? || FindConfiguration(configurations.value, args[1]).None?) ==>
              r == Failure(ApiError)
    ensures |args| >= 2 && configurations.Some? && FindConfiguration(configurations.value, args[1]).Some? ==>
              var c := FindConfiguration(configurations.value, args[1]).value;
              && c.name == args[1]
              && (r.Success? <==> Items(env, c.name, c.webhooks).Success?)
              && (r.Success? ==> r.value.items == Items(env, c.name, c.webhooks).value)
              && (r.Failure? ==> r.error == Crashed(Items(env, c.name, c.webhooks).error))
  {
    var items: seq<BetaPrintItem> := [];
    if |args| == 1 {
      if configurations.None? {
        return Failure(ApiError);
      }
      var list := configurations.value;
      for i := 0 to |list|
        invariant AllItems(env, list[..i]).Success?
        invariant items == AllItems(env, list[..i]).value
      {
        InitLastOfPrefix(list, i);
        var res := FillPrintItems(env, list[i], items);
        if res.Failure? {
          AllItemsFailurePropagates(env, list, i + 1);
          return Failure(Crashed(res.error));
        }
        items := res.value;
      }
      assert list[..|list|] == list;
    } else {
      if |args| == 0 {
        return Failure(Crashed(IndexOutOfRange));
      }
      if configurations.None? {
        return Failure(ApiError);
      }
      var found := FindConfiguration(configurations.value, args[1]);
      if found.None? {
        return Failure(ApiError);
      }
      var res := FillPrintItems(env, found.value, items);
      if res.Failure? {
        return Failure(Crashed(res.error));
      }
      items := res.value;
    }
    return Success(BetaPrintModel(items));
  }

  // ---- properties --------------------------------------------------------------

  lemma {:induction false} ItemsFailurePropagates(env: Environment, configName: string, webhooks: seq<Webhook>, i: nat)
    requires i <= |webhooks|
    requires Items(env, configName, webhooks[..i]).Failure?
    ensures Items(env, configName, webhooks) == Items(env, configName, webhooks[..i])
    decreases |webhooks| - i
  {
    if i < |webhooks| {
      var init := Init(webhooks);
      assert init[..i] == webhooks[..i];
      ItemsFailurePropagates(env, configName, init, i);
    } else {
      assert webhooks[..i] == webhooks;
    }
  }

  lemma {:induction false} AllItemsFailurePropagates(env: Environment, configurations: seq<WebhookConfiguration>, i: nat)
    requires i <= |configurations|
    requires AllItems(env, configurations[..i]).Failure?
    ensures AllItems(env, configurations) == AllItems(env, configurations[..i])
    decreases |configurations| - i
  {
    if i < |configurations| {
      var init := Init(configurations);
      assert init[..i] == configurations[..i];
      AllItemsFailurePropagates(env, init, i);
    } else {
      assert configurations[..i] == configurations;
    }
  }

  /** The walk crashes exactly when some entry has no service or an unreadable bundle. */
  lemma {:induction false} ItemsSucceedIff(env: Environment, configName: string, webhooks: seq<Webhook>)
    ensures Items(env, configName, webhooks).Success? <==> AllProcessable(env, webhooks)
  {
    if webhooks != [] {
      var init := Init(webhooks);
      ItemsSucceedIff(env, configName, init);
      assert forall j :: 0 <= j < |init| ==> init[j] == webhooks[j];
      assert webhooks == init + [Last(webhooks)];
    }
  }

  /** One item per entry, in order; each holds every operation and resource of its entry's rules. */
  lemma {:induction false} ItemsShape(env: Environment, configName: string, webhooks: seq<Webhook>)
    requires Items(env, configName, webhooks).Success?
    ensures |Items(env, configName, webhooks).value| == |webhooks|
    ensures forall j :: 0 <= j < |webhooks| ==>
              ItemFor(env, configName, webhooks[j]).Success?
              && Items(env, configName, webhooks).value[j] == ItemFor(env, configName, webhooks[j]).value
  {
    if webhooks != [] {
      ItemsShape(env, configName, Init(webhooks));
    }
  }

  /** An operation is listed iff some rule of the entry has it. */
  lemma {:induction false} ConcatOperationsMembership(rules: seq<Rule>, op: string)
    ensures op in ConcatOperations(rules) <==> exists k :: 0 <= k < |rules| && op in rules[k].operations
  {
    if rules != [] {
      var init := Init(rules);
      ConcatOperationsMembership(init, op);
      assert forall k :: 0 <= k < |init| ==> init[k] == rules[k];
      if exists k :: 0 <= k < |rules| && op in rules[k].operations {
        var k :| 0 <= k < |rules| && op in rules[k].operations;
        if k < |init| {
          assert op in init[k].operations;
        }
      }
    }
  }

  /** A resource is listed iff some rule of the entry has it. */
  lemma {:induction false} ConcatResourcesMembership(rules: seq<Rule>, resource: string)
    ensures resource in ConcatResources(rules) <==> exists k :: 0 <= k < |rules| && resource in rules[k].resources
  {
    if rules != [] {
      var init := Init(rules);
      ConcatResourcesMembership(init, resource);
      assert forall k :: 0 <= k < |init| ==> init[k] == rules[k];
      if exists k :: 0 <= k < |rules| && resource in rules[k].resources {
        var k :| 0 <= k < |rules| && resource in rules[k].resources;
        if k < |init| {
          assert resource in init[k].resources;
        }
      }
    }
  }

  /**
   * Where both paths get through an entry (it names a service and has a
   * bundle), they agree on everything except the rules' grouping.
   */
  lemma AgreesWithV1(env: Environment, configName: string, webhook: Webhook)
    requires webhook.clientConfig.service.Some? && webhook.clientConfig.caBundle.Some?
    ensures ItemFor(env, configName, webhook).Success?
            <==> WebhookV1.ItemFor(env, WebhookV1.Mutating, configName, webhook).Success?
    ensures ItemFor(env, configName, webhook).Success? ==>
              var beta := ItemFor(env, configName, webhook).value;
              var v1 := WebhookV1.ItemFor(env, WebhookV1.Mutating, configName, webhook).value;
              && beta.name == v1.name && beta.kind == v1.kind && beta.webhook.name == v1.webhook.name
              && beta.webhook.serviceName == v1.webhook.service.name
              && beta.webhook.serviceNamespace == v1.webhook.service.namespace
              && beta.webhook.servicePath == v1.webhook.service.path
              && beta.validUntil == v1.validUntil
              && beta.activeNamespaces == v1.activeNamespaces
  {
  }

  /** A v1 entry without a CA bundle shows as "0"; the same entry aborts this path. */
  lemma NilBundleOnlyCrashesHere(env: Environment, configName: string, webhook: Webhook)
    requires webhook.clientConfig.service.Some? && webhook.clientConfig.caBundle.None?
    ensures ItemFor(env, configName, webhook) == Failure(NilBlockDereference)
    ensures WebhookV1.ItemFor(env, WebhookV1.Mutating, configName, webhook).Success?
    ensures WebhookV1.ItemFor(env, WebhookV1.Mutating, configName, webhook).value.validUntil == 0
  {
  }

  /** The flat lists lose the rule boundaries that the v1 models keep. */
  lemma FlatListsLoseRuleBoundaries()
    ensures var split := [Rule(["CREATE"], ["pods"]), Rule(["DELETE"], ["services"])];
            var joined := [Rule(["CREATE", "DELETE"], ["pods", "services"])];
            && ConcatOperations(split) == ConcatOperations(joined) == ["CREATE", "DELETE"]
            && ConcatResources(split) == ConcatResources(joined) == ["pods", "services"]
            && MutatingRuleModels(split) != MutatingRuleModels(joined)
  {
    var r0, r1 := Rule(["CREATE"], ["pods"]), Rule(["DELETE"], ["services"]);
    var joined := Rule(["CREATE", "DELETE"], ["pods", "services"]);
    InitLastOfAppend([r0], r1);
    InitLastOfAppend([], r0);
    InitLastOfAppend([], joined);
    assert [r0] == [] + [r0];
    MutatingRuleModelsVerbatim([r0, r1]);
    MutatingRuleModelsVerbatim([joined]);
  }
}
