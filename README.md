# kubectl-view-webhook, modelled in Dafny

kubectl-view-webhook is a kubectl plugin. It reads the mutating and validating admission-webhook configurations of a Kubernetes cluster and prints them as a table. The table has one row per webhook entry, showing:

- the entry's service, with its ports;
- its rules, as resources with their operations marked;
- the time left on its CA bundle;
- the namespaces its selector picks.

This project models the plugin's logic with the Kubernetes client replaced by plain input data:

- **Webhook aggregation, admissionregistration v1** (`pkg/k8s/webhook.go`, module `WebhookV1` with `WebhookNamespaces`, `WebhookRules` and `WebhookService`).
  - Every configuration yields one print item per webhook entry, in order: mutating configurations first, then validating ones.
  - Each item carries its configuration's name, a kind tag, the service found for the entry, the rule models, the remaining validity of the CA bundle, and the active namespaces.
- **The older v1beta1 path** (`pkg/k8s/mutating_webhook.go`, module `MutatingWebhookBeta`). It does the same for mutating configurations only, with the rules flattened into two lists. This file sets `PrintItem` and `PrintWebhookItem` fields that `pkg/printer/model.go` does not declare (`Operations`, `Resources`, `ServiceName`, `ServiceNamespace`, `ServicePath`, `ServicePort`), and it declares `retrieveValidDateCount` a second time in package k8s. So it cannot compile beside `webhook.go` and `model.go`, and the module has its own record types (`BetaPrintItem`, `BetaWebhookItem`).
- **The renderer** (`pkg/printer/printer.go`, module `Printer`).
  - It builds the cells of each row: the service leveled list, the resources/operations leveled list, the remaining-time cell and the namespace bullets.
  - It builds the fixed seven-column header.
- **The command options** (`pkg/cmd/view-webhook.go`, module `ViewWebhook`). A class `ViewWebhookOptions` has the fields that `Complete` updates. `Complete` derives the resulting kubeconfig context from the loaded configuration, the flags and the positional argument. `Validate` checks that a current context is set.

Shared modules:

- `Cluster`: the cluster as input data.
  - Configurations, webhooks, rules and selectors.
  - A namespace catalog `seq<Namespace>`.
  - A service lookup `(namespace, name) -> Option<Service>`.
  - PEM decoding and X.509 parsing as uninterpreted partial functions.
  - The current time as an integer `now` in nanoseconds.
- `PrinterModel`: the records of `pkg/printer/model.go`.
- `GoStd`: the fragments of Go's runtime and standard library that the code relies on.
  - Fixed-width integers (`int32`, `byte`, `time.Duration`).
  - Nil-able slices as `Option<seq<T>>`.
  - The saturating `Time.Sub`.
  - `%d`, `strings.Split` and `strings.ToUpper`.

Process aborts (`log.Fatalf`, a nil-pointer dereference, an index out of range) are failure outcomes (`Cluster.Crash`), not preconditions. The code accepts every input, some of them by aborting, so the model has no preconditions on inputs either.

Three behaviours of the code are kept as written:

- An unparsable CA bundle aborts the process (`log.Fatalf`).
- In the v1beta1 path, a configuration name that is not found is an error returned from `Run`.
- `fillRulesForValidating` is kept as written, defects included. Its `rs` accumulates across rules, and its operations are `rs` plus the rule's last operation (see `WebhookRules.ValidatingRuleModelsShape`).

## Model

| member | source | states |
|---|---|---|
| WebhookV1.RetrieveValidDateCount | pkg/k8s/webhook.go:256-266 | The result depends on the bundle. A nil bundle gives 0. A bundle without a PEM block is a nil-block dereference. A parse failure is the fatal error. A parsed certificate always succeeds with `Sub(NotAfter, now)`. By GoStd.Sub's contract that is exact within the Duration range, saturated outside it, and negative exactly when the certificate has expired. |
| WebhookV1.FillRules | pkg/k8s/webhook.go:110-112 | The rule models of an entry are the mutating or the validating flattening, by kind. |
| WebhookV1.FillItem | pkg/k8s/webhook.go:96-115 | The item of one entry has these fields. Its service is the zero value when no service is named. Its namespaces come from the selector. Its rule models depend on its kind. Its remaining time comes from its bundle. The entry crashes exactly when the bundle does. |
| WebhookV1.FillWebhookConfiguration | pkg/k8s/webhook.go:90-145 | The loop over one configuration's entries returns the existing items followed by the items of its entries, or else the first crash. |
| WebhookV1.FillMutatingWebhookConfigurations | pkg/k8s/webhook.go:90-117 | The items appended are those of the configuration's entries, tagged Mutating, after the existing items. |
| WebhookV1.FillValidatingWebhookConfigurations | pkg/k8s/webhook.go:118-145 | The items appended are those of the configuration's entries, tagged Validating, after the existing items. |
| WebhookV1.GetConfiguration | pkg/k8s/webhook.go:77-82 | A name that no configuration carries gives the zero configuration. Otherwise the result is a configuration of that name. |
| WebhookV1.FillConfigurations | pkg/k8s/webhook.go:70-75 | Filling configuration after configuration appends AllItems of the list to the existing items, or else yields the first crash. |
| WebhookV1.Run | pkg/k8s/webhook.go:62-88 | Run succeeds exactly when every selected bundle is readable. On success the items are all mutating items followed by all validating items. On failure the crash is the mutating one if there is one, else the validating one. There is never an error value. |
| WebhookV1.ItemsStep | pkg/k8s/webhook.go:96-116 | Adding one entry appends its item or stops at its crash. |
| WebhookV1.AllItemsStep | pkg/k8s/webhook.go:70-75 | Adding one configuration appends its items or stops at its crash. |
| WebhookV1.AllItemsPrependStep | pkg/k8s/webhook.go:70-75 | One turn of the loop over configurations either extends the accumulated items by the configuration's items or ends the whole walk with its crash. |
| WebhookV1.ItemsFailurePropagates | pkg/k8s/webhook.go:96-116 | Once a prefix of the entries crashes, the whole configuration ends in that crash. |
| WebhookV1.AllItemsFailurePropagates | pkg/k8s/webhook.go:70-75 | Once a prefix of the configurations crashes, the whole list ends in that crash. |
| WebhookV1.ItemsSucceedIff | pkg/k8s/webhook.go:96-116 | A configuration's items exist exactly when every entry's bundle is readable. |
| WebhookV1.AllItemsSucceedIff | pkg/k8s/webhook.go:70-75 | A list's items exist exactly when every bundle of every configuration is readable. |
| WebhookV1.ItemsFirstCrash | pkg/k8s/webhook.go:96-116 | A crash is the crash of the first entry whose bundle is unreadable. Every earlier entry is readable. |
| WebhookV1.ItemsShape | pkg/k8s/webhook.go:96-116 | There is exactly one item per webhook entry, in entry order, and each is the item of its entry. |
| WebhookV1.ItemsTagged | pkg/k8s/webhook.go:90-145 | Every item carries the configuration's name and the Mutating or Validating tag. |
| WebhookV1.AllItemsShape | pkg/k8s/webhook.go:70-75 | The item count is the total number of entries. Every item carries the kind's tag and the name of one of the configurations. |
| WebhookV1.MutatingBeforeValidating | pkg/k8s/webhook.go:70-75 | The first TotalWebhooks(mutating) items are Mutating, and the rest are Validating. |
| WebhookV1.ItemNamespacesFromCatalog | pkg/k8s/webhook.go:96-115 | An item's active namespace comes from a catalog namespace that its selector picks. No selector means no namespaces. |
| WebhookV1.SingleConfiguration | pkg/k8s/webhook.go:81-82 | The one configuration found by name contributes exactly its own items. |
| WebhookV1.AbsentNameContributesNothing | pkg/k8s/webhook.go:77-82 | A name found in neither list contributes no item. |
| WebhookNamespaces.AnyLabelMatches | pkg/k8s/webhook.go:189-194 | The loop result is true exactly when some MatchLabels pair equals the namespace's label. A missing label reads as "". |
| WebhookNamespaces.FillActiveNamespaces | pkg/k8s/webhook.go:183-201 | The namespaces the selector picks are appended, in catalog order, to the given slice. With no selector the slice is unchanged and stays nil. |
| WebhookNamespaces.FromNilSlice | pkg/k8s/webhook.go:97-98 | Starting from a nil slice, the result is nil exactly when nothing is picked. Otherwise it holds the picked names. |
| WebhookNamespaces.ActiveNamespacesMembership | pkg/k8s/webhook.go:188-197 | A name is active exactly when some catalog namespace with that name is picked by the selector. |
| WebhookNamespaces.ActiveNamespacesSubsequence | pkg/k8s/webhook.go:188-197 | The active namespaces are a subsequence of the catalog's names, in catalog order. |
| WebhookNamespaces.EmptyMatchLabelsSelectsNothing | pkg/k8s/webhook.go:190-195 | A present selector with no MatchLabels picks no namespace. |
| WebhookNamespaces.MissingLabelMatchesEmptyValue | pkg/k8s/webhook.go:191 | A pair whose value is "" picks every namespace without that label. |
| WebhookNamespaces.ActiveNamespacesFromCatalog | pkg/k8s/webhook.go:188-197 | Every active name is the name of a catalog namespace. |
| WebhookRules.MutatingRuleModelsVerbatim | pkg/k8s/webhook.go:146-164 | There is one model per rule, in rule order. Its operations and resources are those of the rule. |
| WebhookRules.FillRulesForMutating | pkg/k8s/webhook.go:146-164 | The loop yields one model per rule, with that rule's own operations and resources. |
| WebhookRules.FillRulesForValidating | pkg/k8s/webhook.go:165-182 | The loop yields the validating models as written, with `rs` never reset. |
| WebhookRules.ValidatingRuleModelsShape | pkg/k8s/webhook.go:165-182 | There is one model per rule. The k-th model holds `ops` and `rs` as they stand after rule k: `rs` is the resources of rules 0..k concatenated. |
| WebhookRules.ValidatingResourcesAccumulate | pkg/k8s/webhook.go:167-174 | The k-th validating model's resources are the concatenation of the resources of rules 0..k. |
| WebhookRules.ValidatingOperationsOfRule | pkg/k8s/webhook.go:167-172 | For a rule with operations, the k-th validating model's operations are the earlier rules' resources plus that rule's last operation, not its own operations. A rule without operations keeps the previous model's operations, and the first rule keeps none. |
| WebhookRules.ValidatingDiffersFromMutating | pkg/k8s/webhook.go:146-182 | On two concrete rules, the validating models differ from the mutating ones in both lists. |
| WebhookService.PortItemsAt | pkg/k8s/webhook.go:239-245 | The ports are copied one for one, in order, as (Port, TargetPort.IntVal, Protocol). |
| WebhookService.GenerateServiceItem | pkg/k8s/webhook.go:222-252 | The method builds the service item for the lookup's result. The port argument is not used. |
| WebhookService.ServiceItemFacts | pkg/k8s/webhook.go:222-252 | Name, namespace and path are echoed. Found holds exactly when the lookup succeeds. Not found means no ports and empty ClusterIP and Type. Found means the service's ClusterIP, Type and every port, in order. |
| Cluster.FindConfiguration | pkg/k8s/mutating_webhook.go:59-62 | The lookup by name is None exactly when no configuration has the name. Otherwise it gives one of the configurations. |
| MutatingWebhookBeta.RetrieveValidDateCount | pkg/k8s/mutating_webhook.go:128-135 | There is no nil guard, so a nil bundle is a nil-block dereference. Otherwise the result agrees with the v1 function. |
| MutatingWebhookBeta.FlattenRules | pkg/k8s/mutating_webhook.go:106-115 | The operations of all rules are concatenated in rule order, and likewise the resources. |
| MutatingWebhookBeta.FillPrintItems | pkg/k8s/mutating_webhook.go:72-124 | The input items are returned, followed by one Mutating item per entry with the configuration's name, or else the first crash (a nil service, then the bundle). |
| MutatingWebhookBeta.Run | pkg/k8s/mutating_webhook.go:45-70 | No argument is an index-out-of-range crash. One argument lists every configuration. More arguments get args[1]. A failed List or Get, or a missing name, is an error. Otherwise the items are those of the listed or found configurations. |
| MutatingWebhookBeta.ItemsFailurePropagates | pkg/k8s/mutating_webhook.go:77-122 | A crash in a prefix of the entries is the crash of the whole configuration. |
| MutatingWebhookBeta.AllItemsFailurePropagates | pkg/k8s/mutating_webhook.go:55-57 | A crash in a prefix of the configurations is the crash of the whole list. |
| MutatingWebhookBeta.ItemsSucceedIff | pkg/k8s/mutating_webhook.go:77-122 | The items exist exactly when every entry names a service and has a readable bundle. |
| MutatingWebhookBeta.ItemsShape | pkg/k8s/mutating_webhook.go:77-122 | There is one item per entry, in order, each the item of its entry. |
| MutatingWebhookBeta.ConcatOperationsMembership | pkg/k8s/mutating_webhook.go:106-110 | An operation is in the flat list exactly when some rule has it. |
| MutatingWebhookBeta.ConcatResourcesMembership | pkg/k8s/mutating_webhook.go:106-115 | A resource is in the flat list exactly when some rule has it. |
| MutatingWebhookBeta.AgreesWithV1 | pkg/k8s/mutating_webhook.go:72-124 | For an entry with a service and a bundle, the v1beta1 and v1 paths succeed together. They agree on name, kind, webhook, service reference, remaining time and namespaces. |
| MutatingWebhookBeta.NilBundleOnlyCrashesHere | pkg/k8s/mutating_webhook.go:128-130 | A nil bundle aborts the v1beta1 path, while v1 shows 0. |
| MutatingWebhookBeta.FlatListsLoseRuleBoundaries | pkg/k8s/mutating_webhook.go:106-118 | Two different rule lists give the same flat lists but different v1 models. |
| Printer.ConvertStringArrayToBulletListItem | pkg/printer/printer.go:55-85 | A nil slice gives exactly the red "No Active Namespaces" item with bullet "✖". Otherwise there is one level-0 item per string, in order, decorated when a decorator is given. An empty non-nil slice gives none. |
| Printer.BulletsOfShape | pkg/printer/printer.go:59-74 | There is one bullet per string, in order. |
| Printer.ModifyNamespaces | pkg/printer/printer.go:44-46 | The decorator keeps the namespace text unchanged and uses the default bullet. Printer.NamespaceBullets applies it to every namespace. |
| Printer.NamespaceBullets | pkg/printer/printer.go:44-94 | Each namespace is shown unchanged, in green, with the default bullet. Nil gives the "No Active Namespaces" item. |
| Printer.BuildResourcesList | pkg/printer/printer.go:96-112 | The loop builds the resources/operations leveled list of the rule models. |
| Printer.ResourceItemsShape | pkg/printer/printer.go:98-100 | Every resource is shown at level 0 in white, in order. |
| Printer.OperationItemsShape | pkg/printer/printer.go:101-111 | Every operation is shown at level 1, in order, through its marking. |
| Printer.ModelEntries | pkg/printer/printer.go:97-111 | A model contributes its resources at level 0, then its operations at level 1. The count is the sum of both. |
| Printer.ResourcesListAppend | pkg/printer/printer.go:97-112 | The list of several models is the lists of the models in order. |
| Printer.OperationItem | pkg/printer/printer.go:101-110 | The function has no ensures of its own. Printer.OperationItemShape states what it produces, and Printer.OperationMarking states that case does not matter. |
| Printer.OperationItemShape | pkg/printer/printer.go:101-110 | Every operation is at level 1. An upper-case form CREATE gives a green "+", UPDATE a blue "^" and DELETE a red "-", each before the operation's own spelling. Exactly those three (in any case) are marked, and any other operation's text is unchanged. |
| Printer.ResourcesListLength | pkg/printer/printer.go:97-112 | The whole list has one entry per resource and one per operation, summed over all models. |
| Printer.OperationMarking | pkg/printer/printer.go:102 | Two spellings with the same upper-case form get the same mark and the same colour. |
| Printer.LowerCaseCreateIsMarked | pkg/printer/printer.go:102-104 | "create" is shown as a green "+create". |
| Printer.DecimalHasNoSeparator | pkg/printer/printer.go:154-156 | A `%d` rendering contains neither '/' nor ':'. |
| Printer.PortInfo | pkg/printer/printer.go:152-157 | The text is "%d/%s" with a zero target port, else "%d::%d/%s". The function has no ensures of its own. Its contract is Printer.PortInfoRoundTrip: the text reads back to the same port item. |
| Printer.PortInfoRoundTrip | pkg/printer/printer.go:152-157 | The port text parses back to the same port item. The part before its first '/' holds a ':' exactly when the target port is set. |
| Printer.PlainPortRoundTrip | pkg/printer/printer.go:153-155 | "%d/%s" parses back to the port with target 0. |
| Printer.TargetPortRoundTrip | pkg/printer/printer.go:156 | "%d::%d/%s" parses back to the port with its target. |
| Printer.ServiceList | pkg/printer/printer.go:139-168 | The service list always has at least two entries, level-0 first and the namespace line second, so "No Services" is unreachable. A missing service gives exactly those two entries. |
| Printer.BuildServiceList | pkg/printer/printer.go:139-165 | The loop builds the service list. If found: name, namespace, optional path, IP line, then one level-2 line per port. If not found: exactly the red name and the namespace. |
| Printer.FoundHeader | pkg/printer/printer.go:143-149 | A found service's header has 3 lines, or 4 when a path is set. |
| Printer.PortLinesShape | pkg/printer/printer.go:150-160 | There is one level-2 line per port, in order. |
| Printer.FoundListPorts | pkg/printer/printer.go:143-160 | A found service's list is its header followed by exactly one level-2 port line per port, in port order. |
| Printer.ServicePortsReadBack | pkg/printer/printer.go:143-160 | A found service lists every port after 3 lines, or 4 with a path, each readable back from its line. |
| Printer.RemainingTime | pkg/printer/printer.go:114-137 | "No CABundle" is shown exactly for 0. Otherwise the duration is shown, to two units under two days and one unit beyond. A negative duration is red. |
| Printer.RemainingColourMonotone | pkg/printer/printer.go:130-136 | A longer validity never gets a more alarming colour. |
| Printer.ExpiringNowLooksMissing | pkg/printer/printer.go:114-117 | A readable bundle whose certificate expires at exactly `now` gets remaining time 0. It is shown as "No CABundle", the same cell as an entry without a bundle. |
| Printer.Print | pkg/printer/printer.go:89-196 | The header is the seven fixed columns. There is one row per item, in order, each with the item's kind, name, webhook, service list, resources list, remaining cell and namespace bullets. |
| ViewWebhook.ViewWebhookOptions.constructor | pkg/cmd/view-webhook.go:50-55 | New options start with every field zero. |
| ViewWebhook.ViewWebhookOptions.Complete | pkg/cmd/view-webhook.go:91-168 | The new fields and the error are exactly those of CompleteState on the old fields. |
| ViewWebhook.ViewWebhookOptions.Validate | pkg/cmd/view-webhook.go:184-190 | The check fails, with errNoContext, exactly when CurrentContext is empty. |
| ViewWebhook.ViewWebhookOptions.Run | pkg/cmd/view-webhook.go:194-197 | Run never fails. |
| ViewWebhook.ViewWebhookOptions.Execute | pkg/cmd/view-webhook.go:70-82 | Complete runs, then Validate, then Run, and the first error is returned. |
| ViewWebhook.LoadFailure | pkg/cmd/view-webhook.go:94-98 | A failed kubeconfig load is the error, and nothing is derived. |
| ViewWebhook.NamespaceConflict | pkg/cmd/view-webhook.go:104-108 | An argument together with --namespace is refused before anything is derived. |
| ViewWebhook.NoNamespaceNoContext | pkg/cmd/view-webhook.go:112-116 | Without a namespace, Complete succeeds and derives no context. |
| ViewWebhook.CompleteWithNamespace | pkg/cmd/view-webhook.go:104-168 | With a namespace, Complete fails, with errNoContext, exactly when the current context is missing. Otherwise the state holds the derived context, which carries that namespace, and the derived name. |
| ViewWebhook.ResultingContextFields | pkg/cmd/view-webhook.go:138-159 | The namespace is always the one chosen. Cluster and user come from non-empty flags, else from the --context context when it exists, else from the current context. |
| ViewWebhook.ResultingNameChoice | pkg/cmd/view-webhook.go:144-165 | The resulting name is --context whether or not that context exists. Otherwise it is the generated name. |
| ViewWebhook.GenerateContextName | pkg/cmd/view-webhook.go:170-181 | The function has no ensures of its own. Its contract is ViewWebhook.GeneratedNameParts, for a namespace and a cluster without '/'. ViewWebhook.GeneratedNamesCanCollide shows the names are not unique. |
| ViewWebhook.GeneratedNameParts | pkg/cmd/view-webhook.go:170-181 | For a namespace and a cluster without '/', the generated name splits at '/' into: the namespace; the cluster, if set; and the user up to its first '/', if set. |
| ViewWebhook.GeneratedNamesCanCollide | pkg/cmd/view-webhook.go:170-181 | Two different contexts can get the same generated name. |
| ViewWebhook.CompleteAcceptsWhatValidateRejects | pkg/cmd/view-webhook.go:133-187 | An empty current context that is a key of the map passes Complete but fails Validate. |
| GoStd.Sub | pkg/k8s/webhook.go:265 | The difference is exact within the Duration range and saturates outside it. It is negative or zero exactly when `t` is before or equal to `u`. |
| GoStd.DecimalRoundTrip | pkg/printer/printer.go:154-156 | `%d` of an integer parses back to that integer. |
| GoStd.SplitAtFirstSeparator | pkg/cmd/view-webhook.go:176 | Splitting at a separator gives the text before it, then the split of the rest. |
| GoStd.ToUpperFacts | pkg/printer/printer.go:102 | No ASCII lower-case letter is left, every other character is kept, and upper-casing twice changes nothing. |
| GoStd.ToUpperEqualIffCaseless | pkg/printer/printer.go:102 | Two strings upper-case to the same string exactly when they have the same length and agree letter by letter up to ASCII case. |

## Left out

- Kubernetes client calls are input data.
  - The v1 configuration lists, the namespace list and the service Get are inputs.
  - In v1, a failed List counts as an empty list. A failed Get counts as the zero configuration, as the code dereferences it with its error discarded.
  - The namespace catalog is one snapshot. The code re-lists it, with the error discarded, for every webhook entry with a selector.
  - A nil namespace list is the empty catalog.
- In the v1beta1 path, List and Get are one input, `Option<seq<WebhookConfiguration>>`.
  - None stands for an API error.
  - Get by name is a lookup in that listing. The error text of the API is not modelled.
- PEM decoding and X.509 parsing are uninterpreted functions in `Cluster.Environment`.
  - Decoding treats empty input as having no block.
  - The wall clock is the `now` parameter.
  - The `log.Fatalf` message is not modelled, only the abort.
- ViewWebhook.GeneratedNameParts: the split back into parts is proved only for a namespace and a cluster without '/'.
  - The code accepts any cluster name, and a cluster such as an EKS ARN (`arn:aws:eks:…:cluster/prod`) does not split back into its parts.
  - ViewWebhook.GeneratedNamesCanCollide shows the consequence: two different contexts can get the same name.
- Selector MatchExpressions are not modelled, because the code never reads them.
- Go slice aliasing in `fillRulesForValidating` (`ops = append(rs, op)`) is modelled with value semantics. A backing array shared between `ops` and the next `append` to `rs` is not modelled, because it depends on runtime capacity.
- Go map iteration order in the MatchLabels loop is left open by a choice (`:|`) in `WebhookNamespaces.AnyLabelMatches`. The result does not depend on it.
- Nil versus empty slices are modelled only where they are observable.
  - They are modelled for the active-namespace slices and the bullet items.
  - They are not modelled for ports, rule models, or the v1beta1 operations and resources. The renderer treats nil and empty the same there.
- Renderer styling is abstract: pterm styles are colour tags, and the tree and table rendering are left out.
  - durafmt formatting is reduced to the duration and the number of units shown.
  - Printing to standard output is replaced by returning the table's header and rows.
- `Printer.RemainingTime`: its day thresholds (2, 4000, 60000 days) are compared exactly on integer nanoseconds. `t.Hours()/24` is floating point, so within rounding distance of a threshold the colour or unit count can differ.
- `Printer.BuildServiceList`: it omits the "No Services" fallback. `Printer.ServiceList` proves the list always has at least two entries, so the fallback is unreachable.
- strings.ToUpper is modelled for ASCII letters only. Other characters are unchanged, where Go's Unicode case mapping would map them.
- `ViewWebhook.ViewWebhookOptions.Complete`: reading the flags (`GetString`) is a parameter that cannot fail. The flag lookup errors are not modelled.
- `ViewWebhook.ViewWebhookOptions.Complete`: a failed kubeconfig load keeps an empty configuration, where the loader's partial result would be kept.
- A copied user context keeps only its cluster, user and namespace. LocationOfOrigin and Extensions are not modelled.
- IOStreams, the genericclioptions config flags, the cobra command, and the client constructors (NewWebHookClient, NewMutatingWebHookClient) are plumbing without logic.
- cmd/root.go and main.go are not part of this model. main.go calls `NewCmdViewWebhook` with four arguments, while cmd/root.go declares it with one.
