/**
 * Which namespaces a webhook's namespace selector picks out of the catalog
 * (fillActiveNamespacesForMutating and fillActiveNamespacesForValidating in
 * pkg/k8s/webhook.go, which are identical, and the same loop inlined in
 * fillPrintItems of pkg/k8s/mutating_webhook.go).
 */
module WebhookNamespaces {
  import opened Wrappers
  import opened Seqs
  import opened GoStd
  import opened Cluster

  /** A Go map read at a missing key gives the zero value, "" for strings. */
  function LabelValue(labels: map<string, string>, key: string): string
  {
    if key in labels then labels[key] else ""
  }

  /** A namespace is selected when ANY pair of the selector matches its labels. */
  predicate Selects(matchLabels: map<string, string>, labels: map<string, string>)
  {
    exists key :: key in matchLabels && LabelValue(labels, key) == matchLabels[key]
  }

  /** The names of the selected namespaces, in catalog order; none without a selector. */
  function ActiveNamespaces(selector: Option<LabelSelector>, catalog: seq<Namespace>): seq<string>
  {
    if selector.None? || catalog == [] then []
    else
      var prev := ActiveNamespaces(selector, Init(catalog));
      if Selects(selector.value.matchLabels, Last(catalog).labels) then prev + [Last(catalog).name] else prev
  }

  /** The slice the source builds from a nil slice: nil when nothing was appended. */
  function ActiveNamespacesSlice(selector: Option<LabelSelector>, catalog: seq<Namespace>): Slice<string>
  {
    var names := ActiveNamespaces(selector, catalog);
    if names == [] then None else Some(names)
  }

  function Names(catalog: seq<Namespace>): seq<string>
  {
    if catalog == [] then [] else Names(Init(catalog)) + [Last(catalog).name]
  }

  /**
   * The inner `for k, v := range MatchLabels` loop. The pairs are visited in an
   * arbitrary order, as Go's map iteration does; the answer does not depend on it.
   */
  method AnyLabelMatches(matchLabels: map<string, string>, labels: map<string, string>) returns (available: bool)
    ensures available == Selects(matchLabels, labels)
  {
    available := false;
    var pending := matchLabels.Keys;
    while pending != {}
      invariant pending <= matchLabels.Keys
      invariant available <==> exists key :: key in matchLabels && key !in pending && LabelValue(labels, key) == matchLabels[key]
      decreases pending
    {
      var key :| key in pending;
      if LabelValue(labels, key) == matchLabels[key] {
        available := true;
      }
      pending := pending - {key};
    }
  }

  /**
   * fillActiveNamespacesFor*: appends to `activeNamespaces` the names of the
   * selected namespaces of the catalog, in catalog order.
   */
  method FillActiveNamespaces(env: Environment, webhook: Webhook, activeNamespaces: Slice<string>) returns (result: Slice<string>)
    ensures Elems(result) == Elems(activeNamespaces) + ActiveNamespaces(webhook.namespaceSelector, env.namespaces)
    ensures result.None? <==> activeNamespaces.None? && ActiveNamespaces(webhook.namespaceSelector, env.namespaces) == []
    ensures webhook.namespaceSelector.None? ==> result == activeNamespaces
  {
    result := activeNamespaces;
    if webhook.namespaceSelector.Some? {
      var catalog := env.namespaces;
      for i := 0 to |catalog|
        invariant Elems(result) == Elems(activeNamespaces) + ActiveNamespaces(webhook.namespaceSelector, catalog[..i])
        invariant result.None? <==> activeNamespaces.None? && ActiveNamespaces(webhook.namespaceSelector, catalog[..i]) == []
      {
        InitLastOfPrefix(catalog, i);
        var available := AnyLabelMatches(webhook.namespaceSelector.value.matchLabels, catalog[i].labels);
        if available {
          result := Append(result, catalog[i].name);
        }
      }
      assert catalog[..|catalog|] == catalog;
    }
  }

  /** Started from a nil slice, FillActiveNamespaces yields ActiveNamespacesSlice. */
  lemma FromNilSlice(result: Slice<string>, selector: Option<LabelSelector>, catalog: seq<Namespace>)
    requires Elems(result) == ActiveNamespaces(selector, catalog)
    requires result.None? <==> ActiveNamespaces(selector, catalog) == []
    ensures result == ActiveNamespacesSlice(selector, catalog)
  {
  }

  /** A namespace is listed iff the catalog has it and some selector pair matches its labels. */
  lemma {:induction false} ActiveNamespacesMembership(selector: LabelSelector, catalog: seq<Namespace>, name: string)
    ensures name in ActiveNamespaces(Some(selector), catalog)
        <==> exists i :: 0 <= i < |catalog| && catalog[i].name == name && Selects(selector.matchLabels, catalog[i].labels)
  {
    if catalog != [] {
      var init := Init(catalog);
      ActiveNamespacesMembership(selector, init, name);
      assert forall i :: 0 <= i < |init| ==> init[i] == catalog[i];
      if exists i :: 0 <= i < |catalog| && catalog[i].name == name && Selects(selector.matchLabels, catalog[i].labels) {
        var i :| 0 <= i < |catalog| && catalog[i].name == name && Selects(selector.matchLabels, catalog[i].labels);
        if i < |init| {
          assert init[i].name == name && Selects(selector.matchLabels, init[i].labels);
        }
      }
    }
  }

  /** The active namespaces keep the catalog's order and never repeat a catalog entry. */
  lemma {:induction false} ActiveNamespacesSubsequence(selector: Option<LabelSelector>, catalog: seq<Namespace>)
    ensures IsSubsequence(ActiveNamespaces(selector, catalog), Names(catalog))
  {
    if selector.Some? && catalog != [] {
      var init := Init(catalog);
      ActiveNamespacesSubsequence(selector, init);
      var prev := ActiveNamespaces(selector, init);
      InitLastOfAppend(Names(init), Last(catalog).name);
      if Selects(selector.value.matchLabels, Last(catalog).labels) {
        InitLastOfAppend(prev, Last(catalog).name);
      }
    }
  }

  /** A selector whose `matchLabels` is empty selects no namespace. */
  lemma {:induction false} EmptyMatchLabelsSelectsNothing(catalog: seq<Namespace>)
    ensures ActiveNamespaces(Some(LabelSelector(map[])), catalog) == []
  {
    if catalog != [] {
      EmptyMatchLabelsSelectsNothing(Init(catalog));
    }
  }

  /** A selector pair asking for "" matches a namespace that lacks the label. */
  lemma MissingLabelMatchesEmptyValue(matchLabels: map<string, string>, labels: map<string, string>, key: string)
    requires key in matchLabels && matchLabels[key] == "" && key !in labels
    ensures Selects(matchLabels, labels)
  {
    assert LabelValue(labels, key) == matchLabels[key];
  }

  /** Every active namespace is the name of a namespace of the catalog. */
  lemma ActiveNamespacesFromCatalog(selector: Option<LabelSelector>, catalog: seq<Namespace>, name: string)
    requires name in ActiveNamespaces(selector, catalog)
    ensures exists i :: 0 <= i < |catalog| && catalog[i].name == name
  {
    if selector.Some? {
      ActiveNamespacesMembership(selector.value, catalog, name);
    }
  }
}
