/**
 * Flattening a webhook's rules into ResourceModels: fillRulesForMutating and
 * fillRulesForValidating of pkg/k8s/webhook.go. The two differ: the mutating
 * one copies each rule, the validating one lets `rs` (then `ops`) carry over
 * from one rule to the next.
 */
module WebhookRules {
  import opened Seqs
  import opened Cluster
  import opened PrinterModel

  /** Every resource of `rules`, rule after rule. */
  function ConcatResources(rules: seq<Rule>): seq<string>
  {
    if rules == [] then [] else ConcatResources(Init(rules)) + Last(rules).resources
  }

  /** Every operation of `rules`, rule after rule. */
  function ConcatOperations(rules: seq<Rule>): seq<string>
  {
    if rules == [] then [] else ConcatOperations(Init(rules)) + Last(rules).operations
  }

  // ---- fillRulesForMutating --------------------------------------------------

  /** The models fillRulesForMutating builds: one copy per rule. */
  function MutatingRuleModels(rules: seq<Rule>): seq<ResourceModel>
  {
    if rules == [] then []
    else MutatingRuleModels(Init(rules)) + [ResourceModel(Last(rules).operations, Last(rules).resources)]
  }

  /** One model per rule, in rule order, with the rule's operations and resources verbatim. */
  lemma {:induction false} MutatingRuleModelsVerbatim(rules: seq<Rule>)
    ensures |MutatingRuleModels(rules)| == |rules|
    ensures forall k :: 0 <= k < |rules| ==>
              MutatingRuleModels(rules)[k] == ResourceModel(rules[k].operations, rules[k].resources)
  {
    if rules != [] {
      MutatingRuleModelsVerbatim(Init(rules));
    }
  }

  method FillRulesForMutating(webhook: Webhook) returns (resources: seq<ResourceModel>)
    ensures resources == MutatingRuleModels(webhook.rules)
    ensures |resources| == |webhook.rules|
    ensures forall k :: 0 <= k < |resources| ==>
              resources[k].operations == webhook.rules[k].operations && resources[k].resources == webhook.rules[k].resources
  {
    var rules := webhook.rules;
    resources := [];
    for i := 0 to |rules|
      invariant resources == MutatingRuleModels(rules[..i])
    {
      InitLastOfPrefix(rules, i);
      var rule := rules[i];
      var ops: seq<string> := [];
      for j := 0 to |rule.operations|
        invariant ops == rule.operations[..j]
      {
        ops := ops + [rule.operations[j]];
      }
      assert rule.operations[..|rule.operations|] == rule.operations;
      var rs: seq<string> := [] + rule.resources;
      assert rs == rule.resources;
      resources := resources + [ResourceModel(ops, rs)];
      assert MutatingRuleModels(rules[..i + 1]) == MutatingRuleModels(rules[..i]) + [ResourceModel(rule.operations, rule.resources)];
    }
    assert rules[..|rules|] == rules;
    MutatingRuleModelsVerbatim(rules);
  }

  // ---- fillRulesForValidating ------------------------------------------------

  /**
   * The value of `ops` in fillRulesForValidating once `rules` were processed:
   * `rs` as it stood before the last rule with operations, followed by that
   * rule's LAST operation; unchanged by rules without operations.
   */
  function ValidatingOps(rules: seq<Rule>): seq<string>
  {
    if rules == [] then []
    else if Last(rules).operations == [] then ValidatingOps(Init(rules))
    else ConcatResources(Init(rules)) + [Last(Last(rules).operations)]
  }

  /** The models fillRulesForValidating builds, `ops` and `rs` never being reset. */
  function ValidatingRuleModels(rules: seq<Rule>): seq<ResourceModel>
  {
    if rules == [] then []
    else ValidatingRuleModels(Init(rules)) + [ResourceModel(ValidatingOps(rules), ConcatResources(rules))]
  }

  method FillRulesForValidating(webhook: Webhook) returns (resources: seq<ResourceModel>)
    ensures resources == ValidatingRuleModels(webhook.rules)
  {
    var rules := webhook.rules;
    resources := [];
    var ops: seq<string>, rs: seq<string> := [], [];
    for i := 0 to |rules|
      invariant resources == ValidatingRuleModels(rules[..i])
      invariant ops == ValidatingOps(rules[..i])
      invariant rs == ConcatResources(rules[..i])
    {
      InitLastOfPrefix(rules, i);
      var rule := rules[i];
      for j := 0 to |rule.operations|
        invariant j == 0 ==> ops == ValidatingOps(rules[..i])
        invariant j > 0 ==> ops == rs + [rule.operations[j - 1]]
      {
        ops := rs + [rule.operations[j]];
      }
      rs := rs + rule.resources;
      resources := resources + [ResourceModel(ops, rs)];
    }
    assert rules[..|rules|] == rules;
  }

  /** One model per rule; the k-th holds the resources of rules 0..k and `ops` after rule k. */
  lemma {:induction false} ValidatingRuleModelsShape(rules: seq<Rule>)
    ensures |ValidatingRuleModels(rules)| == |rules|
    ensures forall k :: 0 <= k < |rules| ==>
              ValidatingRuleModels(rules)[k] == ResourceModel(ValidatingOps(rules[..k + 1]), ConcatResources(rules[..k + 1]))
  {
    if rules != [] {
      var init := Init(rules);
      ValidatingRuleModelsShape(init);
      forall k | 0 <= k < |rules|
        ensures ValidatingRuleModels(rules)[k]
             == ResourceModel(ValidatingOps(rules[..k + 1]), ConcatResources(rules[..k + 1]))
      {
        if k < |init| {
          assert init[..k + 1] == rules[..k + 1];
        } else {
          assert rules[..k + 1] == rules;
        }
      }
    }
  }

  /** `rs` is never reset: each model's resources extend the previous model's by the rule's own. */
  lemma ValidatingResourcesAccumulate(rules: seq<Rule>, k: nat)
    requires 0 < k < |rules|
    ensures |ValidatingRuleModels(rules)| == |rules|
    ensures ValidatingRuleModels(rules)[k].resources
         == ValidatingRuleModels(rules)[k - 1].resources + rules[k].resources
  {
    ValidatingRuleModelsShape(rules);
    InitLastOfPrefix(rules, k);
  }

  /**
   * A rule with operations gets as operations the resources of the rules before
   * it followed by its own last operation; a rule without keeps the previous
   * model's operations (none for the first rule).
   */
  lemma ValidatingOperationsOfRule(rules: seq<Rule>, k: nat)
    requires k < |rules|
    ensures |ValidatingRuleModels(rules)| == |rules|
    ensures rules[k].operations != [] ==>
              ValidatingRuleModels(rules)[k].operations == ConcatResources(rules[..k]) + [Last(rules[k].operations)]
    ensures rules[k].operations == [] && k == 0 ==> ValidatingRuleModels(rules)[k].operations == []
    ensures rules[k].operations == [] && k > 0 ==>
              ValidatingRuleModels(rules)[k].operations == ValidatingRuleModels(rules)[k - 1].operations
  {
    ValidatingRuleModelsShape(rules);
    InitLastOfPrefix(rules, k);
    if k == 0 {
      assert rules[..0] == [];
      assert Init(rules[..1]) == [];
      if rules[0].operations == [] {
        assert ValidatingOps(rules[..1]) == ValidatingOps([]) == [];
      }
    }
  }

  /** The two flatteners disagree on ordinary input: the validating one drops and leaks entries. */
  lemma ValidatingDiffersFromMutating()
    ensures var rules := [Rule(["CREATE", "UPDATE"], ["pods"]), Rule(["DELETE"], ["services"])];
            && MutatingRuleModels(rules)
               == [ResourceModel(["CREATE", "UPDATE"], ["pods"]), ResourceModel(["DELETE"], ["services"])]
            && ValidatingRuleModels(rules)
               == [ResourceModel(["UPDATE"], ["pods"]), ResourceModel(["pods", "DELETE"], ["pods", "services"])]
  {
    var r0, r1 := Rule(["CREATE", "UPDATE"], ["pods"]), Rule(["DELETE"], ["services"]);
    var rules := [r0, r1];
    InitLastOfAppend([r0], r1);
    InitLastOfAppend([], r0);
    assert [r0] == [] + [r0];
    assert ConcatResources([r0]) == ["pods"];
    assert ValidatingOps([r0]) == ["UPDATE"];
    assert ValidatingRuleModels([r0]) == [ResourceModel(["UPDATE"], ["pods"])];
    assert ConcatResources(rules) == ["pods", "services"];
    assert ValidatingOps(rules) == ["pods", "DELETE"];
    assert MutatingRuleModels([r0]) == [ResourceModel(["CREATE", "UPDATE"], ["pods"])];
  }
}
