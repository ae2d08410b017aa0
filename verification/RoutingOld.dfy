/** How a queue policy chose its models before the migration. */
module RoutingOld {
  import opened Common
  import opened Chains
  import opened RoutingTypes
  import Json

  /** A fallback entry names a known provider by a whole number; without a
      nonempty model name it means the provider's default model. */
  function ItemKey(item: Json.Value, byId: map<int, Provider>): Option<ModelKey> {
    if item.Obj? && "provider_id" in item.fields && item.fields["provider_id"].Int?
       && item.fields["provider_id"].i in byId
    then
      var id := item.fields["provider_id"].i;
      var named := "model" in item.fields && item.fields["model"].Str? && item.fields["model"].s != "";
      Some(ModelKey(id, if named then item.fields["model"].s else byId[id].defaultModel))
    else None
  }

  function ItemKeys(items: seq<Json.Value>, byId: map<int, Provider>): seq<ModelKey> {
    if items == [] then []
    else
      var front := ItemKeys(items[..|items| - 1], byId);
      match ItemKey(items[|items| - 1], byId)
      case None => front
      case Some(k) => front + [k]
  }

  function FallbackKeys(raw: Fallback, byId: map<int, Provider>): seq<ModelKey> {
    if raw.Parsed? && raw.value.Arr? then ItemKeys(raw.value.items, byId) else []
  }

  method ParseFallback(raw: Fallback, byId: map<int, Provider>) returns (out: seq<ModelKey>)
    ensures out == FallbackKeys(raw, byId)
  {
    out := [];
    if raw.NoText? || raw.Malformed? {
      return;
    }
    if !raw.value.Arr? {
      return;
    }
    var items := raw.value.items;
    for i := 0 to |items|
      invariant out == ItemKeys(items[..i], byId)
    {
      assert items[..i + 1][..i] == items[..i];
      var item := items[i];
      if !item.Obj? { continue; }
      if "provider_id" !in item.fields { continue; }
      var providerId := item.fields["provider_id"];
      if !providerId.Int? { continue; }
      if providerId.i !in byId { continue; }
      var provider := byId[providerId.i];
      var model := provider.defaultModel;
      if "model" in item.fields && item.fields["model"].Str? && item.fields["model"].s != "" {
        model := item.fields["model"].s;
      }
      out := out + [ModelKey(providerId.i, model)];
    }
    assert items[..|items|] == items;
  }

  lemma {:induction false} ItemKeysAppend(a: seq<Json.Value>, b: seq<Json.Value>, byId: map<int, Provider>)
    ensures ItemKeys(a + b, byId) == ItemKeys(a, byId) + ItemKeys(b, byId)
  {
    if b == [] {
      assert a + b == a;
    } else {
      var n := |b| - 1;
      ItemKeysAppend(a, b[..n], byId);
      assert (a + b)[..|a + b| - 1] == a + b[..n];
    }
  }

  /** An unusable entry anywhere in the list is as good as absent. */
  lemma UnusableEntrySkipped(a: seq<Json.Value>, bad: Json.Value, b: seq<Json.Value>, byId: map<int, Provider>)
    requires ItemKey(bad, byId) == None
    ensures FallbackKeys(Parsed(Json.Arr(a + [bad] + b)), byId) == FallbackKeys(Parsed(Json.Arr(a + b)), byId)
  {
    ItemKeysAppend(a + [bad], b, byId);
    ItemKeysAppend(a, [bad], byId);
    assert ItemKeys([bad], byId) == [] by {
      assert [bad][..0] == [];
    }
    ItemKeysAppend(a, b, byId);
  }

  /** A model at a provider, if the provider is named and still exists. */
  function Key(byId: map<int, Provider>, provider: Option<int>, model: Option<string>): Option<ModelKey> {
    if provider.None? || provider.value !in byId then None
    else if model.Some? && model.value != "" then Some(ModelKey(provider.value, model.value))
    else Some(ModelKey(provider.value, byId[provider.value].defaultModel))
  }

  predicate NonBlank(s: Option<string>) {
    s.Some? && s.value != ""
  }

  /** Provider id 0 reads as "not set" here. */
  function TriageProvider(p: Policy): Option<int> {
    if p.triageProvider.Some? && p.triageProvider.value != 0 then p.triageProvider else p.llmProvider
  }

  function TriageModel(p: Policy): Option<string> {
    if NonBlank(p.triageModel) then p.triageModel
    else if TriageProvider(p) == p.llmProvider then p.modelOverride
    else None
  }

  /** The model a task starts with, if the policy sets one up for it. */
  function Start(p: Policy, byId: map<int, Provider>, task: Task): Option<ModelKey> {
    match task
    case Agent => Key(byId, p.llmProvider, p.modelOverride)
    case FinalAnswer => Key(byId, p.finalProvider, p.finalModel)
    case Triage =>
      if p.triageProvider.Some? || NonBlank(p.triageModel)
      then Key(byId, TriageProvider(p), TriageModel(p)) else None
    case Vision => Key(byId, p.visionProvider, None)
    case _ => None
  }

  /** The chain the old fields describe: only the agent and triage fall back. */
  function OldChain(p: Policy, byId: map<int, Provider>, task: Task): (r: Option<seq<ModelKey>>)
    ensures r.Some? ==> r.value != []
  {
    match Start(p, byId, task)
    case None => None
    case Some(k) =>
      DedupedHead([k] + FallbackKeys(p.fallback, byId));
      Some(if task == Agent || task == Triage then Deduped([k] + FallbackKeys(p.fallback, byId)) else [k])
  }

  /** The old runtime ignored a vision provider that cannot see. */
  function RuntimeChain(p: Policy, byId: map<int, Provider>, task: Task): Option<seq<ModelKey>> {
    var c := OldChain(p, byId, task);
    if task == Vision && c.Some? && c.value[0].provider in byId && !byId[c.value[0].provider].supportsVision
    then None else c
  }

  method PolicyChains(p: Policy, byId: map<int, Provider>) returns (chains: map<Task, seq<ModelKey>>)
    ensures forall t :: t in chains <==> OldChain(p, byId, t).Some?
    ensures forall t :: t in chains ==> OldChain(p, byId, t) == Some(chains[t])
  {
    chains := map[];
    var fallback := ParseFallback(p.fallback, byId);

    var primary := Key(byId, p.llmProvider, p.modelOverride);
    if primary.Some? {
      var c := Dedupe([primary.value] + fallback);
      chains := chains[Agent := c];
    }

    var final := Key(byId, p.finalProvider, p.finalModel);
    if final.Some? {
      chains := chains[FinalAnswer := [final.value]];
    }

    if p.triageProvider.Some? || NonBlank(p.triageModel) {
      var triageProvider := if p.triageProvider.Some? && p.triageProvider.value != 0 then p.triageProvider else p.llmProvider;
      var triageModel := p.triageModel;
      if !NonBlank(triageModel) && triageProvider == p.llmProvider {
        triageModel := p.modelOverride;
      }
      var triage := Key(byId, triageProvider, triageModel);
      if triage.Some? {
        var c := Dedupe([triage.value] + fallback);
        chains := chains[Triage := c];
      }
    }

    var vision := Key(byId, p.visionProvider, None);
    if vision.Some? {
      chains := chains[Vision := [vision.value]];
    }
  }

  // ---- what the old fields mean ----

  lemma {:induction false} ItemKeysKnown(items: seq<Json.Value>, byId: map<int, Provider>)
    ensures forall k :: k in ItemKeys(items, byId) ==> k.provider in byId
  {
    if items != [] {
      ItemKeysKnown(items[..|items| - 1], byId);
    }
  }

  /** Old chains are nonempty, free of repetitions, and name existing providers only. */
  lemma OldChainShape(p: Policy, byId: map<int, Provider>, task: Task)
    requires OldChain(p, byId, task).Some?
    ensures var c := OldChain(p, byId, task).value;
            c != [] && Distinct(c) && Some(c[0]) == Start(p, byId, task) &&
            forall k :: k in c ==> k.provider in byId
  {
    var raw := [Start(p, byId, task).value] + FallbackKeys(p.fallback, byId);
    if p.fallback.Parsed? && p.fallback.value.Arr? {
      ItemKeysKnown(p.fallback.value.items, byId);
    }
    DedupedElements(raw);
    DedupedHead(raw);
    assert forall k :: k in raw ==> k == raw[0] || k in FallbackKeys(p.fallback, byId);
  }

  /** Triage at another provider, with no model of its own, starts with that
      provider's default: the agent's override names a model elsewhere. */
  lemma TriageElsewhereUsesItsDefault(p: Policy, byId: map<int, Provider>, q: int)
    requires p.triageProvider == Some(q) && q != 0 && q in byId
    requires p.llmProvider != Some(q) && !NonBlank(p.triageModel)
    ensures OldChain(p, byId, Triage).Some?
    ensures OldChain(p, byId, Triage).value[0] == ModelKey(q, byId[q].defaultModel)
  {
    OldChainShape(p, byId, Triage);
  }

  /** On the agent's own provider triage without a model shares the agent's chain. */
  lemma TriageAtAgentSharesChain(p: Policy, byId: map<int, Provider>)
    requires p.triageProvider.Some? && p.triageProvider == p.llmProvider && !NonBlank(p.triageModel)
    ensures OldChain(p, byId, Triage) == OldChain(p, byId, Agent)
  {
  }
}
