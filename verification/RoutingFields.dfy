/** What the old fields of a queue mean, field by field, and what the plan makes
    of them. */
module RoutingFields {
  import opened Common
  import opened Text
  import opened Chains
  import opened RoutingTypes
  import opened RoutingCatalog
  import opened RoutingOld
  import opened RoutingPlan
  import opened RoutingTheorems
  import opened RoutingRoundTrip
  import opened RoutingTriage
  import Json

  ghost predicate Exists(byId: map<int, Provider>, provider: Option<int>) {
    exists id :: id in byId && provider == Some(id)
  }

  ghost predicate IsNamed(model: Option<string>) {
    exists name: string :: |name| > 0 && model == Some(name)
  }

  /** `k` is at the provider and carries the model's name, or the provider's
      default where there is none. */
  ghost predicate Names(byId: map<int, Provider>, provider: Option<int>, model: Option<string>, k: ModelKey) {
    && provider == Some(k.provider) && k.provider in byId
    && (IsNamed(model) ==> model == Some(k.model))
    && (!IsNamed(model) ==> k.model == byId[k.provider].defaultModel)
  }

  // ---- single models ----

  /** A final answer has one model: its provider's, by the final model's name
      only; no other field of the queue plays a part. */
  lemma FinalAnswerFields(p: Policy, byId: map<int, Provider>)
    ensures OldChain(p, byId, FinalAnswer).Some? <==> Exists(byId, p.finalProvider)
    ensures OldChain(p, byId, FinalAnswer).Some? ==>
      var c := OldChain(p, byId, FinalAnswer).value;
      |c| == 1 && Names(byId, p.finalProvider, p.finalModel, c[0])
  {
    if p.finalModel.Some? && p.finalModel.value != "" {
      assert IsNamed(p.finalModel);
    }
  }

  lemma FinalAnswerDepends(p: Policy, q: Policy, byId: map<int, Provider>)
    requires p.finalProvider == q.finalProvider && p.finalModel == q.finalModel
    ensures OldChain(p, byId, FinalAnswer) == OldChain(q, byId, FinalAnswer)
  {
    FinalAnswerFields(p, byId);
    FinalAnswerFields(q, byId);
    if OldChain(p, byId, FinalAnswer).Some? {
      var c, d := OldChain(p, byId, FinalAnswer).value, OldChain(q, byId, FinalAnswer).value;
      assert c == [c[0]] && d == [d[0]];
    }
  }

  /** Vision has one model, the default of a vision provider that exists and can see. */
  lemma VisionFields(p: Policy, byId: map<int, Provider>)
    ensures RuntimeChain(p, byId, Vision).Some? <==>
            exists id :: id in byId && p.visionProvider == Some(id) && byId[id].supportsVision
    ensures RuntimeChain(p, byId, Vision).Some? ==>
      var c := RuntimeChain(p, byId, Vision).value;
      |c| == 1 && p.visionProvider == Some(c[0].provider) && c[0].model == byId[c[0].provider].defaultModel
  {
  }

  /** Summaries and refinements had no fields. */
  lemma NoOtherFields(p: Policy, byId: map<int, Provider>, task: Task)
    requires task == Summary || task == Refine
    ensures RuntimeChain(p, byId, task).None?
  {
  }

  // ---- fallbacks ----

  /** The list entry stands for the model. */
  ghost predicate Stands(item: Json.Value, byId: map<int, Provider>, k: ModelKey) {
    && item.Obj? && "provider_id" in item.fields && item.fields["provider_id"] == Json.Int(k.provider) && k.provider in byId
    && (NamesModel(item) ==> item.fields["model"] == Json.Str(k.model))
    && (!NamesModel(item) ==> k.model == byId[k.provider].defaultModel)
  }

  ghost predicate NamesModel(item: Json.Value)
    requires item.Obj?
  {
    "model" in item.fields && item.fields["model"].Str? && |item.fields["model"].s| > 0
  }

  lemma ItemStands(item: Json.Value, byId: map<int, Provider>)
    ensures forall k :: Stands(item, byId, k) <==> ItemKey(item, byId) == Some(k)
  {
  }

  /** `at` are the places of the usable entries, in order, and `keys` what they stand for. */
  ghost predicate Picks(items: seq<Json.Value>, byId: map<int, Provider>, at: seq<nat>, keys: seq<ModelKey>) {
    && |at| == |keys|
    && (forall i, j :: 0 <= i < j < |at| ==> at[i] < at[j])
    && (forall i :: 0 <= i < |at| ==> at[i] < |items| && Stands(items[at[i]], byId, keys[i]))
    && (forall j: nat, k :: j < |items| && Stands(items[j], byId, k) ==> j in at)
  }

  lemma PicksSnoc(items: seq<Json.Value>, byId: map<int, Provider>, at: seq<nat>, keys: seq<ModelKey>, item: Json.Value)
    returns (at': seq<nat>)
    requires Picks(items, byId, at, keys)
    ensures Picks(items + [item], byId, at', match ItemKey(item, byId) case None => keys case Some(k) => keys + [k])
  {
    var all := items + [item];
    ItemStands(item, byId);
    at' := if ItemKey(item, byId).Some? then at + [|items|] else at;
    forall j: nat, k | j < |all| && Stands(all[j], byId, k)
      ensures j in at'
    {
      if j < |items| {
        assert Stands(items[j], byId, k);
        assert j in at;
      } else {
        assert at'[|at|] == j;
      }
    }
  }

  lemma ItemKeysSnoc(items: seq<Json.Value>, byId: map<int, Provider>, item: Json.Value)
    ensures ItemKeys(items + [item], byId) ==
            match ItemKey(item, byId) case None => ItemKeys(items, byId) case Some(k) => ItemKeys(items, byId) + [k]
  {
    assert (items + [item])[..|items|] == items;
  }

  lemma {:induction false} ItemsPicked(items: seq<Json.Value>, byId: map<int, Provider>) returns (at: seq<nat>)
    ensures Picks(items, byId, at, ItemKeys(items, byId))
  {
    if items == [] {
      at := [];
    } else {
      var n := |items| - 1;
      var front, item := items[..n], items[n];
      assert items == front + [item];
      at := ItemsPicked(front, byId);
      ItemKeysSnoc(front, byId, item);
      at := PicksSnoc(front, byId, at, ItemKeys(front, byId), item);
    }
  }

  /** The fallbacks are the usable entries of a stored list, in order; anything
      that is not a list has none. */
  lemma FallbackFields(p: Policy, byId: map<int, Provider>)
    ensures p.fallback.Parsed? && p.fallback.value.Arr? ==>
      exists at :: Picks(p.fallback.value.items, byId, at, FallbackKeys(p.fallback, byId))
    ensures !(p.fallback.Parsed? && p.fallback.value.Arr?) ==> FallbackKeys(p.fallback, byId) == []
  {
    if p.fallback.Parsed? && p.fallback.value.Arr? {
      var items := p.fallback.value.items;
      var at := ItemsPicked(items, byId);
      assert Picks(items, byId, at, FallbackKeys(p.fallback, byId));
    }
  }

  // ---- agent and triage ----

  /** The chain is a first model and then the fallbacks, without repetitions. */
  ghost predicate FallsBack(p: Policy, byId: map<int, Provider>, c: seq<ModelKey>) {
    c != [] && c == Deduped([c[0]] + FallbackKeys(p.fallback, byId))
  }

  lemma AgentFields(p: Policy, byId: map<int, Provider>)
    ensures OldChain(p, byId, Agent).Some? <==> Exists(byId, p.llmProvider)
    ensures OldChain(p, byId, Agent).Some? ==>
      var c := OldChain(p, byId, Agent).value;
      FallsBack(p, byId, c) && Names(byId, p.llmProvider, p.modelOverride, c[0])
  {
    if p.modelOverride.Some? && p.modelOverride.value != "" {
      assert IsNamed(p.modelOverride);
    }
    var k := Key(byId, p.llmProvider, p.modelOverride);
    if k.Some? {
      DedupedHead([k.value] + FallbackKeys(p.fallback, byId));
    }
  }

  /** The triage provider, unless it is missing or 0, else the agent's. */
  ghost predicate TriageAt(p: Policy, id: int) {
    (p.triageProvider == Some(id) && id != 0) ||
    ((p.triageProvider == None || p.triageProvider == Some(0)) && p.llmProvider == Some(id))
  }

  /** Triage is set up by a provider or a model of its own.  Without the latter
      it takes the agent's model name, but only at the agent's provider. */
  lemma TriageFields(p: Policy, byId: map<int, Provider>)
    ensures OldChain(p, byId, Triage).Some? <==>
            (p.triageProvider != None || IsNamed(p.triageModel)) && exists id :: id in byId && TriageAt(p, id)
    ensures OldChain(p, byId, Triage).Some? ==>
      var c := OldChain(p, byId, Triage).value;
      && FallsBack(p, byId, c) && TriageAt(p, c[0].provider)
      && Names(byId, Some(c[0].provider),
               if IsNamed(p.triageModel) then p.triageModel
               else if p.llmProvider == Some(c[0].provider) then p.modelOverride else None, c[0])
  {
    if NonBlank(p.triageModel) {
      assert IsNamed(p.triageModel);
    }
    if NonBlank(p.modelOverride) {
      assert IsNamed(p.modelOverride);
    }
    var start := Start(p, byId, Triage);
    if start.Some? {
      assert TriageAt(p, start.value.provider);
      DedupedHead([start.value] + FallbackKeys(p.fallback, byId));
    }
  }

  // ---- what the plan makes of them ----

  lemma ResolvedNames(providers: seq<Provider>, policies: seq<Policy>, p: Policy, task: Task)
    requires DistinctBy(PolicyId, policies) && p in policies
    ensures var byId := ById(providers);
            var now, was := Resolve(Conversion(providers, policies), p.id, task), RuntimeChain(p, byId, task);
            && (now.Some? <==> was.Some?)
            && (now.Some? && |was.value| == 1 ==> |now.value| == 1 && NormKey(byId, now.value[0]) == NormKey(byId, was.value[0]))
  {
    ConversionPreservesMeaning(providers, policies, p, task);
    var was := RuntimeChain(p, ById(providers), task);
    if was.Some? && |was.value| == 1 {
      var byId, now := ById(providers), Resolve(Conversion(providers, policies), p.id, task);
      var names := Map(Norm(byId), was.value);
      DedupedDistinct(names);
      assert Map(Norm(byId), now.value) == names;
      assert Map(Norm(byId), now.value)[0] == names[0];
    }
  }

  /** After the conversion a queue's final answer is the one model its final
      fields name. */
  lemma PlannedFinalAnswer(providers: seq<Provider>, policies: seq<Policy>, p: Policy)
    requires DistinctBy(PolicyId, policies) && p in policies
    ensures var byId, now := ById(providers), Resolve(Conversion(providers, policies), p.id, FinalAnswer);
            && (now.Some? <==> Exists(byId, p.finalProvider))
            && (now.Some? ==> |now.value| == 1)
            && (now.Some? ==>
                  exists k :: Names(byId, p.finalProvider, p.finalModel, k) && NormKey(byId, k) == NormKey(byId, now.value[0]))
  {
    FinalAnswerFields(p, ById(providers));
    ResolvedNames(providers, policies, p, FinalAnswer);
  }

  /** Its vision is the default model of its vision provider, if that can see;
      summaries and refinements get nothing. */
  lemma PlannedVision(providers: seq<Provider>, policies: seq<Policy>, p: Policy)
    requires DistinctBy(PolicyId, policies) && p in policies
    ensures var byId, now := ById(providers), Resolve(Conversion(providers, policies), p.id, Vision);
            && (now.Some? <==> exists id :: id in byId && p.visionProvider == Some(id) && byId[id].supportsVision)
            && (now.Some? ==> |now.value| == 1 && p.visionProvider == Some(now.value[0].provider))
            && (now.Some? ==>
                  var id := now.value[0].provider;
                  NormKey(byId, now.value[0]) == NormKey(byId, ModelKey(id, byId[id].defaultModel)))
  {
    VisionFields(p, ById(providers));
    ResolvedNames(providers, policies, p, Vision);
  }

  lemma NothingElsePlanned(providers: seq<Provider>, policies: seq<Policy>, p: Policy, task: Task)
    requires DistinctBy(PolicyId, policies) && p in policies && (task == Summary || task == Refine)
    ensures Resolve(Conversion(providers, policies), p.id, task).None?
  {
    NoOtherFields(p, ById(providers), task);
    ResolvedNames(providers, policies, p, task);
  }
}
