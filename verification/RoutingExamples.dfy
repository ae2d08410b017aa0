/** Concrete old configurations on which a promise of the migration fails. */
module RoutingExamples {
  import opened Common
  import opened Text
  import opened Chains
  import opened RoutingTypes
  import opened RoutingCatalog
  import opened RoutingOld
  import opened RoutingNames
  import opened RoutingPlan
  import opened RoutingTheorems
  import opened RoutingSurplus
  import opened RoutingDb
  import opened RoutingRoundTrip
  import opened RoutingTriage
  import opened RoutingSchema
  import Json

  /** The resolved chain of a queue whose old chain denotes the given names. */
  lemma ChainOfNames(providers: seq<Provider>, policies: seq<Policy>, p: Policy, task: Task, names: seq<(int, string)>)
    requires DistinctBy(PolicyId, policies) && p in policies && RuntimeChain(p, ById(providers), task).Some?
    requires Deduped(Map(Norm(ById(providers)), RuntimeChain(p, ById(providers), task).value)) == names && names != []
    ensures var c := ResolvedOrEmpty(Conversion(providers, policies), p.id, task);
            |c| == |names| && c[0].provider == names[0].0 && Fold(c[0].model) == names[0].1
  {
    ConversionPreservesMeaning(providers, policies, p, task);
    HeadName(providers, policies, p, task);
    var c := ResolvedOrEmpty(Conversion(providers, policies), p.id, task);
    assert Map(Norm(ById(providers)), c) == names;
    assert Map(Norm(ById(providers)), c)[0] == names[0];
  }

  // ---- two profile names that differ in case only ----

  const ITEM := Json.Obj(map["provider_id" := Json.Int(2), "model" := Json.Str("M")])

  const UPPER := Provider(1, "P", "d", true, false, None, None, None)
  const LOWER := Provider(2, "p +1", "d", true, false, None, None, None)

  predicate IsPair(p: Policy) {
    p == Policy(1, Some(1), Some("m"), Parsed(Json.Arr([ITEM])), None, None, None, None, None, 1)
  }

  predicate IsSingle(p: Policy) {
    p == Policy(2, Some(2), Some("M"), NoText, None, None, None, None, None, 1)
  }

  predicate IsBoth(byId: map<int, Provider>) {
    1 in byId && 2 in byId && byId[1] == UPPER && byId[2] == LOWER
  }

  lemma TwoProviders(providers: seq<Provider>)
    requires providers == [UPPER, LOWER]
    ensures IsBoth(ById(providers)) && DistinctBy(ProviderId, providers)
  {
    assert providers[..1] == [UPPER] && providers[..1][..0] == [];
  }

  const PAIR_NAMES: seq<(int, string)> := [(1, "m"), (2, "m")]

  lemma PairChain(p: Policy, byId: map<int, Provider>)
    requires IsPair(p) && IsBoth(byId)
    ensures RuntimeChain(p, byId, Agent) == Some([ModelKey(1, "m"), ModelKey(2, "M")])
    ensures Deduped(Map(Norm(byId), RuntimeChain(p, byId, Agent).value)) == PAIR_NAMES
  {
    var c := [ModelKey(1, "m"), ModelKey(2, "M")];
    OneItem(ITEM, byId, c[1]);
    AgentChain(p, byId, c[0], [c[1]]);
    assert [c[0]] + [c[1]] == c;
    DedupedDistinct(c);
    PairNames(byId, c);
  }

  lemma AgentChain(p: Policy, byId: map<int, Provider>, k: ModelKey, tail: seq<ModelKey>)
    requires Start(p, byId, Agent) == Some(k) && FallbackKeys(p.fallback, byId) == tail
    ensures RuntimeChain(p, byId, Agent) == Some(Deduped([k] + tail))
  {
  }

  lemma PairNames(byId: map<int, Provider>, c: seq<ModelKey>)
    requires c == [ModelKey(1, "m"), ModelKey(2, "M")]
    ensures Deduped(Map(Norm(byId), c)) == [(1, "m"), (2, "m")]
  {
    PlainName(byId, ModelKey(1, "m"), "m");
    PlainName(byId, ModelKey(2, "M"), "m");
    assert Map(Norm(byId), c) == [(1, "m"), (2, "m")];
    DedupedDistinct([(1, "m"), (2, "m")]);
  }

  lemma PlainName(byId: map<int, Provider>, k: ModelKey, folded: string)
    requires |k.model| == 1 && !IsSpace(k.model[0]) && folded == [LowerChar(k.model[0])]
    ensures NormKey(byId, k) == (k.provider, folded)
  {
    assert Strip(k.model) == k.model;
    assert Fold(k.model) == folded;
  }

  lemma OneItem(item: Json.Value, byId: map<int, Provider>, k: ModelKey)
    requires ItemKey(item, byId) == Some(k)
    ensures FallbackKeys(Parsed(Json.Arr([item])), byId) == [k]
  {
    var items := [item];
    assert items[..|items| - 1] == [] && items[|items| - 1] == item;
    assert ItemKeys(items, byId) == [] + [k];
  }

  lemma SingleChain(p: Policy, byId: map<int, Provider>)
    requires IsSingle(p) && IsBoth(byId)
    ensures RuntimeChain(p, byId, Agent) == Some([ModelKey(2, "M")])
    ensures Deduped(Map(Norm(byId), [ModelKey(2, "M")])) == [(2, "m")]
  {
    OneStart(p, byId, Agent, ModelKey(2, "M"));
    PlainName(byId, ModelKey(2, "M"), "m");
    OneNorm(byId, ModelKey(2, "M"), (2, "m"));
  }

  lemma ResolvedProfile(plan: Plan, policy: int, task: Task) returns (i: nat)
    requires ResolvedOrEmpty(plan, policy, task) != []
    ensures i < |plan.profiles| && plan.profiles[i].models == ResolvedOrEmpty(plan, policy, task)
  {
    i := ResolveIndex(plan, policy, task).value;
  }

  const PAIR_TAIL := " @ P +1"
  const SINGLE_TAIL := " @ p +1"

  lemma ClashingBases(x: string, y: string)
    requires Fold(x) == "m" && Fold(y) == "m"
    ensures Candidate(x + PAIR_TAIL, 1) != Candidate(y + SINGLE_TAIL, 1)
    ensures KeyOf(x + PAIR_TAIL, 1) == KeyOf(y + SINGLE_TAIL, 1)
  {
    assert |x| == |Fold(x)| == 1 && |y| == |Fold(y)| == 1;
    assert (x + PAIR_TAIL)[4] == 'P' && (y + SINGLE_TAIL)[4] == 'p';
    FoldAppend(x, PAIR_TAIL);
    FoldAppend(y, SINGLE_TAIL);
    assert Fold(PAIR_TAIL) == Fold(SINGLE_TAIL);
    FoldDropsPad(x + PAIR_TAIL, y + SINGLE_TAIL);
  }

  /** Two queues whose plan the index on profile names refuses: the profile of
      two models at "P" and the one of a single model at "p +1". */
  lemma NameClashExample(providers: seq<Provider>, policies: seq<Policy>)
    requires providers == [UPPER, LOWER] && |policies| == 2 && IsPair(policies[0]) && IsSingle(policies[1])
    ensures !NamesAccepted(NameList(Conversion(providers, policies).profiles))
  {
    TwoProviders(providers);
    var i := PairProfile(providers, policies);
    var j := SingleProfile(providers, policies);
    ConversionNaming(providers, policies);
    ClashingProfiles(ById(providers), Conversion(providers, policies).profiles, i, j);
  }

  lemma PairResolved(providers: seq<Provider>, policies: seq<Policy>, p: Policy)
    requires IsBoth(ById(providers)) && DistinctBy(PolicyId, policies) && p in policies && IsPair(p)
    ensures var c := ResolvedOrEmpty(Conversion(providers, policies), p.id, Agent);
            |c| == 2 && c[0].provider == 1 && Fold(c[0].model) == "m"
  {
    PairChain(p, ById(providers));
    ChainOfNames(providers, policies, p, Agent, PAIR_NAMES);
  }

  lemma PairProfile(providers: seq<Provider>, policies: seq<Policy>) returns (i: nat)
    requires IsBoth(ById(providers)) && |policies| == 2 && IsPair(policies[0]) && policies[1].id == 2
    ensures i < |Conversion(providers, policies).profiles|
    ensures var c := Conversion(providers, policies).profiles[i].models;
            |c| == 2 && c[0].provider == 1 && Fold(c[0].model) == "m"
  {
    PairResolved(providers, policies, policies[0]);
    i := ResolvedProfile(Conversion(providers, policies), 1, Agent);
  }

  lemma SingleProfile(providers: seq<Provider>, policies: seq<Policy>) returns (i: nat)
    requires IsBoth(ById(providers)) && |policies| == 2 && policies[0].id == 1 && IsSingle(policies[1])
    ensures i < |Conversion(providers, policies).profiles|
    ensures var c := Conversion(providers, policies).profiles[i].models;
            |c| == 1 && c[0].provider == 2 && Fold(c[0].model) == "m"
  {
    SingleChain(policies[1], ById(providers));
    var names := [(2, "m")];
    ChainOfNames(providers, policies, policies[1], Agent, names);
    i := ResolvedProfile(Conversion(providers, policies), 2, Agent);
  }

  lemma PairBase(byId: map<int, Provider>, c: seq<ModelKey>)
    requires IsBoth(byId) && |c| == 2 && c[0].provider == 1
    ensures ProfileBaseName(c, byId) == c[0].model + PAIR_TAIL
  {
    assert Decimal(1) == "1";
    assert " @ " + "P" + (" +" + "1") == PAIR_TAIL;
  }

  lemma SingleBase(byId: map<int, Provider>, c: seq<ModelKey>)
    requires IsBoth(byId) && |c| == 1 && c[0].provider == 2
    ensures ProfileBaseName(c, byId) == c[0].model + SINGLE_TAIL
  {
    assert " @ " + "p +1" + "" == SINGLE_TAIL;
  }

  lemma ClashingProfiles(byId: map<int, Provider>, profiles: seq<ProfilePlan>, i: nat, j: nat)
    requires IsBoth(byId) && i < |profiles| && j < |profiles|
    requires ChainsStart(byId, profiles) && NameList(profiles) == Naming(BaseNames(byId, profiles))
    requires |profiles[i].models| == 2 && profiles[i].models[0].provider == 1 && Fold(profiles[i].models[0].model) == "m"
    requires |profiles[j].models| == 1 && profiles[j].models[0].provider == 2 && Fold(profiles[j].models[0].model) == "m"
    ensures !NamesAccepted(NameList(profiles))
  {
    PairBase(byId, profiles[i].models);
    SingleBase(byId, profiles[j].models);
    ClashingBases(profiles[i].models[0].model, profiles[j].models[0].model);
    ClashingNames(BaseNames(byId, profiles), i, j);
  }

  lemma ClashingNames(bases: seq<string>, i: nat, j: nat)
    requires i < |bases| && j < |bases|
    requires KeyOf(bases[i], 1) == KeyOf(bases[j], 1) && Candidate(bases[i], 1) != Candidate(bases[j], 1)
    ensures !NamesAccepted(Naming(bases))
  {
    if NamesAccepted(Naming(bases)) {
      AcceptedNeedsCutsApart(bases);
    }
  }

  // ---- a model name longer than its column ----

  /** A long fallback name becomes a row of the same length. */
  lemma LongNameExample(long: string, p: Policy, q: Provider)
    requires Strip(long) == long && |long| > 200
    requires q == Provider(1, "A", "d", true, false, None, None, None)
    requires p == Policy(10, Some(1), Some("m"),
                         Parsed(Json.Arr([Json.Obj(map["provider_id" := Json.Int(1), "model" := Json.Str(long)])])),
                         None, None, None, None, None, 1)
    ensures !ModelNamesFit(Conversion([q], [p]))
    ensures exists m :: m in Conversion([q], [p]).models && |m.model| == |long|
  {
    var byId, k := ById([q]), ModelKey(1, long);
    assert byId == map[1 := q] by {
      assert [q][..0] == [];
    }
    LongNameUsed(long, p, byId);
    assert IsUsed([q], [p], k);
    LongRow([q], [p], k);
  }

  lemma LongNameUsed(long: string, p: Policy, byId: map<int, Provider>)
    requires 1 in byId && long != ""
    requires p == Policy(10, Some(1), Some("m"),
                         Parsed(Json.Arr([Json.Obj(map["provider_id" := Json.Int(1), "model" := Json.Str(long)])])),
                         None, None, None, None, None, 1)
    ensures RuntimeChain(p, byId, Agent).Some? && ModelKey(1, long) in RuntimeChain(p, byId, Agent).value
  {
    OneItem(Json.Obj(map["provider_id" := Json.Int(1), "model" := Json.Str(long)]), byId, ModelKey(1, long));
    AgentChain(p, byId, ModelKey(1, "m"), [ModelKey(1, long)]);
    var raw := [ModelKey(1, "m")] + [ModelKey(1, long)];
    DedupedElements(raw);
    assert raw[1] in raw;
  }

  lemma LongRow(providers: seq<Provider>, policies: seq<Policy>, k: ModelKey)
    requires Mentioned(providers, policies, k) && Strip(k.model) == k.model && |k.model| > 200
    ensures exists m :: m in Conversion(providers, policies).models && |m.model| == |k.model|
    ensures !ModelNamesFit(Conversion(providers, policies))
  {
    var nk := NormKey(ById(providers), k);
    RowsAreMentionedNames(providers, policies, nk);
    var m :| m in Conversion(providers, policies).models && (m.provider, Fold(m.model)) == nk;
    assert |m.model| == |Fold(m.model)| == |k.model|;
  }

  lemma OneStart(p: Policy, byId: map<int, Provider>, task: Task, k: ModelKey)
    requires Start(p, byId, task) == Some(k) && p.fallback == NoText && task != Vision
    ensures RuntimeChain(p, byId, task) == Some([k])
  {
    assert [k] + [] == [k];
    DedupedDistinct([k]);
  }

  lemma OneNorm(byId: map<int, Provider>, k: ModelKey, nk: (int, string))
    requires NormKey(byId, k) == nk
    ensures Deduped(Map(Norm(byId), [k])) == [nk]
  {
    assert Map(Norm(byId), [k]) == [nk];
    DedupedDistinct([nk]);
  }

  /** A queue that loses its triage head: its provider has no default model and
      its triage model is a single space, so the restored triage fields name the
      agent's model instead. */
  lemma TriageHeadLostExample(providers: seq<Provider>, policies: seq<Policy>, modelIds: seq<int>, profileIds: seq<int>)
    requires |providers| == 1 && providers[0] == Provider(1, "A", "", true, false, None, None, None)
    requires |policies| == 1 && policies[0] == Policy(10, Some(1), Some("big"), NoText, None, None, None, None, Some(" "), 1)
    requires |modelIds| == |Conversion(providers, policies).models| && StrictlyAscending(modelIds)
    requires |profileIds| == |Conversion(providers, policies).profiles| && StrictlyAscending(profileIds)
    ensures Writable(Conversion(providers, policies), modelIds, profileIds)
    ensures var t := Written(Conversion(providers, policies), modelIds, profileIds);
            var now := Start(RestorePolicy(t, 10, 1), ById(RestoredProviders(t, providers)), Triage);
            now != HeadOf(ResolvedOrEmpty(Conversion(providers, policies), 10, Triage))
  {
    assert providers[..0] == [];
    LosesItsHead(policies[0], ById(providers));
    assert policies[0] in policies;
    TriageComesBackExactly(providers, policies, modelIds, profileIds, policies[0]);
  }

  lemma LosesItsHead(p: Policy, byId: map<int, Provider>)
    requires 1 in byId && byId[1].defaultModel == ""
    requires p == Policy(10, Some(1), Some("big"), NoText, None, None, None, None, Some(" "), 1)
    ensures LosesTriageHead(p, byId)
  {
    assert Strip(" ") == "" by {
      assert " "[1..] == "";
    }
    assert Strip("big") == "big";
  }

  /** Stored chains from elsewhere can also name provider 0, which the restored
      fields cannot: beside an agent at provider 1 triage falls to the agent's. */
  lemma ProviderZeroExample(byId: map<int, Provider>, p: Policy)
    requires 0 in byId && 1 in byId
    requires p == RestoreFrom(10, [ModelKey(1, "m")], [], [ModelKey(0, "z")], [], 1)
    ensures Start(p, byId, Triage) == Some(ModelKey(1, "z"))
  {
  }

  /** A queue without an agent that keeps its triage head but loses the
      fallback, which the downgrade stores behind an agent only. */
  lemma TriageTailLostExample(providers: seq<Provider>, policies: seq<Policy>, modelIds: seq<int>, profileIds: seq<int>)
    requires providers == [UPPER, LOWER] && |policies| == 1
    requires policies[0] == Policy(10, None, None, Parsed(Json.Arr([ITEM])), None, None, None, Some(1), Some("m"), 1)
    requires |modelIds| == |Conversion(providers, policies).models| && StrictlyAscending(modelIds)
    requires |profileIds| == |Conversion(providers, policies).profiles| && StrictlyAscending(profileIds)
    ensures Writable(Conversion(providers, policies), modelIds, profileIds)
    ensures var plan, t := Conversion(providers, policies), Written(Conversion(providers, policies), modelIds, profileIds);
            var p', byId' := RestorePolicy(t, 10, 1), ById(RestoredProviders(t, providers));
            && Start(p', byId', Triage) == HeadOf(ResolvedOrEmpty(plan, 10, Triage))
            && OldChain(p', byId', Triage) != Resolve(plan, 10, Triage)
  {
    TwoProviders(providers);
    LosesItsTail(policies[0], ById(providers));
    assert policies[0] in policies;
    TriageComesBackExactly(providers, policies, modelIds, profileIds, policies[0]);
  }

  lemma LosesItsTail(p: Policy, byId: map<int, Provider>)
    requires IsBoth(byId)
    requires p == Policy(10, None, None, Parsed(Json.Arr([ITEM])), None, None, None, Some(1), Some("m"), 1)
    ensures Start(p, byId, Triage).Some? && !LosesTriageHead(p, byId) && !KeepsTriageTail(p, byId)
  {
    var k := ModelKey(2, "M");
    OneItem(ITEM, byId, k);
    assert FallbackNames(p, byId)[0] == NormKey(byId, k);
    assert NormKey(byId, k) in FallbackNames(p, byId);
  }
}
