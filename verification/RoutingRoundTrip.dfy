/** Upgrade, then downgrade: what the old fields mean afterwards. */
module RoutingRoundTrip {
  import opened Common
  import opened Text
  import opened Chains
  import opened RoutingTypes
  import opened RoutingCatalog
  import opened RoutingOld
  import opened RoutingPlan
  import opened RoutingInvariants
  import opened RoutingTheorems
  import opened RoutingDefaults
  import opened RoutingDb
  import Json

  // ---- reading a written plan ----

  lemma {:induction false} ProfileEntriesAppend(a: seq<EntryRow>, b: seq<EntryRow>, profile: int)
    ensures ProfileEntries(a + b, profile) == ProfileEntries(a, profile) + ProfileEntries(b, profile)
  {
    if b == [] {
      assert a + b == a;
    } else {
      var n := |b| - 1;
      assert (a + b)[..|a + b| - 1] == a + b[..n];
      ProfileEntriesAppend(a, b[..n], profile);
    }
  }

  lemma {:induction false} ProfileEntriesOne(rows: seq<EntryRow>, own: int, profile: int)
    requires forall r :: r in rows ==> r.profile == own
    ensures ProfileEntries(rows, profile) == if own == profile then rows else []
  {
    if rows != [] {
      var n := |rows| - 1;
      assert rows[n] in rows && rows == rows[..n] + [rows[n]];
      ProfileEntriesOne(rows[..n], own, profile);
    }
  }

  /** A profile's entries are exactly those of its chain. */
  lemma {:induction false} EntriesOfProfile(ids: map<ModelKey, int>, profiles: seq<ProfilePlan>, profileIds: seq<int>, i: nat)
    requires i < |profiles| == |profileIds| && Distinct(profileIds)
    requires forall p :: p in profiles ==> KeysKnown(ids, p.models)
    ensures KeysKnown(ids, profiles[i].models)
    ensures ProfileEntries(EntryTable(ids, profiles, profileIds), profileIds[i]) == ChainEntries(ids, profileIds[i], profiles[i].models)
  {
    var n := |profiles| - 1;
    assert profiles[n] in profiles && profiles[i] in profiles;
    var front, last := EntryTable(ids, profiles[..n], profileIds[..n]), ChainEntries(ids, profileIds[n], profiles[n].models);
    assert EntryTable(ids, profiles, profileIds) == front + last;
    ProfileEntriesAppend(front, last, profileIds[i]);
    ProfileEntriesOne(last, profileIds[n], profileIds[i]);
    if i < n {
      EntriesOfProfile(ids, profiles[..n], profileIds[..n], i);
    } else {
      NoEntriesOf(ids, profiles[..n], profileIds[..n], profileIds[i]);
    }
  }

  lemma {:induction false} NoEntriesOf(ids: map<ModelKey, int>, profiles: seq<ProfilePlan>, profileIds: seq<int>, profile: int)
    requires |profiles| == |profileIds| && profile !in profileIds
    requires forall p :: p in profiles ==> KeysKnown(ids, p.models)
    ensures ProfileEntries(EntryTable(ids, profiles, profileIds), profile) == []
  {
    if profiles != [] {
      var n := |profiles| - 1;
      assert profiles[n] in profiles && profileIds[n] in profileIds;
      var last := ChainEntries(ids, profileIds[n], profiles[n].models);
      NoEntriesOf(ids, profiles[..n], profileIds[..n], profile);
      ProfileEntriesAppend(EntryTable(ids, profiles[..n], profileIds[..n]), last, profile);
      ProfileEntriesOne(last, profileIds[n], profile);
    }
  }

  lemma {:induction false} FindModelAt(rows: seq<ModelRow>, i: nat)
    requires i < |rows| && forall j, k :: 0 <= j < k < |rows| ==> rows[j].id != rows[k].id
    ensures FindModel(rows, rows[i].id) == Some(rows[i])
  {
    if i > 0 {
      assert rows[0].id != rows[i].id;
      FindModelAt(rows[1..], i - 1);
    }
  }

  lemma FindJoined(models: seq<ModelPlan>, modelIds: seq<int>, k: ModelKey)
    requires |models| == |modelIds| && Distinct(modelIds) && k in ModelIds(models, modelIds)
    ensures var row := FindModel(ModelTable(models, modelIds), ModelIds(models, modelIds)[k]);
            row.Some? && row.value.model.Key() == k
  {
    ModelIdsHit(models, modelIds);
    var i :| 0 <= i < |models| && models[i].Key() == k && modelIds[i] == ModelIds(models, modelIds)[k];
    FindModelAt(ModelTable(models, modelIds), i);
  }

  /** Joining a chain's entries with the model table gives the chain back. */
  lemma {:induction false} JoinChain(models: seq<ModelPlan>, modelIds: seq<int>, entries: seq<EntryRow>, chain: seq<ModelKey>, n: nat)
    requires |models| == |modelIds| && Distinct(modelIds) && n <= |chain| == |entries|
    requires forall k :: k in chain ==> k in ModelIds(models, modelIds)
    requires forall i :: 0 <= i < |chain| ==> entries[i].model == ModelIds(models, modelIds)[chain[i]]
    ensures JoinKeys(ModelTable(models, modelIds), entries[..n]) == chain[..n]
  {
    if n > 0 {
      JoinChain(models, modelIds, entries, chain, n - 1);
      assert entries[..n][..n - 1] == entries[..n - 1];
      assert chain[n - 1] in chain;
      FindJoined(models, modelIds, chain[n - 1]);
    }
  }

  /** Every stored profile reads back as the planned chain. */
  lemma StoredChainReadsBack(plan: Plan, modelIds: seq<int>, profileIds: seq<int>, i: nat)
    requires Writable(plan, modelIds, profileIds) && Distinct(modelIds) && Distinct(profileIds) && i < |plan.profiles|
    ensures StoredChain(Written(plan, modelIds, profileIds), profileIds[i]) == plan.profiles[i].models
  {
    WritableKeys(plan, modelIds, profileIds);
    var ids := ModelIds(plan.models, modelIds);
    var chain := plan.profiles[i].models;
    EntriesOfProfile(ids, plan.profiles, profileIds, i);
    var entries := ChainEntries(ids, profileIds[i], chain);
    SortAscending(Position, entries);
    JoinChain(plan.models, modelIds, entries, chain, |chain|);
    assert entries[..|chain|] == entries && chain[..|chain|] == chain;
  }

  lemma {:induction false} FindOverrideAt(rows: seq<Override>, policy: int, task: Task) returns (i: nat)
    ensures match FindOverride(rows, policy, task)
            case None => forall j :: 0 <= j < |rows| ==> rows[j].policy != policy || rows[j].task != task
            case Some(v) => i < |rows| && rows[i].policy == policy && rows[i].task == task && rows[i].profile == v
  {
    i := 0;
    if rows != [] && !(rows[0].policy == policy && rows[0].task == task) {
      i := FindOverrideAt(rows[1..], policy, task);
      i := i + 1;
      assert forall j :: 1 <= j < |rows| ==> rows[j] == rows[1..][j - 1];
    }
  }

  lemma {:induction false} FindQueueRowAt(rows: seq<QueueRow>, policy: int, task: Task) returns (i: nat)
    ensures match FindQueueRow(rows, policy, task)
            case None => forall j :: 0 <= j < |rows| ==> rows[j].policy != policy || rows[j].task != task
            case Some(v) => i < |rows| && rows[i].policy == policy && rows[i].task == task && rows[i].profile == v
  {
    i := 0;
    if rows != [] {
      var n := |rows| - 1;
      if rows[n].policy == policy && rows[n].task == task {
        i := n;
      } else {
        i := FindQueueRowAt(rows[..n], policy, task);
      }
    }
  }

  /** A stored profile reference: what became of a planned one. */
  function StoredRef(v: Option<nat>, profileIds: seq<int>): Option<int>
    requires v.Some? ==> v.value < |profileIds|
  {
    if v.None? then None else Some(profileIds[v.value])
  }

  /** Without an override there is no queue row. */
  lemma NoQueueRow(rows: seq<Override>, profileIds: seq<int>, policy: int, task: Task)
    requires forall r :: r in rows && r.profile.Some? ==> r.profile.value < |profileIds|
    requires FindOverride(rows, policy, task).None?
    ensures FindQueueRow(QueueTable(rows, profileIds), policy, task).None?
  {
    var i := FindOverrideAt(rows, policy, task);
    var j := FindQueueRowAt(QueueTable(rows, profileIds), policy, task);
  }

  /** An override is stored as its queue row. */
  lemma OverrideRow(rows: seq<Override>, profileIds: seq<int>, policy: int, task: Task)
    requires forall r :: r in rows && r.profile.Some? ==> r.profile.value < |profileIds|
    requires OverridesUnique(rows) && FindOverride(rows, policy, task).Some?
    ensures var v := FindOverride(rows, policy, task).value;
            (v.Some? ==> v.value < |profileIds|) &&
            FindQueueRow(QueueTable(rows, profileIds), policy, task) == Some(StoredRef(v, profileIds))
  {
    var i := FindOverrideAt(rows, policy, task);
    var j := FindQueueRowAt(QueueTable(rows, profileIds), policy, task);
    assert rows[i] in rows;
    assert QueueTable(rows, profileIds)[i] == WriteRow(rows[i], profileIds);
    if FindQueueRow(QueueTable(rows, profileIds), policy, task).Some? {
      assert QueueTable(rows, profileIds)[j] == WriteRow(rows[j], profileIds);
    }
  }

  /** The stored rows resolve to the planned profile. */
  lemma EffectiveProfileIsPlanned(plan: Plan, modelIds: seq<int>, profileIds: seq<int>, policy: int, task: Task)
    requires Writable(plan, modelIds, profileIds) && OverridesUnique(plan.overrides)
    ensures var i := ResolveIndex(plan, policy, task);
            && (i.Some? ==> i.value < |plan.profiles|)
            && EffectiveProfile(Written(plan, modelIds, profileIds), policy, task) == StoredRef(i, profileIds)
  {
    if FindOverride(plan.overrides, policy, task).None? {
      NoQueueRow(plan.overrides, profileIds, policy, task);
    } else {
      OverrideRow(plan.overrides, profileIds, policy, task);
    }
  }

  /** What the downgrade resolves is what the plan resolves. */
  lemma StoredResolutionIsPlanned(plan: Plan, modelIds: seq<int>, profileIds: seq<int>, policy: int, task: Task)
    requires Writable(plan, modelIds, profileIds) && OverridesUnique(plan.overrides)
    requires Distinct(modelIds) && Distinct(profileIds)
    ensures StoredResolution(Written(plan, modelIds, profileIds), policy, task) ==
            match Resolve(plan, policy, task) case None => [] case Some(c) => c
  {
    EffectiveProfileIsPlanned(plan, modelIds, profileIds, policy, task);
    var i := ResolveIndex(plan, policy, task);
    if i.Some? {
      StoredChainReadsBack(plan, modelIds, profileIds, i.value);
    }
  }

  // ---- what restored fields mean ----

  /** A chain whose names survive the restored defaults. */
  ghost predicate ChainSound(byId: map<int, Provider>, c: seq<ModelKey>) {
    && Distinct(c)
    && forall k :: k in c ==> k.provider in byId && (k.model == "" ==> byId[k.provider].defaultModel == "")
  }

  lemma DumpedKey(k: ModelKey, byId: map<int, Provider>)
    requires k.provider in byId && (k.model == "" ==> byId[k.provider].defaultModel == "")
    ensures ItemKey(DumpKey(k), byId) == Some(k)
  {
  }

  lemma {:induction false} DumpReadsBack(tail: seq<ModelKey>, byId: map<int, Provider>, n: nat)
    requires ChainSound(byId, tail) && n <= |tail|
    ensures ItemKeys(Dump(tail)[..n], byId) == tail[..n]
  {
    if n > 0 {
      DumpReadsBack(tail, byId, n - 1);
      assert Dump(tail)[..n][..n - 1] == Dump(tail)[..n - 1];
      assert tail[n - 1] in tail;
      DumpedKey(tail[n - 1], byId);
    }
  }

  /** The parser of the old fallback field inverts the dumped tail. */
  lemma FallbackReadsBack(c: seq<ModelKey>, byId: map<int, Provider>)
    requires ChainSound(byId, c) && c != []
    ensures FallbackKeys(if |c| > 1 then Parsed(Json.Arr(Dump(c[1..]))) else NoText, byId) == c[1..]
  {
    var tail := c[1..];
    assert ChainSound(byId, tail) by {
      assert forall k :: k in tail ==> k in c;
    }
    DumpReadsBack(tail, byId, |tail|);
    assert Dump(tail)[..|tail|] == Dump(tail) && tail[..|tail|] == tail;
  }

  lemma HeadReadsBack(c: seq<ModelKey>, byId: map<int, Provider>)
    requires ChainSound(byId, c) && c != []
    ensures Key(byId, HeadProvider(c), HeadModel(c)) == Some(c[0])
  {
    assert c[0] in c;
  }

  function AsChain(c: seq<ModelKey>): Option<seq<ModelKey>> {
    if c == [] then None else Some(c)
  }

  lemma AgentReadsBack(p: Policy, c: seq<ModelKey>, byId: map<int, Provider>)
    requires ChainSound(byId, c) && p.llmProvider == HeadProvider(c) && p.modelOverride == HeadModel(c)
    requires p.fallback == if |c| > 1 then Parsed(Json.Arr(Dump(c[1..]))) else NoText
    ensures OldChain(p, byId, Agent) == AsChain(c)
  {
    if c != [] {
      HeadReadsBack(c, byId);
      FallbackReadsBack(c, byId);
      assert [c[0]] + c[1..] == c;
      DedupedDistinct(c);
    }
  }

  lemma FinalAnswerReadsBack(p: Policy, c: seq<ModelKey>, byId: map<int, Provider>)
    requires ChainSound(byId, c) && |c| <= 1 && p.finalProvider == HeadProvider(c) && p.finalModel == HeadModel(c)
    ensures OldChain(p, byId, FinalAnswer) == AsChain(c)
  {
    if c != [] {
      HeadReadsBack(c, byId);
      assert c == [c[0]];
    }
  }

  /** A vision chain of a provider's default model, while that provider can see. */
  ghost predicate VisionSound(byId: map<int, Provider>, c: seq<ModelKey>) {
    c != [] ==> |c| == 1 && c[0].provider in byId && byId[c[0].provider].supportsVision &&
                byId[c[0].provider].defaultModel == c[0].model
  }

  lemma VisionReadsBack(p: Policy, c: seq<ModelKey>, byId: map<int, Provider>)
    requires VisionSound(byId, c) && p.visionProvider == HeadProvider(c)
    ensures RuntimeChain(p, byId, Vision) == AsChain(c)
  {
    if c != [] {
      assert Key(byId, p.visionProvider, None) == Some(c[0]);
      assert c == [c[0]];
    }
  }

  /** When the restored triage fields still name the planned head: its provider
      id is not the "not set" 0 (unless the agent's is), and a blank model name
      does not fall back to another model of the agent on the same provider. */
  predicate TriageRestorable(head: ModelKey, agent: Option<ModelKey>) {
    && (head.provider != 0 || (agent.Some? && agent.value.provider == 0))
    && (head.model != "" || agent.None? || agent.value.provider != head.provider || agent.value.model == "")
  }

  function HeadOf(c: seq<ModelKey>): Option<ModelKey> {
    if c == [] then None else Some(c[0])
  }

  lemma TriageReadsBack(p: Policy, agent: seq<ModelKey>, triage: seq<ModelKey>, byId: map<int, Provider>)
    requires ChainSound(byId, agent) && ChainSound(byId, triage)
    requires p.llmProvider == HeadProvider(agent) && p.modelOverride == HeadModel(agent)
    requires p.triageProvider == HeadProvider(triage) && p.triageModel == HeadModel(triage)
    ensures triage == [] ==> Start(p, byId, Triage) == None
    ensures triage != [] ==> (Start(p, byId, Triage) == Some(triage[0]) <==> TriageRestorable(triage[0], HeadOf(agent)))
  {
    if triage != [] {
      assert triage[0] in triage;
    }
    if agent != [] {
      assert agent[0] in agent;
    }
  }

  /** What is stored behind the agent's head is the only fallback tail. */
  function TailOf(c: seq<ModelKey>): seq<ModelKey> {
    if c == [] then [] else c[1..]
  }

  /** The agent's tail, behind the triage head, is the planned triage chain. */
  predicate TailShared(triage: seq<ModelKey>, agent: seq<ModelKey>)
    requires triage != []
  {
    Deduped([triage[0]] + TailOf(agent)) == triage
  }

  /** The whole triage chain reads back exactly when its head does and the
      agent's tail serves for its own. */
  lemma TriageChainReadsBack(p: Policy, agent: seq<ModelKey>, triage: seq<ModelKey>, byId: map<int, Provider>)
    requires ChainSound(byId, agent) && ChainSound(byId, triage) && triage != []
    requires p.llmProvider == HeadProvider(agent) && p.modelOverride == HeadModel(agent)
    requires p.triageProvider == HeadProvider(triage) && p.triageModel == HeadModel(triage)
    requires p.fallback == if |agent| > 1 then Parsed(Json.Arr(Dump(agent[1..]))) else NoText
    ensures OldChain(p, byId, Triage) == Some(triage) <==>
            TriageRestorable(triage[0], HeadOf(agent)) && TailShared(triage, agent)
  {
    TriageReadsBack(p, agent, triage, byId);
    if agent != [] {
      FallbackReadsBack(agent, byId);
    }
    assert FallbackKeys(p.fallback, byId) == TailOf(agent);
    var start := Start(p, byId, Triage);
    if start.Some? {
      DedupedHead([start.value] + TailOf(agent));
    }
  }

  // ---- providers come back from their first catalog row ----

  ghost predicate StrictlyAscending(ids: seq<int>) {
    forall i, j :: 0 <= i < j < |ids| ==> ids[i] < ids[j]
  }

  lemma {:induction false} FirstModelAt(rows: seq<ModelRow>, provider: int, i: nat)
    requires forall j, k :: 0 <= j < k < |rows| ==> rows[j].id < rows[k].id
    requires i < |rows| && rows[i].model.provider == provider
    requires forall j :: 0 <= j < i ==> rows[j].model.provider != provider
    ensures FirstModel(rows, provider) == Some(rows[i])
  {
    var n := |rows| - 1;
    if i < n {
      FirstModelAt(rows[..n], provider, i);
    } else {
      NoModel(rows[..n], provider);
    }
  }

  lemma FirstRowIsDefault(byId: map<int, Provider>, sorted: seq<Provider>, b: Build, modelIds: seq<int>, i: nat)
    requires IsIndexOf(byId, sorted) && RowsKnown(byId, b.catalog) && i < |sorted|
    requires StartsWith(DefaultRows(sorted), DefaultNorms(sorted), |sorted|, b.catalog)
    requires |modelIds| == |b.catalog.order| && StrictlyAscending(modelIds)
    ensures FirstModel(ModelTable(ModelRows(byId, b.toolKeys, b.catalog.order), modelIds), sorted[i].id) ==
            Some(ModelRow(modelIds[i], RoutingPlan.ModelRow(byId, b.toolKeys, DefaultRow(sorted[i]))))
  {
    var models := ModelRows(byId, b.toolKeys, b.catalog.order);
    var rows := ModelTable(models, modelIds);
    forall j | 0 <= j <= i
      ensures rows[j].model == RoutingPlan.ModelRow(byId, b.toolKeys, DefaultRow(sorted[j]))
      ensures rows[j].model.provider == sorted[j].id
    {
      assert b.catalog.order[j] == DefaultRows(sorted)[j];
    }
    forall j | 0 <= j < i
      ensures rows[j].model.provider != sorted[i].id
    {
      assert ProviderId(sorted[j]) != ProviderId(sorted[i]);
    }
    FirstModelAt(rows, sorted[i].id, i);
  }

  /** `q` is `p` as the downgrade restores it: the stripped default model, the
      flags, rounds and prices; only the tools flag may have been widened. */
  predicate ProviderRestored(p: Provider, q: Provider) {
    && q.id == p.id && q.name == p.name && q.defaultModel == Strip(p.defaultModel)
    && q.supportsVision == p.supportsVision && (p.supportsTools ==> q.supportsTools)
    && q.maxToolRounds == p.maxToolRounds && q.priceInput == p.priceInput && q.priceOutput == p.priceOutput
  }

  function RestoredProviders(t: Tables, providers: seq<Provider>): (r: seq<Provider>)
    ensures |r| == |providers|
    ensures forall i :: 0 <= i < |r| ==> r[i] == RestoreProvider(t, providers[i].id, providers[i].name)
  {
    seq(|providers|, i requires 0 <= i < |providers| => RestoreProvider(t, providers[i].id, providers[i].name))
  }

  lemma RestoredById(t: Tables, providers: seq<Provider>)
    requires DistinctBy(ProviderId, providers)
    requires forall p :: p in providers ==> ProviderRestored(p, RestoreProvider(t, p.id, p.name))
    ensures var byId, byId' := ById(providers), ById(RestoredProviders(t, providers));
            forall k :: k in byId ==> k in byId' && ProviderRestored(byId[k], byId'[k])
  {
    var ps := RestoredProviders(t, providers);
    var byId := ById(providers);
    assert DistinctBy(ProviderId, ps) by {
      forall i, j | 0 <= i < j < |ps|
        ensures ProviderId(ps[i]) != ProviderId(ps[j])
      {
        assert providers[i] in providers && providers[j] in providers;
        assert ProviderId(providers[i]) != ProviderId(providers[j]);
      }
    }
    forall k | k in byId
      ensures k in ById(ps) && ProviderRestored(byId[k], ById(ps)[k])
    {
      var i :| 0 <= i < |providers| && providers[i] == byId[k];
      assert ps[i] in ps;
      ByIdFinds(ps, ps[i]);
    }
  }

  /** The settings every provider gets back. */
  lemma ProvidersComeBack(providers: seq<Provider>, policies: seq<Policy>, t: Tables, modelIds: seq<int>, p: Provider)
    requires DistinctBy(ProviderId, providers) && p in providers
    requires |modelIds| == |Conversion(providers, policies).models| && StrictlyAscending(modelIds)
    requires t.models == ModelTable(Conversion(providers, policies).models, modelIds)
    ensures ProviderRestored(p, RestoreProvider(t, p.id, p.name))
  {
    var byId, sorted, b := ById(providers), SortBy(ProviderId, providers), Built(providers, policies);
    SortedProviders(providers);
    ConversionDefaultsFirst(providers, policies);
    var i :| 0 <= i < |sorted| && sorted[i] == p;
    FirstRowIsDefault(byId, sorted, b, modelIds, i);
  }

  // ---- the round trip ----

  lemma RowNameOk(byId: map<int, Provider>, c: Catalog, k: ModelKey)
    requires CatalogOk(byId, c) && k in c.order && k.provider in byId
    ensures k.model == "" ==> Strip(byId[k.provider].defaultModel) == ""
  {
    assert SpellingOk(byId, (k.provider, Fold(k.model)), k.model);
  }

  /** Planned chains survive the restored provider defaults. */
  lemma PlannedChainSound(byId: map<int, Provider>, byId': map<int, Provider>, b: Build, chain: seq<ModelKey>)
    requires CatalogOk(byId, b.catalog) && RowsKnown(byId, b.catalog) && ChainOk(b.catalog, chain)
    requires forall k :: k in byId ==> k in byId' && ProviderRestored(byId[k], byId'[k])
    ensures ChainSound(byId', chain)
  {
    forall k | k in chain
      ensures k.provider in byId' && (k.model == "" ==> byId'[k.provider].defaultModel == "")
    {
      RowNameOk(byId, b.catalog, k);
    }
  }

  /** Final-answer and vision chains are single models; the vision model is its
      provider's default. */
  lemma SingleModelChains(byId: map<int, Provider>, c: Catalog, p: Policy, task: Task)
    requires task == FinalAnswer || task == Vision
    requires RuntimeChain(p, byId, task).Some?
    ensures var raw := RuntimeChain(p, byId, task).value;
            CanonChain(byId, c, raw) == [Canonical(byId, c, raw[0])]
  {
    var raw := RuntimeChain(p, byId, task).value;
    assert raw == [raw[0]];
    var rows := Map(Canonise(byId, c), raw);
    assert rows == [Canonical(byId, c, raw[0])];
    DedupedDistinct(rows);
  }

  function ResolvedOrEmpty(plan: Plan, policy: int, task: Task): seq<ModelKey> {
    match Resolve(plan, policy, task)
    case None => []
    case Some(c) => c
  }

  ghost predicate PlanSound(plan: Plan, byId': map<int, Provider>, id: int) {
    && ChainSound(byId', ResolvedOrEmpty(plan, id, Agent)) && Resolve(plan, id, Agent) != Some([])
    && ChainSound(byId', ResolvedOrEmpty(plan, id, Triage)) && Resolve(plan, id, Triage) != Some([])
    && ChainSound(byId', ResolvedOrEmpty(plan, id, FinalAnswer)) && Resolve(plan, id, FinalAnswer) != Some([])
    && |ResolvedOrEmpty(plan, id, FinalAnswer)| <= 1
    && VisionSound(byId', ResolvedOrEmpty(plan, id, Vision)) && Resolve(plan, id, Vision) != Some([])
  }

  lemma ResolvedSound(byId: map<int, Provider>, byId': map<int, Provider>, sorted: seq<Policy>, b: Build, i: nat, t: nat)
    requires Finished(byId, sorted, b) && DistinctBy(PolicyId, sorted) && i < |sorted| && t < 6
    requires forall k :: k in byId ==> k in byId' && ProviderRestored(byId[k], byId'[k])
    ensures var plan := PlanOf(byId, sorted, b);
            ChainSound(byId', ResolvedOrEmpty(plan, sorted[i].id, TaskAt(t))) && Resolve(plan, sorted[i].id, TaskAt(t)) != Some([])
  {
    AnswersBounded(byId, b, Jobs(sorted, byId));
    ResolveAt(byId, sorted, b, i, t);
    var a := b.answers[6 * i + t];
    if a.Some? {
      assert ChainOk(b.catalog, b.profiles[a.value].models);
      PlannedChainSound(byId, byId', b, b.profiles[a.value].models);
    }
  }

  lemma ResolvedSingle(byId: map<int, Provider>, sorted: seq<Policy>, b: Build, i: nat, t: nat)
    requires Finished(byId, sorted, b) && DistinctBy(PolicyId, sorted) && i < |sorted| && t < 6
    requires TaskAt(t) == FinalAnswer || TaskAt(t) == Vision
    ensures var now := Resolve(PlanOf(byId, sorted, b), sorted[i].id, TaskAt(t));
            var was := RuntimeChain(sorted[i], byId, TaskAt(t));
            now.Some? ==> was.Some? && now.value == [Canonical(byId, b.catalog, was.value[0])]
  {
    PlanPreservesMeaning(byId, sorted, b, i, t);
    if RuntimeChain(sorted[i], byId, TaskAt(t)).Some? {
      SingleModelChains(byId, b.catalog, sorted[i], TaskAt(t));
    }
  }

  lemma VisionStart(p: Policy, byId: map<int, Provider>)
    requires RuntimeChain(p, byId, Vision).Some?
    ensures var k := RuntimeChain(p, byId, Vision).value[0];
            k.provider in byId && k == ModelKey(k.provider, byId[k.provider].defaultModel) && byId[k.provider].supportsVision
  {
  }

  /** A planned vision chain is its provider's default model, in the catalog's spelling. */
  lemma PlannedVisionSound(providers: seq<Provider>, policies: seq<Policy>, byId': map<int, Provider>, i: nat)
    requires DistinctBy(ProviderId, providers) && DistinctBy(PolicyId, policies) && i < |policies|
    requires forall k :: k in ById(providers) ==> k in byId' && ProviderRestored(ById(providers)[k], byId'[k])
    ensures i < |SortBy(PolicyId, policies)|
    ensures VisionSound(byId', ResolvedOrEmpty(Conversion(providers, policies), SortBy(PolicyId, policies)[i].id, Vision))
  {
    var byId, sorted, b := ById(providers), SortBy(PolicyId, policies), Built(providers, policies);
    ConversionFinished(providers, policies);
    ResolvedSingle(byId, sorted, b, i, 5);
    if RuntimeChain(sorted[i], byId, Vision).Some? {
      VisionStart(sorted[i], byId);
      var k := RuntimeChain(sorted[i], byId, Vision).value[0];
      DefaultName(byId, byId[k.provider]);
      DefaultSpellingWins(providers, policies, byId[k.provider], k);
    }
  }

  /** All chains of one queue but the vision model's spelling. */
  lemma QueueSound(byId: map<int, Provider>, byId': map<int, Provider>, sorted: seq<Policy>, b: Build, i: nat)
    requires Finished(byId, sorted, b) && DistinctBy(PolicyId, sorted) && i < |sorted|
    requires forall k :: k in byId ==> k in byId' && ProviderRestored(byId[k], byId'[k])
    ensures var plan, id := PlanOf(byId, sorted, b), sorted[i].id;
            VisionSound(byId', ResolvedOrEmpty(plan, id, Vision)) ==> PlanSound(plan, byId', id)
  {
    ResolvedSound(byId, byId', sorted, b, i, 0);
    ResolvedSound(byId, byId', sorted, b, i, 1);
    ResolvedSound(byId, byId', sorted, b, i, 2);
    ResolvedSound(byId, byId', sorted, b, i, 5);
    ResolvedSingle(byId, sorted, b, i, 1);
  }

  lemma ConversionSound(providers: seq<Provider>, policies: seq<Policy>, byId': map<int, Provider>, p: Policy)
    requires DistinctBy(ProviderId, providers) && DistinctBy(PolicyId, policies) && p in policies
    requires forall k :: k in ById(providers) ==> k in byId' && ProviderRestored(ById(providers)[k], byId'[k])
    ensures PlanSound(Conversion(providers, policies), byId', p.id)
  {
    var byId, sorted, b := ById(providers), SortBy(PolicyId, policies), Built(providers, policies);
    ConversionFinished(providers, policies);
    var i :| 0 <= i < |sorted| && sorted[i] == p;
    QueueSound(byId, byId', sorted, b, i);
    PlannedVisionSound(providers, policies, byId', i);
  }

  /** What the restored fields of one queue mean. */
  ghost predicate QueueRestored(plan: Plan, byId': map<int, Provider>, p': Policy, id: int) {
    && OldChain(p', byId', Agent) == Resolve(plan, id, Agent)
    && OldChain(p', byId', FinalAnswer) == Resolve(plan, id, FinalAnswer)
    && RuntimeChain(p', byId', Vision) == Resolve(plan, id, Vision)
    && (Resolve(plan, id, Triage).None? ==> OldChain(p', byId', Triage).None?)
    && (Resolve(plan, id, Triage).Some? ==>
          var head := HeadOf(ResolvedOrEmpty(plan, id, Triage));
          head.Some? &&
          (Start(p', byId', Triage) == head <==> TriageRestorable(head.value, HeadOf(ResolvedOrEmpty(plan, id, Agent)))) &&
          (OldChain(p', byId', Triage) == Resolve(plan, id, Triage) <==>
             TriageRestorable(head.value, HeadOf(ResolvedOrEmpty(plan, id, Agent))) &&
             TailShared(ResolvedOrEmpty(plan, id, Triage), ResolvedOrEmpty(plan, id, Agent))))
  }

  lemma FieldsMeanPlan(plan: Plan, byId': map<int, Provider>, id: int, validId: int)
    requires PlanSound(plan, byId', id)
    ensures QueueRestored(plan, byId',
              RestoreFrom(id, ResolvedOrEmpty(plan, id, Agent), ResolvedOrEmpty(plan, id, FinalAnswer),
                          ResolvedOrEmpty(plan, id, Triage), ResolvedOrEmpty(plan, id, Vision), validId), id)
  {
    var agent, final := ResolvedOrEmpty(plan, id, Agent), ResolvedOrEmpty(plan, id, FinalAnswer);
    var triage, vision := ResolvedOrEmpty(plan, id, Triage), ResolvedOrEmpty(plan, id, Vision);
    var p' := RestoreFrom(id, agent, final, triage, vision, validId);
    AgentReadsBack(p', agent, byId');
    FinalAnswerReadsBack(p', final, byId');
    VisionReadsBack(p', vision, byId');
    TriageReadsBack(p', agent, triage, byId');
    if triage != [] {
      TriageChainReadsBack(p', agent, triage, byId');
    }
  }

  lemma ConversionWritable(providers: seq<Provider>, policies: seq<Policy>, modelIds: seq<int>, profileIds: seq<int>)
    requires var plan := Conversion(providers, policies); |modelIds| == |plan.models| && |profileIds| == |plan.profiles|
    ensures Writable(Conversion(providers, policies), modelIds, profileIds)
  {
    PlanSatisfiesSchema(providers, policies);
    var plan := Conversion(providers, policies);
    forall p, k | p in plan.profiles && k in p.models
      ensures IsRow(plan, k)
    {
      var i :| 0 <= i < |plan.profiles| && plan.profiles[i] == p;
    }
  }

  /** Upgrade then downgrade, for any ascending inserted ids: every queue gets
      back the plan's agent, final-answer and vision chains; it gets back its
      triage head exactly when `TriageRestorable` says so, and the whole triage
      chain exactly when also `TailShared` does. */
  lemma DowngradeUndoesUpgrade(providers: seq<Provider>, policies: seq<Policy>, modelIds: seq<int>, profileIds: seq<int>, p: Policy)
    requires DistinctBy(ProviderId, providers) && DistinctBy(PolicyId, policies) && p in policies
    requires |modelIds| == |Conversion(providers, policies).models| && StrictlyAscending(modelIds)
    requires |profileIds| == |Conversion(providers, policies).profiles| && StrictlyAscending(profileIds)
    ensures Writable(Conversion(providers, policies), modelIds, profileIds)
    ensures var plan := Conversion(providers, policies);
            var t := Written(plan, modelIds, profileIds);
            QueueRestored(plan, ById(RestoredProviders(t, providers)), RestorePolicy(t, p.id, p.validId), p.id)
    ensures var p' := RestorePolicy(Written(Conversion(providers, policies), modelIds, profileIds), p.id, p.validId);
            p'.id == p.id && p'.validId == p.validId
  {
    var plan := Conversion(providers, policies);
    ConversionWritable(providers, policies, modelIds, profileIds);
    PlanSatisfiesSchema(providers, policies);
    var t := Written(plan, modelIds, profileIds);
    forall q | q in providers
      ensures ProviderRestored(q, RestoreProvider(t, q.id, q.name))
    {
      ProvidersComeBack(providers, policies, t, modelIds, q);
    }
    RestoredById(t, providers);
    var byId' := ById(RestoredProviders(t, providers));
    ConversionSound(providers, policies, byId', p);
    StoredResolutionIsPlanned(plan, modelIds, profileIds, p.id, Agent);
    StoredResolutionIsPlanned(plan, modelIds, profileIds, p.id, FinalAnswer);
    StoredResolutionIsPlanned(plan, modelIds, profileIds, p.id, Triage);
    StoredResolutionIsPlanned(plan, modelIds, profileIds, p.id, Vision);
    FieldsMeanPlan(plan, byId', p.id, p.validId);
    RestoredIdentity(t, p.id, p.validId);
  }

  /** Through upgrade and downgrade the old fields keep their meaning: agent,
      final answer and vision name the models they named before, without
      repetitions, compared after strip, blank-to-default and casefold. */
  lemma RoundTripKeepsMeaning(providers: seq<Provider>, policies: seq<Policy>, modelIds: seq<int>, profileIds: seq<int>, p: Policy, task: Task)
    requires DistinctBy(ProviderId, providers) && DistinctBy(PolicyId, policies) && p in policies
    requires |modelIds| == |Conversion(providers, policies).models| && StrictlyAscending(modelIds)
    requires |profileIds| == |Conversion(providers, policies).profiles| && StrictlyAscending(profileIds)
    requires task == Agent || task == FinalAnswer || task == Vision
    ensures Writable(Conversion(providers, policies), modelIds, profileIds)
    ensures var byId := ById(providers);
            var t := Written(Conversion(providers, policies), modelIds, profileIds);
            var was := RuntimeChain(p, byId, task);
            var now := RuntimeChain(RestorePolicy(t, p.id, p.validId), ById(RestoredProviders(t, providers)), task);
            && (now.None? <==> was.None?)
            && (now.Some? ==> Map(Norm(byId), now.value) == Deduped(Map(Norm(byId), was.value)))
  {
    DowngradeUndoesUpgrade(providers, policies, modelIds, profileIds, p);
    ConversionPreservesMeaning(providers, policies, p, task);
  }

  lemma HeadNameAt(byId: map<int, Provider>, sorted: seq<Policy>, b: Build, i: nat, t: nat)
    requires |b.answers| == 6 * |sorted| && RowsKnown(byId, b.catalog) && DistinctBy(PolicyId, sorted)
    requires Bounded(b) && CatalogOk(byId, b.catalog) && ChainsOk(b) && i < |sorted| && t < 6
    ensures var c := ResolvedOrEmpty(PlanOf(byId, sorted, b), sorted[i].id, TaskAt(t));
            c != [] ==> NormKey(byId, c[0]) == (c[0].provider, Fold(c[0].model))
  {
    ResolveAt(byId, sorted, b, i, t);
    var a := b.answers[6 * i + t];
    if a.Some? {
      assert ChainOk(b.catalog, b.profiles[a.value].models);
      RowDenotesItself(byId, b.catalog, b.profiles[a.value].models[0]);
    }
  }

  /** A resolved head carries the name it denotes, up to case. */
  lemma HeadName(providers: seq<Provider>, policies: seq<Policy>, p: Policy, task: Task)
    requires DistinctBy(PolicyId, policies) && p in policies
    ensures var c := ResolvedOrEmpty(Conversion(providers, policies), p.id, task);
            c != [] ==> NormKey(ById(providers), c[0]) == (c[0].provider, Fold(c[0].model))
  {
    var byId, sorted, b := ById(providers), SortBy(PolicyId, policies), Built(providers, policies);
    ConversionFinished(providers, policies);
    var i :| 0 <= i < |sorted| && sorted[i] == p;
    AnswersBounded(byId, b, Jobs(sorted, byId));
    HeadNameAt(byId, sorted, b, i, IndexOf(task));
  }
}
