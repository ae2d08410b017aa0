/** The new tables, written from a plan, and the downgrade that reads the old
    fields back from them. */
module RoutingDb {
  import opened Common
  import opened RoutingTypes
  import opened RoutingPlan
  import opened RoutingTheorems
  import Json

  datatype ModelRow = ModelRow(id: int, model: ModelPlan)
  datatype ProfileRow = ProfileRow(id: int, name: string)
  datatype EntryRow = EntryRow(profile: int, position: nat, model: int)
  datatype QueueRow = QueueRow(policy: int, task: Task, profile: Option<int>)

  /** The contents of the five tables; `defaults` is keyed by its primary key. */
  datatype Tables = Tables(
    models: seq<ModelRow>,
    profiles: seq<ProfileRow>,
    entries: seq<EntryRow>,
    defaults: map<Task, int>,
    queueRows: seq<QueueRow>)

  // ---- what a plan looks like once written ----

  function ModelTable(models: seq<ModelPlan>, ids: seq<int>): (r: seq<ModelRow>)
    requires |models| == |ids|
    ensures |r| == |models|
    ensures forall i :: 0 <= i < |r| ==> r[i] == ModelRow(ids[i], models[i])
  {
    seq(|models|, i requires 0 <= i < |models| => ModelRow(ids[i], models[i]))
  }

  /** `model_ids`: the row id of every model key. */
  function ModelIds(models: seq<ModelPlan>, ids: seq<int>): map<ModelKey, int>
    requires |models| == |ids|
  {
    if models == [] then map[]
    else
      var n := |models| - 1;
      ModelIds(models[..n], ids[..n])[models[n].Key() := ids[n]]
  }

  lemma {:induction false} ModelIdsHit(models: seq<ModelPlan>, ids: seq<int>)
    requires |models| == |ids|
    ensures forall m :: m in models ==> m.Key() in ModelIds(models, ids)
    ensures forall k :: k in ModelIds(models, ids) ==>
      exists i :: 0 <= i < |models| && models[i].Key() == k && ids[i] == ModelIds(models, ids)[k]
  {
    if models != [] {
      var n := |models| - 1;
      ModelIdsHit(models[..n], ids[..n]);
      assert models == models[..n] + [models[n]];
      forall k | k in ModelIds(models, ids)
        ensures exists i :: 0 <= i < |models| && models[i].Key() == k && ids[i] == ModelIds(models, ids)[k]
      {
        if k == models[n].Key() {
          assert models[n].Key() == k && ids[n] == ModelIds(models, ids)[k];
        } else {
          var i :| 0 <= i < n && models[..n][i].Key() == k && ids[..n][i] == ModelIds(models[..n], ids[..n])[k];
          assert models[i].Key() == k && ids[i] == ModelIds(models, ids)[k];
        }
      }
    }
  }

  ghost predicate KeysKnown(ids: map<ModelKey, int>, chain: seq<ModelKey>) {
    forall k :: k in chain ==> k in ids
  }

  function ChainEntries(ids: map<ModelKey, int>, profile: int, chain: seq<ModelKey>): (r: seq<EntryRow>)
    requires KeysKnown(ids, chain)
    ensures |r| == |chain|
    ensures forall i :: 0 <= i < |r| ==> r[i] == EntryRow(profile, i, ids[chain[i]])
  {
    seq(|chain|, i requires 0 <= i < |chain| => EntryRow(profile, i, ids[chain[i]]))
  }

  function EntryTable(ids: map<ModelKey, int>, profiles: seq<ProfilePlan>, profileIds: seq<int>): seq<EntryRow>
    requires |profiles| == |profileIds|
    requires forall p :: p in profiles ==> KeysKnown(ids, p.models)
  {
    if profiles == [] then []
    else
      var n := |profiles| - 1;
      EntryTable(ids, profiles[..n], profileIds[..n]) + ChainEntries(ids, profileIds[n], profiles[n].models)
  }

  function ProfileTable(profiles: seq<ProfilePlan>, profileIds: seq<int>): (r: seq<ProfileRow>)
    requires |profiles| == |profileIds|
    ensures |r| == |profiles|
    ensures forall i :: 0 <= i < |r| ==> r[i] == ProfileRow(profileIds[i], profiles[i].name)
  {
    seq(|profiles|, i requires 0 <= i < |profiles| => ProfileRow(profileIds[i], profiles[i].name))
  }

  function WriteRow(r: Override, profileIds: seq<int>): QueueRow
    requires r.profile.Some? ==> r.profile.value < |profileIds|
  {
    QueueRow(r.policy, r.task, if r.profile.None? then None else Some(profileIds[r.profile.value]))
  }

  function QueueTable(rows: seq<Override>, profileIds: seq<int>): (r: seq<QueueRow>)
    requires forall q :: q in rows && q.profile.Some? ==> q.profile.value < |profileIds|
    ensures |r| == |rows|
    ensures forall i :: 0 <= i < |r| ==> r[i] == WriteRow(rows[i], profileIds)
  {
    seq(|rows|, i requires 0 <= i < |rows| => WriteRow(rows[i], profileIds))
  }

  /** The database hands out one id per inserted row. */
  ghost predicate Writable(plan: Plan, modelIds: seq<int>, profileIds: seq<int>) {
    && |modelIds| == |plan.models| && |profileIds| == |plan.profiles|
    && (forall p :: p in plan.profiles ==> forall k :: k in p.models ==> IsRow(plan, k))
    && ReferencesSound(plan)
  }

  lemma WritableKeys(plan: Plan, modelIds: seq<int>, profileIds: seq<int>)
    requires Writable(plan, modelIds, profileIds)
    ensures forall p :: p in plan.profiles ==> KeysKnown(ModelIds(plan.models, modelIds), p.models)
  {
    ModelIdsHit(plan.models, modelIds);
  }

  function Written(plan: Plan, modelIds: seq<int>, profileIds: seq<int>): Tables
    requires Writable(plan, modelIds, profileIds)
  {
    WritableKeys(plan, modelIds, profileIds);
    Tables(
      ModelTable(plan.models, modelIds),
      ProfileTable(plan.profiles, profileIds),
      EntryTable(ModelIds(plan.models, modelIds), plan.profiles, profileIds),
      map t | t in plan.taskDefaults :: profileIds[plan.taskDefaults[t]],
      QueueTable(plan.overrides, profileIds))
  }

  /** The tables hold the plan's rows, in its order, under the ids handed out. */
  lemma WrittenRows(plan: Plan, modelIds: seq<int>, profileIds: seq<int>)
    requires Writable(plan, modelIds, profileIds)
    ensures var t := Written(plan, modelIds, profileIds);
            && |t.models| == |plan.models| && |t.profiles| == |plan.profiles| && |t.queueRows| == |plan.overrides|
            && (forall i :: 0 <= i < |t.models| ==> t.models[i].id == modelIds[i] && t.models[i].model == plan.models[i])
            && (forall i :: 0 <= i < |t.profiles| ==> t.profiles[i].id == profileIds[i] && t.profiles[i].name == plan.profiles[i].name)
            && (forall i :: 0 <= i < |t.queueRows| ==>
                  t.queueRows[i].policy == plan.overrides[i].policy && t.queueRows[i].task == plan.overrides[i].task)
            && t.defaults.Keys == plan.taskDefaults.Keys
            && (forall task :: task in t.defaults ==> t.defaults[task] == profileIds[plan.taskDefaults[task]])
  {
  }

  class Database {
    var models: seq<ModelRow>
    var profiles: seq<ProfileRow>
    var entries: seq<EntryRow>
    var defaults: map<Task, int>
    var queueRows: seq<QueueRow>

    ghost function View(): Tables
      reads this
    {
      Tables(models, profiles, entries, defaults, queueRows)
    }

    constructor ()
      ensures View() == Tables([], [], [], map[], [])
    {
      models, profiles, entries, defaults, queueRows := [], [], [], map[], [];
    }

    method WriteModels(plan: Plan, modelIds: seq<int>) returns (ids: map<ModelKey, int>)
      requires |modelIds| == |plan.models| && models == []
      modifies this`models
      ensures models == ModelTable(plan.models, modelIds) && ids == ModelIds(plan.models, modelIds)
    {
      ids := map[];
      for i := 0 to |plan.models|
        invariant models == ModelTable(plan.models, modelIds)[..i]
        invariant ids == ModelIds(plan.models[..i], modelIds[..i])
      {
        assert plan.models[..i + 1][..i] == plan.models[..i] && modelIds[..i + 1][..i] == modelIds[..i];
        models := models + [ModelRow(modelIds[i], plan.models[i])];
        ids := ids[plan.models[i].Key() := modelIds[i]];
      }
      assert plan.models[..|plan.models|] == plan.models && modelIds[..|plan.models|] == modelIds;
    }

    method WriteProfiles(ps: seq<ProfilePlan>, ids: map<ModelKey, int>, profileIds: seq<int>)
      requires |profileIds| == |ps| && profiles == [] && entries == []
      requires forall p :: p in ps ==> KeysKnown(ids, p.models)
      modifies this`profiles, this`entries
      ensures profiles == ProfileTable(ps, profileIds) && entries == EntryTable(ids, ps, profileIds)
    {
      for i := 0 to |ps|
        invariant profiles == ProfileTable(ps, profileIds)[..i]
        invariant entries == EntryTable(ids, ps[..i], profileIds[..i])
      {
        assert ps[..i + 1][..i] == ps[..i] && profileIds[..i + 1][..i] == profileIds[..i];
        assert ps[i] in ps;
        profiles := profiles + [ProfileRow(profileIds[i], ps[i].name)];
        ghost var before := entries;
        for position := 0 to |ps[i].models|
          invariant profiles == ProfileTable(ps, profileIds)[..i + 1]
          invariant entries == before + ChainEntries(ids, profileIds[i], ps[i].models)[..position]
        {
          var key := ps[i].models[position];
          assert key in ps[i].models;
          entries := entries + [EntryRow(profileIds[i], position, ids[key])];
        }
      }
      assert ps[..|ps|] == ps && profileIds[..|ps|] == profileIds;
    }

    method WriteDefaults(plan: Plan, profileIds: seq<int>)
      requires ReferencesSound(plan) && |profileIds| == |plan.profiles| && defaults == map[]
      modifies this`defaults
      ensures defaults == map t | t in plan.taskDefaults :: profileIds[plan.taskDefaults[t]]
    {
      for t := 0 to 6
        invariant defaults == map u | u in plan.taskDefaults && IndexOf(u) < t :: profileIds[plan.taskDefaults[u]]
      {
        if TaskAt(t) in plan.taskDefaults {
          defaults := defaults[TaskAt(t) := profileIds[plan.taskDefaults[TaskAt(t)]]];
        }
      }
    }

    method WriteQueueRows(plan: Plan, profileIds: seq<int>)
      requires ReferencesSound(plan) && |profileIds| == |plan.profiles| && queueRows == []
      modifies this`queueRows
      ensures queueRows == QueueTable(plan.overrides, profileIds)
    {
      for i := 0 to |plan.overrides|
        invariant queueRows == QueueTable(plan.overrides, profileIds)[..i]
      {
        assert plan.overrides[i] in plan.overrides;
        queueRows := queueRows + [WriteRow(plan.overrides[i], profileIds)];
      }
    }

    /** Fills the empty tables; never meets an unknown model key. */
    method WritePlan(plan: Plan, modelIds: seq<int>, profileIds: seq<int>)
      requires Writable(plan, modelIds, profileIds) && View() == Tables([], [], [], map[], [])
      modifies this
      ensures View() == Written(plan, modelIds, profileIds)
    {
      WritableKeys(plan, modelIds, profileIds);
      var ids := WriteModels(plan, modelIds);
      WriteProfiles(plan.profiles, ids, profileIds);
      WriteDefaults(plan, profileIds);
      WriteQueueRows(plan, profileIds);
    }
  }

  // ---- reading back ----

  const Position: EntryRow -> int := (e: EntryRow) => e.position

  function ProfileEntries(entries: seq<EntryRow>, profile: int): seq<EntryRow> {
    if entries == [] then []
    else
      var n := |entries| - 1;
      ProfileEntries(entries[..n], profile) + if entries[n].profile == profile then [entries[n]] else []
  }

  function FindModel(models: seq<ModelRow>, id: int): Option<ModelRow> {
    if models == [] then None
    else if models[0].id == id then Some(models[0]) else FindModel(models[1..], id)
  }

  /** The join with the model table, in the entries' order. */
  function JoinKeys(models: seq<ModelRow>, entries: seq<EntryRow>): seq<ModelKey> {
    if entries == [] then []
    else
      var n := |entries| - 1;
      JoinKeys(models, entries[..n]) +
      match FindModel(models, entries[n].model)
      case None => []
      case Some(row) => [row.model.Key()]
  }

  /** A profile's models in position order. */
  function StoredChain(t: Tables, profile: int): seq<ModelKey> {
    JoinKeys(t.models, SortBy(Position, ProfileEntries(t.entries, profile)))
  }

  function RowsOf(rows: seq<(int, ModelKey)>, profile: int): seq<ModelKey> {
    if rows == [] then []
    else
      var n := |rows| - 1;
      RowsOf(rows[..n], profile) + if rows[n].0 == profile then [rows[n].1] else []
  }

  /** What "ORDER BY profile_id, position" returns: each profile's stored chain. */
  ghost predicate IsChainQuery(t: Tables, rows: seq<(int, ModelKey)>) {
    forall p: int :: RowsOf(rows, p) == StoredChain(t, p)
  }

  /** The rows grouped by profile, in order. */
  ghost predicate Loaded(rows: seq<(int, ModelKey)>, chains: map<int, seq<ModelKey>>) {
    && (forall p :: p in chains <==> RowsOf(rows, p) != [])
    && (forall p :: p in chains ==> chains[p] == RowsOf(rows, p))
  }

  method LoadChains(rows: seq<(int, ModelKey)>) returns (chains: map<int, seq<ModelKey>>)
    ensures Loaded(rows, chains)
  {
    chains := map[];
    for i := 0 to |rows|
      invariant forall p :: p in chains <==> RowsOf(rows[..i], p) != []
      invariant forall p :: p in chains ==> chains[p] == RowsOf(rows[..i], p)
    {
      assert rows[..i + 1][..i] == rows[..i];
      assert forall p :: p != rows[i].0 ==> RowsOf(rows[..i + 1], p) == RowsOf(rows[..i], p) + [];
      var p := rows[i].0;
      chains := chains[p := (if p in chains then chains[p] else []) + [rows[i].1]];
    }
    assert rows[..|rows|] == rows;
  }

  /** A later row of the same policy and task replaces an earlier one. */
  function FindQueueRow(rows: seq<QueueRow>, policy: int, task: Task): Option<Option<int>> {
    if rows == [] then None
    else
      var n := |rows| - 1;
      if rows[n].policy == policy && rows[n].task == task then Some(rows[n].profile)
      else FindQueueRow(rows[..n], policy, task)
  }

  function EffectiveProfile(t: Tables, policy: int, task: Task): Option<int> {
    match FindQueueRow(t.queueRows, policy, task)
    case Some(v) => v
    case None => if task in t.defaults then Some(t.defaults[task]) else None
  }

  /** The downgrade's resolver; the empty chain stands for "nothing". */
  function StoredResolution(t: Tables, policy: int, task: Task): seq<ModelKey> {
    match EffectiveProfile(t, policy, task)
    case None => []
    case Some(p) => StoredChain(t, p)
  }

  /** The row with the smallest id among a provider's models. */
  function FirstModel(models: seq<ModelRow>, provider: int): Option<ModelRow> {
    if models == [] then None
    else
      var n := |models| - 1;
      var f := FirstModel(models[..n], provider);
      if models[n].model.provider == provider && (f.None? || models[n].id < f.value.id) then Some(models[n]) else f
  }

  /** A provider's old settings, read off its row with the smallest id. */
  function RestoreProvider(t: Tables, id: int, name: string): Provider {
    match FirstModel(t.models, id)
    case None => Provider(id, name, "", true, false, None, None, None)
    case Some(r) =>
      Provider(id, name, r.model.model, r.model.supportsTools, r.model.supportsVision,
               r.model.maxToolRounds, r.model.priceInput, r.model.priceOutput)
  }

  function DumpKey(k: ModelKey): Json.Value {
    Json.Obj(map["provider_id" := Json.Int(k.provider), "model" := Json.Str(k.model)])
  }

  function Dump(tail: seq<ModelKey>): (r: seq<Json.Value>)
    ensures |r| == |tail|
    ensures forall i :: 0 <= i < |r| ==> r[i] == DumpKey(tail[i])
  {
    seq(|tail|, i requires 0 <= i < |tail| => DumpKey(tail[i]))
  }

  function HeadProvider(c: seq<ModelKey>): Option<int> {
    if c == [] then None else Some(c[0].provider)
  }

  function HeadModel(c: seq<ModelKey>): Option<string> {
    if c == [] then None else Some(c[0].model)
  }

  /** The old fields for a queue that resolves these chains. */
  function RestoreFrom(id: int, agent: seq<ModelKey>, final: seq<ModelKey>, triage: seq<ModelKey>, vision: seq<ModelKey>, validId: int): Policy {
    Policy(id,
           HeadProvider(agent), HeadModel(agent),
           if |agent| > 1 then Parsed(Json.Arr(Dump(agent[1..]))) else NoText,
           HeadProvider(final), HeadModel(final),
           HeadProvider(vision),
           HeadProvider(triage), HeadModel(triage),
           validId)
  }

  /** Policy fields come back from the queue's effective resolution. */
  function RestorePolicy(t: Tables, id: int, validId: int): Policy {
    RestoreFrom(id, StoredResolution(t, id, Agent), StoredResolution(t, id, FinalAnswer),
                StoredResolution(t, id, Triage), StoredResolution(t, id, Vision), validId)
  }

  function RestoredPolicies(t: Tables, policies: seq<Policy>): (r: seq<Policy>)
    ensures |r| == |policies|
    ensures forall i :: 0 <= i < |r| ==> r[i] == RestorePolicy(t, policies[i].id, policies[i].validId)
  {
    seq(|policies|, i requires 0 <= i < |policies| => RestorePolicy(t, policies[i].id, policies[i].validId))
  }

  /** Looking a profile up among the loaded chains gives its stored chain. */
  ghost predicate Grouped(t: Tables, chains: map<int, seq<ModelKey>>) {
    forall p: int :: StoredChain(t, p) == if p in chains then chains[p] else []
  }

  /** A provider without models is left with the columns' defaults. */
  lemma NoModelsNoSettings(t: Tables, id: int, name: string)
    requires forall r :: r in t.models ==> r.model.provider != id
    ensures RestoreProvider(t, id, name) == Provider(id, name, "", true, false, None, None, None)
  {
    NoModel(t.models, id);
  }

  lemma {:induction false} NoModel(models: seq<ModelRow>, provider: int)
    requires forall r :: r in models ==> r.model.provider != provider
    ensures FirstModel(models, provider) == None
  {
    if models != [] {
      assert models[|models| - 1] in models;
      NoModel(models[..|models| - 1], provider);
    }
  }

  /** A restored row keeps its policy's id and validity. */
  lemma RestoredIdentity(t: Tables, id: int, validId: int)
    ensures RestorePolicy(t, id, validId).id == id && RestorePolicy(t, id, validId).validId == validId
  {
  }

  method ChainFor(t: Tables, chains: map<int, seq<ModelKey>>, policy: int, task: Task)
    returns (c: seq<ModelKey>)
    requires Grouped(t, chains)
    ensures c == StoredResolution(t, policy, task)
  {
    var profile := EffectiveProfile(t, policy, task);
    c := if profile.Some? && profile.value in chains then chains[profile.value] else [];
  }

  /** The fields a queue's chains set; an unset chain leaves its fields NULL. */
  method Assemble(id: int, agent: seq<ModelKey>, final: seq<ModelKey>, triage: seq<ModelKey>, vision: seq<ModelKey>, validId: int)
    returns (p: Policy)
    ensures p == RestoreFrom(id, agent, final, triage, vision, validId)
  {
    p := Policy(id, None, None, NoText, None, None, None, None, None, validId);
    if agent != [] {
      p := p.(llmProvider := Some(agent[0].provider), modelOverride := Some(agent[0].model));
      if |agent| > 1 {
        p := p.(fallback := Parsed(Json.Arr(Dump(agent[1..]))));
      }
    }
    if final != [] {
      p := p.(finalProvider := Some(final[0].provider), finalModel := Some(final[0].model));
    }
    if triage != [] {
      p := p.(triageProvider := Some(triage[0].provider), triageModel := Some(triage[0].model));
    }
    if vision != [] {
      p := p.(visionProvider := Some(vision[0].provider));
    }
  }

  method RestoreOne(t: Tables, chains: map<int, seq<ModelKey>>, id: int, validId: int)
    returns (p: Policy)
    requires Grouped(t, chains)
    ensures p == RestorePolicy(t, id, validId)
  {
    var agent := ChainFor(t, chains, id, Agent);
    var final := ChainFor(t, chains, id, FinalAnswer);
    var triage := ChainFor(t, chains, id, Triage);
    var vision := ChainFor(t, chains, id, Vision);
    p := Assemble(id, agent, final, triage, vision, validId);
  }

  method RestoreProviders(t: Tables, providers: seq<Provider>) returns (providers': seq<Provider>)
    ensures |providers'| == |providers|
    ensures forall i :: 0 <= i < |providers| ==> providers'[i] == RestoreProvider(t, providers[i].id, providers[i].name)
  {
    providers' := [];
    for i := 0 to |providers|
      invariant |providers'| == i
      invariant forall j :: 0 <= j < i ==> providers'[j] == RestoreProvider(t, providers[j].id, providers[j].name)
    {
      providers' := providers' + [RestoreProvider(t, providers[i].id, providers[i].name)];
    }
  }

  method RestoreEach(t: Tables, chains: map<int, seq<ModelKey>>, policies: seq<Policy>)
    returns (policies': seq<Policy>)
    requires Grouped(t, chains)
    ensures policies' == RestoredPolicies(t, policies)
  {
    policies' := [];
    ghost var target := RestoredPolicies(t, policies);
    for i := 0 to |policies|
      invariant policies' == target[..i]
    {
      var restored := RestoreOne(t, chains, policies[i].id, policies[i].validId);
      policies' := policies' + [restored];
    }
  }

  /** The data part of the downgrade.  `rows` is the chain query's answer;
      of the old rows only ids, names and validity are read. */
  method Downgrade(t: Tables, rows: seq<(int, ModelKey)>, providers: seq<Provider>, policies: seq<Policy>)
    returns (providers': seq<Provider>, policies': seq<Policy>)
    requires IsChainQuery(t, rows)
    ensures |providers'| == |providers| && |policies'| == |policies|
    ensures forall i :: 0 <= i < |providers| ==> providers'[i] == RestoreProvider(t, providers[i].id, providers[i].name)
    ensures forall i :: 0 <= i < |policies| ==> policies'[i] == RestorePolicy(t, policies[i].id, policies[i].validId)
  {
    providers' := RestoreProviders(t, providers);
    var chains := LoadChains(rows);
    assert Grouped(t, chains) by {
      forall p: int
        ensures StoredChain(t, p) == if p in chains then chains[p] else []
      {
        assert RowsOf(rows, p) == StoredChain(t, p);
      }
    }
    policies' := RestoreEach(t, chains, policies);
  }
}
