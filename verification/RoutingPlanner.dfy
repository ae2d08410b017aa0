/** The migration's planner: it meets providers and policies one by one and
    keeps its spellings, rows, profiles and names in mutable state. */
module RoutingPlanner {
  import opened Common
  import opened Chains
  import opened RoutingTypes
  import opened RoutingCatalog
  import opened RoutingOld
  import opened RoutingNames
  import opened RoutingVote
  import opened RoutingPlan
  import opened Text

  /** Meeting one more name leaves the rows found so far as they are. */
  lemma OneMoreRow(byId: map<int, Provider>, c: Catalog, met: seq<ModelKey>, k: ModelKey)
    requires AllKnown(byId, c, met)
    ensures var d := Remember(byId, c, k);
            && AllKnown(byId, d, met + [k])
            && Map(Canonise(byId, d), met + [k]) == Map(Canonise(byId, c), met) + [Canonical(byId, d, k)]
  {
    var d := Remember(byId, c, k);
    RememberGrows(byId, c, k);
    forall j | 0 <= j < |met|
      ensures Known(byId, d, met[j]) && Canonical(byId, d, met[j]) == Canonical(byId, c, met[j])
    {
      assert met[j] in met;
      CanonicalStable(byId, c, d, met[j]);
    }
  }

  /** The old chains, without a vision chain whose provider cannot see. */
  method RuntimeChains(policy: Policy, byId: map<int, Provider>) returns (chains: map<Task, seq<ModelKey>>)
    ensures forall t :: t in chains <==> RuntimeChain(policy, byId, t).Some?
    ensures forall t :: t in chains ==> RuntimeChain(policy, byId, t) == Some(chains[t])
  {
    chains := PolicyChains(policy, byId);
    if Vision in chains && chains[Vision][0].provider in byId && !byId[chains[Vision][0].provider].supportsVision {
      chains := map t | t in chains && t != Vision :: chains[t];
    }
  }

  class Planner {
    const byId: map<int, Provider>
    var spelling: map<(int, string), string>
    var modelOrder: seq<ModelKey>
    var toolKeys: set<ModelKey>
    var profiles: seq<ProfilePlan>
    var profileIndex: map<seq<ModelKey>, nat>
    var takenNames: set<string>
    var values: seq<Option<nat>>

    ghost function View(): Build
      reads this
    {
      Build(Catalog(spelling, modelOrder), toolKeys, profiles, profileIndex, takenNames, values)
    }

    constructor (byId: map<int, Provider>)
      ensures this.byId == byId && View() == EMPTY_BUILD
    {
      this.byId := byId;
      spelling, modelOrder, toolKeys := map[], [], {};
      profiles, profileIndex, takenNames, values := [], map[], {}, [];
    }

    /** The row a name is known by, made on first sight. */
    method Canon(key: ModelKey) returns (out: ModelKey)
      requires key.provider in byId
      modifies this`spelling, this`modelOrder
      ensures View() == old(View()).(catalog := Remember(byId, old(View()).catalog, key))
      ensures out == Canonical(byId, View().catalog, key)
    {
      var model := Strip(key.model);
      if model == "" {
        model := Strip(byId[key.provider].defaultModel);
      }
      var folded := (key.provider, Fold(model));
      if folded !in spelling {
        spelling := spelling[folded := model];
      }
      out := ModelKey(key.provider, spelling[folded]);
      if out !in modelOrder {
        modelOrder := modelOrder + [out];
      }
    }

    method CanonAll(keys: seq<ModelKey>) returns (out: seq<ModelKey>)
      requires forall k :: k in keys ==> k.provider in byId
      modifies this`spelling, this`modelOrder
      ensures View() == old(View()).(catalog := RememberAll(byId, old(View()).catalog, keys))
      ensures out == Map(Canonise(byId, View().catalog), keys)
    {
      ghost var c0 := View().catalog;
      out := [];
      for i := 0 to |keys|
        invariant Catalog(spelling, modelOrder) == RememberAll(byId, c0, keys[..i])
        invariant AllKnown(byId, Catalog(spelling, modelOrder), keys[..i])
        invariant out == Map(Canonise(byId, Catalog(spelling, modelOrder)), keys[..i])
      {
        ghost var c, met := Catalog(spelling, modelOrder), keys[..i];
        assert keys[..i + 1] == met + [keys[i]] && keys[..i + 1][..i] == met;
        OneMoreRow(byId, c, met, keys[i]);
        var row := Canon(keys[i]);
        assert Catalog(spelling, modelOrder) == Remember(byId, c, keys[i]);
        out := out + [row];
      }
      assert keys[..|keys|] == keys;
    }

    /** The profile of a chain: the one it got when first met, or a new one. */
    method Share(chain: seq<ModelKey>)
      requires chain != [] && chain[0].provider in byId
      modifies this`takenNames, this`profileIndex, this`profiles, this`values
      ensures View() == Assign(byId, old(View()), chain)
    {
      if chain !in profileIndex {
        var name, taken := UniqueName(ProfileBaseName(chain, byId), takenNames);
        takenNames := taken;
        profileIndex := profileIndex[chain := |profiles|];
        profiles := profiles + [ProfilePlan(name, chain)];
      }
      values := values + [Some(profileIndex[chain])];
    }

    /** One task of one policy. */
    method Add(task: Task, raw: Option<seq<ModelKey>>)
      requires JobOk(byId, Job(task, raw))
      modifies this
      ensures View() == Step(byId, old(View()), Job(task, raw))
    {
      if raw.None? {
        values := values + [None];
        return;
      }
      var rows := CanonAll(raw.value);
      var chain := Dedupe(rows);
      CanonChainStart(byId, View().catalog, raw.value);
      if IsToolTask(task) {
        toolKeys := toolKeys + Keys(chain);
      }
      Share(chain);
    }

    /** All tasks of one policy. */
    method AddPolicy(policy: Policy, ghost jobs: seq<Job>)
      requires |jobs| == 6 && forall t: nat :: t < 6 ==> jobs[t] == JobOf(policy, byId, t)
      requires forall j :: j in jobs ==> JobOk(byId, j)
      modifies this
      ensures View() == Steps(byId, old(View()), jobs)
    {
      var chains := RuntimeChains(policy, byId);
      for t := 0 to 6
        invariant View() == Steps(byId, old(View()), jobs[..t])
      {
        assert jobs[..t + 1][..t] == jobs[..t];
        var raw := if TaskAt(t) in chains then Some(chains[TaskAt(t)]) else None;
        assert jobs[t] in jobs && jobs[t] == Job(TaskAt(t), raw);
        Add(TaskAt(t), raw);
      }
      assert jobs[..6] == jobs;
    }
  }

  lemma BothOk(byId: map<int, Provider>, x: seq<Job>, y: seq<Job>)
    requires forall j :: j in x + y ==> JobOk(byId, j)
    ensures (forall j :: j in x ==> JobOk(byId, j)) && (forall j :: j in y ==> JobOk(byId, j))
  {
    forall j | j in x || j in y
      ensures JobOk(byId, j)
    {
      assert j in x + y;
    }
  }

  lemma {:induction false} StepsAppend(byId: map<int, Provider>, b: Build, x: seq<Job>, y: seq<Job>)
    requires forall j :: j in x + y ==> JobOk(byId, j)
    ensures (forall j :: j in x ==> JobOk(byId, j)) && (forall j :: j in y ==> JobOk(byId, j))
    ensures Steps(byId, b, x + y) == Steps(byId, Steps(byId, b, x), y)
  {
    BothOk(byId, x, y);
    if y == [] {
      assert x + y == x;
    } else {
      var n := |y| - 1;
      assert (x + y)[..|x + y| - 1] == x + y[..n];
      StepsAppend(byId, b, x, y[..n]);
    }
  }

  lemma PolicyJobs(policies: seq<Policy>, byId: map<int, Provider>, i: nat) returns (mine: seq<Job>)
    requires i < |policies|
    ensures var jobs := Jobs(policies, byId);
            |mine| == 6 && jobs[..6 * i] + mine == jobs[..6 * i + 6] &&
            (forall t: nat :: t < 6 ==> mine[t] == JobOf(policies[i], byId, t)) &&
            forall j :: j in jobs[..6 * i] + mine ==> j in jobs
  {
    var jobs := Jobs(policies, byId);
    mine := jobs[6 * i..6 * i + 6];
    forall t: nat | t < 6
      ensures mine[t] == JobOf(policies[i], byId, t)
    {
      JobAt(policies, byId, i, t);
    }
  }

  /** The catalog begins with the default models. */
  method CollectDefaults(planner: Planner, providers: seq<Provider>)
    requires planner.View() == EMPTY_BUILD
    requires forall p :: p in providers ==> p.id in planner.byId
    modifies planner
    ensures planner.View() == Started(planner.byId, providers)
  {
    var byId := planner.byId;
    ghost var keys := DefaultKeys(providers);
    for i := 0 to |providers|
      invariant planner.View() == EMPTY_BUILD.(catalog := RememberAll(byId, Catalog(map[], []), keys[..i]))
    {
      assert keys[..i + 1][..i] == keys[..i];
      var _ := planner.Canon(ModelKey(providers[i].id, providers[i].defaultModel));
    }
    assert keys[..|providers|] == keys;
  }

  /** Steps 2 to 4: every policy's chains, models and profiles. */
  method CollectPolicies(planner: Planner, policies: seq<Policy>)
    requires forall j :: j in Jobs(policies, planner.byId) ==> JobOk(planner.byId, j)
    modifies planner
    ensures planner.View() == Steps(planner.byId, old(planner.View()), Jobs(policies, planner.byId))
  {
    ghost var byId, start, jobs := planner.byId, planner.View(), Jobs(policies, planner.byId);
    for i := 0 to |policies|
      invariant planner.View() == Steps(byId, start, jobs[..6 * i])
    {
      ghost var mine := PolicyJobs(policies, byId, i);
      StepsAppend(byId, start, jobs[..6 * i], mine);
      planner.AddPolicy(policies[i], mine);
    }
    assert jobs[..6 * |policies|] == jobs;
  }

  /** Only valid policies vote. */
  method CollectVotes(policies: seq<Policy>, perPolicy: seq<Option<nat>>) returns (votes: seq<Option<nat>>)
    requires |policies| == |perPolicy|
    ensures votes == Votes(policies, perPolicy)
  {
    votes := [];
    for i := 0 to |policies|
      invariant votes == Votes(policies[..i], perPolicy[..i])
    {
      assert policies[..i + 1][..i] == policies[..i] && perPolicy[..i + 1][..i] == perPolicy[..i];
      if policies[i].validId == 1 {
        votes := votes + [perPolicy[i]];
      }
    }
    assert policies[..|policies|] == policies && perPolicy[..|policies|] == perPolicy;
  }

  /** Queue rows where policies differ from the default. */
  method CollectRows(policies: seq<Policy>, perPolicy: seq<Option<nat>>, task: Task, g: Option<nat>) returns (rows: seq<Override>)
    requires |policies| == |perPolicy|
    ensures rows == Rows(policies, perPolicy, task, g)
  {
    rows := [];
    for i := 0 to |policies|
      invariant rows == Rows(policies[..i], perPolicy[..i], task, g)
    {
      assert policies[..i + 1][..i] == policies[..i] && perPolicy[..i + 1][..i] == perPolicy[..i];
      if perPolicy[i] != g {
        rows := rows + [Override(policies[i].id, task, perPolicy[i])];
      }
    }
    assert policies[..|policies|] == policies && perPolicy[..|policies|] == perPolicy;
  }

  lemma OneMoreTask(policies: seq<Policy>, values: seq<Option<nat>>, t: nat, perPolicy: seq<Option<nat>>, g: Option<nat>)
    requires |values| == 6 * |policies| && t < 6 && perPolicy == Column(values, t) && g == GlobalValue(Votes(policies, perPolicy))
    ensures var d := DefaultsOf(policies, values, t);
            DefaultsOf(policies, values, t + 1) ==
            Defaults(if g.Some? then d.taskDefaults[TaskAt(t) := g.value] else d.taskDefaults,
                     d.overrides + Rows(policies, perPolicy, TaskAt(t), g))
  {
  }

  method TaskDefaults(policies: seq<Policy>, values: seq<Option<nat>>) returns (out: Defaults)
    requires |values| == 6 * |policies|
    ensures out == AllDefaults(policies, values)
  {
    out := Defaults(map[], []);
    for t := 0 to 6
      invariant out == DefaultsOf(policies, values, t)
    {
      var perPolicy := Column(values, t);
      var votes := CollectVotes(policies, perPolicy);
      var g := GlobalValue(votes);
      var rows := CollectRows(policies, perPolicy, TaskAt(t), g);
      OneMoreTask(policies, values, t, perPolicy, g);
      out := Defaults(
        if g.Some? then out.taskDefaults[TaskAt(t) := g.value] else out.taskDefaults,
        out.overrides + rows);
    }
  }

  method ModelsOf(byId: map<int, Provider>, toolKeys: set<ModelKey>, modelOrder: seq<ModelKey>)
    returns (models: seq<ModelPlan>)
    requires forall k :: k in modelOrder ==> k.provider in byId
    ensures models == ModelRows(byId, toolKeys, modelOrder)
  {
    models := [];
    for i := 0 to |modelOrder|
      invariant models == ModelRows(byId, toolKeys, modelOrder)[..i]
    {
      assert modelOrder[i] in modelOrder;
      models := models + [ModelRow(byId, toolKeys, modelOrder[i])];
    }
  }

  method PlanConversion(providers: seq<Provider>, policies: seq<Policy>) returns (plan: Plan)
    ensures plan == Conversion(providers, policies)
  {
    var byId := ById(providers);
    var sortedProviders := SortBy(ProviderId, providers);
    var sortedPolicies := SortBy(PolicyId, policies);
    SameElements(providers, sortedProviders);
    SameElements(policies, sortedPolicies);
    JobsOk(sortedPolicies, byId);
    var planner := new Planner(byId);
    CollectDefaults(planner, sortedProviders);
    CollectPolicies(planner, sortedPolicies);
    ghost var b := Built(providers, policies);
    assert planner.View() == b;
    var models := ModelsOf(byId, planner.toolKeys, planner.modelOrder);
    var d := TaskDefaults(sortedPolicies, planner.values);
    plan := Plan(models, planner.profiles, d.taskDefaults, d.overrides);
  }
}
