/** The conversion plan, as a fold over "one task of one policy" steps. */
module RoutingPlan {
  import opened Common
  import opened RoutingTypes
  import opened RoutingCatalog
  import opened RoutingOld
  import opened RoutingNames
  import opened RoutingVote
  import opened Chains

  /** One task of one policy, with the chain the old runtime used for it. */
  datatype Job = Job(task: Task, raw: Option<seq<ModelKey>>)

  /** All jobs, policy by policy: job 6 * i + t is task t of policy i. */
  function Jobs(policies: seq<Policy>, byId: map<int, Provider>): (r: seq<Job>)
    ensures |r| == 6 * |policies|
  {
    seq(6 * |policies|, j requires 0 <= j < 6 * |policies| => JobOf(policies[j / 6], byId, j % 6))
  }

  function JobOf(policy: Policy, byId: map<int, Provider>, t: nat): Job
    requires t < 6
  {
    Job(TaskAt(t), RuntimeChain(policy, byId, TaskAt(t)))
  }

  lemma JobAt(policies: seq<Policy>, byId: map<int, Provider>, i: nat, t: nat)
    requires i < |policies| && t < 6
    ensures Jobs(policies, byId)[6 * i + t] == JobOf(policies[i], byId, t)
  {
  }

  /** What the planner has built so far; `answers` has the outcome of every job in order. */
  datatype Build = Build(
    catalog: Catalog,
    toolKeys: set<ModelKey>,
    profiles: seq<ProfilePlan>,
    index: map<seq<ModelKey>, nat>,
    taken: set<string>,
    answers: seq<Option<nat>>)

  function Keys(chain: seq<ModelKey>): set<ModelKey> {
    set k | k in chain
  }

  /** Every raw key names a known provider. */
  ghost predicate JobOk(byId: map<int, Provider>, job: Job) {
    job.raw.Some? ==> job.raw.value != [] && forall k :: k in job.raw.value ==> k.provider in byId
  }

  /** The profile for a chain: the one that has it, or a new one. */
  function Assign(byId: map<int, Provider>, b: Build, chain: seq<ModelKey>): Build
    requires chain != [] && chain[0].provider in byId
  {
    if chain in b.index then b.(answers := b.answers + [Some(b.index[chain])])
    else
      var name := FreeName(ProfileBaseName(chain, byId), b.taken);
      b.(profiles := b.profiles + [ProfilePlan(name, chain)],
         index := b.index[chain := |b.profiles|],
         taken := b.taken + {name},
         answers := b.answers + [Some(|b.profiles|)])
  }

  lemma CanonChainStart(byId: map<int, Provider>, c: Catalog, raw: seq<ModelKey>)
    requires raw != [] && forall k :: k in raw ==> k.provider in byId
    ensures CanonChain(byId, c, raw) != [] && CanonChain(byId, c, raw)[0].provider in byId
  {
    DedupedHead(Map(Canonise(byId, c), raw));
    assert raw[0] in raw;
  }

  function Step(byId: map<int, Provider>, b: Build, job: Job): Build
    requires JobOk(byId, job)
  {
    match job.raw
    case None => b.(answers := b.answers + [None])
    case Some(raw) =>
      var c := RememberAll(byId, b.catalog, raw);
      var chain := CanonChain(byId, c, raw);
      CanonChainStart(byId, c, raw);
      var tools := if IsToolTask(job.task) then b.toolKeys + Keys(chain) else b.toolKeys;
      Assign(byId, b.(catalog := c, toolKeys := tools), chain)
  }

  function Steps(byId: map<int, Provider>, b: Build, jobs: seq<Job>): Build
    requires forall j :: j in jobs ==> JobOk(byId, j)
  {
    if jobs == [] then b
    else Step(byId, Steps(byId, b, jobs[..|jobs| - 1]), jobs[|jobs| - 1])
  }

  const EMPTY_BUILD := Build(Catalog(map[], []), {}, [], map[], {}, [])

  function DefaultKeys(providers: seq<Provider>): (r: seq<ModelKey>)
    ensures |r| == |providers|
    ensures forall i :: 0 <= i < |r| ==> r[i] == ModelKey(providers[i].id, providers[i].defaultModel)
  {
    seq(|providers|, i requires 0 <= i < |providers| => ModelKey(providers[i].id, providers[i].defaultModel))
  }

  /** Every provider's default model comes first, so its spelling wins. */
  function Started(byId: map<int, Provider>, sorted: seq<Provider>): Build {
    EMPTY_BUILD.(catalog := RememberAll(byId, Catalog(map[], []), DefaultKeys(sorted)))
  }

  lemma JobsOk(policies: seq<Policy>, byId: map<int, Provider>)
    ensures forall j :: j in Jobs(policies, byId) ==> JobOk(byId, j)
  {
    var js := Jobs(policies, byId);
    forall k | 0 <= k < |js|
      ensures JobOk(byId, js[k])
    {
      if js[k].raw.Some? {
        OldChainShape(policies[k / 6], byId, TaskAt(k % 6));
      }
    }
  }

  // ---- from what was built to the plan ----

  function ModelRow(byId: map<int, Provider>, toolKeys: set<ModelKey>, k: ModelKey): ModelPlan
    requires k.provider in byId
  {
    var p := byId[k.provider];
    ModelPlan(p.id, k.model, p.supportsTools || k in toolKeys, p.supportsVision,
              p.maxToolRounds, p.priceInput, p.priceOutput)
  }

  function ModelRows(byId: map<int, Provider>, toolKeys: set<ModelKey>, order: seq<ModelKey>): (r: seq<ModelPlan>)
    requires forall k :: k in order ==> k.provider in byId
    ensures |r| == |order|
    ensures forall i :: 0 <= i < |r| ==> r[i] == ModelRow(byId, toolKeys, order[i])
  {
    seq(|order|, i requires 0 <= i < |order| => ModelRow(byId, toolKeys, order[i]))
  }

  /** The values of task t, policy by policy. */
  function Column(answers: seq<Option<nat>>, t: nat): (r: seq<Option<nat>>)
    requires |answers| % 6 == 0 && t < 6
    ensures |r| == |answers| / 6
  {
    seq(|answers| / 6, i requires 0 <= i < |answers| / 6 => answers[6 * i + t])
  }

  /** Only valid policies vote. */
  function Votes(policies: seq<Policy>, values: seq<Option<nat>>): seq<Option<nat>>
    requires |policies| == |values|
  {
    if policies == [] then []
    else
      var n := |policies| - 1;
      Votes(policies[..n], values[..n]) + if policies[n].validId == 1 then [values[n]] else []
  }

  /** A row for every policy whose value differs from the default. */
  function Rows(policies: seq<Policy>, values: seq<Option<nat>>, task: Task, g: Option<nat>): seq<Override>
    requires |policies| == |values|
  {
    if policies == [] then []
    else
      var n := |policies| - 1;
      Rows(policies[..n], values[..n], task, g) +
      if values[n] != g then [Override(policies[n].id, task, values[n])] else []
  }

  datatype Defaults = Defaults(taskDefaults: map<Task, nat>, overrides: seq<Override>)

  function TaskGlobal(policies: seq<Policy>, answers: seq<Option<nat>>, t: nat): Option<nat>
    requires |answers| == 6 * |policies| && t < 6
  {
    GlobalValue(Votes(policies, Column(answers, t)))
  }

  /** Global defaults and overrides of the first n tasks. */
  function DefaultsOf(policies: seq<Policy>, answers: seq<Option<nat>>, n: nat): Defaults
    requires |answers| == 6 * |policies| && n <= 6
  {
    if n == 0 then Defaults(map[], [])
    else
      var d := DefaultsOf(policies, answers, n - 1);
      var g := TaskGlobal(policies, answers, n - 1);
      Defaults(
        if g.Some? then d.taskDefaults[TaskAt(n - 1) := g.value] else d.taskDefaults,
        d.overrides + Rows(policies, Column(answers, n - 1), TaskAt(n - 1), g))
  }

  /** All six tasks. */
  function AllDefaults(policies: seq<Policy>, answers: seq<Option<nat>>): Defaults
    requires |answers| == 6 * |policies|
  {
    DefaultsOf(policies, answers, 6)
  }

  lemma {:induction false} StepsAssigned(byId: map<int, Provider>, b: Build, jobs: seq<Job>)
    requires forall j :: j in jobs ==> JobOk(byId, j)
    ensures |Steps(byId, b, jobs).answers| == |b.answers| + |jobs|
  {
    if jobs != [] {
      StepsAssigned(byId, b, jobs[..|jobs| - 1]);
    }
  }

  // ---- every catalog row belongs to a known provider ----

  ghost predicate RowsKnown(byId: map<int, Provider>, c: Catalog) {
    forall k :: k in c.order ==> k.provider in byId
  }

  lemma {:induction false} RememberAllRowsKnown(byId: map<int, Provider>, c: Catalog, ks: seq<ModelKey>)
    requires RowsKnown(byId, c) && forall k :: k in ks ==> k.provider in byId
    ensures RowsKnown(byId, RememberAll(byId, c, ks))
  {
    if ks != [] {
      var n := |ks| - 1;
      assert ks[n] in ks;
      RememberAllRowsKnown(byId, c, ks[..n]);
    }
  }

  lemma {:induction false} StepsRowsKnown(byId: map<int, Provider>, b: Build, jobs: seq<Job>)
    requires RowsKnown(byId, b.catalog) && forall j :: j in jobs ==> JobOk(byId, j)
    ensures RowsKnown(byId, Steps(byId, b, jobs).catalog)
  {
    if jobs != [] {
      var n := |jobs| - 1;
      StepsRowsKnown(byId, b, jobs[..n]);
      assert jobs[n] in jobs;
      if jobs[n].raw.Some? {
        RememberAllRowsKnown(byId, Steps(byId, b, jobs[..n]).catalog, jobs[n].raw.value);
      }
    }
  }

  /** What the planner has built after all jobs. */
  function Built(providers: seq<Provider>, policies: seq<Policy>): (b: Build)
    ensures |b.answers| == 6 * |policies|
    ensures RowsKnown(ById(providers), b.catalog)
  {
    var byId := ById(providers);
    var sorted := SortBy(ProviderId, providers);
    var jobs := Jobs(SortBy(PolicyId, policies), byId);
    SameElements(providers, sorted);
    SameElements(policies, SortBy(PolicyId, policies));
    JobsOk(SortBy(PolicyId, policies), byId);
    assert RowsKnown(byId, Started(byId, sorted).catalog) by {
      assert RowsKnown(byId, Catalog(map[], []));
      forall k | k in DefaultKeys(sorted)
        ensures k.provider in byId
      {
        var i :| 0 <= i < |sorted| && DefaultKeys(sorted)[i] == k;
        assert sorted[i] in sorted && sorted[i] in providers;
      }
      RememberAllRowsKnown(byId, Catalog(map[], []), DefaultKeys(sorted));
    }
    StepsAssigned(byId, Started(byId, sorted), jobs);
    StepsRowsKnown(byId, Started(byId, sorted), jobs);
    Steps(byId, Started(byId, sorted), jobs)
  }

  /** The plan for what was built from the given policies. */
  function PlanOf(byId: map<int, Provider>, sorted: seq<Policy>, b: Build): Plan
    requires |b.answers| == 6 * |sorted| && RowsKnown(byId, b.catalog)
  {
    var d := DefaultsOf(sorted, b.answers, 6);
    Plan(ModelRows(byId, b.toolKeys, b.catalog.order), b.profiles, d.taskDefaults, d.overrides)
  }

  function Conversion(providers: seq<Provider>, policies: seq<Policy>): Plan {
    SameElements(policies, SortBy(PolicyId, policies));
    PlanOf(ById(providers), SortBy(PolicyId, policies), Built(providers, policies))
  }

  /** Resolve like the runtime: queue row, else global default, else nothing. */
  function FindOverride(rows: seq<Override>, policy: int, task: Task): Option<Option<nat>> {
    if rows == [] then None
    else if rows[0].policy == policy && rows[0].task == task then Some(rows[0].profile)
    else FindOverride(rows[1..], policy, task)
  }

  function ResolveIndex(plan: Plan, policy: int, task: Task): Option<nat> {
    match FindOverride(plan.overrides, policy, task)
    case Some(v) => v
    case None => if task in plan.taskDefaults then Some(plan.taskDefaults[task]) else None
  }

  function Resolve(plan: Plan, policy: int, task: Task): Option<seq<ModelKey>> {
    match ResolveIndex(plan, policy, task)
    case None => None
    case Some(i) => if i < |plan.profiles| then Some(plan.profiles[i].models) else None
  }
}
