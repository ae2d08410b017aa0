/** What the migration promises about every conversion. */
module RoutingTheorems {
  import opened Common
  import opened Text
  import opened Chains
  import opened RoutingTypes
  import opened RoutingCatalog
  import opened RoutingOld
  import opened RoutingNames
  import opened RoutingVote
  import opened RoutingPlan
  import opened RoutingInvariants

  // ---- looking up overrides ----

  lemma {:induction false} FindAppend(a: seq<Override>, b: seq<Override>, policy: int, task: Task)
    ensures FindOverride(a + b, policy, task) ==
            if FindOverride(a, policy, task).Some? then FindOverride(a, policy, task) else FindOverride(b, policy, task)
  {
    if a == [] {
      assert a + b == b;
    } else {
      assert (a + b)[1..] == a[1..] + b;
      FindAppend(a[1..], b, policy, task);
    }
  }

  /** Only the given policies and the given task get rows. */
  lemma {:induction false} FindInRowsNone(policies: seq<Policy>, values: seq<Option<nat>>, task: Task, g: Option<nat>, policy: int, other: Task)
    requires |policies| == |values|
    requires other != task || forall i :: 0 <= i < |policies| ==> policies[i].id != policy
    ensures FindOverride(Rows(policies, values, task, g), policy, other) == None
  {
    if policies != [] {
      var n := |policies| - 1;
      FindInRowsNone(policies[..n], values[..n], task, g, policy, other);
      FindAppend(Rows(policies[..n], values[..n], task, g),
                 if values[n] != g then [Override(policies[n].id, task, values[n])] else [], policy, other);
    }
  }

  /** A policy has a row exactly when its value differs from the default. */
  lemma {:induction false} FindInRows(policies: seq<Policy>, values: seq<Option<nat>>, task: Task, g: Option<nat>, i: nat)
    requires |policies| == |values| && i < |policies| && DistinctBy(PolicyId, policies)
    ensures FindOverride(Rows(policies, values, task, g), policies[i].id, task) ==
            if values[i] == g then None else Some(values[i])
  {
    var n := |policies| - 1;
    var last := if values[n] != g then [Override(policies[n].id, task, values[n])] else [];
    FindAppend(Rows(policies[..n], values[..n], task, g), last, policies[i].id, task);
    assert forall j :: 0 <= j < n ==> PolicyId(policies[j]) != PolicyId(policies[n]);
    if i < n {
      FindInRows(policies[..n], values[..n], task, g, i);
    } else {
      FindInRowsNone(policies[..n], values[..n], task, g, policies[i].id, task);
    }
  }

  function IndexOf(task: Task): (t: nat)
    ensures t < 6 && TaskAt(t) == task
  {
    match task
    case Agent => 0
    case FinalAnswer => 1
    case Triage => 2
    case Summary => 3
    case Refine => 4
    case Vision => 5
  }

  lemma TaskAtOnce(s: nat, t: nat)
    requires s < 6 && t < 6 && TaskAt(s) == TaskAt(t)
    ensures s == t
  {
  }

  lemma {:induction false} DefaultsMap(policies: seq<Policy>, answers: seq<Option<nat>>, n: nat, t: nat)
    requires |answers| == 6 * |policies| && n <= 6 && t < 6
    ensures var d, g := DefaultsOf(policies, answers, n).taskDefaults, TaskGlobal(policies, answers, t);
            && (TaskAt(t) in d <==> t < n && g.Some?)
            && (TaskAt(t) in d ==> Some(d[TaskAt(t)]) == g)
  {
    if n > 0 {
      DefaultsMap(policies, answers, n - 1, t);
      if TaskAt(t) == TaskAt(n - 1) {
        TaskAtOnce(t, n - 1);
      }
    }
  }

  lemma NextRows(policies: seq<Policy>, answers: seq<Option<nat>>, n: nat)
    requires |answers| == 6 * |policies| && n < 6
    ensures DefaultsOf(policies, answers, n + 1).overrides ==
            DefaultsOf(policies, answers, n).overrides +
            Rows(policies, Column(answers, n), TaskAt(n), TaskGlobal(policies, answers, n))
  {
  }

  /** The rows of task n hold policy i's row for task t only if the tasks agree. */
  lemma FindInTask(policies: seq<Policy>, values: seq<Option<nat>>, n: nat, t: nat, g: Option<nat>, i: nat)
    requires |values| == |policies| && n < 6 && t < 6 && i < |policies| && DistinctBy(PolicyId, policies)
    ensures FindOverride(Rows(policies, values, TaskAt(n), g), policies[i].id, TaskAt(t)) ==
            if t == n && values[i] != g then Some(values[i]) else None
  {
    if t == n {
      FindInRows(policies, values, TaskAt(t), g, i);
    } else {
      if TaskAt(t) == TaskAt(n) {
        TaskAtOnce(t, n);
      }
      FindInRowsNone(policies, values, TaskAt(n), g, policies[i].id, TaskAt(t));
    }
  }

  lemma {:induction false} DefaultsFind(policies: seq<Policy>, answers: seq<Option<nat>>, n: nat, i: nat, t: nat)
    requires |answers| == 6 * |policies| && n <= 6 && t < 6
    requires i < |policies| && DistinctBy(PolicyId, policies)
    ensures FindOverride(DefaultsOf(policies, answers, n).overrides, policies[i].id, TaskAt(t)) ==
            if t < n && answers[6 * i + t] != TaskGlobal(policies, answers, t) then Some(answers[6 * i + t]) else None
  {
    if n == 0 {
      assert DefaultsOf(policies, answers, 0).overrides == [];
    } else {
      var m: nat := n - 1;
      var values, g := Column(answers, m), TaskGlobal(policies, answers, m);
      DefaultsFind(policies, answers, m, i, t);
      NextRows(policies, answers, m);
      FindAppend(DefaultsOf(policies, answers, m).overrides, Rows(policies, values, TaskAt(m), g), policies[i].id, TaskAt(t));
      FindInTask(policies, values, m, t, g, i);
    }
  }

  /** All tasks' defaults and rows reproduce each policy's value. */
  lemma DefaultsReproduce(policies: seq<Policy>, answers: seq<Option<nat>>, i: nat, t: nat)
    requires |answers| == 6 * |policies| && t < 6
    requires i < |policies| && DistinctBy(PolicyId, policies)
    ensures var d, g := DefaultsOf(policies, answers, 6), TaskGlobal(policies, answers, t);
            && (TaskAt(t) in d.taskDefaults <==> g.Some?)
            && (TaskAt(t) in d.taskDefaults ==> Some(d.taskDefaults[TaskAt(t)]) == g)
            && FindOverride(d.overrides, policies[i].id, TaskAt(t)) ==
               if answers[6 * i + t] != g then Some(answers[6 * i + t]) else None
  {
    DefaultsMap(policies, answers, 6, t);
    DefaultsFind(policies, answers, 6, i, t);
  }

  /** A finished planner state for policies in id order. */
  ghost predicate Finished(byId: map<int, Provider>, sorted: seq<Policy>, b: Build) {
    && |b.answers| == 6 * |sorted|
    && (forall k :: k in byId ==> byId[k].id == k)
    && RowsKnown(byId, b.catalog)
    && BuildOk(byId, b, Jobs(sorted, byId))
  }

  lemma ConversionFinished(providers: seq<Provider>, policies: seq<Policy>)
    ensures Finished(ById(providers), SortBy(PolicyId, policies), Built(providers, policies))
    ensures forall p :: p in policies <==> p in SortBy(PolicyId, policies)
    ensures DistinctBy(PolicyId, policies) ==> DistinctBy(PolicyId, SortBy(PolicyId, policies))
  {
    BuiltOk(providers, policies);
    SameElements(policies, SortBy(PolicyId, policies));
    if DistinctBy(PolicyId, policies) {
      DistinctByPermuted(PolicyId, policies, SortBy(PolicyId, policies));
    }
  }

  /** What the planner answered for task t of policy i. */
  lemma AnswerAt(byId: map<int, Provider>, sorted: seq<Policy>, b: Build, i: nat, t: nat)
    requires Finished(byId, sorted, b) && i < |sorted| && t < 6
    ensures AnswerOk(byId, b, JobOf(sorted[i], byId, t), b.answers[6 * i + t])
  {
    JobAt(sorted, byId, i, t);
    assert AnswerOk(byId, b, Jobs(sorted, byId)[6 * i + t], b.answers[6 * i + t]);
  }

  /** Resolving through the plan gives the profile the planner assigned. */
  lemma ResolvesAnswer(byId: map<int, Provider>, sorted: seq<Policy>, b: Build, i: nat, t: nat)
    requires Finished(byId, sorted, b) && DistinctBy(PolicyId, sorted) && i < |sorted| && t < 6
    ensures ResolveIndex(PlanOf(byId, sorted, b), sorted[i].id, TaskAt(t)) == b.answers[6 * i + t]
  {
    DefaultsReproduce(sorted, b.answers, i, t);
  }

  // ---- 1. conversion preserves meaning ----

  lemma PlanPreservesMeaning(byId: map<int, Provider>, sorted: seq<Policy>, b: Build, i: nat, t: nat)
    requires Finished(byId, sorted, b) && DistinctBy(PolicyId, sorted) && i < |sorted| && t < 6
    ensures var was := RuntimeChain(sorted[i], byId, TaskAt(t));
            var now := Resolve(PlanOf(byId, sorted, b), sorted[i].id, TaskAt(t));
            && (now.None? <==> was.None?)
            && (now.Some? ==> now.value == CanonChain(byId, b.catalog, was.value))
            && (now.Some? ==> Map(Norm(byId), now.value) == Deduped(Map(Norm(byId), was.value)))
  {
    var was := RuntimeChain(sorted[i], byId, TaskAt(t));
    ResolvesAnswer(byId, sorted, b, i, t);
    AnswerAt(byId, sorted, b, i, t);
    if was.Some? {
      ChainDenotes(byId, b.catalog, was.value);
    }
  }

  /** For every queue and task, resolving through the plan agrees with the old
      fields: nothing where they gave nothing, else the old chain without repetitions,
      names compared after strip, blank-to-default and casefold. */
  lemma ConversionPreservesMeaning(providers: seq<Provider>, policies: seq<Policy>, p: Policy, task: Task)
    requires p in policies && DistinctBy(PolicyId, policies)
    ensures var byId := ById(providers);
            var was := RuntimeChain(p, byId, task);
            var now := Resolve(Conversion(providers, policies), p.id, task);
            && (now.None? <==> was.None?)
            && (now.Some? ==> Map(Norm(byId), now.value) == Deduped(Map(Norm(byId), was.value)))
  {
    ConversionFinished(providers, policies);
    var sorted := SortBy(PolicyId, policies);
    var i :| 0 <= i < |sorted| && sorted[i] == p;
    PlanPreservesMeaning(ById(providers), sorted, Built(providers, policies), i, IndexOf(task));
  }

  // ---- 2. the plan satisfies the new schema's constraints ----

  /** No two rows of a provider are one value to the unique index. */
  ghost predicate CatalogRowsUnique(models: seq<ModelPlan>) {
    forall i, j :: 0 <= i < j < |models| ==>
      models[i].provider != models[j].provider || IndexKey(models[i].model) != IndexKey(models[j].model)
  }

  ghost predicate IsRow(plan: Plan, k: ModelKey) {
    exists m :: m in plan.models && m.Key() == k
  }

  ghost predicate ProfilesSound(plan: Plan) {
    && (forall i :: 0 <= i < |plan.profiles| ==>
          plan.profiles[i].models != [] && Distinct(plan.profiles[i].models) &&
          forall k :: k in plan.profiles[i].models ==> IsRow(plan, k))
    && (forall i, j :: 0 <= i < j < |plan.profiles| ==>
          plan.profiles[i].models != plan.profiles[j].models && plan.profiles[i].name != plan.profiles[j].name)
    && (|plan.profiles| + 1 < Pow10(197) ==>
          forall i :: 0 <= i < |plan.profiles| ==> |plan.profiles[i].name| <= 200)
  }

  ghost predicate ReferencesSound(plan: Plan) {
    && (forall t :: t in plan.taskDefaults ==> plan.taskDefaults[t] < |plan.profiles|)
    && (forall r :: r in plan.overrides && r.profile.Some? ==> r.profile.value < |plan.profiles|)
  }

  ghost predicate OverridesUnique(rows: seq<Override>) {
    forall i, j :: 0 <= i < j < |rows| ==> rows[i].policy != rows[j].policy || rows[i].task != rows[j].task
  }

  lemma RowOf(byId: map<int, Provider>, sorted: seq<Policy>, b: Build, k: ModelKey)
    requires Finished(byId, sorted, b)
    ensures forall m :: m in PlanOf(byId, sorted, b).models ==>
      m.Key() in b.catalog.order && m.provider in byId && m == ModelRow(byId, b.toolKeys, m.Key())
    ensures k in b.catalog.order ==> IsRow(PlanOf(byId, sorted, b), k)
  {
    var rows := PlanOf(byId, sorted, b).models;
    forall m | m in rows
      ensures m.Key() in b.catalog.order && m.provider in byId && m == ModelRow(byId, b.toolKeys, m.Key())
    {
      var i :| 0 <= i < |rows| && rows[i] == m;
      assert b.catalog.order[i] in b.catalog.order && m.Key() == b.catalog.order[i];
    }
    if k in b.catalog.order {
      var i :| 0 <= i < |b.catalog.order| && b.catalog.order[i] == k;
      assert rows[i] in rows && rows[i].Key() == k;
    }
  }

  lemma {:induction false} RowsShape(policies: seq<Policy>, values: seq<Option<nat>>, task: Task, g: Option<nat>)
    requires |policies| == |values|
    ensures forall r :: r in Rows(policies, values, task, g) ==> r.task == task && r.profile in values
    ensures forall r :: r in Rows(policies, values, task, g) ==> exists i :: 0 <= i < |policies| && r.policy == PolicyId(policies[i])
    ensures DistinctBy(PolicyId, policies) ==> OverridesUnique(Rows(policies, values, task, g))
  {
    if policies != [] {
      var n := |policies| - 1;
      RowsShape(policies[..n], values[..n], task, g);
      var front := Rows(policies[..n], values[..n], task, g);
      assert values[n] in values && forall v :: v in values[..n] ==> v in values;
      forall r | r in Rows(policies, values, task, g)
        ensures exists i :: 0 <= i < |policies| && r.policy == PolicyId(policies[i])
      {
        if r in front {
          var i :| 0 <= i < n && r.policy == PolicyId(policies[..n][i]);
          assert r.policy == PolicyId(policies[i]);
        } else {
          assert r.policy == PolicyId(policies[n]);
        }
      }
      if DistinctBy(PolicyId, policies) {
        forall r | r in front
          ensures r.policy != policies[n].id
        {
          var i :| 0 <= i < n && r.policy == PolicyId(policies[..n][i]);
          assert PolicyId(policies[i]) != PolicyId(policies[n]);
        }
      }
    }
  }

  lemma {:induction false} VotesAreValues(policies: seq<Policy>, values: seq<Option<nat>>)
    requires |policies| == |values|
    ensures forall v :: v in Votes(policies, values) ==> v in values
  {
    if policies != [] {
      var n := |policies| - 1;
      VotesAreValues(policies[..n], values[..n]);
      assert values == values[..n] + [values[n]];
    }
  }

  lemma {:induction false} DefaultsShape(policies: seq<Policy>, answers: seq<Option<nat>>, n: nat)
    requires |answers| == 6 * |policies| && n <= 6
    ensures var d := DefaultsOf(policies, answers, n);
            && (forall r :: r in d.overrides ==> IndexOf(r.task) < n && r.profile in Column(answers, IndexOf(r.task)))
            && (forall t :: t in d.taskDefaults ==> Some(d.taskDefaults[t]) in Column(answers, IndexOf(t)))
            && (DistinctBy(PolicyId, policies) ==> OverridesUnique(d.overrides))
  {
    if n > 0 {
      DefaultsShape(policies, answers, n - 1);
      var values := Column(answers, n - 1);
      var g := TaskGlobal(policies, answers, n - 1);
      RowsShape(policies, values, TaskAt(n - 1), g);
      TaskAtOnce(IndexOf(TaskAt(n - 1)), n - 1);
      GlobalValueVoted(Votes(policies, values));
      VotesAreValues(policies, values);
    }
  }

  /** No answer points past the profiles. */
  ghost predicate Bounded(b: Build) {
    forall j :: 0 <= j < |b.answers| && b.answers[j].Some? ==> b.answers[j].value < |b.profiles|
  }

  lemma AnswersBounded(byId: map<int, Provider>, b: Build, jobs: seq<Job>)
    requires AnswersOk(byId, b, jobs)
    ensures Bounded(b)
  {
    forall j | 0 <= j < |b.answers| && b.answers[j].Some?
      ensures b.answers[j].value < |b.profiles|
    {
      assert AnswerOk(byId, b, jobs[j], b.answers[j]);
    }
  }

  lemma ColumnBounded(b: Build, t: nat, v: Option<nat>)
    requires Bounded(b) && |b.answers| % 6 == 0 && t < 6 && v in Column(b.answers, t) && v.Some?
    ensures v.value < |b.profiles|
  {
    var i :| 0 <= i < |Column(b.answers, t)| && Column(b.answers, t)[i] == v;
    assert b.answers[6 * i + t] == v;
  }

  lemma PlanRefersSoundly(byId: map<int, Provider>, sorted: seq<Policy>, b: Build)
    requires |b.answers| == 6 * |sorted| && Bounded(b) && RowsKnown(byId, b.catalog)
    ensures ReferencesSound(PlanOf(byId, sorted, b))
    ensures DistinctBy(PolicyId, sorted) ==> OverridesUnique(PlanOf(byId, sorted, b).overrides)
  {
    var d := DefaultsOf(sorted, b.answers, 6);
    DefaultsShape(sorted, b.answers, 6);
    forall t | t in d.taskDefaults
      ensures d.taskDefaults[t] < |b.profiles|
    {
      ColumnBounded(b, IndexOf(t), Some(d.taskDefaults[t]));
    }
    forall r | r in d.overrides && r.profile.Some?
      ensures r.profile.value < |b.profiles|
    {
      ColumnBounded(b, IndexOf(r.task), r.profile);
    }
  }

  lemma RowStripped(byId: map<int, Provider>, c: Catalog, k: ModelKey)
    requires CatalogOk(byId, c) && k in c.order
    ensures IndexKey(k.model) == Fold(k.model)
  {
    assert SpellingOk(byId, (k.provider, Fold(k.model)), k.model);
    StrippedKey(k.model);
  }

  lemma PlanCatalogSound(byId: map<int, Provider>, sorted: seq<Policy>, b: Build)
    requires Finished(byId, sorted, b)
    ensures CatalogRowsUnique(PlanOf(byId, sorted, b).models) && ProfilesSound(PlanOf(byId, sorted, b))
  {
    var plan := PlanOf(byId, sorted, b);
    forall i, j | 0 <= i < j < |plan.models|
      ensures plan.models[i].provider != plan.models[j].provider || IndexKey(plan.models[i].model) != IndexKey(plan.models[j].model)
    {
      RowsUnique(byId, b.catalog, i, j);
      RowStripped(byId, b.catalog, b.catalog.order[i]);
      RowStripped(byId, b.catalog, b.catalog.order[j]);
    }
    forall i, k | 0 <= i < |plan.profiles| && k in plan.profiles[i].models
      ensures IsRow(plan, k)
    {
      assert ChainOk(b.catalog, b.profiles[i].models);
      RowOf(byId, sorted, b, k);
    }
  }

  /** Unique catalog rows; nonempty, duplicate-free, pairwise different chains
      of existing rows under different names; references in range; at most one
      override per policy and task. */
  lemma PlanSatisfiesSchema(providers: seq<Provider>, policies: seq<Policy>)
    ensures var plan := Conversion(providers, policies);
            && CatalogRowsUnique(plan.models)
            && ProfilesSound(plan)
            && ReferencesSound(plan)
            && (DistinctBy(PolicyId, policies) ==> OverridesUnique(plan.overrides))
  {
    var byId, sorted, b := ById(providers), SortBy(PolicyId, policies), Built(providers, policies);
    ConversionFinished(providers, policies);
    PlanCatalogSound(byId, sorted, b);
    AnswersBounded(byId, b, Jobs(sorted, byId));
    PlanRefersSoundly(byId, sorted, b);
  }

  // ---- 3. capabilities ----

  /** A profile is assigned to a task by its global default or by a queue row. */
  ghost predicate AssignedTo(plan: Plan, task: Task, i: nat) {
    || (task in plan.taskDefaults && plan.taskDefaults[task] == i)
    || (exists r :: r in plan.overrides && r.task == task && r.profile == Some(i))
  }

  lemma AssignedInColumn(policies: seq<Policy>, answers: seq<Option<nat>>, task: Task, i: nat)
    requires |answers| == 6 * |policies|
    requires var d := DefaultsOf(policies, answers, 6);
             (task in d.taskDefaults && d.taskDefaults[task] == i) ||
             exists r :: r in d.overrides && r.task == task && r.profile == Some(i)
    ensures Some(i) in Column(answers, IndexOf(task))
  {
    DefaultsShape(policies, answers, 6);
  }

  lemma AssignedAnswers(byId: map<int, Provider>, sorted: seq<Policy>, b: Build, task: Task, i: nat) returns (q: nat)
    requires |b.answers| == 6 * |sorted| && RowsKnown(byId, b.catalog)
    requires AssignedTo(PlanOf(byId, sorted, b), task, i)
    ensures q < |sorted| && b.answers[6 * q + IndexOf(task)] == Some(i)
  {
    AssignedInColumn(sorted, b.answers, task, i);
    var col := Column(b.answers, IndexOf(task));
    q :| 0 <= q < |col| && col[q] == Some(i);
  }

  /** The chain of an answered tools job consists of tool keys. */
  lemma ServedIsToolKey(b: Build, jobs: seq<Job>, j: nat, k: ModelKey)
    requires ToolsOk(b, jobs) && j < |jobs| && IsToolTask(jobs[j].task)
    requires b.answers[j].Some? && b.answers[j].value < |b.profiles|
    requires k in b.profiles[b.answers[j].value].models
    ensures k in b.toolKeys
  {
    assert Serves(b, jobs, j, k);
  }

  /** A vision chain stays at one provider, and that provider can see. */
  lemma VisionChainSees(byId: map<int, Provider>, c: Catalog, p: Policy, k: ModelKey)
    requires RuntimeChain(p, byId, Vision).Some? && CatalogOk(byId, c)
    requires AllKnown(byId, c, RuntimeChain(p, byId, Vision).value)
    requires k in CanonChain(byId, c, RuntimeChain(p, byId, Vision).value)
    ensures k.provider in byId && byId[k.provider].supportsVision
  {
    var raw := RuntimeChain(p, byId, Vision).value;
    OldChainShape(p, byId, Vision);
    ChainShape(byId, c, raw);
    var r :| r in raw && k == Canonical(byId, c, r);
    assert r == raw[0];
  }

  lemma ToolsAnswer(byId: map<int, Provider>, sorted: seq<Policy>, b: Build, jobs: seq<Job>, q: nat, t: nat, k: ModelKey)
    requires jobs == Jobs(sorted, byId) && ToolsOk(b, jobs) && q < |sorted| && t < 6 && IsToolTask(TaskAt(t))
    requires b.answers[6 * q + t].Some? && b.answers[6 * q + t].value < |b.profiles|
    requires k in b.profiles[b.answers[6 * q + t].value].models
    ensures k in b.toolKeys
  {
    JobAt(sorted, byId, q, t);
    ServedIsToolKey(b, jobs, 6 * q + t, k);
  }

  lemma VisionAnswer(byId: map<int, Provider>, b: Build, p: Policy, answer: Option<nat>, k: ModelKey)
    requires CatalogOk(byId, b.catalog) && AnswerOk(byId, b, Job(Vision, RuntimeChain(p, byId, Vision)), answer)
    requires answer.Some? && answer.value < |b.profiles| && k in b.profiles[answer.value].models
    ensures k.provider in byId && byId[k.provider].supportsVision
  {
    VisionChainSees(byId, b.catalog, p, k);
  }

  lemma PlanCapabilities(byId: map<int, Provider>, sorted: seq<Policy>, b: Build, q: nat, t: nat, k: ModelKey)
    requires Finished(byId, sorted, b) && q < |sorted| && t < 6 && b.answers[6 * q + t].Some?
    requires b.answers[6 * q + t].value < |b.profiles|
    requires k in b.profiles[b.answers[6 * q + t].value].models
    ensures IsToolTask(TaskAt(t)) ==> k in b.toolKeys
    ensures TaskAt(t) == Vision ==> k.provider in byId && byId[k.provider].supportsVision
  {
    if IsToolTask(TaskAt(t)) {
      ToolsAnswer(byId, sorted, b, Jobs(sorted, byId), q, t, k);
    } else if TaskAt(t) == Vision {
      AnswerAt(byId, sorted, b, q, t);
      VisionAnswer(byId, b, sorted[q], b.answers[6 * q + t], k);
    }
  }

  lemma AssignedCapable(byId: map<int, Provider>, sorted: seq<Policy>, b: Build, task: Task, i: nat, k: ModelKey)
    requires Finished(byId, sorted, b) && i < |b.profiles| && k in b.profiles[i].models
    requires AssignedTo(PlanOf(byId, sorted, b), task, i)
    ensures IsToolTask(task) ==> k in b.toolKeys
    ensures task == Vision ==> k.provider in byId && byId[k.provider].supportsVision
  {
    var q := AssignedAnswers(byId, sorted, b, task, i);
    PlanCapabilities(byId, sorted, b, q, IndexOf(task), k);
  }

  /** What a planned row's flags say about its provider and the tools chains. */
  lemma RowFlags(byId: map<int, Provider>, sorted: seq<Policy>, b: Build, m: ModelPlan)
    requires Finished(byId, sorted, b) && m in PlanOf(byId, sorted, b).models
    ensures m.provider in byId
    ensures m.supportsTools == (byId[m.provider].supportsTools || m.Key() in b.toolKeys)
    ensures m.supportsVision == byId[m.provider].supportsVision
  {
    RowOf(byId, sorted, b, m.Key());
  }

  /** Models of profiles serving agent, final answer or triage support tools;
      models of profiles serving vision support vision. */
  lemma CapabilitiesSound(providers: seq<Provider>, policies: seq<Policy>, task: Task, i: nat, m: ModelPlan)
    requires AssignedTo(Conversion(providers, policies), task, i) && i < |Conversion(providers, policies).profiles|
    requires m in Conversion(providers, policies).models && m.Key() in Conversion(providers, policies).profiles[i].models
    ensures task in {Agent, FinalAnswer, Triage} ==> m.supportsTools
    ensures task == Vision ==> m.supportsVision
  {
    ConversionFinished(providers, policies);
    AssignedCapable(ById(providers), SortBy(PolicyId, policies), Built(providers, policies), task, i, m.Key());
    RowFlags(ById(providers), SortBy(PolicyId, policies), Built(providers, policies), m);
  }

  /** Some policy's chain for a tools task contains the model. */
  ghost predicate ServesTools(plan: Plan, policies: seq<Policy>, k: ModelKey) {
    exists p, task :: p in policies && task in {Agent, FinalAnswer, Triage} && Resolve(plan, p.id, task).Some? &&
                      k in Resolve(plan, p.id, task).value
  }

  /** What a policy's task resolves to, from the planner's answer. */
  lemma ResolveAt(byId: map<int, Provider>, sorted: seq<Policy>, b: Build, i: nat, t: nat)
    requires |b.answers| == 6 * |sorted| && RowsKnown(byId, b.catalog) && DistinctBy(PolicyId, sorted)
    requires Bounded(b) && i < |sorted| && t < 6
    ensures var a := b.answers[6 * i + t];
            && (a.Some? ==> a.value < |b.profiles|)
            && Resolve(PlanOf(byId, sorted, b), sorted[i].id, TaskAt(t)) ==
               if a.None? then None else Some(b.profiles[a.value].models)
  {
    DefaultsReproduce(sorted, b.answers, i, t);
  }

  lemma ToolKeyServes(byId: map<int, Provider>, sorted: seq<Policy>, b: Build, jobs: seq<Job>, k: ModelKey)
    requires |b.answers| == 6 * |sorted| && RowsKnown(byId, b.catalog) && DistinctBy(PolicyId, sorted)
    requires jobs == Jobs(sorted, byId) && ToolsOk(b, jobs) && Bounded(b) && k in b.toolKeys
    ensures ServesTools(PlanOf(byId, sorted, b), sorted, k)
  {
    var j: nat :| Serves(b, jobs, j, k);
    var i, t := j / 6, j % 6;
    assert j == 6 * i + t;
    JobAt(sorted, byId, i, t);
    ResolveAt(byId, sorted, b, i, t);
    assert sorted[i] in sorted;
  }

  lemma ServingIsToolKey(byId: map<int, Provider>, sorted: seq<Policy>, b: Build, jobs: seq<Job>, k: ModelKey)
    requires |b.answers| == 6 * |sorted| && RowsKnown(byId, b.catalog) && DistinctBy(PolicyId, sorted)
    requires jobs == Jobs(sorted, byId) && ToolsOk(b, jobs) && Bounded(b)
    requires ServesTools(PlanOf(byId, sorted, b), sorted, k)
    ensures k in b.toolKeys
  {
    var plan := PlanOf(byId, sorted, b);
    var p, task :| p in sorted && task in {Agent, FinalAnswer, Triage} && Resolve(plan, p.id, task).Some? && k in Resolve(plan, p.id, task).value;
    var i :| 0 <= i < |sorted| && sorted[i] == p;
    var t := IndexOf(task);
    ResolveAt(byId, sorted, b, i, t);
    JobAt(sorted, byId, i, t);
    ServedIsToolKey(b, jobs, 6 * i + t, k);
  }

  /** The tools flag is the provider's, widened exactly for the models in some
      policy's tools-task chain; the other settings are the provider's. */
  lemma CapabilitiesExact(providers: seq<Provider>, policies: seq<Policy>, m: ModelPlan)
    requires m in Conversion(providers, policies).models && DistinctBy(PolicyId, policies)
    ensures m.provider in ById(providers)
    ensures var p := ById(providers)[m.provider];
            && m.supportsVision == p.supportsVision && m.maxToolRounds == p.maxToolRounds
            && m.priceInput == p.priceInput && m.priceOutput == p.priceOutput
            && (m.supportsTools <==> p.supportsTools || ServesTools(Conversion(providers, policies), policies, m.Key()))
  {
    var byId, sorted, b := ById(providers), SortBy(PolicyId, policies), Built(providers, policies);
    ConversionFinished(providers, policies);
    RowOf(byId, sorted, b, m.Key());
    AnswersBounded(byId, b, Jobs(sorted, byId));
    var plan := PlanOf(byId, sorted, b);
    if m.Key() in b.toolKeys {
      ToolKeyServes(byId, sorted, b, Jobs(sorted, byId), m.Key());
    }
    if ServesTools(plan, sorted, m.Key()) {
      ServingIsToolKey(byId, sorted, b, Jobs(sorted, byId), m.Key());
    }
    assert ServesTools(plan, sorted, m.Key()) <==> ServesTools(plan, policies, m.Key());
  }

  // ---- 4. the plan does not depend on input order ----

  lemma OrderDoesNotMatter(providers: seq<Provider>, providers': seq<Provider>, policies: seq<Policy>, policies': seq<Policy>)
    requires multiset(providers) == multiset(providers') && DistinctBy(ProviderId, providers)
    requires multiset(policies) == multiset(policies') && DistinctBy(PolicyId, policies)
    ensures Conversion(providers, policies) == Conversion(providers', policies')
  {
    ByIdForgetsOrder(providers, providers');
    SortForgetsOrder(ProviderId, providers, providers');
    SortForgetsOrder(PolicyId, policies, policies');
  }

  // ---- 5. the chosen default is optimal ----

  predicate IsVoter(policies: seq<Policy>, id: int) {
    exists p :: p in policies && p.id == id && p.validId == 1
  }

  /** How many queue rows of a task belong to valid policies. */
  function ValidRows(rows: seq<Override>, policies: seq<Policy>, task: Task): nat {
    if rows == [] then 0
    else ValidRows(rows[..|rows| - 1], policies, task) +
         if rows[|rows| - 1].task == task && IsVoter(policies, rows[|rows| - 1].policy) then 1 else 0
  }

  lemma {:induction false} ValidRowsAppend(a: seq<Override>, b: seq<Override>, policies: seq<Policy>, task: Task)
    ensures ValidRows(a + b, policies, task) == ValidRows(a, policies, task) + ValidRows(b, policies, task)
  {
    if b == [] {
      assert a + b == a;
    } else {
      var n := |b| - 1;
      assert (a + b)[..|a + b| - 1] == a + b[..n];
      ValidRowsAppend(a, b[..n], policies, task);
    }
  }

  lemma VoterIsValid(all: seq<Policy>, p: Policy)
    requires p in all && DistinctBy(PolicyId, all)
    ensures IsVoter(all, p.id) <==> p.validId == 1
  {
    if q :| q in all && q.id == p.id && q.validId == 1 {
      var i :| 0 <= i < |all| && all[i] == p;
      var j :| 0 <= j < |all| && all[j] == q;
      assert PolicyId(all[i]) == PolicyId(all[j]);
    }
  }

  lemma OneRow(policy: Policy, value: Option<nat>, task: Task, g: Option<nat>, all: seq<Policy>)
    requires policy in all && DistinctBy(PolicyId, all)
    ensures var row := if value != g then [Override(policy.id, task, value)] else [];
            ValidRows(row, all, task) == if policy.validId == 1 && value != g then 1 else 0
  {
    VoterIsValid(all, policy);
    if value != g {
      assert [Override(policy.id, task, value)][..0] == [];
    }
  }

  lemma RowsNeededSnoc(votes: seq<Option<nat>>, v: Option<nat>, g: Option<nat>)
    ensures RowsNeeded(votes + [v], g) == RowsNeeded(votes, g) + if v != g then 1 else 0
  {
    assert (votes + [v])[..|votes|] == votes;
  }

  /** The rows a default causes among valid policies are the votes against it. */
  lemma {:induction false} RowsAreVotesAgainst(policies: seq<Policy>, values: seq<Option<nat>>, task: Task, g: Option<nat>, all: seq<Policy>)
    requires |policies| == |values| && DistinctBy(PolicyId, all)
    requires forall p :: p in policies ==> p in all
    ensures ValidRows(Rows(policies, values, task, g), all, task) == RowsNeeded(Votes(policies, values), g)
  {
    if policies != [] {
      var n := |policies| - 1;
      assert policies[n] in policies;
      RowsAreVotesAgainst(policies[..n], values[..n], task, g, all);
      var last := if values[n] != g then [Override(policies[n].id, task, values[n])] else [];
      ValidRowsAppend(Rows(policies[..n], values[..n], task, g), last, all, task);
      OneRow(policies[n], values[n], task, g, all);
      var votes := Votes(policies[..n], values[..n]);
      RowsNeededSnoc(votes, values[n], g);
      assert votes + [] == votes;
    }
  }

  lemma {:induction false} NoRowsOfOtherTask(rows: seq<Override>, all: seq<Policy>, task: Task)
    requires forall r :: r in rows ==> r.task != task
    ensures ValidRows(rows, all, task) == 0
  {
    if rows != [] {
      NoRowsOfOtherTask(rows[..|rows| - 1], all, task);
    }
  }

  lemma TaskValidRows(policies: seq<Policy>, values: seq<Option<nat>>, n: nat, t: nat, g: Option<nat>)
    requires |values| == |policies| && n < 6 && t < 6 && DistinctBy(PolicyId, policies)
    ensures ValidRows(Rows(policies, values, TaskAt(n), g), policies, TaskAt(t)) ==
            if t == n then RowsNeeded(Votes(policies, values), g) else 0
  {
    if t == n {
      RowsAreVotesAgainst(policies, values, TaskAt(t), g, policies);
    } else {
      if TaskAt(t) == TaskAt(n) {
        TaskAtOnce(t, n);
      }
      RowsShape(policies, values, TaskAt(n), g);
      NoRowsOfOtherTask(Rows(policies, values, TaskAt(n), g), policies, TaskAt(t));
    }
  }

  /** What one more task adds to the rows of task t. */
  lemma NextValidRows(policies: seq<Policy>, answers: seq<Option<nat>>, n: nat, t: nat)
    requires |answers| == 6 * |policies| && n < 6 && t < 6 && DistinctBy(PolicyId, policies)
    ensures ValidRows(DefaultsOf(policies, answers, n + 1).overrides, policies, TaskAt(t)) ==
            ValidRows(DefaultsOf(policies, answers, n).overrides, policies, TaskAt(t)) +
            if t == n then RowsNeeded(Votes(policies, Column(answers, t)), TaskGlobal(policies, answers, t)) else 0
  {
    var values, g := Column(answers, n), TaskGlobal(policies, answers, n);
    var front, rows := DefaultsOf(policies, answers, n).overrides, Rows(policies, values, TaskAt(n), g);
    NextRows(policies, answers, n);
    ValidRowsAppend(front, rows, policies, TaskAt(t));
    TaskValidRows(policies, values, n, t, g);
  }

  lemma {:induction false} DefaultsValidRows(policies: seq<Policy>, answers: seq<Option<nat>>, n: nat, t: nat)
    requires |answers| == 6 * |policies| && n <= 6 && t < 6 && DistinctBy(PolicyId, policies)
    ensures ValidRows(DefaultsOf(policies, answers, n).overrides, policies, TaskAt(t)) ==
            if t < n then RowsNeeded(Votes(policies, Column(answers, t)), TaskGlobal(policies, answers, t)) else 0
  {
    if n == 0 {
      assert DefaultsOf(policies, answers, 0).overrides == [];
    } else {
      var m: nat := n - 1;
      DefaultsValidRows(policies, answers, m, t);
      NextValidRows(policies, answers, m, t);
    }
  }

  function DefaultOf(plan: Plan, task: Task): Option<nat> {
    if task in plan.taskDefaults then Some(plan.taskDefaults[task]) else None
  }

  lemma PlanDefaultOptimal(byId: map<int, Provider>, sorted: seq<Policy>, b: Build, t: nat, other: Option<nat>)
    requires |b.answers| == 6 * |sorted| && RowsKnown(byId, b.catalog) && DistinctBy(PolicyId, sorted) && t < 6
    ensures var plan := PlanOf(byId, sorted, b);
            var rows := ValidRows(plan.overrides, sorted, TaskAt(t));
            var rowsWithOther := ValidRows(Rows(sorted, Column(b.answers, t), TaskAt(t), other), sorted, TaskAt(t));
            && rows <= rowsWithOther
            && (rows == rowsWithOther ==> Rank(DefaultOf(plan, TaskAt(t))) <= Rank(other))
  {
    var values := Column(b.answers, t);
    DefaultsValidRows(sorted, b.answers, 6, t);
    RowsAreVotesAgainst(sorted, values, TaskAt(t), other, sorted);
    GlobalValueOptimal(Votes(sorted, values), other);
    DefaultsMap(sorted, b.answers, 6, t);
  }

  /** What each policy (in id order) resolves to, as profile indices. */
  ghost function Resolved(plan: Plan, policies: seq<Policy>, task: Task): (r: seq<Option<nat>>)
    ensures |r| == |policies|
  {
    seq(|policies|, i requires 0 <= i < |policies| => ResolveIndex(plan, policies[i].id, task))
  }

  lemma ResolvedIsColumn(byId: map<int, Provider>, sorted: seq<Policy>, b: Build, t: nat)
    requires |b.answers| == 6 * |sorted| && RowsKnown(byId, b.catalog) && DistinctBy(PolicyId, sorted) && t < 6
    ensures Resolved(PlanOf(byId, sorted, b), sorted, TaskAt(t)) == Column(b.answers, t)
  {
    forall i | 0 <= i < |sorted|
      ensures ResolveIndex(PlanOf(byId, sorted, b), sorted[i].id, TaskAt(t)) == Column(b.answers, t)[i]
    {
      DefaultsReproduce(sorted, b.answers, i, t);
    }
  }

  /** For every task, the valid policies' queue rows are as few as any default
      allows that leaves every policy's resolution as it is; among equally good
      defaults the plan takes "none", or else the profile with the smallest index. */
  lemma DefaultIsOptimal(providers: seq<Provider>, policies: seq<Policy>, task: Task, other: Option<nat>)
    requires DistinctBy(PolicyId, policies)
    ensures var plan := Conversion(providers, policies);
            var sorted := SortBy(PolicyId, policies);
            var rows := ValidRows(plan.overrides, sorted, task);
            var rowsWithOther := ValidRows(Rows(sorted, Resolved(plan, sorted, task), task, other), sorted, task);
            && rows <= rowsWithOther
            && (rows == rowsWithOther ==> Rank(DefaultOf(plan, task)) <= Rank(other))
  {
    var byId, sorted, b := ById(providers), SortBy(PolicyId, policies), Built(providers, policies);
    SameElements(policies, sorted);
    DistinctByPermuted(PolicyId, policies, sorted);
    PlanDefaultOptimal(byId, sorted, b, IndexOf(task), other);
    ResolvedIsColumn(byId, sorted, b, IndexOf(task));
  }
}
