/** Rows of the old and of the new LLM-routing schema, and the conversion plan
    between them. */
module RoutingTypes {
  import opened Common
  import Json

  datatype Task = Agent | FinalAnswer | Triage | Summary | Refine | Vision

  const TASKS: seq<Task> := [Agent, FinalAnswer, Triage, Summary, Refine, Vision]

  function TaskAt(t: nat): Task
    requires t < 6
  {
    TASKS[t]
  }

  /** The model serving this work has to be able to call tools. */
  predicate IsToolTask(t: Task) {
    t == Agent || t == FinalAnswer || t == Triage
  }

  datatype ModelKey = ModelKey(provider: int, model: string)

  datatype Provider = Provider(
    id: int,
    name: string,
    defaultModel: string,
    supportsTools: bool,
    supportsVision: bool,
    maxToolRounds: Option<int>,
    priceInput: Option<real>,
    priceOutput: Option<real>)

  /** The stored fallback text: absent or empty, not JSON, or a JSON value. */
  datatype Fallback = NoText | Malformed | Parsed(value: Json.Value)

  datatype Policy = Policy(
    id: int,
    llmProvider: Option<int>,
    modelOverride: Option<string>,
    fallback: Fallback,
    finalProvider: Option<int>,
    finalModel: Option<string>,
    visionProvider: Option<int>,
    triageProvider: Option<int>,
    triageModel: Option<string>,
    validId: int)

  datatype ModelPlan = ModelPlan(
    provider: int,
    model: string,
    supportsTools: bool,
    supportsVision: bool,
    maxToolRounds: Option<int>,
    priceInput: Option<real>,
    priceOutput: Option<real>)
  {
    function Key(): ModelKey {
      ModelKey(provider, model)
    }
  }

  datatype ProfilePlan = ProfilePlan(name: string, models: seq<ModelKey>)

  datatype Override = Override(policy: int, task: Task, profile: Option<nat>)

  /** Profiles are referred to by their index. */
  datatype Plan = Plan(
    models: seq<ModelPlan>,
    profiles: seq<ProfilePlan>,
    taskDefaults: map<Task, nat>,
    overrides: seq<Override>)

  // ---- providers by id (a later row with the same id wins) ----

  function ById(ps: seq<Provider>): (m: map<int, Provider>)
    ensures forall k :: k in m ==> m[k].id == k && m[k] in ps
    ensures forall p :: p in ps ==> p.id in m
  {
    if ps == [] then map[]
    else
      var n := |ps| - 1;
      assert ps == ps[..n] + [ps[n]];
      ById(ps[..n])[ps[n].id := ps[n]]
  }

  const ProviderId: Provider -> int := (p: Provider) => p.id
  const PolicyId: Policy -> int := (p: Policy) => p.id

  lemma OneProvider(ps: seq<Provider>, p: Provider, q: Provider)
    requires DistinctBy(ProviderId, ps) && p in ps && q in ps && p.id == q.id
    ensures p == q
  {
    var i :| 0 <= i < |ps| && ps[i] == p;
    var j :| 0 <= j < |ps| && ps[j] == q;
    assert ProviderId(ps[i]) == ProviderId(ps[j]);
  }

  lemma ByIdForgetsOrder(a: seq<Provider>, b: seq<Provider>)
    requires multiset(a) == multiset(b) && DistinctBy(ProviderId, a)
    ensures ById(a) == ById(b)
  {
    SameElements(a, b);
    var ma, mb := ById(a), ById(b);
    forall k
      ensures k in ma <==> k in mb
      ensures k in ma ==> ma[k] == mb[k]
    {
      if k in ma {
        assert ma[k] in b;
      }
      if k in mb {
        assert mb[k] in a;
      }
      if k in ma && k in mb {
        OneProvider(a, ma[k], mb[k]);
      }
    }
  }
}
