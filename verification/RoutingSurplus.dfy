/** The plan holds nothing superfluous: no catalog row beyond the default models
    and the models of resolved chains, no profile nobody resolves; and every
    profile has the first free name built from its chain. */
module RoutingSurplus {
  import opened Common
  import opened Chains
  import opened RoutingTypes
  import opened RoutingCatalog
  import opened RoutingOld
  import opened RoutingNames
  import opened RoutingPlan
  import opened RoutingInvariants
  import opened RoutingTheorems
  import opened RoutingDefaults

  ghost predicate InChain(profiles: seq<ProfilePlan>, k: ModelKey) {
    exists i :: 0 <= i < |profiles| && k in profiles[i].models
  }

  /** Rows from the n-th on are in some profile; every profile is someone's answer. */
  ghost predicate NoSurplus(n: nat, b: Build) {
    && (forall i :: n <= i < |b.catalog.order| ==> InChain(b.profiles, b.catalog.order[i]))
    && (forall i: nat :: i < |b.profiles| ==> Some(i) in b.answers)
  }

  /** New rows are rows of the names just met. */
  lemma {:induction false} NewRowsAreMet(byId: map<int, Provider>, c: Catalog, ks: seq<ModelKey>, i: nat)
    requires var d := RememberAll(byId, c, ks); |c.order| <= i < |d.order|
    ensures var d := RememberAll(byId, c, ks); d.order[i] in Map(Canonise(byId, d), ks)
  {
    var n := |ks| - 1;
    var m := RememberAll(byId, c, ks[..n]);
    var d := RememberAll(byId, c, ks);
    RememberGrows(byId, m, ks[n]);
    if i < |m.order| {
      NewRowsAreMet(byId, c, ks[..n], i);
      MapMembers(Canonise(byId, m), ks[..n], m.order[i]);
      var k :| k in ks[..n] && Canonical(byId, m, k) == m.order[i];
      RememberAllKnown(byId, c, ks[..n], k);
      CanonicalStable(byId, m, d, k);
      MapMembers(Canonise(byId, d), ks, d.order[i]);
      assert k in ks && Canonise(byId, d)(k) == d.order[i];
    } else {
      assert Map(Canonise(byId, d), ks)[n] == d.order[i];
    }
  }

  lemma {:induction false} RememberAllKnown(byId: map<int, Provider>, c: Catalog, ks: seq<ModelKey>, k: ModelKey)
    requires k in ks
    ensures Known(byId, RememberAll(byId, c, ks), k)
  {
    var n := |ks| - 1;
    var m := RememberAll(byId, c, ks[..n]);
    if k == ks[n] {
      RememberGrows(byId, m, k);
    } else {
      RememberAllKnown(byId, c, ks[..n], k);
      StillKnown(byId, m, ks[n], k);
    }
    assert RememberAll(byId, c, ks) == Remember(byId, m, ks[n]);
  }

  lemma StillKnown(byId: map<int, Provider>, c: Catalog, more: ModelKey, k: ModelKey)
    requires Known(byId, c, k)
    ensures Known(byId, Remember(byId, c, more), k)
  {
  }

  /** A step's new profile, if any, is that step's answer. */
  lemma StepAnswersNew(byId: map<int, Provider>, b: Build, job: Job, i: nat)
    requires JobOk(byId, job) && |b.profiles| <= i < |Step(byId, b, job).profiles|
    ensures Some(i) in Step(byId, b, job).answers
  {
    var d := Step(byId, b, job);
    assert d.answers[|d.answers| - 1] == Some(i);
  }

  lemma StepRows(byId: map<int, Provider>, b: Build, job: Job, i: nat)
    requires CatalogOk(byId, b.catalog) && ProfilesOk(b) && JobOk(byId, job)
    requires |b.catalog.order| <= i < |Step(byId, b, job).catalog.order|
    ensures InChain(Step(byId, b, job).profiles, Step(byId, b, job).catalog.order[i])
  {
    StepAdds(byId, b, job);
    var d := Step(byId, b, job);
    assert job.raw.Some?;
    assert d.catalog == RememberAll(byId, b.catalog, job.raw.value);
    NewRowsAreMet(byId, b.catalog, job.raw.value, i);
    DedupedElements(Map(Canonise(byId, d.catalog), job.raw.value));
    var a := d.answers[|b.answers|].value;
    assert d.catalog.order[i] in d.profiles[a].models;
  }

  lemma StaysInChain(ps: seq<ProfilePlan>, qs: seq<ProfilePlan>, k: ModelKey)
    requires ps <= qs && InChain(ps, k)
    ensures InChain(qs, k)
  {
    var j :| 0 <= j < |ps| && k in ps[j].models;
    assert qs[j] == ps[j];
  }

  lemma StepNoSurplus(byId: map<int, Provider>, n: nat, b: Build, jobs: seq<Job>, job: Job)
    requires BuildOk(byId, b, jobs) && JobOk(byId, job) && NoSurplus(n, b)
    ensures NoSurplus(n, Step(byId, b, job))
  {
    var d := Step(byId, b, job);
    StepAdds(byId, b, job);
    forall i | n <= i < |d.catalog.order|
      ensures InChain(d.profiles, d.catalog.order[i])
    {
      if i < |b.catalog.order| {
        assert d.catalog.order[i] == b.catalog.order[i];
        StaysInChain(b.profiles, d.profiles, b.catalog.order[i]);
      } else {
        StepRows(byId, b, job, i);
      }
    }
    forall i: nat | i < |d.profiles|
      ensures Some(i) in d.answers
    {
      if i < |b.profiles| {
        assert d.answers == b.answers + d.answers[|b.answers|..];
      } else {
        StepAnswersNew(byId, b, job, i);
      }
    }
  }

  lemma {:induction false} StepsNoSurplus(byId: map<int, Provider>, n: nat, b: Build, jobs: seq<Job>)
    requires BuildOk(byId, b, []) && NoSurplus(n, b) && forall j :: j in jobs ==> JobOk(byId, j)
    ensures NoSurplus(n, Steps(byId, b, jobs))
  {
    if jobs != [] {
      var k := |jobs| - 1;
      StepsNoSurplus(byId, n, b, jobs[..k]);
      StepsOk(byId, b, jobs[..k]);
      assert jobs[k] in jobs;
      StepNoSurplus(byId, n, Steps(byId, b, jobs[..k]), jobs[..k], jobs[k]);
    }
  }

  lemma BuiltNoSurplus(providers: seq<Provider>, policies: seq<Policy>)
    requires DistinctBy(ProviderId, providers)
    ensures NoSurplus(|providers|, Built(providers, policies))
  {
    var byId, sorted := ById(providers), SortBy(ProviderId, providers);
    SortedProviders(providers);
    SameElements(providers, sorted);
    assert DefaultKeys(sorted)[..|sorted|] == DefaultKeys(sorted);
    DefaultsOnly(byId, sorted, DefaultKeys(sorted), |sorted|);
    StartedOk(byId, sorted);
    JobsOk(SortBy(PolicyId, policies), byId);
    StepsNoSurplus(byId, |providers|, Started(byId, sorted), Jobs(SortBy(PolicyId, policies), byId));
  }

  // ---- from answers back to policies ----

  ghost predicate Resolves(plan: Plan, policies: seq<Policy>, i: nat) {
    exists p, task :: p in policies && ResolveIndex(plan, p.id, task) == Some(i)
  }

  lemma AnswerResolves(byId: map<int, Provider>, sorted: seq<Policy>, b: Build, i: nat)
    requires |b.answers| == 6 * |sorted| && RowsKnown(byId, b.catalog) && DistinctBy(PolicyId, sorted) && Some(i) in b.answers
    ensures Resolves(PlanOf(byId, sorted, b), sorted, i)
  {
    var j :| 0 <= j < |b.answers| && b.answers[j] == Some(i);
    var q, t := j / 6, j % 6;
    DefaultsReproduce(sorted, b.answers, q, t);
    assert sorted[q] in sorted && ResolveIndex(PlanOf(byId, sorted, b), sorted[q].id, TaskAt(t)) == Some(i);
  }

  /** The catalog is the providers' default models in id order, then only models
      of profiles; every profile is what some queue resolves for some task. */
  lemma NothingSuperfluous(providers: seq<Provider>, policies: seq<Policy>)
    requires DistinctBy(ProviderId, providers) && DistinctBy(PolicyId, policies)
    ensures var plan, sorted := Conversion(providers, policies), SortBy(ProviderId, providers);
            && |sorted| == |providers| <= |plan.models|
            && (forall i :: 0 <= i < |providers| ==> plan.models[i].Key() == DefaultRow(sorted[i]))
            && (forall i :: |providers| <= i < |plan.models| ==> InChain(plan.profiles, plan.models[i].Key()))
            && (forall i: nat :: i < |plan.profiles| ==> Resolves(plan, policies, i))
  {
    var byId, sorted, b := ById(providers), SortBy(PolicyId, policies), Built(providers, policies);
    ConversionFinished(providers, policies);
    BuiltNoSurplus(providers, policies);
    ConversionDefaultsFirst(providers, policies);
    SameElements(providers, SortBy(ProviderId, providers));
    var plan := PlanOf(byId, sorted, b);
    forall i | 0 <= i < |plan.models|
      ensures plan.models[i].Key() == b.catalog.order[i]
    {
      assert b.catalog.order[i] in b.catalog.order;
    }
    forall i: nat | i < |plan.profiles|
      ensures Resolves(plan, policies, i)
    {
      AnswerResolves(byId, sorted, b, i);
      var p, task :| p in sorted && ResolveIndex(plan, p.id, task) == Some(i);
      assert p in policies;
    }
  }

  // ---- names ----

  function NamesOf(profiles: seq<ProfilePlan>): set<string> {
    set p | p in profiles :: p.name
  }

  /** The first numbered variant of the chain's base name not used by earlier profiles. */
  ghost predicate NamedFirstFree(byId: map<int, Provider>, profiles: seq<ProfilePlan>, i: nat)
    requires i < |profiles|
  {
    var chain, earlier := profiles[i].models, NamesOf(profiles[..i]);
    && chain != [] && chain[0].provider in byId
    && var base := ProfileBaseName(chain, byId);
       exists n: nat {:trigger Candidate(base, n)} ::
         && n >= 1 && profiles[i].name == Candidate(base, n) && Candidate(base, n) !in earlier
         && forall m: nat :: 1 <= m < n ==> Candidate(base, m) in earlier
  }

  ghost predicate AllNamed(byId: map<int, Provider>, b: Build) {
    && b.taken == NamesOf(b.profiles)
    && forall i: nat :: i < |b.profiles| ==> NamedFirstFree(byId, b.profiles, i)
  }

  lemma AssignNamed(byId: map<int, Provider>, b: Build, chain: seq<ModelKey>)
    requires chain != [] && chain[0].provider in byId && AllNamed(byId, b)
    ensures AllNamed(byId, Assign(byId, b, chain))
  {
    if chain !in b.index {
      var n := |b.profiles|;
      var d := Assign(byId, b, chain);
      forall i: nat | i < n
        ensures NamedFirstFree(byId, d.profiles, i)
      {
        assert NamedFirstFree(byId, b.profiles, i);
        assert d.profiles[..i] == b.profiles[..i];
      }
      assert d.profiles[..n] == b.profiles;
      assert NamedFirstFree(byId, d.profiles, n) by {
        var base := ProfileBaseName(chain, byId);
        assert d.profiles[n].name == Candidate(base, FirstFree(Candidates(base), b.taken, 1));
      }
    }
  }

  lemma {:induction false} StepsNamed(byId: map<int, Provider>, b: Build, jobs: seq<Job>)
    requires AllNamed(byId, b) && forall j :: j in jobs ==> JobOk(byId, j)
    ensures AllNamed(byId, Steps(byId, b, jobs))
  {
    if jobs != [] {
      var k := |jobs| - 1;
      StepsNamed(byId, b, jobs[..k]);
      assert jobs[k] in jobs;
      if jobs[k].raw.Some? {
        var m := Steps(byId, b, jobs[..k]);
        var c := RememberAll(byId, m.catalog, jobs[k].raw.value);
        var chain := CanonChain(byId, c, jobs[k].raw.value);
        CanonChainStart(byId, c, jobs[k].raw.value);
        var tools := if IsToolTask(jobs[k].task) then m.toolKeys + Keys(chain) else m.toolKeys;
        AssignNamed(byId, m.(catalog := c, toolKeys := tools), chain);
      }
    }
  }

  /** Every profile is named after its chain, with the lowest number that is free. */
  lemma ProfileNames(providers: seq<Provider>, policies: seq<Policy>, i: nat)
    requires i < |Conversion(providers, policies).profiles|
    ensures NamedFirstFree(ById(providers), Conversion(providers, policies).profiles, i)
  {
    var byId, sorted := ById(providers), SortBy(ProviderId, providers);
    JobsOk(SortBy(PolicyId, policies), byId);
    StepsNamed(byId, Started(byId, sorted), Jobs(SortBy(PolicyId, policies), byId));
  }
}
