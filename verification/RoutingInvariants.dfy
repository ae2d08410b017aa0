/** What holds after every step of the planner. */
module RoutingInvariants {
  import opened Common
  import opened Chains
  import opened RoutingTypes
  import opened RoutingCatalog
  import opened RoutingOld
  import opened RoutingNames
  import opened RoutingPlan

  // ---- profiles: pairwise different chains under pairwise different names ----

  ghost predicate IndexOk(b: Build) {
    && (forall c :: c in b.index ==> b.index[c] < |b.profiles| && b.profiles[b.index[c]].models == c)
    && (forall i :: 0 <= i < |b.profiles| ==> b.profiles[i].models in b.index && b.index[b.profiles[i].models] == i)
  }

  ghost predicate NamesOk(b: Build) {
    && |b.taken| == |b.profiles|
    && (forall i :: 0 <= i < |b.profiles| ==> b.profiles[i].name in b.taken)
    && (forall i, j :: 0 <= i < j < |b.profiles| ==> b.profiles[i].name != b.profiles[j].name)
    && (|b.profiles| + 1 < Pow10(197) ==> forall i :: 0 <= i < |b.profiles| ==> |b.profiles[i].name| <= 200)
  }

  ghost predicate ChainsOk(b: Build) {
    forall i :: 0 <= i < |b.profiles| ==> ChainOk(b.catalog, b.profiles[i].models)
  }

  ghost predicate ChainOk(c: Catalog, chain: seq<ModelKey>) {
    chain != [] && Distinct(chain) && forall k :: k in chain ==> k in c.order
  }

  ghost predicate ProfilesOk(b: Build) {
    IndexOk(b) && NamesOk(b) && ChainsOk(b)
  }

  lemma NewNameOk(byId: map<int, Provider>, b: Build, chain: seq<ModelKey>)
    requires NamesOk(b) && chain !in b.index && chain != [] && chain[0].provider in byId
    ensures NamesOk(Assign(byId, b, chain))
  {
    var base := ProfileBaseName(chain, byId);
    if |b.taken| + 2 < Pow10(197) {
      FreeNameFitsAlways(base, b.taken);
    }
  }

  lemma AssignOk(byId: map<int, Provider>, b: Build, chain: seq<ModelKey>)
    requires ProfilesOk(b) && ChainOk(b.catalog, chain) && chain[0].provider in byId
    ensures var d := Assign(byId, b, chain);
            && ProfilesOk(d)
            && d.catalog == b.catalog && d.toolKeys == b.toolKeys
            && |d.answers| == |b.answers| + 1 && d.answers[..|b.answers|] == b.answers
            && b.profiles <= d.profiles
            && d.answers[|b.answers|].Some? && d.answers[|b.answers|].value < |d.profiles|
            && d.profiles[d.answers[|b.answers|].value].models == chain
  {
    if chain !in b.index {
      NewNameOk(byId, b, chain);
    }
  }

  // ---- answers: every job resolves to its chain in catalog spelling ----

  ghost predicate AnswerOk(byId: map<int, Provider>, b: Build, job: Job, answer: Option<nat>) {
    match job.raw
    case None => answer == None
    case Some(raw) =>
      && AllKnown(byId, b.catalog, raw)
      && answer.Some? && answer.value < |b.profiles|
      && b.profiles[answer.value].models == CanonChain(byId, b.catalog, raw)
  }

  ghost predicate AnswersOk(byId: map<int, Provider>, b: Build, jobs: seq<Job>) {
    |b.answers| == |jobs| && forall j :: 0 <= j < |jobs| ==> AnswerOk(byId, b, jobs[j], b.answers[j])
  }

  lemma AnswerStable(byId: map<int, Provider>, b: Build, d: Build, job: Job, answer: Option<nat>)
    requires AnswerOk(byId, b, job, answer) && Grows(b.catalog, d.catalog) && b.profiles <= d.profiles
    ensures AnswerOk(byId, d, job, answer)
  {
    if job.raw.Some? {
      ChainStable(byId, b.catalog, d.catalog, job.raw.value);
      assert d.profiles[answer.value] == b.profiles[answer.value];
    }
  }

  // ---- tools: exactly the models of the tools-task chains are widened ----

  ghost predicate Serves(b: Build, jobs: seq<Job>, j: nat, k: ModelKey)
    requires |b.answers| == |jobs|
  {
    && j < |jobs| && IsToolTask(jobs[j].task)
    && b.answers[j].Some? && b.answers[j].value < |b.profiles|
    && k in b.profiles[b.answers[j].value].models
  }

  ghost predicate ToolsOk(b: Build, jobs: seq<Job>) {
    && |b.answers| == |jobs|
    && (forall j: nat, k :: Serves(b, jobs, j, k) ==> k in b.toolKeys)
    && (forall k :: k in b.toolKeys ==> exists j: nat :: Serves(b, jobs, j, k))
  }

  ghost predicate BuildOk(byId: map<int, Provider>, b: Build, jobs: seq<Job>) {
    CatalogOk(byId, b.catalog) && ProfilesOk(b) && AnswersOk(byId, b, jobs) && ToolsOk(b, jobs)
  }

  lemma ToolsStep(b: Build, d: Build, jobs: seq<Job>, job: Job)
    requires ToolsOk(b, jobs) && b.profiles <= d.profiles
    requires forall j :: 0 <= j < |jobs| && b.answers[j].Some? ==> b.answers[j].value < |b.profiles|
    requires |d.answers| == |b.answers| + 1 && d.answers[..|b.answers|] == b.answers
    requires var a := d.answers[|b.answers|];
             (a.Some? ==> a.value < |d.profiles|) &&
             d.toolKeys == b.toolKeys + (if IsToolTask(job.task) && a.Some? then Keys(d.profiles[a.value].models) else {})
    ensures ToolsOk(d, jobs + [job])
  {
    var n := |jobs|;
    var js := jobs + [job];
    forall j: nat | j < n
      ensures d.answers[j] == b.answers[j]
    {
      assert d.answers[..n][j] == d.answers[j];
    }
    forall j: nat, k | Serves(d, js, j, k)
      ensures k in d.toolKeys
    {
      if j < n {
        assert Serves(b, jobs, j, k);
      }
    }
    forall k | k in d.toolKeys
      ensures exists j: nat :: Serves(d, js, j, k)
    {
      if k in b.toolKeys {
        var j: nat :| Serves(b, jobs, j, k);
        assert Serves(d, js, j, k);
      } else {
        assert Serves(d, js, n, k);
      }
    }
  }

  lemma ChainsGrow(b: Build, c: Catalog)
    requires ChainsOk(b) && Grows(b.catalog, c)
    ensures forall i :: 0 <= i < |b.profiles| ==> ChainOk(c, b.profiles[i].models)
  {
    assert forall k :: k in b.catalog.order ==> k in c.order;
  }

  /** What one step adds to a sound state. */
  lemma StepAdds(byId: map<int, Provider>, b: Build, job: Job)
    requires CatalogOk(byId, b.catalog) && ProfilesOk(b) && JobOk(byId, job)
    ensures var d := Step(byId, b, job);
            && CatalogOk(byId, d.catalog) && ProfilesOk(d)
            && Grows(b.catalog, d.catalog) && b.profiles <= d.profiles
            && |d.answers| == |b.answers| + 1 && d.answers[..|b.answers|] == b.answers
            && AnswerOk(byId, d, job, d.answers[|b.answers|])
            && d.toolKeys == b.toolKeys +
                 (if IsToolTask(job.task) && job.raw.Some?
                  then Keys(CanonChain(byId, d.catalog, job.raw.value)) else {})
  {
    if job.raw.Some? {
      var raw := job.raw.value;
      var c := RememberAll(byId, b.catalog, raw);
      var chain := CanonChain(byId, c, raw);
      RememberAllOk(byId, b.catalog, raw);
      ChainShape(byId, c, raw);
      CanonChainStart(byId, c, raw);
      ChainsGrow(b, c);
      var m := b.(catalog := c, toolKeys := if IsToolTask(job.task) then b.toolKeys + Keys(chain) else b.toolKeys);
      AssignOk(byId, m, chain);
    }
  }

  lemma AnswersStep(byId: map<int, Provider>, b: Build, d: Build, jobs: seq<Job>, job: Job)
    requires AnswersOk(byId, b, jobs) && Grows(b.catalog, d.catalog) && b.profiles <= d.profiles
    requires |d.answers| == |b.answers| + 1 && d.answers[..|b.answers|] == b.answers
    requires AnswerOk(byId, d, job, d.answers[|b.answers|])
    ensures AnswersOk(byId, d, jobs + [job])
  {
    forall j | 0 <= j < |jobs|
      ensures AnswerOk(byId, d, jobs[j], d.answers[j])
    {
      assert d.answers[..|jobs|][j] == b.answers[j];
      AnswerStable(byId, b, d, jobs[j], b.answers[j]);
    }
  }

  lemma StepOk(byId: map<int, Provider>, b: Build, jobs: seq<Job>, job: Job)
    requires BuildOk(byId, b, jobs) && JobOk(byId, job)
    ensures BuildOk(byId, Step(byId, b, job), jobs + [job])
  {
    var d := Step(byId, b, job);
    StepAdds(byId, b, job);
    AnswersStep(byId, b, d, jobs, job);
    forall j | 0 <= j < |jobs| && b.answers[j].Some?
      ensures b.answers[j].value < |b.profiles|
    {
      assert AnswerOk(byId, b, jobs[j], b.answers[j]);
    }
    ToolsStep(b, d, jobs, job);
  }

  lemma {:induction false} StepsOk(byId: map<int, Provider>, b: Build, jobs: seq<Job>)
    requires BuildOk(byId, b, []) && forall j :: j in jobs ==> JobOk(byId, j)
    ensures BuildOk(byId, Steps(byId, b, jobs), jobs)
  {
    if jobs != [] {
      var n := |jobs| - 1;
      StepsOk(byId, b, jobs[..n]);
      assert jobs[n] in jobs;
      StepOk(byId, Steps(byId, b, jobs[..n]), jobs[..n], jobs[n]);
      assert jobs == jobs[..n] + [jobs[n]];
    }
  }

  /** The planner's final state satisfies every invariant. */
  lemma BuiltOk(providers: seq<Provider>, policies: seq<Policy>)
    ensures BuildOk(ById(providers), Built(providers, policies), Jobs(SortBy(PolicyId, policies), ById(providers)))
  {
    var byId := ById(providers);
    var sorted := SortBy(ProviderId, providers);
    var jobs := Jobs(SortBy(PolicyId, policies), byId);
    JobsOk(SortBy(PolicyId, policies), byId);
    RememberAllOk(byId, Catalog(map[], []), DefaultKeys(sorted));
    StepsOk(byId, Started(byId, sorted), jobs);
  }
}
