/** Default models come first: their spelling wins and each provider's first
    catalog row is its default model. */
module RoutingDefaults {
  import opened Common
  import opened Text
  import opened Chains
  import opened RoutingTypes
  import opened RoutingCatalog
  import opened RoutingOld
  import opened RoutingPlan
  import opened RoutingInvariants
  import opened RoutingTheorems

  function DefaultRow(p: Provider): ModelKey {
    ModelKey(p.id, Strip(p.defaultModel))
  }

  ghost predicate IsIndexOf(byId: map<int, Provider>, sorted: seq<Provider>) {
    && DistinctBy(ProviderId, sorted)
    && forall i :: 0 <= i < |sorted| ==> sorted[i].id in byId && byId[sorted[i].id] == sorted[i]
  }

  function DefaultRows(sorted: seq<Provider>): (r: seq<ModelKey>)
    ensures |r| == |sorted|
    ensures forall i :: 0 <= i < |r| ==> r[i] == DefaultRow(sorted[i])
  {
    seq(|sorted|, i requires 0 <= i < |sorted| => DefaultRow(sorted[i]))
  }

  function DefaultNorms(sorted: seq<Provider>): (r: seq<(int, string)>)
    ensures |r| == |sorted|
  {
    seq(|sorted|, i requires 0 <= i < |sorted| => (sorted[i].id, Fold(Strip(sorted[i].defaultModel))))
  }

  /** The catalog starts with the first n of `rows` and spells `norms` so. */
  ghost predicate StartsWith(rows: seq<ModelKey>, norms: seq<(int, string)>, n: nat, c: Catalog)
    requires n <= |rows| == |norms|
  {
    && |c.order| >= n
    && (forall i :: 0 <= i < n ==> c.order[i] == rows[i])
    && (forall i :: 0 <= i < n ==> norms[i] in c.spelling && c.spelling[norms[i]] == rows[i].model)
  }

  ghost predicate NothingElse(norms: seq<(int, string)>, n: nat, c: Catalog)
    requires n <= |norms|
  {
    |c.order| == n && forall nk :: nk in c.spelling ==> nk in norms[..n]
  }

  lemma AddFirstRow(rows: seq<ModelKey>, norms: seq<(int, string)>, n: nat, c: Catalog)
    requires n < |rows| == |norms| && StartsWith(rows, norms, n, c) && NothingElse(norms, n, c)
    requires norms[n].0 == rows[n].provider && norms[n] !in norms[..n] && rows[n] !in rows[..n]
    ensures var d := AddRow(c, norms[n], rows[n].model);
            StartsWith(rows, norms, n + 1, d) && NothingElse(norms, n + 1, d)
  {
    assert c.order == rows[..n];
    assert norms[..n + 1] == norms[..n] + [norms[n]];
  }

  lemma RememberIsAddRow(byId: map<int, Provider>, c: Catalog, k: ModelKey, name: string)
    requires CanonName(byId, k) == name && (k.provider, Fold(name)) !in c.spelling
    ensures Remember(byId, c, k) == AddRow(c, (k.provider, Fold(name)), name)
  {
  }

  lemma NewDefault(sorted: seq<Provider>, n: nat)
    requires DistinctBy(ProviderId, sorted) && n < |sorted|
    ensures DefaultNorms(sorted)[n] !in DefaultNorms(sorted)[..n] && DefaultRows(sorted)[n] !in DefaultRows(sorted)[..n]
  {
    forall i | 0 <= i < n
      ensures DefaultNorms(sorted)[i].0 != DefaultNorms(sorted)[n].0
      ensures DefaultRows(sorted)[i].provider != DefaultRows(sorted)[n].provider
    {
      assert ProviderId(sorted[i]) != ProviderId(sorted[n]);
    }
  }

  lemma DefaultsStep(byId: map<int, Provider>, sorted: seq<Provider>, n: nat, c: Catalog)
    requires IsIndexOf(byId, sorted) && n < |sorted|
    requires StartsWith(DefaultRows(sorted), DefaultNorms(sorted), n, c) && NothingElse(DefaultNorms(sorted), n, c)
    ensures var d := Remember(byId, c, DefaultKeys(sorted)[n]);
            StartsWith(DefaultRows(sorted), DefaultNorms(sorted), n + 1, d) && NothingElse(DefaultNorms(sorted), n + 1, d)
  {
    NewDefault(sorted, n);
    DefaultName(byId, sorted[n]);
    RememberIsAddRow(byId, c, DefaultKeys(sorted)[n], DefaultRows(sorted)[n].model);
    AddFirstRow(DefaultRows(sorted), DefaultNorms(sorted), n, c);
  }

  lemma {:induction false} DefaultsOnly(byId: map<int, Provider>, sorted: seq<Provider>, keys: seq<ModelKey>, n: nat)
    requires IsIndexOf(byId, sorted) && n <= |sorted| && keys == DefaultKeys(sorted)
    ensures var c := RememberAll(byId, Catalog(map[], []), keys[..n]);
            StartsWith(DefaultRows(sorted), DefaultNorms(sorted), n, c) && NothingElse(DefaultNorms(sorted), n, c)
  {
    if n > 0 {
      DefaultsOnly(byId, sorted, keys, n - 1);
      assert keys[..n][..n - 1] == keys[..n - 1];
      DefaultsStep(byId, sorted, n - 1, RememberAll(byId, Catalog(map[], []), keys[..n - 1]));
    }
  }

  lemma DefaultName(byId: map<int, Provider>, p: Provider)
    requires p.id in byId && byId[p.id] == p
    ensures CanonName(byId, ModelKey(p.id, p.defaultModel)) == Strip(p.defaultModel)
  {
  }

  lemma {:induction false} StepsGrow(byId: map<int, Provider>, b: Build, jobs: seq<Job>)
    requires BuildOk(byId, b, []) && forall j :: j in jobs ==> JobOk(byId, j)
    ensures Grows(b.catalog, Steps(byId, b, jobs).catalog)
  {
    if jobs != [] {
      var n := |jobs| - 1;
      var m := Steps(byId, b, jobs[..n]);
      StepsGrow(byId, b, jobs[..n]);
      StepsOk(byId, b, jobs[..n]);
      assert jobs[n] in jobs;
      StepAdds(byId, m, jobs[n]);
      GrowsTrans(b.catalog, m.catalog, Step(byId, m, jobs[n]).catalog);
    }
  }

  lemma SortedProviders(providers: seq<Provider>)
    requires DistinctBy(ProviderId, providers)
    ensures IsIndexOf(ById(providers), SortBy(ProviderId, providers))
    ensures forall p :: p in providers <==> p in SortBy(ProviderId, providers)
  {
    var sorted := SortBy(ProviderId, providers);
    var byId := ById(providers);
    SameElements(providers, sorted);
    DistinctByPermuted(ProviderId, providers, sorted);
    forall i | 0 <= i < |sorted|
      ensures sorted[i].id in byId && byId[sorted[i].id] == sorted[i]
    {
      assert sorted[i] in sorted && sorted[i] in providers;
      ByIdFinds(providers, sorted[i]);
    }
  }

  lemma ByIdFinds(providers: seq<Provider>, p: Provider)
    requires DistinctBy(ProviderId, providers) && p in providers
    ensures p.id in ById(providers) && ById(providers)[p.id] == p
  {
    var q := ById(providers)[p.id];
    var i :| 0 <= i < |providers| && providers[i] == p;
    var j :| 0 <= j < |providers| && providers[j] == q;
    assert ProviderId(providers[i]) == ProviderId(providers[j]);
  }

  lemma StepsKeepDefaults(byId: map<int, Provider>, sorted: seq<Provider>, jobs: seq<Job>)
    requires IsIndexOf(byId, sorted) && forall j :: j in jobs ==> JobOk(byId, j)
    ensures StartsWith(DefaultRows(sorted), DefaultNorms(sorted), |sorted|, Steps(byId, Started(byId, sorted), jobs).catalog)
  {
    var b := Started(byId, sorted);
    assert DefaultKeys(sorted)[..|sorted|] == DefaultKeys(sorted);
    DefaultsOnly(byId, sorted, DefaultKeys(sorted), |sorted|);
    StartedOk(byId, sorted);
    StepsGrow(byId, b, jobs);
    StartStays(DefaultRows(sorted), DefaultNorms(sorted), b.catalog, Steps(byId, b, jobs).catalog);
  }

  lemma StartedOk(byId: map<int, Provider>, sorted: seq<Provider>)
    ensures BuildOk(byId, Started(byId, sorted), [])
  {
    RememberAllOk(byId, Catalog(map[], []), DefaultKeys(sorted));
  }

  lemma StartStays(rows: seq<ModelKey>, norms: seq<(int, string)>, c: Catalog, d: Catalog)
    requires |rows| == |norms| && StartsWith(rows, norms, |rows|, c) && Grows(c, d)
    ensures StartsWith(rows, norms, |rows|, d)
  {
    assert forall i :: 0 <= i < |c.order| ==> d.order[i] == c.order[i];
  }

  /** After the whole conversion the first rows are still the default models. */
  lemma ConversionDefaultsFirst(providers: seq<Provider>, policies: seq<Policy>)
    requires DistinctBy(ProviderId, providers)
    ensures var sorted := SortBy(ProviderId, providers);
            StartsWith(DefaultRows(sorted), DefaultNorms(sorted), |sorted|, Built(providers, policies).catalog)
  {
    SortedProviders(providers);
    JobsOk(SortBy(PolicyId, policies), ById(providers));
    StepsKeepDefaults(ById(providers), SortBy(ProviderId, providers), Jobs(SortBy(PolicyId, policies), ById(providers)));
  }

  /** Any name that denotes a provider's default model resolves to the
      default's own spelling. */
  lemma DefaultSpellingWins(providers: seq<Provider>, policies: seq<Policy>, p: Provider, k: ModelKey)
    requires DistinctBy(ProviderId, providers) && p in providers
    requires NormKey(ById(providers), k) == (p.id, Fold(Strip(p.defaultModel)))
    ensures Canonical(ById(providers), Built(providers, policies).catalog, k) == DefaultRow(p)
  {
    ConversionDefaultsFirst(providers, policies);
    SortedProviders(providers);
    var sorted := SortBy(ProviderId, providers);
    var i :| 0 <= i < |sorted| && sorted[i] == p;
    assert DefaultRows(sorted)[i] == DefaultRow(p) && DefaultNorms(sorted)[i] == NormKey(ById(providers), k);
  }
}
