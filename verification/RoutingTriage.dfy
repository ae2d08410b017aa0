/** What becomes of triage through upgrade and downgrade, in terms of the old
    fields before the upgrade. */
module RoutingTriage {
  import opened Common
  import opened Text
  import opened Chains
  import opened RoutingTypes
  import opened RoutingCatalog
  import opened RoutingOld
  import opened RoutingPlan
  import opened RoutingInvariants
  import opened RoutingTheorems
  import opened RoutingDefaults
  import opened RoutingDb
  import opened RoutingRoundTrip

  // ---- the head ----

  /** Triage starts with a blank name for which there is no default either,
      beside an agent with a named model at the same provider. */
  predicate LosesTriageHead(p: Policy, byId: map<int, Provider>) {
    var triage, agent := Start(p, byId, Triage), Start(p, byId, Agent);
    && triage.Some? && agent.Some? && agent.value.provider == triage.value.provider
    && CanonName(byId, triage.value) == "" && CanonName(byId, agent.value) != ""
  }

  /** A resolved head has the provider of the old start, and is blank as it is. */
  lemma HeadFromStart(providers: seq<Provider>, policies: seq<Policy>, p: Policy, task: Task)
    requires DistinctBy(PolicyId, policies) && p in policies && task != Vision
    ensures var c, start := ResolvedOrEmpty(Conversion(providers, policies), p.id, task), Start(p, ById(providers), task);
            && (c == [] <==> start.None?)
            && (c != [] ==> c[0].provider == start.value.provider &&
                            (c[0].model == "" <==> CanonName(ById(providers), start.value) == ""))
  {
    var byId := ById(providers);
    ConversionPreservesMeaning(providers, policies, p, task);
    HeadName(providers, policies, p, task);
    var now, was := Resolve(Conversion(providers, policies), p.id, task), RuntimeChain(p, byId, task);
    if was.Some? {
      OldChainShape(p, byId, task);
      DedupedHead(Map(Norm(byId), was.value));
      assert Map(Norm(byId), now.value)[0] == NormKey(byId, was.value[0]);
      var c, k := now.value, was.value[0];
      assert |c[0].model| == |Fold(c[0].model)| == |CanonName(byId, k)|;
    }
  }

  /** A provider numbered 0 reads as "not set", but then the agent has it too. */
  lemma ZeroIsAgents(p: Policy, byId: map<int, Provider>)
    requires Start(p, byId, Triage).Some? && Start(p, byId, Triage).value.provider == 0
    ensures Start(p, byId, Agent).Some? && Start(p, byId, Agent).value.provider == 0
  {
  }

  /** Right after the upgrade, the planned triage head is restorable exactly for
      queues that do not start with such a blank name. */
  lemma RestorableExactly(providers: seq<Provider>, policies: seq<Policy>, p: Policy)
    requires DistinctBy(PolicyId, policies) && p in policies && Start(p, ById(providers), Triage).Some?
    ensures var plan := Conversion(providers, policies);
            var triage, agent := ResolvedOrEmpty(plan, p.id, Triage), ResolvedOrEmpty(plan, p.id, Agent);
            triage != [] && (TriageRestorable(triage[0], HeadOf(agent)) <==> !LosesTriageHead(p, ById(providers)))
  {
    var byId := ById(providers);
    HeadFromStart(providers, policies, p, Triage);
    HeadFromStart(providers, policies, p, Agent);
    if Start(p, byId, Triage).value.provider == 0 {
      ZeroIsAgents(p, byId);
    }
  }

  // ---- the tail ----

  lemma {:induction false} DedupedTail<T>(s: seq<T>, f: seq<T>)
    ensures Deduped(s + Deduped(f)) == Deduped(s + f)
  {
    if f != [] {
      var n := |f| - 1;
      DedupedTail(s, f[..n]);
      assert (s + f)[..|s + f| - 1] == s + f[..n];
      DedupedElements(f[..n]);
      if f[n] !in f[..n] {
        DedupedSnoc(s + Deduped(f[..n]), f[n]);
        assert s + Deduped(f) == s + Deduped(f[..n]) + [f[n]];
        DedupedSnoc(s + f[..n], f[n]);
        assert f[n] in s + Deduped(f[..n]) <==> f[n] in s + f[..n];
      } else {
        assert f[n] in s + f[..n];
      }
      assert s + f == s + f[..n] + [f[n]];
    }
  }

  lemma DedupedSnoc<T>(s: seq<T>, x: T)
    ensures Deduped(s + [x]) == if x in s then Deduped(s) else Deduped(s) + [x]
  {
    assert (s + [x])[..|s|] == s;
  }

  lemma {:induction false} DedupedFresh<T>(x: T, f: seq<T>)
    requires x !in f
    ensures Deduped([x] + f) == [x] + Deduped(f)
  {
    if f == [] {
      assert [x] + f == [x] && [x][..0] == [];
    } else {
      var n := |f| - 1;
      DedupedFresh(x, f[..n]);
      assert ([x] + f)[..|[x] + f| - 1] == [x] + f[..n];
      assert f[n] in f;
    }
  }

  /** Replacing the head of a deduplicated chain gives the chain with the other
      head exactly when the old head is the same or not among the fallbacks. */
  lemma TailSwaps<T>(x: T, y: T, f: seq<T>)
    ensures Deduped([x] + f) != []
    ensures Deduped([y] + Deduped([x] + f)[1..]) == Deduped([y] + f) <==> x == y || x !in f
  {
    var d := Deduped([x] + f);
    DedupedHead([x] + f);
    DedupedElements([x] + f);
    DedupedElements([y] + f);
    DedupedElements([y] + d[1..]);
    assert d == [x] + d[1..];
    if x == y {
      DedupedDistinct(d);
    } else if x !in f {
      DedupedFresh(x, f);
      assert d[1..] == Deduped(f);
      DedupedTail([y], f);
    } else {
      assert x in Deduped([y] + f);
      assert x !in d[1..];
    }
  }

  lemma {:induction false} AllSame<T>(y: T, f: seq<T>)
    requires forall i :: 0 <= i < |f| ==> f[i] == y
    ensures Deduped([y] + f) == Deduped([y])
  {
    if f == [] {
      assert [y] + f == [y];
    } else {
      var n := |f| - 1;
      AllSame(y, f[..n]);
      DedupedSnoc([y] + f[..n], f[n]);
      assert [y] + f == [y] + f[..n] + [f[n]];
    }
  }

  lemma OnlyHead<T>(y: T, f: seq<T>)
    ensures Deduped([y]) == Deduped([y] + f) <==> forall x :: x in f ==> x == y
  {
    if forall x :: x in f ==> x == y {
      assert forall i :: 0 <= i < |f| ==> f[i] in f;
      AllSame(y, f);
    } else {
      var x :| x in f && x != y;
      DedupedDistinct([y]);
      DedupedElements([y] + f);
      assert x in [y] + f;
    }
  }

  /** The fallbacks, as the names they denote. */
  function FallbackNames(p: Policy, byId: map<int, Provider>): seq<(int, string)> {
    Map(Norm(byId), FallbackKeys(p.fallback, byId))
  }

  /** The agent's head is triage's, or no fallback; without an agent, the
      fallbacks add nothing to triage. */
  ghost predicate KeepsTriageTail(p: Policy, byId: map<int, Provider>)
    requires Start(p, byId, Triage).Some?
  {
    var triage := NormKey(byId, Start(p, byId, Triage).value);
    match Start(p, byId, Agent)
    case None => forall x :: x in FallbackNames(p, byId) ==> x == triage
    case Some(a) => NormKey(byId, a) == triage || NormKey(byId, a) !in FallbackNames(p, byId)
  }

  lemma MapCons(byId: map<int, Provider>, k: ModelKey, tail: seq<ModelKey>)
    ensures Map(Norm(byId), [k] + tail) == [NormKey(byId, k)] + Map(Norm(byId), tail)
  {
  }

  /** The names an old chain denotes: its start followed by the fallbacks. */
  lemma OldNames(p: Policy, byId: map<int, Provider>, task: Task, start: ModelKey)
    requires (task == Agent || task == Triage) && Start(p, byId, task) == Some(start)
    ensures OldChain(p, byId, task).Some?
    ensures Deduped(Map(Norm(byId), OldChain(p, byId, task).value)) == Deduped([NormKey(byId, start)] + FallbackNames(p, byId))
  {
    DedupedBeforeMap(Norm(byId), [start] + FallbackKeys(p.fallback, byId));
    MapCons(byId, start, FallbackKeys(p.fallback, byId));
  }

  lemma ChainNames(providers: seq<Provider>, policies: seq<Policy>, p: Policy, task: Task)
    requires DistinctBy(PolicyId, policies) && p in policies && (task == Agent || task == Triage)
    ensures var byId := ById(providers);
            var c, start := ResolvedOrEmpty(Conversion(providers, policies), p.id, task), Start(p, byId, task);
            && (c == [] <==> start.None?)
            && (start.Some? ==> Map(Norm(byId), c) == Deduped([NormKey(byId, start.value)] + FallbackNames(p, byId)))
  {
    HeadFromStart(providers, policies, p, task);
    ConversionPreservesMeaning(providers, policies, p, task);
    var start := Start(p, ById(providers), task);
    if start.Some? {
      OldNames(p, ById(providers), task, start.value);
    }
  }

  ghost predicate OneToOne(byId: map<int, Provider>, ks: seq<ModelKey>) {
    forall x, y :: x in ks && y in ks && NormKey(byId, x) == NormKey(byId, y) ==> x == y
  }

  lemma RowsOneToOne(byId: map<int, Provider>, c: Catalog, ks: seq<ModelKey>)
    requires CatalogOk(byId, c) && forall k :: k in ks ==> k in c.order
    ensures OneToOne(byId, ks)
  {
    forall x, y | x in ks && y in ks && NormKey(byId, x) == NormKey(byId, y)
      ensures x == y
    {
      RowDenotesItself(byId, c, x);
      RowDenotesItself(byId, c, y);
    }
  }

  lemma ResolvedRows(providers: seq<Provider>, policies: seq<Policy>, p: Policy, task: Task)
    requires DistinctBy(PolicyId, policies) && p in policies
    ensures forall k :: k in ResolvedOrEmpty(Conversion(providers, policies), p.id, task) ==>
              k in Built(providers, policies).catalog.order
  {
    var byId, sorted, b := ById(providers), SortBy(PolicyId, policies), Built(providers, policies);
    ConversionFinished(providers, policies);
    var i :| 0 <= i < |sorted| && sorted[i] == p;
    AnswersBounded(byId, b, Jobs(sorted, byId));
    ResolveAt(byId, sorted, b, i, IndexOf(task));
    var a := b.answers[6 * i + IndexOf(task)];
    if a.Some? {
      assert ChainOk(b.catalog, b.profiles[a.value].models);
    }
  }

  /** One-to-one names decide equality of deduplicated chains. */
  lemma SameByNames(byId: map<int, Provider>, raw: seq<ModelKey>, chain: seq<ModelKey>)
    requires OneToOne(byId, raw + chain)
    ensures Deduped(raw) == chain <==> Deduped(Map(Norm(byId), raw)) == Map(Norm(byId), chain)
  {
    forall x, y | x in raw && y in raw && Norm(byId)(x) == Norm(byId)(y)
      ensures x == y
    {
      assert x in raw + chain && y in raw + chain;
    }
    DedupedMapInjective(Norm(byId), raw);
    DedupedElements(raw);
    var d := Deduped(raw);
    if Map(Norm(byId), d) == Map(Norm(byId), chain) {
      forall i | 0 <= i < |d|
        ensures d[i] == chain[i]
      {
        assert d[i] in d && d[i] in raw + chain && chain[i] in raw + chain;
        assert Map(Norm(byId), d)[i] == Map(Norm(byId), chain)[i];
      }
    }
  }

  lemma TailByNames(byId: map<int, Provider>, c: Catalog, triage: seq<ModelKey>, agent: seq<ModelKey>)
    requires CatalogOk(byId, c) && triage != []
    requires forall k :: k in triage || k in agent ==> k in c.order
    ensures TailShared(triage, agent) <==>
            Deduped([NormKey(byId, triage[0])] + Map(Norm(byId), TailOf(agent))) == Map(Norm(byId), triage)
  {
    var raw := [triage[0]] + TailOf(agent);
    TailRows(c, triage, agent);
    RowsOneToOne(byId, c, raw + triage);
    SameByNames(byId, raw, triage);
    MapCons(byId, triage[0], TailOf(agent));
  }

  lemma TailRows(c: Catalog, triage: seq<ModelKey>, agent: seq<ModelKey>)
    requires triage != [] && forall k :: k in triage || k in agent ==> k in c.order
    ensures forall k :: k in [triage[0]] + TailOf(agent) + triage ==> k in c.order
  {
    assert triage[0] in triage;
    assert forall k :: k in TailOf(agent) ==> k in agent;
  }

  function Rest<T>(s: seq<T>): seq<T> {
    if s == [] then [] else s[1..]
  }

  /** The same question about names. */
  lemma NamesSharedExactly<T>(t: T, a: Option<T>, f: seq<T>)
    ensures var agent := if a.None? then [] else Deduped([a.value] + f);
            Deduped([t] + Rest(agent)) == Deduped([t] + f) <==>
            match a case None => (forall x :: x in f ==> x == t) case Some(x) => x == t || x !in f
  {
    if a.None? {
      OnlyHead(t, f);
      assert [t] + Rest<T>([]) == [t];
    } else {
      TailSwaps(a.value, t, f);
    }
  }

  lemma MapRest(byId: map<int, Provider>, c: seq<ModelKey>)
    ensures Map(Norm(byId), TailOf(c)) == Rest(Map(Norm(byId), c))
  {
  }

  lemma StartNames(p: Policy, byId: map<int, Provider>, task: Task) returns (name: Option<(int, string)>)
    ensures name == match Start(p, byId, task) case None => None case Some(k) => Some(NormKey(byId, k))
  {
    name := match Start(p, byId, task) case None => None case Some(k) => Some(NormKey(byId, k));
  }

  lemma TailSharedExactly(providers: seq<Provider>, policies: seq<Policy>, p: Policy)
    requires DistinctBy(PolicyId, policies) && p in policies && Start(p, ById(providers), Triage).Some?
    ensures var plan := Conversion(providers, policies);
            var triage, agent := ResolvedOrEmpty(plan, p.id, Triage), ResolvedOrEmpty(plan, p.id, Agent);
            triage != [] && (TailShared(triage, agent) <==> KeepsTriageTail(p, ById(providers)))
  {
    var plan := Conversion(providers, policies);
    ChainNames(providers, policies, p, Triage);
    ChainNames(providers, policies, p, Agent);
    ResolvedRows(providers, policies, p, Triage);
    ResolvedRows(providers, policies, p, Agent);
    ConversionFinished(providers, policies);
    TailFromNames(p, ById(providers), Built(providers, policies).catalog,
                  ResolvedOrEmpty(plan, p.id, Triage), ResolvedOrEmpty(plan, p.id, Agent));
  }

  lemma TailFromNames(p: Policy, byId: map<int, Provider>, c: Catalog, triage: seq<ModelKey>, agent: seq<ModelKey>)
    requires CatalogOk(byId, c) && triage != [] && forall k :: k in triage || k in agent ==> k in c.order
    requires Start(p, byId, Triage).Some? && (agent == [] <==> Start(p, byId, Agent).None?)
    requires Map(Norm(byId), triage) == Deduped([NormKey(byId, Start(p, byId, Triage).value)] + FallbackNames(p, byId))
    requires agent != [] ==>
      Map(Norm(byId), agent) == Deduped([NormKey(byId, Start(p, byId, Agent).value)] + FallbackNames(p, byId))
    ensures TailShared(triage, agent) <==> KeepsTriageTail(p, byId)
  {
    var t, f := NormKey(byId, Start(p, byId, Triage).value), FallbackNames(p, byId);
    var a := StartNames(p, byId, Agent);
    TailByNames(byId, c, triage, agent);
    DedupedHead([t] + f);
    assert Map(Norm(byId), triage)[0] == t;
    MapRest(byId, agent);
    NamesSharedExactly(t, a, f);
  }

  // ---- both ----

  /** Upgrade then downgrade, for any ascending inserted ids: triage starts with
      the planned head exactly unless `LosesTriageHead`, and has the whole
      planned chain exactly when it also `KeepsTriageTail`. */
  lemma TriageComesBackExactly(providers: seq<Provider>, policies: seq<Policy>, modelIds: seq<int>, profileIds: seq<int>, p: Policy)
    requires DistinctBy(ProviderId, providers) && DistinctBy(PolicyId, policies) && p in policies
    requires |modelIds| == |Conversion(providers, policies).models| && StrictlyAscending(modelIds)
    requires |profileIds| == |Conversion(providers, policies).profiles| && StrictlyAscending(profileIds)
    requires Start(p, ById(providers), Triage).Some?
    ensures Writable(Conversion(providers, policies), modelIds, profileIds)
    ensures var byId, plan := ById(providers), Conversion(providers, policies);
            var t := Written(plan, modelIds, profileIds);
            var byId', p' := ById(RestoredProviders(t, providers)), RestorePolicy(t, p.id, p.validId);
            && Resolve(plan, p.id, Triage).Some?
            && (Start(p', byId', Triage) == HeadOf(ResolvedOrEmpty(plan, p.id, Triage)) <==> !LosesTriageHead(p, byId))
            && (OldChain(p', byId', Triage) == Resolve(plan, p.id, Triage) <==>
                  !LosesTriageHead(p, byId) && KeepsTriageTail(p, byId))
  {
    DowngradeUndoesUpgrade(providers, policies, modelIds, profileIds, p);
    RestorableExactly(providers, policies, p);
    TailSharedExactly(providers, policies, p);
  }

  /** With nonblank default models every triage head comes back. */
  lemma NonblankDefaultsKeepHeads(providers: seq<Provider>, p: Policy)
    requires forall q :: q in providers ==> Strip(q.defaultModel) != ""
    ensures !LosesTriageHead(p, ById(providers))
  {
    var byId := ById(providers);
    if Start(p, byId, Triage).Some? {
      assert byId[Start(p, byId, Triage).value.provider] in providers;
    }
  }
}
