/** Which plans the new tables accept.  Keys, references and shapes always fit;
    the length of model names and the index on profile names are met exactly
    under conditions on the names the old fields hold. */
module RoutingSchema {
  import opened Common
  import opened Text
  import opened Chains
  import opened RoutingTypes
  import opened RoutingCatalog
  import opened RoutingOld
  import opened RoutingNames
  import opened RoutingPlan
  import opened RoutingInvariants
  import opened RoutingTheorems
  import opened RoutingDefaults
  import opened RoutingSurplus

  // ---- catalog rows are the names the old fields mention ----

  ghost predicate IsDefault(providers: seq<Provider>, k: ModelKey) {
    exists p :: p in providers && k == ModelKey(p.id, p.defaultModel)
  }

  ghost predicate IsUsed(providers: seq<Provider>, policies: seq<Policy>, k: ModelKey) {
    exists p, task :: p in policies && RuntimeChain(p, ById(providers), task).Some? &&
                      k in RuntimeChain(p, ById(providers), task).value
  }

  ghost predicate Mentioned(providers: seq<Provider>, policies: seq<Policy>, k: ModelKey) {
    IsDefault(providers, k) || IsUsed(providers, policies, k)
  }

  /** A listed row of a catalog built from `ks` comes from one of them. */
  lemma RowFromNames(byId: map<int, Provider>, c: Catalog, ks: seq<ModelKey>, row: ModelKey) returns (k: ModelKey)
    requires CatalogOk(byId, c) && AllKnown(byId, c, ks) && row in Map(Canonise(byId, c), ks)
    ensures k in ks && NormKey(byId, k) == NormKey(byId, row)
  {
    MapMembers(Canonise(byId, c), ks, row);
    k :| k in ks && Canonical(byId, c, k) == row;
    CanonicalDenotes(byId, c, k);
  }

  lemma DefaultKeysAre(providers: seq<Provider>, sorted: seq<Provider>, k: ModelKey)
    requires sorted == SortBy(ProviderId, providers)
    ensures k in DefaultKeys(sorted) <==> IsDefault(providers, k)
  {
    SameElements(providers, sorted);
    if k in DefaultKeys(sorted) {
      var i :| 0 <= i < |sorted| && DefaultKeys(sorted)[i] == k;
      assert sorted[i] in sorted;
    }
    if p :| p in providers && k == ModelKey(p.id, p.defaultModel) {
      var i :| 0 <= i < |sorted| && sorted[i] == p;
      assert DefaultKeys(sorted)[i] == k;
    }
  }

  /** Rows made in step 1 denote default models. */
  lemma FirstRowsMentioned(providers: seq<Provider>, i: nat) returns (k: ModelKey)
    requires i < |Started(ById(providers), SortBy(ProviderId, providers)).catalog.order|
    ensures IsDefault(providers, k)
    ensures NormKey(ById(providers), k) ==
            NormKey(ById(providers), Started(ById(providers), SortBy(ProviderId, providers)).catalog.order[i])
  {
    var byId, sorted := ById(providers), SortBy(ProviderId, providers);
    var c := Started(byId, sorted).catalog;
    RememberAllOk(byId, Catalog(map[], []), DefaultKeys(sorted));
    NewRowsAreMet(byId, Catalog(map[], []), DefaultKeys(sorted), i);
    k := RowFromNames(byId, c, DefaultKeys(sorted), c.order[i]);
    DefaultKeysAre(providers, sorted, k);
  }

  lemma ChainMember(byId: map<int, Provider>, sorted: seq<Policy>, b: Build, j: nat, k: ModelKey)
    returns (i: nat, t: nat, r: ModelKey)
    requires Finished(byId, sorted, b) && j < |b.profiles| && Some(j) in b.answers && k in b.profiles[j].models
    ensures i < |sorted| && t < 6 && RuntimeChain(sorted[i], byId, TaskAt(t)).Some?
    ensures r in RuntimeChain(sorted[i], byId, TaskAt(t)).value && NormKey(byId, r) == NormKey(byId, k)
  {
    var x :| 0 <= x < |b.answers| && b.answers[x] == Some(j);
    i, t := x / 6, x % 6;
    assert x == 6 * i + t;
    AnswerAt(byId, sorted, b, i, t);
    var raw := RuntimeChain(sorted[i], byId, TaskAt(t)).value;
    DedupedElements(Map(Canonise(byId, b.catalog), raw));
    r := RowFromNames(byId, b.catalog, raw, k);
  }

  /** Later rows denote models of runtime chains. */
  lemma LaterRowsMentioned(providers: seq<Provider>, policies: seq<Policy>, k: ModelKey) returns (r: ModelKey)
    requires var b := Built(providers, policies);
             InChain(b.profiles, k) && forall j: nat :: j < |b.profiles| ==> Some(j) in b.answers
    ensures IsUsed(providers, policies, r) && NormKey(ById(providers), r) == NormKey(ById(providers), k)
  {
    var byId, sorted, b := ById(providers), SortBy(PolicyId, policies), Built(providers, policies);
    ConversionFinished(providers, policies);
    var j: nat :| j < |b.profiles| && k in b.profiles[j].models;
    var i, t, r' := ChainMember(byId, sorted, b, j, k);
    r := r';
    assert sorted[i] in sorted && sorted[i] in policies;
  }

  lemma BuiltFromDefaults(providers: seq<Provider>, policies: seq<Policy>)
    ensures var s, b := Started(ById(providers), SortBy(ProviderId, providers)), Built(providers, policies);
            Grows(s.catalog, b.catalog) && NoSurplus(|s.catalog.order|, b)
  {
    var byId, sorted := ById(providers), SortBy(ProviderId, providers);
    var s, jobs := Started(byId, sorted), Jobs(SortBy(PolicyId, policies), byId);
    StartedOk(byId, sorted);
    JobsOk(SortBy(PolicyId, policies), byId);
    StepsGrow(byId, s, jobs);
    StepsNoSurplus(byId, |s.catalog.order|, s, jobs);
  }

  lemma RowMentioned(providers: seq<Provider>, policies: seq<Policy>, row: ModelKey) returns (k: ModelKey)
    requires row in Built(providers, policies).catalog.order
    ensures Mentioned(providers, policies, k) && NormKey(ById(providers), k) == NormKey(ById(providers), row)
  {
    var s, b := Started(ById(providers), SortBy(ProviderId, providers)), Built(providers, policies);
    BuiltFromDefaults(providers, policies);
    var i: nat :| i < |b.catalog.order| && b.catalog.order[i] == row;
    if i < |s.catalog.order| {
      assert s.catalog.order[i] == row;
      k := FirstRowsMentioned(providers, i);
    } else {
      k := LaterRowsMentioned(providers, policies, row);
    }
  }

  lemma MentionedKnown(providers: seq<Provider>, policies: seq<Policy>, k: ModelKey)
    requires Mentioned(providers, policies, k)
    ensures Known(ById(providers), Built(providers, policies).catalog, k)
  {
    var byId, b := ById(providers), Built(providers, policies);
    var sorted := SortBy(PolicyId, policies);
    if IsDefault(providers, k) {
      BuiltFromDefaults(providers, policies);
      DefaultKeysAre(providers, SortBy(ProviderId, providers), k);
      RememberAllOk(byId, Catalog(map[], []), DefaultKeys(SortBy(ProviderId, providers)));
    } else {
      ConversionFinished(providers, policies);
      var p, task :| p in policies && RuntimeChain(p, byId, task).Some? && k in RuntimeChain(p, byId, task).value;
      var i :| 0 <= i < |sorted| && sorted[i] == p;
      AnswerAt(byId, sorted, b, i, IndexOf(task));
    }
  }

  lemma OrderIsModels(providers: seq<Provider>, policies: seq<Policy>, k: ModelKey)
    ensures k in Built(providers, policies).catalog.order <==> IsRow(Conversion(providers, policies), k)
  {
    ConversionFinished(providers, policies);
    RowOf(ById(providers), SortBy(PolicyId, policies), Built(providers, policies), k);
  }

  /** The catalog has a row for a name exactly when some default model or some
      runtime chain mentions that name, up to spaces around it and case. */
  lemma RowsAreMentionedNames(providers: seq<Provider>, policies: seq<Policy>, nk: (int, string))
    ensures (exists m :: m in Conversion(providers, policies).models && (m.provider, Fold(m.model)) == nk) <==>
            (exists k :: Mentioned(providers, policies, k) && NormKey(ById(providers), k) == nk)
  {
    var byId, b := ById(providers), Built(providers, policies);
    ConversionFinished(providers, policies);
    if m :| m in Conversion(providers, policies).models && (m.provider, Fold(m.model)) == nk {
      OrderIsModels(providers, policies, m.Key());
      RowDenotesItself(byId, b.catalog, m.Key());
      var k := RowMentioned(providers, policies, m.Key());
      assert Mentioned(providers, policies, k);
    }
    if k :| Mentioned(providers, policies, k) && NormKey(byId, k) == nk {
      MentionedKnown(providers, policies, k);
      var row := Canonical(byId, b.catalog, k);
      CanonicalDenotes(byId, b.catalog, k);
      RowDenotesItself(byId, b.catalog, row);
      OrderIsModels(providers, policies, row);
      var m :| m in Conversion(providers, policies).models && m.Key() == row;
    }
  }

  // ---- model names fit their column ----

  ghost predicate ModelNamesFit(plan: Plan) {
    forall m :: m in plan.models ==> |m.model| <= 200
  }

  /** No mentioned name is too long, once stripped and with the default for a blank one. */
  ghost predicate MentionedNamesFit(providers: seq<Provider>, policies: seq<Policy>) {
    forall k :: Mentioned(providers, policies, k) ==> |CanonName(ById(providers), k)| <= 200
  }

  /** Every row fits exactly when every mentioned name does. */
  lemma ModelNamesFitExactly(providers: seq<Provider>, policies: seq<Policy>)
    ensures ModelNamesFit(Conversion(providers, policies)) <==> MentionedNamesFit(providers, policies)
  {
    var byId, plan := ById(providers), Conversion(providers, policies);
    if ModelNamesFit(plan) {
      forall k | Mentioned(providers, policies, k)
        ensures |CanonName(byId, k)| <= 200
      {
        RowsAreMentionedNames(providers, policies, NormKey(byId, k));
        var m :| m in plan.models && (m.provider, Fold(m.model)) == NormKey(byId, k);
        assert |m.model| == |Fold(m.model)| == |CanonName(byId, k)|;
      }
    }
    if MentionedNamesFit(providers, policies) {
      forall m | m in plan.models
        ensures |m.model| <= 200
      {
        RowsAreMentionedNames(providers, policies, (m.provider, Fold(m.model)));
        var k :| Mentioned(providers, policies, k) && NormKey(byId, k) == (m.provider, Fold(m.model));
        assert |m.model| == |Fold(m.model)| == |CanonName(byId, k)|;
      }
    }
  }

  // ---- profile names under the index ----

  /** The index on profile names takes them all. */
  ghost predicate NamesAccepted(names: seq<string>) {
    forall i, j :: 0 <= i < j < |names| ==> IndexKey(names[i]) != IndexKey(names[j])
  }

  function NameList(profiles: seq<ProfilePlan>): (r: seq<string>)
    ensures |r| == |profiles| && forall i :: 0 <= i < |r| ==> r[i] == profiles[i].name
  {
    seq(|profiles|, i requires 0 <= i < |profiles| => profiles[i].name)
  }

  ghost predicate ChainsStart(byId: map<int, Provider>, profiles: seq<ProfilePlan>) {
    forall i :: 0 <= i < |profiles| ==> profiles[i].models != [] && profiles[i].models[0].provider in byId
  }

  /** The readable names the profiles would have without numbers and cuts. */
  function BaseNames(byId: map<int, Provider>, profiles: seq<ProfilePlan>): (r: seq<string>)
    requires ChainsStart(byId, profiles)
    ensures |r| == |profiles|
  {
    seq(|profiles|, i requires 0 <= i < |profiles| => ProfileBaseName(profiles[i].models, byId))
  }

  function KeyOf(base: string, n: nat): string {
    IndexKey(Candidate(base, n))
  }

  lemma NumberedKey(base: string, n: nat)
    requires n >= 2
    ensures KeyOf(base, n) == Fold(PrefixSlice(base, PROFILE_NAME_MAX - |Tail(n)|)) + Tail(n)
  {
    var p := PrefixSlice(base, PROFILE_NAME_MAX - |Tail(n)|);
    FoldAppend(p, Tail(n));
    assert Fold(Tail(n)) == Tail(n);
    assert (p + Tail(n))[|p + Tail(n)| - 1] == ')';
  }

  lemma KeysDiffer(base: string, n: nat, m: nat)
    requires 2 <= n && 2 <= m && KeyOf(base, n) == KeyOf(base, m)
    ensures n == m
  {
    NumberedKey(base, n);
    NumberedKey(base, m);
    TailsEqual(Fold(PrefixSlice(base, PROFILE_NAME_MAX - |Tail(n)|)), Fold(PrefixSlice(base, PROFILE_NAME_MAX - |Tail(m)|)), n, m);
  }

  function CandidateKeys(base: string): (r: nat -> string)
    ensures forall n: nat :: r(n) == KeyOf(base, n)
    ensures Differ(r)
  {
    forall n: nat, m: nat | 2 <= n && 2 <= m && KeyOf(base, n) == KeyOf(base, m)
      ensures n == m
    {
      KeysDiffer(base, n, m);
    }
    (n: nat) => KeyOf(base, n)
  }

  function Elements(names: seq<string>): set<string> {
    set x | x in names
  }

  function ElementKeys(names: seq<string>): set<string> {
    set x | x in names :: IndexKey(x)
  }

  /** The planner's naming, from the base names alone. */
  function Naming(bases: seq<string>): (r: seq<string>)
    ensures |r| == |bases|
  {
    if bases == [] then []
    else
      var n := |bases| - 1;
      var front := Naming(bases[..n]);
      front + [FreeName(bases[n], Elements(front))]
  }

  /** The same naming, if "taken" were decided as the index decides it. */
  function IndexNaming(bases: seq<string>): (r: seq<string>)
    ensures |r| == |bases|
  {
    if bases == [] then []
    else
      var n := |bases| - 1;
      var front := IndexNaming(bases[..n]);
      front + [Candidate(bases[n], FirstFree(CandidateKeys(bases[n]), ElementKeys(front), 1))]
  }

  lemma {:induction false} IndexNamingAccepted(bases: seq<string>)
    ensures NamesAccepted(IndexNaming(bases))
  {
    if bases != [] {
      var n := |bases| - 1;
      var front := IndexNaming(bases[..n]);
      IndexNamingAccepted(bases[..n]);
      var k := FirstFree(CandidateKeys(bases[n]), ElementKeys(front), 1);
      assert KeyOf(bases[n], k) !in ElementKeys(front);
      forall i | 0 <= i < n
        ensures IndexKey(front[i]) != KeyOf(bases[n], k)
      {
        assert front[i] in front;
      }
    }
  }

  /** Where the index takes the name chosen, comparing its way chooses the same. */
  lemma SameChoice(base: string, front: seq<string>)
    requires forall x :: x in front ==> IndexKey(x) != IndexKey(FreeName(base, Elements(front)))
    ensures FirstFree(CandidateKeys(base), ElementKeys(front), 1) == FirstFree(Candidates(base), Elements(front), 1)
  {
    var n := FirstFree(Candidates(base), Elements(front), 1);
    forall m: nat | 1 <= m < n
      ensures CandidateKeys(base)(m) in ElementKeys(front)
    {
      assert Candidates(base)(m) in Elements(front);
      assert Candidate(base, m) in front;
    }
    FirstFreeUnique(CandidateKeys(base), ElementKeys(front), n);
  }

  /** One more base name. */
  lemma NextAccepted(base: string, front: seq<string>, indexFront: seq<string>)
    requires indexFront == front
    requires NamesAccepted(front + [FreeName(base, Elements(front))])
    ensures Candidate(base, FirstFree(CandidateKeys(base), ElementKeys(indexFront), 1)) == FreeName(base, Elements(front))
  {
    var names := front + [FreeName(base, Elements(front))];
    forall x | x in front
      ensures IndexKey(x) != IndexKey(FreeName(base, Elements(front)))
    {
      var i :| 0 <= i < |front| && front[i] == x;
      assert names[i] == x && names[|front|] == FreeName(base, Elements(front));
    }
    SameChoice(base, front);
  }

  lemma AcceptedPrefix(names: seq<string>, x: string)
    requires NamesAccepted(names + [x])
    ensures NamesAccepted(names)
  {
    assert forall i :: 0 <= i < |names| ==> (names + [x])[i] == names[i];
  }

  lemma {:induction false} AcceptedNamesAgree(bases: seq<string>)
    requires NamesAccepted(Naming(bases))
    ensures IndexNaming(bases) == Naming(bases)
  {
    if bases != [] {
      var n := |bases| - 1;
      var front := Naming(bases[..n]);
      AcceptedPrefix(front, FreeName(bases[n], Elements(front)));
      AcceptedNamesAgree(bases[..n]);
      NextAccepted(bases[n], front, IndexNaming(bases[..n]));
    }
  }

  /** The index takes the planner's names exactly when naming that compares
      like the index would have chosen the very same names. */
  lemma NamingAcceptedExactly(bases: seq<string>)
    ensures NamesAccepted(Naming(bases)) <==> IndexNaming(bases) == Naming(bases)
  {
    IndexNamingAccepted(bases);
    if NamesAccepted(Naming(bases)) {
      AcceptedNamesAgree(bases);
    }
  }

  /** A profile's name is the free name for its base. */
  lemma NamedIsFree(byId: map<int, Provider>, profiles: seq<ProfilePlan>, i: nat)
    requires i < |profiles| && NamedFirstFree(byId, profiles, i)
    ensures profiles[i].name == FreeName(ProfileBaseName(profiles[i].models, byId), NamesOf(profiles[..i]))
  {
    var base, earlier := ProfileBaseName(profiles[i].models, byId), NamesOf(profiles[..i]);
    var n: nat :| n >= 1 && profiles[i].name == Candidate(base, n) && Candidate(base, n) !in earlier
                  && forall m: nat {:trigger Candidate(base, m)} :: 1 <= m < n ==> Candidate(base, m) in earlier;
    FirstFreeUnique(Candidates(base), earlier, n);
  }

  ghost predicate NextFree(names: seq<string>, bases: seq<string>, i: nat)
    requires i < |names| == |bases|
  {
    names[i] == FreeName(bases[i], Elements(names[..i]))
  }

  /** Every name is the free name for its base when its turn comes. */
  ghost predicate InTurn(names: seq<string>, bases: seq<string>) {
    |names| == |bases| && forall i: nat :: i < |names| ==> NextFree(names, bases, i)
  }

  lemma InTurnSnoc(names: seq<string>, bases: seq<string>, name: string, base: string)
    requires InTurn(names, bases) && name == FreeName(base, Elements(names))
    ensures InTurn(names + [name], bases + [base])
  {
    forall i: nat | i < |names| + 1
      ensures NextFree(names + [name], bases + [base], i)
    {
      if i < |names| {
        assert NextFree(names, bases, i);
        assert (names + [name])[..i] == names[..i];
      } else {
        assert (names + [name])[..i] == names;
      }
    }
  }

  lemma {:induction false} NamingInTurn(bases: seq<string>)
    ensures InTurn(Naming(bases), bases)
  {
    if bases != [] {
      var n := |bases| - 1;
      NamingInTurn(bases[..n]);
      InTurnSnoc(Naming(bases[..n]), bases[..n], FreeName(bases[n], Elements(Naming(bases[..n]))), bases[n]);
      assert bases == bases[..n] + [bases[n]];
    }
  }

  lemma SameSoFar(xs: seq<string>, ys: seq<string>, bases: seq<string>, n: nat)
    requires InTurn(xs, bases) && InTurn(ys, bases) && n < |bases| && xs[..n] == ys[..n]
    ensures xs[..n + 1] == ys[..n + 1]
  {
    assert NextFree(xs, bases, n) && NextFree(ys, bases, n);
    assert xs[..n + 1] == xs[..n] + [xs[n]] && ys[..n + 1] == ys[..n] + [ys[n]];
  }

  /** Only one list of names does that. */
  lemma {:induction false} InTurnUnique(xs: seq<string>, ys: seq<string>, bases: seq<string>, n: nat)
    requires InTurn(xs, bases) && InTurn(ys, bases) && n <= |bases|
    ensures xs[..n] == ys[..n]
  {
    if n > 0 {
      InTurnUnique(xs, ys, bases, n - 1);
      SameSoFar(xs, ys, bases, n - 1);
    }
  }

  lemma NamesAreElements(profiles: seq<ProfilePlan>, n: nat)
    requires n <= |profiles|
    ensures NamesOf(profiles[..n]) == Elements(NameList(profiles)[..n])
  {
    forall x
      ensures x in NamesOf(profiles[..n]) <==> x in NameList(profiles)[..n]
    {
      if x in NamesOf(profiles[..n]) {
        var p :| p in profiles[..n] && p.name == x;
        var i :| 0 <= i < n && profiles[i] == p;
        assert NameList(profiles)[..n][i] == x;
      }
      if x in NameList(profiles)[..n] {
        var i :| 0 <= i < n && NameList(profiles)[..n][i] == x;
        assert profiles[..n][i] in profiles[..n] && profiles[..n][i].name == x;
      }
    }
  }

  lemma ConversionChainsStart(providers: seq<Provider>, policies: seq<Policy>)
    ensures ChainsStart(ById(providers), Conversion(providers, policies).profiles)
  {
    var profiles := Conversion(providers, policies).profiles;
    forall i: nat | i < |profiles|
      ensures profiles[i].models != [] && profiles[i].models[0].provider in ById(providers)
    {
      ProfileNames(providers, policies, i);
    }
  }

  /** The planner's names are the naming of the chains' base names. */
  lemma ConversionNaming(providers: seq<Provider>, policies: seq<Policy>)
    ensures var profiles := Conversion(providers, policies).profiles;
            ChainsStart(ById(providers), profiles) && NameList(profiles) == Naming(BaseNames(ById(providers), profiles))
  {
    var byId, profiles := ById(providers), Conversion(providers, policies).profiles;
    ConversionChainsStart(providers, policies);
    var names, bases := NameList(profiles), BaseNames(byId, profiles);
    forall i: nat | i < |profiles|
      ensures NextFree(names, bases, i)
    {
      ProfileNames(providers, policies, i);
      NamedIsFree(byId, profiles, i);
      NamesAreElements(profiles, i);
    }
    NamingInTurn(bases);
    InTurnUnique(names, Naming(bases), bases, |names|);
    assert names[..|names|] == names && Naming(bases)[..|names|] == Naming(bases);
  }

  // ---- simple checks on base names ----

  /** Base names that are one value to the index, each cut to the column, are equal. */
  ghost predicate CutsApart(bases: seq<string>) {
    forall i, j :: 0 <= i < |bases| && 0 <= j < |bases| && KeyOf(bases[i], 1) == KeyOf(bases[j], 1) ==>
      Candidate(bases[i], 1) == Candidate(bases[j], 1)
  }

  lemma FirstTaken(base: string, taken: set<string>)
    ensures FreeName(base, taken) == Candidate(base, 1) || Candidate(base, 1) in taken
  {
    if FirstFree(Candidates(base), taken, 1) > 1 {
      assert Candidates(base)(1) in taken;
    }
  }

  lemma HasFirst(names: seq<string>, bases: seq<string>, i: nat)
    requires InTurn(names, bases) && i < |bases|
    ensures Candidate(bases[i], 1) in names
  {
    assert NextFree(names, bases, i);
    FirstTaken(bases[i], Elements(names[..i]));
  }

  /** In general: accepted names need base names that are not told apart by
      case or trailing spaces alone. */
  lemma AcceptedNeedsCutsApart(bases: seq<string>)
    requires NamesAccepted(Naming(bases))
    ensures CutsApart(bases)
  {
    NamingInTurn(bases);
    NeedsCutsApart(Naming(bases), bases);
  }

  lemma NeedsCutsApart(names: seq<string>, bases: seq<string>)
    requires InTurn(names, bases) && NamesAccepted(names)
    ensures CutsApart(bases)
  {
    forall i, j | 0 <= i < |bases| && 0 <= j < |bases| && KeyOf(bases[i], 1) == KeyOf(bases[j], 1)
      ensures Candidate(bases[i], 1) == Candidate(bases[j], 1)
    {
      HasFirst(names, bases, i);
      HasFirst(names, bases, j);
      var a :| 0 <= a < |bases| && names[a] == Candidate(bases[i], 1);
      var b :| 0 <= b < |bases| && names[b] == Candidate(bases[j], 1);
      assert a == b;
    }
  }

  /** Too short to be cut for any number given out, and not ending like a number. */
  ghost predicate Plain(base: string, count: nat) {
    && (forall n: nat {:trigger Tail(n)} :: 2 <= n <= count + 1 ==> |base| + |Tail(n)| <= PROFILE_NAME_MAX)
    && |base| <= PROFILE_NAME_MAX
    && (IndexKey(base) != "" ==> IndexKey(base)[|IndexKey(base)| - 1] != ')')
  }

  lemma PlainKey(base: string, count: nat, n: nat)
    requires Plain(base, count) && 1 <= n <= count + 1
    ensures Candidate(base, n) == if n == 1 then base else base + Tail(n)
    ensures KeyOf(base, n) == if n == 1 then IndexKey(base) else Fold(base) + Tail(n)
  {
    if n >= 2 {
      assert |base| + |Tail(n)| <= PROFILE_NAME_MAX;
      NumberedKey(base, n);
    }
  }

  lemma PlainKeysApart(a: string, b: string, count: nat, n: nat, m: nat)
    requires Plain(a, count) && Plain(b, count) && 1 <= n <= count + 1 && 1 <= m <= count + 1
    requires KeyOf(a, n) == KeyOf(b, m)
    ensures n == m && IndexKey(a) == IndexKey(b)
  {
    PlainKey(a, count, n);
    PlainKey(b, count, m);
    if n >= 2 && m >= 2 {
      TailsEqual(Fold(a), Fold(b), n, m);
      FoldDropsPad(a, b);
    }
  }

  lemma FreeNumber(base: string, taken: set<string>) returns (n: nat)
    ensures 1 <= n <= |taken| + 2 && FreeName(base, taken) == Candidate(base, n) && FreeName(base, taken) !in taken
  {
    n := FirstFree(Candidates(base), taken, 1);
    assert Candidates(base)(n) !in taken;
  }

  lemma NumberInTurn(names: seq<string>, bases: seq<string>, i: nat) returns (n: nat)
    requires InTurn(names, bases) && i < |bases|
    ensures 1 <= n <= |bases| + 1 && names[i] == Candidate(bases[i], n) && names[i] !in names[..i]
  {
    assert NextFree(names, bases, i);
    n := FreeNumber(bases[i], Elements(names[..i]));
    ElementsCount(names[..i]);
  }

  lemma {:induction false} ElementsCount(names: seq<string>)
    ensures |Elements(names)| <= |names|
  {
    if names != [] {
      var n := |names| - 1;
      ElementsCount(names[..n]);
      assert names == names[..n] + [names[n]];
      assert Elements(names) == Elements(names[..n]) + {names[n]};
    }
  }

  /** With plain base names the check is simple: the index takes the names
      exactly when no two base names differ only in case or trailing spaces. */
  lemma PlainNamesAcceptedExactly(bases: seq<string>)
    requires forall i :: 0 <= i < |bases| ==> Plain(bases[i], |bases|)
    ensures NamesAccepted(Naming(bases)) <==>
            forall i, j :: 0 <= i < |bases| && 0 <= j < |bases| && IndexKey(bases[i]) == IndexKey(bases[j]) ==> bases[i] == bases[j]
  {
    if NamesAccepted(Naming(bases)) {
      AcceptedNeedsCutsApart(bases);
      forall i, j | 0 <= i < |bases| && 0 <= j < |bases| && IndexKey(bases[i]) == IndexKey(bases[j])
        ensures bases[i] == bases[j]
      {
        PlainKey(bases[i], |bases|, 1);
        PlainKey(bases[j], |bases|, 1);
      }
    }
    if forall i, j :: 0 <= i < |bases| && 0 <= j < |bases| && IndexKey(bases[i]) == IndexKey(bases[j]) ==> bases[i] == bases[j] {
      NamingInTurn(bases);
      PlainNamesApart(Naming(bases), bases);
    }
  }

  lemma PlainNamesApart(names: seq<string>, bases: seq<string>)
    requires InTurn(names, bases) && forall i :: 0 <= i < |bases| ==> Plain(bases[i], |bases|)
    requires forall i, j :: 0 <= i < |bases| && 0 <= j < |bases| && IndexKey(bases[i]) == IndexKey(bases[j]) ==> bases[i] == bases[j]
    ensures NamesAccepted(names)
  {
    forall i, j | 0 <= i < j < |bases|
      ensures IndexKey(names[i]) != IndexKey(names[j])
    {
      var n := NumberInTurn(names, bases, i);
      var m := NumberInTurn(names, bases, j);
      assert names[i] in names[..j];
      if KeyOf(bases[i], n) == KeyOf(bases[j], m) {
        PlainKeysApart(bases[i], bases[j], |bases|, n, m);
      }
    }
  }

  // ---- the whole schema ----

  ghost predicate References(plan: Plan, providers: seq<Provider>, policies: seq<Policy>) {
    && ReferencesSound(plan)
    && (forall m :: m in plan.models ==> exists p :: p in providers && p.id == m.provider)
    && (forall r :: r in plan.overrides ==> exists p :: p in policies && p.id == r.policy)
  }

  /** Every unique key, reference and column width of the new tables. */
  ghost predicate Accepted(plan: Plan, providers: seq<Provider>, policies: seq<Policy>) {
    && CatalogRowsUnique(plan.models) && ModelNamesFit(plan)
    && ProfilesSound(plan) && NamesAccepted(NameList(plan.profiles))
    && References(plan, providers, policies) && OverridesUnique(plan.overrides)
  }

  lemma OwnersExist(providers: seq<Provider>, policies: seq<Policy>)
    ensures References(Conversion(providers, policies), providers, policies)
  {
    var byId, sorted, b := ById(providers), SortBy(PolicyId, policies), Built(providers, policies);
    var plan := Conversion(providers, policies);
    PlanSatisfiesSchema(providers, policies);
    ConversionFinished(providers, policies);
    forall m | m in plan.models
      ensures exists p :: p in providers && p.id == m.provider
    {
      RowOf(byId, sorted, b, m.Key());
      assert byId[m.provider] in providers;
    }
    forall r | r in plan.overrides
      ensures exists p :: p in policies && p.id == r.policy
    {
      RowOwners(sorted, b.answers, 6, r);
      var p :| p in sorted && p.id == r.policy;
    }
  }

  lemma {:induction false} RowOwners(policies: seq<Policy>, answers: seq<Option<nat>>, n: nat, r: Override)
    requires |answers| == 6 * |policies| && n <= 6 && r in DefaultsOf(policies, answers, n).overrides
    ensures exists p :: p in policies && p.id == r.policy
  {
    if n > 0 {
      if r in DefaultsOf(policies, answers, n - 1).overrides {
        RowOwners(policies, answers, n - 1, r);
      } else {
        RowsShape(policies, Column(answers, n - 1), TaskAt(n - 1), TaskGlobal(policies, answers, n - 1));
        var i :| 0 <= i < |policies| && r.policy == PolicyId(policies[i]);
        assert policies[i] in policies;
      }
    }
  }

  /** The new tables take the plan exactly when no mentioned model name is too
      long and naming by the index's comparison would give the same names. */
  lemma AcceptedExactly(providers: seq<Provider>, policies: seq<Policy>)
    requires DistinctBy(PolicyId, policies)
    ensures var plan := Conversion(providers, policies);
            ChainsStart(ById(providers), plan.profiles) &&
            var bases := BaseNames(ById(providers), plan.profiles);
            Accepted(plan, providers, policies) <==>
              MentionedNamesFit(providers, policies) && IndexNaming(bases) == Naming(bases)
  {
    PlanSatisfiesSchema(providers, policies);
    OwnersExist(providers, policies);
    ModelNamesFitExactly(providers, policies);
    ConversionNaming(providers, policies);
    NamingAcceptedExactly(BaseNames(ById(providers), Conversion(providers, policies).profiles));
  }
}
