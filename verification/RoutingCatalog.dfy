/** The growing model catalog: names that differ only in surrounding spaces or
    case are one model, known by the first spelling seen. */
module RoutingCatalog {
  import opened Common
  import opened Text
  import opened Chains
  import opened RoutingTypes

  /** The stripped name, or the provider's stripped default for a blank one. */
  function CanonName(byId: map<int, Provider>, k: ModelKey): string {
    var m := Strip(k.model);
    if m != "" then m
    else if k.provider in byId then Strip(byId[k.provider].defaultModel) else ""
  }

  /** What a name denotes: strip, blank-to-default, casefold. */
  function NormKey(byId: map<int, Provider>, k: ModelKey): (int, string) {
    (k.provider, Fold(CanonName(byId, k)))
  }

  datatype Catalog = Catalog(spelling: map<(int, string), string>, order: seq<ModelKey>)

  /** The catalog row a name is known by. */
  function Canonical(byId: map<int, Provider>, c: Catalog, k: ModelKey): ModelKey {
    var nk := NormKey(byId, k);
    ModelKey(k.provider, if nk in c.spelling then c.spelling[nk] else CanonName(byId, k))
  }

  /** The catalog after meeting the name `k`. */
  function Remember(byId: map<int, Provider>, c: Catalog, k: ModelKey): Catalog {
    var nk := NormKey(byId, k);
    var out := Canonical(byId, c, k);
    Catalog(
      if nk in c.spelling then c.spelling else c.spelling[nk := out.model],
      if out in c.order then c.order else c.order + [out])
  }

  function RememberAll(byId: map<int, Provider>, c: Catalog, ks: seq<ModelKey>): Catalog {
    if ks == [] then c
    else Remember(byId, RememberAll(byId, c, ks[..|ks| - 1]), ks[|ks| - 1])
  }

  function Canonise(byId: map<int, Provider>, c: Catalog): ModelKey -> ModelKey {
    (k: ModelKey) => Canonical(byId, c, k)
  }

  function Norm(byId: map<int, Provider>): ModelKey -> (int, string) {
    (k: ModelKey) => NormKey(byId, k)
  }

  /** A raw chain in catalog spelling, repetitions removed. */
  function CanonChain(byId: map<int, Provider>, c: Catalog, raw: seq<ModelKey>): seq<ModelKey> {
    Deduped(Map(Canonise(byId, c), raw))
  }

  // ---- invariant ----

  ghost predicate SpellingOk(byId: map<int, Provider>, nk: (int, string), name: string) {
    && Fold(name) == nk.1
    && Strip(name) == name
    && (name == "" && nk.0 in byId ==> Strip(byId[nk.0].defaultModel) == "")
  }

  /** Every row is the recorded spelling of what it denotes, and listed once. */
  ghost predicate CatalogOk(byId: map<int, Provider>, c: Catalog) {
    && (forall nk :: nk in c.spelling ==> SpellingOk(byId, nk, c.spelling[nk]))
    && (forall nk :: nk in c.spelling ==> ModelKey(nk.0, c.spelling[nk]) in c.order)
    && Distinct(c.order)
    && (forall k :: k in c.order ==>
          (k.provider, Fold(k.model)) in c.spelling && c.spelling[(k.provider, Fold(k.model))] == k.model)
  }

  ghost predicate Known(byId: map<int, Provider>, c: Catalog, k: ModelKey) {
    NormKey(byId, k) in c.spelling
  }

  ghost predicate AllKnown(byId: map<int, Provider>, c: Catalog, ks: seq<ModelKey>) {
    forall k :: k in ks ==> Known(byId, c, k)
  }

  /** `d` only adds spellings and rows to `c`. */
  ghost predicate Grows(c: Catalog, d: Catalog) {
    && (forall nk :: nk in c.spelling ==> nk in d.spelling && d.spelling[nk] == c.spelling[nk])
    && c.order <= d.order
  }

  lemma GrowsTrans(a: Catalog, b: Catalog, c: Catalog)
    requires Grows(a, b) && Grows(b, c)
    ensures Grows(a, c)
  {
    PrefixTrans(a.order, b.order, c.order);
  }

  lemma CanonNameOk(byId: map<int, Provider>, k: ModelKey)
    ensures SpellingOk(byId, NormKey(byId, k), CanonName(byId, k))
  {
    StripTwice(k.model);
    if k.provider in byId {
      StripTwice(byId[k.provider].defaultModel);
    }
  }

  function AddRow(c: Catalog, nk: (int, string), name: string): Catalog {
    var out := ModelKey(nk.0, name);
    Catalog(
      if nk in c.spelling then c.spelling else c.spelling[nk := name],
      if out in c.order then c.order else c.order + [out])
  }

  lemma AddRowOk(byId: map<int, Provider>, c: Catalog, nk: (int, string), name: string)
    requires CatalogOk(byId, c) && SpellingOk(byId, nk, name)
    requires nk in c.spelling ==> c.spelling[nk] == name
    ensures var d := AddRow(c, nk, name);
            CatalogOk(byId, d) && Grows(c, d) && nk in d.spelling && d.spelling[nk] == name
  {
    var out := ModelKey(nk.0, name);
    if out !in c.order {
      DistinctSnoc(c.order, out);
    }
  }

  lemma RememberOk(byId: map<int, Provider>, c: Catalog, k: ModelKey)
    requires CatalogOk(byId, c)
    ensures var d := Remember(byId, c, k);
            CatalogOk(byId, d) && Grows(c, d) && Known(byId, d, k) &&
            Canonical(byId, d, k) == Canonical(byId, c, k) && Canonical(byId, d, k) in d.order
  {
    CanonNameOk(byId, k);
    AddRowOk(byId, c, NormKey(byId, k), Canonical(byId, c, k).model);
  }

  lemma RememberGrows(byId: map<int, Provider>, c: Catalog, k: ModelKey)
    ensures var d := Remember(byId, c, k);
            Grows(c, d) && Known(byId, d, k) && Canonical(byId, d, k) == Canonical(byId, c, k)
  {
  }

  lemma KnownMore(byId: map<int, Provider>, c: Catalog, d: Catalog, ks: seq<ModelKey>, n: nat)
    requires |ks| == n + 1 && Grows(c, d) && AllKnown(byId, c, ks[..n]) && Known(byId, d, ks[n])
    ensures AllKnown(byId, d, ks)
  {
    assert ks == ks[..n] + [ks[n]];
  }

  lemma {:induction false} RememberAllOk(byId: map<int, Provider>, c: Catalog, ks: seq<ModelKey>)
    requires CatalogOk(byId, c)
    ensures var d := RememberAll(byId, c, ks);
            CatalogOk(byId, d) && Grows(c, d) && AllKnown(byId, d, ks)
  {
    if ks != [] {
      var n := |ks| - 1;
      var m := RememberAll(byId, c, ks[..n]);
      RememberAllOk(byId, c, ks[..n]);
      RememberOk(byId, m, ks[n]);
      GrowsTrans(c, m, RememberAll(byId, c, ks));
      KnownMore(byId, m, RememberAll(byId, c, ks), ks, n);
    }
  }

  /** A row found early stays the row for that name while the catalog grows. */
  lemma CanonicalStable(byId: map<int, Provider>, c: Catalog, d: Catalog, k: ModelKey)
    requires Grows(c, d) && Known(byId, c, k)
    ensures Known(byId, d, k) && Canonical(byId, d, k) == Canonical(byId, c, k)
  {
  }

  lemma CanonicalDenotes(byId: map<int, Provider>, c: Catalog, k: ModelKey)
    requires CatalogOk(byId, c) && Known(byId, c, k)
    ensures var r := Canonical(byId, c, k);
            NormKey(byId, r) == NormKey(byId, k) && r in c.order
  {
    var r := Canonical(byId, c, k);
    assert SpellingOk(byId, NormKey(byId, k), r.model);
    assert ModelKey(NormKey(byId, k).0, c.spelling[NormKey(byId, k)]) in c.order;
  }

  lemma RowDenotesItself(byId: map<int, Provider>, c: Catalog, k: ModelKey)
    requires CatalogOk(byId, c) && k in c.order
    ensures NormKey(byId, k) == (k.provider, Fold(k.model))
  {
    assert SpellingOk(byId, (k.provider, Fold(k.model)), k.model);
  }

  /** Looking up a row again gives the same row. */
  lemma CanonicalTwice(byId: map<int, Provider>, c: Catalog, k: ModelKey)
    requires CatalogOk(byId, c) && Known(byId, c, k)
    ensures Canonical(byId, c, Canonical(byId, c, k)) == Canonical(byId, c, k)
  {
    CanonicalDenotes(byId, c, k);
  }

  /** Two names share a row exactly when they denote the same model. */
  lemma CanonicalSeparates(byId: map<int, Provider>, c: Catalog, j: ModelKey, k: ModelKey)
    requires CatalogOk(byId, c) && Known(byId, c, j) && Known(byId, c, k)
    ensures Canonical(byId, c, j) == Canonical(byId, c, k) <==> NormKey(byId, j) == NormKey(byId, k)
  {
    CanonicalDenotes(byId, c, j);
    CanonicalDenotes(byId, c, k);
  }

  /** No two rows of one provider have names equal up to case. */
  lemma RowsUnique(byId: map<int, Provider>, c: Catalog, i: nat, j: nat)
    requires CatalogOk(byId, c) && i < j < |c.order|
    ensures c.order[i].provider != c.order[j].provider || Fold(c.order[i].model) != Fold(c.order[j].model)
  {
    var a, b := c.order[i], c.order[j];
    assert a in c.order && b in c.order;
  }

  lemma {:induction false} ChainStable(byId: map<int, Provider>, c: Catalog, d: Catalog, raw: seq<ModelKey>)
    requires Grows(c, d) && AllKnown(byId, c, raw)
    ensures AllKnown(byId, d, raw) && CanonChain(byId, d, raw) == CanonChain(byId, c, raw)
  {
    forall i | 0 <= i < |raw|
      ensures Known(byId, d, raw[i]) && Canonical(byId, d, raw[i]) == Canonical(byId, c, raw[i])
    {
      assert raw[i] in raw;
      CanonicalStable(byId, c, d, raw[i]);
    }
    assert Map(Canonise(byId, d), raw) == Map(Canonise(byId, c), raw);
  }

  lemma RowsDenote(byId: map<int, Provider>, c: Catalog, raw: seq<ModelKey>)
    requires CatalogOk(byId, c) && AllKnown(byId, c, raw)
    ensures Map(Norm(byId), Map(Canonise(byId, c), raw)) == Map(Norm(byId), raw)
  {
    forall i | 0 <= i < |raw|
      ensures NormKey(byId, Canonical(byId, c, raw[i])) == NormKey(byId, raw[i])
    {
      assert raw[i] in raw;
      CanonicalDenotes(byId, c, raw[i]);
    }
  }

  lemma RowsSeparate(byId: map<int, Provider>, c: Catalog, raw: seq<ModelKey>, x: ModelKey, y: ModelKey)
    requires CatalogOk(byId, c) && AllKnown(byId, c, raw)
    requires x in Map(Canonise(byId, c), raw) && y in Map(Canonise(byId, c), raw)
    requires NormKey(byId, x) == NormKey(byId, y)
    ensures x == y
  {
    MapMembers(Canonise(byId, c), raw, x);
    MapMembers(Canonise(byId, c), raw, y);
    var i :| i in raw && Canonical(byId, c, i) == x;
    var j :| j in raw && Canonical(byId, c, j) == y;
    CanonicalDenotes(byId, c, i);
    CanonicalDenotes(byId, c, j);
    CanonicalSeparates(byId, c, i, j);
  }

  /** A canonicalised chain denotes the raw chain with repetitions removed,
      whatever spellings the catalog happened to meet first. */
  lemma ChainDenotes(byId: map<int, Provider>, c: Catalog, raw: seq<ModelKey>)
    requires CatalogOk(byId, c) && AllKnown(byId, c, raw)
    ensures Map(Norm(byId), CanonChain(byId, c, raw)) == Deduped(Map(Norm(byId), raw))
  {
    var rows := Map(Canonise(byId, c), raw);
    RowsDenote(byId, c, raw);
    forall x, y | x in rows && y in rows && Norm(byId)(x) == Norm(byId)(y)
      ensures x == y
    {
      RowsSeparate(byId, c, raw, x, y);
    }
    DedupedMapInjective(Norm(byId), rows);
  }

  /** Removing repetitions before canonicalising changes nothing. */
  lemma ChainOfDeduped(byId: map<int, Provider>, c: Catalog, raw: seq<ModelKey>)
    ensures CanonChain(byId, c, Deduped(raw)) == CanonChain(byId, c, raw)
  {
    DedupedBeforeMap(Canonise(byId, c), raw);
  }

  lemma ChainShape(byId: map<int, Provider>, c: Catalog, raw: seq<ModelKey>)
    requires CatalogOk(byId, c) && AllKnown(byId, c, raw) && raw != []
    ensures var chain := CanonChain(byId, c, raw);
            chain != [] && Distinct(chain) && chain[0] == Canonical(byId, c, raw[0]) &&
            (forall k :: k in chain ==> k in c.order) &&
            (forall k :: k in chain ==> exists r :: r in raw && k == Canonical(byId, c, r))
  {
    var rows := Map(Canonise(byId, c), raw);
    DedupedElements(rows);
    DedupedHead(rows);
    forall k | k in Deduped(rows)
      ensures k in c.order && exists r :: r in raw && k == Canonical(byId, c, r)
    {
      var i :| 0 <= i < |raw| && rows[i] == k;
      assert raw[i] in raw;
      CanonicalDenotes(byId, c, raw[i]);
    }
  }
}
