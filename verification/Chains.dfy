/** Order-preserving removal of repeated entries from a fallback chain. */
module Chains {
  import opened Common

  /** Every entry that does not occur earlier, in order. */
  function Deduped<T(==)>(s: seq<T>): seq<T> {
    if s == [] then []
    else
      var n := |s| - 1;
      if s[n] in s[..n] then Deduped(s[..n]) else Deduped(s[..n]) + [s[n]]
  }

  method Dedupe<T(==)>(chain: seq<T>) returns (out: seq<T>)
    ensures out == Deduped(chain)
  {
    var seen: set<T> := {};
    out := [];
    for i := 0 to |chain|
      invariant seen == set k | k in chain[..i]
      invariant out == Deduped(chain[..i])
    {
      assert chain[..i + 1][..i] == chain[..i];
      if chain[i] !in seen {
        seen := seen + {chain[i]};
        out := out + [chain[i]];
      }
    }
    assert chain[..|chain|] == chain;
  }

  lemma {:induction false} DedupedElements<T>(s: seq<T>)
    ensures forall x :: x in Deduped(s) <==> x in s
    ensures Distinct(Deduped(s))
  {
    if s != [] {
      var n := |s| - 1;
      DedupedElements(s[..n]);
      assert s == s[..n] + [s[n]];
    }
  }

  /** The position of the first occurrence. */
  function FirstIndex<T(==)>(s: seq<T>, x: T): (r: nat)
    requires x in s
    ensures r < |s| && s[r] == x && x !in s[..r]
  {
    if s[0] == x then 0
    else
      var r := FirstIndex(s[1..], x);
      assert s[..r + 1] == [s[0]] + s[1..][..r];
      r + 1
  }

  lemma FirstIndexUnique<T>(s: seq<T>, x: T, i: nat)
    requires i < |s| && s[i] == x && x !in s[..i]
    ensures x in s && FirstIndex(s, x) == i
  {
    var r := FirstIndex(s, x);
    forall k, n: nat | 0 <= k < n <= |s|
      ensures s[k] in s[..n]
    {
      InPrefix(s, n, k);
    }
  }

  lemma FirstIndexInPrefix<T>(s: seq<T>, n: nat, x: T)
    requires n <= |s| && x in s[..n]
    ensures x in s && FirstIndex(s, x) == FirstIndex(s[..n], x) < n
  {
    var r := FirstIndex(s[..n], x);
    assert s[..n][..r] == s[..r];
    FirstIndexUnique(s, x, r);
  }

  lemma DedupedMember<T>(s: seq<T>, x: T)
    requires x in Deduped(s)
    ensures x in s
  {
    DedupedElements(s);
  }

  ghost predicate Earlier<T>(s: seq<T>, x: T, y: T) {
    x in s && y in s && FirstIndex(s, x) < FirstIndex(s, y)
  }

  /** The entries of `d` stand in the order of their first occurrences in `s`. */
  ghost predicate InFirstOrder<T>(s: seq<T>, d: seq<T>) {
    forall i, j :: 0 <= i < j < |d| ==> Earlier(s, d[i], d[j])
  }

  lemma FirstOrderGrows<T>(s: seq<T>, n: nat, d: seq<T>)
    requires n <= |s| && InFirstOrder(s[..n], d)
    ensures InFirstOrder(s, d)
  {
    forall i, j | 0 <= i < j < |d|
      ensures Earlier(s, d[i], d[j])
    {
      assert Earlier(s[..n], d[i], d[j]);
      FirstIndexInPrefix(s, n, d[i]);
      FirstIndexInPrefix(s, n, d[j]);
    }
  }

  lemma FirstOrderSnoc<T>(s: seq<T>, n: nat, d: seq<T>)
    requires n < |s| && InFirstOrder(s, d) && s[n] !in s[..n]
    requires forall i :: 0 <= i < |d| ==> d[i] in s[..n]
    ensures InFirstOrder(s, d + [s[n]])
  {
    FirstIndexUnique(s, s[n], n);
    forall i, j | 0 <= i < j < |d| + 1
      ensures Earlier(s, (d + [s[n]])[i], (d + [s[n]])[j])
    {
      if j < |d| {
        assert Earlier(s, d[i], d[j]);
      } else {
        FirstIndexInPrefix(s, n, d[i]);
      }
    }
  }

  lemma {:induction false} DedupedKeepsOrder<T>(s: seq<T>)
    ensures InFirstOrder(s, Deduped(s))
  {
    if s != [] {
      var n := |s| - 1;
      var front := Deduped(s[..n]);
      DedupedKeepsOrder(s[..n]);
      FirstOrderGrows(s, n, front);
      if s[n] !in s[..n] {
        forall i | 0 <= i < |front|
          ensures front[i] in s[..n]
        {
          assert front[i] in front;
          DedupedMember(s[..n], front[i]);
        }
        FirstOrderSnoc(s, n, front);
      }
    }
  }

  lemma {:induction false} DedupedDistinct<T>(s: seq<T>)
    requires Distinct(s)
    ensures Deduped(s) == s
  {
    if s != [] {
      var n := |s| - 1;
      DedupedDistinct(s[..n]);
      assert s == s[..n] + [s[n]];
    }
  }

  lemma {:induction false} DedupedHead<T>(s: seq<T>)
    requires s != []
    ensures Deduped(s) != [] && Deduped(s)[0] == s[0]
  {
    if |s| > 1 {
      DedupedHead(s[..|s| - 1]);
    }
  }

  /** Renaming entries one-to-one commutes with removing repetitions. */
  lemma {:induction false} DedupedMapInjective<A, B>(f: A -> B, s: seq<A>)
    requires forall x, y :: x in s && y in s && f(x) == f(y) ==> x == y
    ensures Map(f, Deduped(s)) == Deduped(Map(f, s))
  {
    if s != [] {
      var n := |s| - 1;
      var t := s[..n];
      DedupedMapInjective(f, t);
      MapSnoc(f, s);
      assert Map(f, s)[..n] == Map(f, t);
      if s[n] in t {
        var i :| 0 <= i < n && t[i] == s[n];
        assert Map(f, t)[i] == f(s[n]);
      } else {
        forall i | 0 <= i < n
          ensures f(t[i]) != f(s[n])
        {
          assert t[i] in t && t[i] in s && s[n] in s;
        }
        MapSnoc(f, Deduped(t) + [s[n]]);
        assert (Deduped(t) + [s[n]])[..|Deduped(t)|] == Deduped(t);
      }
    }
  }

  /** Removing repetitions before any renaming is harmless. */
  lemma {:induction false} DedupedBeforeMap<A, B>(f: A -> B, s: seq<A>)
    ensures Deduped(Map(f, Deduped(s))) == Deduped(Map(f, s))
  {
    if s != [] {
      var n := |s| - 1;
      var t := s[..n];
      DedupedBeforeMap(f, t);
      MapSnoc(f, s);
      assert Map(f, s)[..n] == Map(f, t);
      if s[n] in t {
        var i :| 0 <= i < n && t[i] == s[n];
        assert Map(f, t)[i] == f(s[n]);
      } else {
        var d := Deduped(t);
        var ds := d + [s[n]];
        MapSnoc(f, ds);
        assert ds[..|d|] == d;
        assert Map(f, ds)[..|d|] == Map(f, d);
        DedupedElements(t);
        assert f(s[n]) in Map(f, d) <==> f(s[n]) in Map(f, t) by {
          MapMembers(f, d, f(s[n]));
          MapMembers(f, t, f(s[n]));
        }
      }
    }
  }

  lemma MapMembers<A, B>(f: A -> B, s: seq<A>, y: B)
    ensures y in Map(f, s) <==> exists x :: x in s && f(x) == y
  {
    if y in Map(f, s) {
      var i :| 0 <= i < |s| && Map(f, s)[i] == y;
      assert s[i] in s && f(s[i]) == y;
    }
    if x :| x in s && f(x) == y {
      var i :| 0 <= i < |s| && s[i] == x;
      assert Map(f, s)[i] == y;
    }
  }
}
