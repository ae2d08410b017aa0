/** Small vocabulary shared by every model: optional values, mapped sequences,
    distinctness, and a stable sort by an integer key. */
module Common {
  datatype Option<+T> = None | Some(value: T)

  function Map<A, B>(f: A -> B, s: seq<A>): (r: seq<B>)
    ensures |r| == |s| && forall i :: 0 <= i < |s| ==> r[i] == f(s[i])
  {
    seq(|s|, i requires 0 <= i < |s| => f(s[i]))
  }

  lemma MapSnoc<A, B>(f: A -> B, s: seq<A>)
    requires s != []
    ensures Map(f, s) == Map(f, s[..|s| - 1]) + [f(s[|s| - 1])]
  {
  }

  ghost predicate Distinct<T>(s: seq<T>) {
    forall i, j :: 0 <= i < j < |s| ==> s[i] != s[j]
  }

  lemma DistinctSnoc<T>(s: seq<T>, x: T)
    requires Distinct(s) && x !in s
    ensures Distinct(s + [x])
  {
  }

  lemma InPrefix<T>(s: seq<T>, n: nat, k: nat)
    requires k < n <= |s|
    ensures s[k] in s[..n]
  {
    assert s[..n][k] == s[k];
  }

  lemma PrefixTrans<T>(a: seq<T>, b: seq<T>, c: seq<T>)
    requires a <= b && b <= c
    ensures a <= c
  {
    assert c[..|a|] == b[..|a|];
  }

  // ---- a stable sort by an integer key (Python's `sorted(xs, key=...)`) ----

  ghost predicate Ascending<T>(key: T -> int, s: seq<T>) {
    forall i, j :: 0 <= i < j < |s| ==> key(s[i]) <= key(s[j])
  }

  ghost predicate DistinctBy<T>(key: T -> int, s: seq<T>) {
    forall i, j :: 0 <= i < j < |s| ==> key(s[i]) != key(s[j])
  }

  /** Insert after every element with a key not above `x`'s. */
  function Insert<T>(key: T -> int, s: seq<T>, x: T): (r: seq<T>)
    ensures multiset(r) == multiset(s) + multiset{x}
    ensures Ascending(key, s) ==> Ascending(key, r)
  {
    if s == [] then [x]
    else
      var n := |s| - 1;
      assert s == s[..n] + [s[n]];
      if key(s[n]) <= key(x) then s + [x]
      else
        var r := Insert(key, s[..n], x);
        InsertBound(key, s[..n], x, r, s[n]);
        r + [s[n]]
  }

  lemma InsertBound<T>(key: T -> int, s: seq<T>, x: T, r: seq<T>, top: T)
    requires multiset(r) == multiset(s) + multiset{x}
    requires key(x) <= key(top)
    ensures (forall y :: y in s ==> key(y) <= key(top)) ==> forall y :: y in r ==> key(y) <= key(top)
  {
    forall y | y in r
      ensures y in s || y == x
    {
      assert y in multiset(r);
      assert y in multiset(s) || y == x;
    }
  }

  function SortBy<T>(key: T -> int, s: seq<T>): (r: seq<T>)
    ensures multiset(r) == multiset(s)
    ensures Ascending(key, r)
  {
    if s == [] then []
    else
      assert s == s[..|s| - 1] + [s[|s| - 1]];
      Insert(key, SortBy(key, s[..|s| - 1]), s[|s| - 1])
  }

  lemma SameElements<T>(a: seq<T>, b: seq<T>)
    requires multiset(a) == multiset(b)
    ensures |a| == |b|
    ensures forall x :: x in a <==> x in b
  {
    assert |a| == |multiset(a)| == |multiset(b)| == |b|;
    forall x
      ensures x in a <==> x in b
    {
      assert x in a <==> x in multiset(a);
      assert x in b <==> x in multiset(b);
    }
  }

  lemma RemoveLast<T>(s: seq<T>)
    requires s != []
    ensures multiset(s[..|s| - 1]) == multiset(s) - multiset{s[|s| - 1]}
  {
    assert s == s[..|s| - 1] + [s[|s| - 1]];
  }

  lemma {:induction false} CountsOne<T>(key: T -> int, s: seq<T>, x: T)
    requires DistinctBy(key, s)
    ensures multiset(s)[x] <= 1
  {
    if s != [] {
      var n := |s| - 1;
      CountsOne(key, s[..n], x);
      assert s == s[..n] + [s[n]];
      assert forall i :: 0 <= i < n ==> s[i] != s[n];
      assert s[n] !in multiset(s[..n]);
    }
  }

  lemma CountsTwo<T>(s: seq<T>, p: nat, q: nat)
    requires p < q < |s| && s[p] == s[q]
    ensures multiset(s)[s[p]] >= 2
  {
    assert s == s[..q] + [s[q]] + s[q + 1..];
    assert s[..q][p] == s[p];
  }

  /** Keys stay distinct under any reordering. */
  lemma DistinctByPermuted<T>(key: T -> int, a: seq<T>, b: seq<T>)
    requires multiset(a) == multiset(b) && DistinctBy(key, a)
    ensures DistinctBy(key, b)
  {
    SameElements(a, b);
    forall p, q | 0 <= p < q < |b|
      ensures key(b[p]) != key(b[q])
    {
      if b[p] == b[q] {
        CountsTwo(b, p, q);
        CountsOne(key, a, b[p]);
        assert false;
      }
      assert b[p] in b && b[q] in b && b[p] in a && b[q] in a;
    }
  }

  lemma LastsAgree<T>(key: T -> int, a: seq<T>, b: seq<T>)
    requires multiset(a) == multiset(b) && a != [] && |a| == |b|
    requires Ascending(key, a) && Ascending(key, b) && DistinctBy(key, a)
    ensures a[|a| - 1] == b[|b| - 1]
  {
    SameElements(a, b);
    var n := |a| - 1;
    assert a[n] in a && a[n] in b && b[n] in b && b[n] in a;
    var i :| 0 <= i < |b| && b[i] == a[n];
    var j :| 0 <= j < |a| && a[j] == b[n];
    assert key(a[n]) == key(b[n]);
  }

  /** Two ascending arrangements of the same distinctly keyed elements coincide. */
  lemma {:induction false} AscendingUnique<T>(key: T -> int, a: seq<T>, b: seq<T>)
    requires multiset(a) == multiset(b)
    requires Ascending(key, a) && Ascending(key, b) && DistinctBy(key, a)
    ensures a == b
  {
    SameElements(a, b);
    if a != [] {
      var n := |a| - 1;
      LastsAgree(key, a, b);
      RemoveLast(a);
      RemoveLast(b);
      AscendingUnique(key, a[..n], b[..n]);
    }
  }

  /** Sorting forgets the input order. */
  lemma SortForgetsOrder<T>(key: T -> int, a: seq<T>, b: seq<T>)
    requires multiset(a) == multiset(b) && DistinctBy(key, a)
    ensures SortBy(key, a) == SortBy(key, b)
  {
    DistinctByPermuted(key, a, SortBy(key, a));
    AscendingUnique(key, SortBy(key, a), SortBy(key, b));
  }

  /** What is in order stays as it is. */
  lemma {:induction false} SortAscending<T>(key: T -> int, s: seq<T>)
    requires Ascending(key, s)
    ensures SortBy(key, s) == s
  {
    if s != [] {
      SortAscending(key, s[..|s| - 1]);
      assert s == s[..|s| - 1] + [s[|s| - 1]];
    }
  }
}
