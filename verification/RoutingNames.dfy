/** Profile names: readable, at most 200 characters, and never repeated. */
module RoutingNames {
  import opened Common
  import opened Text
  import opened RoutingTypes

  const PROFILE_NAME_MAX := 200

  function ProfileBaseName(chain: seq<ModelKey>, byId: map<int, Provider>): string
    requires chain != [] && chain[0].provider in byId
  {
    chain[0].model + " @ " + byId[chain[0].provider].name +
    if |chain| > 1 then " +" + Decimal(|chain| - 1) else ""
  }

  function Tail(n: nat): string {
    " (" + Decimal(n) + ")"
  }

  /** The n-th name tried: the truncated base, then `base (2)`, `base (3)`, … */
  function Candidate(base: string, n: nat): string {
    if n <= 1 then PrefixSlice(base, PROFILE_NAME_MAX)
    else PrefixSlice(base, PROFILE_NAME_MAX - |Tail(n)|) + Tail(n)
  }

  /** The tail of a name can be read back from its end. */
  lemma TailReadable(p: string, q: string, n: nat, m: nat)
    requires p + Tail(n) == q + Tail(m)
    ensures |Decimal(n)| >= |Decimal(m)|
  {
    var x, y := p + Tail(n), q + Tail(m);
    var k := |x| - 2 - |Decimal(n)|;
    assert x[k] == '(';
    forall j | |q| + 2 <= j < |q| + 2 + |Decimal(m)|
      ensures y[j] != '('
    {
      assert y[j] == Tail(m)[j - |q|] == Decimal(m)[j - |q| - 2];
    }
  }

  lemma TailsEqual(p: string, q: string, n: nat, m: nat)
    requires p + Tail(n) == q + Tail(m)
    ensures n == m && p == q
  {
    TailReadable(p, q, n, m);
    TailReadable(q, p, m, n);
    var d := |Decimal(n)|;
    var x := p + Tail(n);
    assert x[|p| + 2..|p| + 2 + d] == Decimal(n);
    assert x[|q| + 2..|q| + 2 + d] == Decimal(m);
    DecimalInjective(n, m);
    assert x[..|p|] == p && x[..|q|] == q;
  }

  /** Differently numbered names differ, however much of the base is cut off. */
  lemma CandidatesDiffer(base: string, n: nat, m: nat)
    requires 2 <= n && 2 <= m && Candidate(base, n) == Candidate(base, m)
    ensures n == m
  {
    TailsEqual(PrefixSlice(base, PROFILE_NAME_MAX - |Tail(n)|), PrefixSlice(base, PROFILE_NAME_MAX - |Tail(m)|), n, m);
  }

  // ---- the first free one of numbered texts, the first of which may recur ----

  ghost predicate Differ(texts: nat -> string) {
    forall n: nat, m: nat :: 2 <= n && 2 <= m && texts(n) == texts(m) ==> n == m
  }

  ghost function Tried(texts: nat -> string, n: nat): (r: set<string>)
    ensures forall x :: x in r <==> exists m: nat :: 2 <= m < n && texts(m) == x
  {
    if n <= 2 then {} else Tried(texts, n - 1) + {texts(n - 1)}
  }

  lemma NewText(texts: nat -> string, n: nat)
    requires n >= 2 && Differ(texts)
    ensures texts(n) !in Tried(texts, n)
  {
    assert forall m: nat :: 2 <= m < n ==> texts(m) != texts(n);
  }

  /** The numbered texts tried so far are pairwise different. */
  lemma {:induction false} TriedCount(texts: nat -> string, n: nat)
    requires n >= 2 && Differ(texts)
    ensures |Tried(texts, n)| == n - 2
  {
    if n > 2 {
      TriedCount(texts, n - 1);
      NewText(texts, n - 1);
    }
  }

  lemma SubsetCount<T>(a: set<T>, b: set<T>)
    requires a <= b
    ensures |a| <= |b|
  {
    assert b == a + (b - a);
  }

  /** Pigeonhole: only |taken| texts can be refused. */
  lemma RefusedBound(texts: nat -> string, taken: set<string>, n: nat)
    requires n >= 1 && Differ(texts) && forall m: nat :: 1 <= m < n ==> texts(m) in taken
    ensures n <= |taken| + 2
  {
    if n >= 2 {
      TriedCount(texts, n);
      SubsetCount(Tried(texts, n), taken);
    }
  }

  /** The number of the first free text from n on. */
  function FirstFree(texts: nat -> string, taken: set<string>, n: nat): (r: nat)
    requires n >= 1 && Differ(texts) && forall m: nat :: 1 <= m < n ==> texts(m) in taken
    ensures n <= r <= |taken| + 2
    ensures texts(r) !in taken
    ensures forall m: nat :: 1 <= m < r ==> texts(m) in taken
    decreases |taken| + 2 - n
  {
    RefusedBound(texts, taken, n);
    if texts(n) !in taken then n
    else
      RefusedBound(texts, taken, n + 1);
      FirstFree(texts, taken, n + 1)
  }

  lemma FirstFreeUnique(texts: nat -> string, taken: set<string>, n: nat)
    requires Differ(texts) && n >= 1 && texts(n) !in taken && forall m: nat :: 1 <= m < n ==> texts(m) in taken
    ensures FirstFree(texts, taken, 1) == n
  {
    assert texts(FirstFree(texts, taken, 1)) !in taken;
  }

  function Candidates(base: string): (r: nat -> string)
    ensures forall n: nat :: r(n) == Candidate(base, n)
    ensures Differ(r)
  {
    forall n: nat, m: nat | 2 <= n && 2 <= m && Candidate(base, n) == Candidate(base, m)
      ensures n == m
    {
      CandidatesDiffer(base, n, m);
    }
    (n: nat) => Candidate(base, n)
  }

  function FreeName(base: string, taken: set<string>): string {
    Candidate(base, FirstFree(Candidates(base), taken, 1))
  }

  /** Terminates after at most |taken| + 1 retries with a name not taken yet. */
  method UniqueName(base: string, taken: set<string>) returns (candidate: string, taken': set<string>)
    ensures candidate == FreeName(base, taken) && candidate !in taken
    ensures taken' == taken + {candidate}
  {
    candidate := PrefixSlice(base, PROFILE_NAME_MAX);
    var suffix := 2;
    while candidate in taken
      invariant 2 <= suffix <= |taken| + 3
      invariant candidate == Candidates(base)(suffix - 1)
      invariant forall m: nat :: 1 <= m < suffix - 1 ==> Candidates(base)(m) in taken
      decreases |taken| + 3 - suffix
    {
      RefusedBound(Candidates(base), taken, suffix);
      var tail := " (" + Decimal(suffix) + ")";
      candidate := PrefixSlice(base, PROFILE_NAME_MAX - |tail|) + tail;
      suffix := suffix + 1;
    }
    FirstFreeUnique(Candidates(base), taken, suffix - 1);
    taken' := taken + {candidate};
  }

  /** The result fits the column as long as its tail does. */
  lemma FreeNameFits(base: string, taken: set<string>)
    requires |Tail(FirstFree(Candidates(base), taken, 1))| <= PROFILE_NAME_MAX
    ensures |FreeName(base, taken)| <= PROFILE_NAME_MAX
  {
  }

  lemma {:induction false} DecimalLength(n: nat, digits: nat)
    requires digits >= 1 && n < Pow10(digits)
    ensures |Decimal(n)| <= digits
  {
    assert Pow10(1) == 10;
    if n >= 10 {
      DecimalLength(n / 10, digits - 1);
    }
  }

  function Pow10(n: nat): nat {
    if n == 0 then 1 else 10 * Pow10(n - 1)
  }

  /** It always does for fewer than 10^197 - 2 profiles. */
  lemma FreeNameFitsAlways(base: string, taken: set<string>)
    requires |taken| + 2 < Pow10(197)
    ensures |FreeName(base, taken)| <= 200
  {
    DecimalLength(FirstFree(Candidates(base), taken, 1), 197);
    FreeNameFits(base, taken);
  }

  /** A base that fits is the name itself while it is free. */
  lemma WholeName(base: string, taken: set<string>)
    requires |base| <= 200 && base !in taken
    ensures FreeName(base, taken) == base
  {
    FirstFreeUnique(Candidates(base), taken, 1);
  }

  function Cut(s: string, n: nat): string {
    if |s| <= n then s else s[..n]
  }

  /** The second profile of a name gets the number 2, behind the base cut to make room. */
  lemma SecondName(base: string, taken: set<string>)
    requires Cut(base, 200) in taken && Cut(base, 196) + " (2)" !in taken
    ensures FreeName(base, taken) == Cut(base, 196) + " (2)"
  {
    assert Decimal(2) == "2";
    assert Tail(2) == " (2)";
    assert Candidates(base)(1) == Cut(base, 200) && Candidates(base)(2) == Cut(base, 196) + " (2)";
    FirstFreeUnique(Candidates(base), taken, 2);
  }
}
