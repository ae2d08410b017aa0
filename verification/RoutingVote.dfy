/** The global default of a task: the value most valid policies use. */
module RoutingVote {
  import opened Common

  /** How many votes are for `v` (the Counter of the votes). */
  function Count(values: seq<Option<nat>>, v: Option<nat>): nat {
    if values == [] then 0
    else Count(values[..|values| - 1], v) + if values[|values| - 1] == v then 1 else 0
  }

  /** The best count among the first n votes. */
  function MaxCount(values: seq<Option<nat>>, n: nat): nat
    requires n <= |values|
  {
    if n == 0 then 0
    else
      var m, c := MaxCount(values, n - 1), Count(values, values[n - 1]);
      if c > m then c else m
  }

  /** The lowest profile index with count `best` among the first n votes. */
  function LowestTied(values: seq<Option<nat>>, best: nat, n: nat): Option<nat>
    requires n <= |values|
  {
    if n == 0 then None
    else
      var low, v := LowestTied(values, best, n - 1), values[n - 1];
      if v.Some? && Count(values, v) == best && (low.None? || v.value < low.value) then v else low
  }

  /** A value no other has more votes than; "none" if it is one of them, else the
      smallest profile index among them. */
  function GlobalValue(values: seq<Option<nat>>): Option<nat> {
    var best := MaxCount(values, |values|);
    if Count(values, None) == best then None else LowestTied(values, best, |values|)
  }

  function Rank(v: Option<nat>): int {
    if v.None? then -1 else v.value
  }

  /** Rows needed when `g` is the default: one for every vote that differs. */
  function RowsNeeded(values: seq<Option<nat>>, g: Option<nat>): nat {
    if values == [] then 0
    else RowsNeeded(values[..|values| - 1], g) + if values[|values| - 1] != g then 1 else 0
  }

  lemma {:induction false} RowsNeededCount(values: seq<Option<nat>>, g: Option<nat>)
    ensures RowsNeeded(values, g) == |values| - Count(values, g)
  {
    if values != [] {
      RowsNeededCount(values[..|values| - 1], g);
    }
  }

  lemma {:induction false} CountPositive(values: seq<Option<nat>>, v: Option<nat>)
    ensures Count(values, v) > 0 <==> v in values
  {
    if values != [] {
      var n := |values| - 1;
      CountPositive(values[..n], v);
      assert values == values[..n] + [values[n]];
    }
  }

  lemma {:induction false} MaxCountBound(values: seq<Option<nat>>, n: nat)
    requires n <= |values|
    ensures forall i :: 0 <= i < n ==> Count(values, values[i]) <= MaxCount(values, n)
    ensures MaxCount(values, n) == 0 || exists i :: 0 <= i < n && Count(values, values[i]) == MaxCount(values, n)
  {
    if n > 0 {
      MaxCountBound(values, n - 1);
    }
  }

  lemma {:induction false} LowestTiedLeast(values: seq<Option<nat>>, best: nat, n: nat)
    requires n <= |values|
    ensures var low := LowestTied(values, best, n);
            (low.Some? ==> Count(values, low) == best) &&
            forall i :: 0 <= i < n && values[i].Some? && Count(values, values[i]) == best ==>
              low.Some? && low.value <= values[i].value
  {
    if n > 0 {
      LowestTiedLeast(values, best, n - 1);
    }
  }

  /** No other default, "none" included, needs fewer rows; among equally good
      ones "none" wins, then the lowest index. */
  lemma GlobalValueOptimal(values: seq<Option<nat>>, v: Option<nat>)
    ensures var g := GlobalValue(values);
            RowsNeeded(values, g) <= RowsNeeded(values, v) &&
            (RowsNeeded(values, g) == RowsNeeded(values, v) ==> Rank(g) <= Rank(v))
  {
    var n := |values|;
    var best := MaxCount(values, n);
    var g := GlobalValue(values);
    MaxCountBound(values, n);
    LowestTiedLeast(values, best, n);
    forall w
      ensures Count(values, w) <= best
    {
      CountPositive(values, w);
      if w in values {
        var i :| 0 <= i < n && values[i] == w;
      }
    }
    if best == 0 {
      CountPositive(values, None);
    } else {
      var i :| 0 <= i < n && Count(values, values[i]) == best;
      assert Count(values, g) == best;
      CountPositive(values, v);
      if v in values {
        var j :| 0 <= j < n && values[j] == v;
      }
    }
    RowsNeededCount(values, g);
    RowsNeededCount(values, v);
  }

  /** The default is one of the votes, or "none". */
  lemma GlobalValueVoted(values: seq<Option<nat>>)
    ensures GlobalValue(values).Some? ==> GlobalValue(values) in values
  {
    var n := |values|;
    var best := MaxCount(values, n);
    MaxCountBound(values, n);
    LowestTiedLeast(values, best, n);
    if GlobalValue(values).Some? {
      CountPositive(values, GlobalValue(values));
      CountPositive(values, None);
    }
  }
}
