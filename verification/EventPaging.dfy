/** Reading a change's event log page by page, newest first. */
module EventPaging {
  import opened Common
  import opened ChangeRecord

  const DEFAULT_LIMIT := 50

  /** Events older than `before`; 0 stands for a missing or unreadable bound. */
  function Older(events: seq<Event>, before: real): seq<Event> {
    if events == [] then []
    else
      var n := |events| - 1;
      Older(events[..n], before) + if before == 0.0 || events[n].id as real < before then [events[n]] else []
  }

  function Reversed<T>(s: seq<T>): (r: seq<T>)
    ensures |r| == |s|
    ensures forall i :: 0 <= i < |s| ==> r[i] == s[|s| - 1 - i]
  {
    seq(|s|, i requires 0 <= i < |s| => s[|s| - 1 - i])
  }

  /** JavaScript's `s.slice(0, n)`: a negative bound counts from the end. */
  function Slice<T>(s: seq<T>, n: int): seq<T> {
    if n >= |s| then s
    else if n >= 0 then s[..n]
    else if |s| + n >= 0 then s[..|s| + n]
    else []
  }

  /** Rounding toward zero, as slicing does with a fraction. */
  function Trunc(x: real): int {
    if x >= 0.0 then x.Floor else -((-x).Floor)
  }

  /** A missing, unreadable or zero limit means 50. */
  function Limit(limit: real): int {
    if limit == 0.0 then DEFAULT_LIMIT else Trunc(limit)
  }

  /** One answer of the events route. */
  function Page(events: seq<Event>, before: real, limit: real): seq<Event> {
    Slice(Reversed(Older(events, before)), Limit(limit))
  }

  method EventPage(events: seq<Event>, before: real, limit: real) returns (page: seq<Event>)
    ensures page == Page(events, before, limit)
  {
    var older: seq<Event> := [];
    for i := 0 to |events|
      invariant older == Older(events[..i], before)
    {
      assert events[..i + 1][..i] == events[..i];
      if before == 0.0 || events[i].id as real < before {
        older := older + [events[i]];
      }
    }
    assert events[..|events|] == events;
    page := Slice(Reversed(older), Limit(limit));
  }

  ghost predicate Numbered(events: seq<Event>) {
    forall i :: 0 <= i < |events| ==> events[i].id == i + 1
  }

  function Ceiling(x: real): int {
    -((-x).Floor)
  }

  /** How many of n numbered events are older. */
  function Cut(before: real, n: nat): (c: nat)
    ensures c <= n
  {
    if before == 0.0 || Ceiling(before) - 1 >= n then n
    else if before > 0.0 then Ceiling(before) - 1
    else 0
  }

  function Remaining(events: seq<Event>, before: real): (r: seq<Event>)
    ensures r <= events
  {
    events[..Cut(before, |events|)]
  }

  lemma {:induction false} OlderIsPrefix(events: seq<Event>, before: real)
    requires Numbered(events)
    ensures Older(events, before) == Remaining(events, before)
  {
    if events != [] {
      var n := |events| - 1;
      OlderIsPrefix(events[..n], before);
      assert events == events[..n] + [events[n]];
      assert events[n].id as real == (n + 1) as real;
    }
  }

  /** A client that asks for the next page with the last id it has seen, until
      a page comes back empty. */
  ghost function Walk(events: seq<Event>, before: real, limit: real): seq<Event>
    requires Numbered(events)
    decreases |Remaining(events, before)|
  {
    PageShape(events, before, limit);
    var page := Page(events, before, limit);
    if page == [] then [] else page + Walk(events, page[|page| - 1].id as real, limit)
  }

  /** A page starts the remaining events, newest first; the last id on it leads to the rest. */
  lemma PageShape(events: seq<Event>, before: real, limit: real)
    requires Numbered(events)
    ensures var page, older := Page(events, before, limit), Remaining(events, before);
            && page == Slice(Reversed(older), Limit(limit))
            && (page != [] ==>
                  var next := Remaining(events, page[|page| - 1].id as real);
                  |next| == |older| - |page| && Reversed(older) == page + Reversed(next))
  {
    OlderIsPrefix(events, before);
    var page, older := Page(events, before, limit), Remaining(events, before);
    if page != [] {
      PageRest(events, older, page, page[|page| - 1].id);
    }
  }

  lemma PageRest(events: seq<Event>, older: seq<Event>, page: seq<Event>, last: nat)
    requires Numbered(events) && older <= events && 0 < |page| <= |older| && page == Reversed(older)[..|page|]
    requires last == page[|page| - 1].id
    ensures last == |older| - |page| + 1 && Remaining(events, last as real) == events[..last - 1]
    ensures Reversed(older) == page + Reversed(events[..last - 1])
  {
    assert page[|page| - 1] == older[|older| - |page|];
    assert Reversed(older)[|page|..] == Reversed(events[..last - 1]);
    assert Ceiling(last as real) == last;
  }

  /** A nonempty page leaves, for a negative limit, just what it cuts off. */
  lemma SliceRest<T>(older: seq<T>, page: seq<T>, rest: seq<T>, k: int)
    requires page == Slice(older, k) && page != [] && older == page + rest
    ensures page + (if k >= 1 then rest else Slice(rest, k)) == if k >= 1 then older else Slice(older, k)
  {
  }

  /** From any point on: with a limit of one or more the pages concatenate to
      what remains, newest first; else the first page is the only one. */
  lemma {:induction false} WalkFrom(events: seq<Event>, before: real, limit: real)
    requires Numbered(events)
    ensures var older := Reversed(Remaining(events, before));
            Walk(events, before, limit) == if Limit(limit) >= 1 then older else Slice(older, Limit(limit))
    decreases |Remaining(events, before)|
  {
    PageShape(events, before, limit);
    var page := Page(events, before, limit);
    if page != [] {
      var last := page[|page| - 1].id as real;
      WalkFrom(events, last, limit);
      SliceRest(Reversed(Remaining(events, before)), page, Reversed(Remaining(events, last)), Limit(limit));
    }
  }

  /** The pages give the whole log, every event exactly once, newest first,
      exactly when the limit is missing or at least one, or the log is empty: a
      limit between 0 and 1 gives an empty page, a negative one drops the oldest
      events. */
  lemma PagesCoverExactly(events: seq<Event>, limit: real)
    requires Numbered(events)
    ensures Walk(events, 0.0, limit) == Reversed(events) <==> events == [] || limit == 0.0 || limit >= 1.0
  {
    WalkFrom(events, 0.0, limit);
    assert Remaining(events, 0.0) == events;
    assert Limit(limit) >= 1 <==> limit == 0.0 || limit >= 1.0;
  }

  /** Without bound and limit a page is the newest fifty events, newest first. */
  lemma DefaultPage(events: seq<Event>)
    requires Numbered(events)
    ensures var page := Page(events, 0.0, 0.0);
            && |page| == (if |events| < 50 then |events| else 50)
            && forall i :: 0 <= i < |page| ==> page[i] == events[|events| - 1 - i]
  {
    OlderIsPrefix(events, 0.0);
  }
}
