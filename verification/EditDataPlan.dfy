/** Which widgets of a dashboard in edit mode reuse the loaded batch, and which
    are fetched through a preview. */
module EditDataPlan {
  import opened Common
  import Json

  datatype Status = Loading | Ok | Pending | Error | Forbidden | NoData

  datatype WidgetState = WidgetState(status: Status, data: Json.Value)

  datatype Widget = Widget(id: string, typeKey: string, typeVersion: int, settings: Json.Value)

  /** What a widget shows: its type, version and settings.  Objects are maps, so
      the order of settings keys does not matter. */
  datatype Content = Content(typeKey: string, typeVersion: int, settings: Json.Value)

  function ContentOf(w: Widget): Content {
    Content(w.typeKey, w.typeVersion, w.settings)
  }

  predicate Reusable(s: WidgetState) {
    s.status == Ok || s.status == Forbidden || s.status == Loading
  }

  const NONE_STATE := WidgetState(NoData, Json.Null)

  datatype Plan = Plan(byWidget: map<string, WidgetState>, previewIds: set<string>)

  function ReusableStates(saved: seq<Widget>, states: map<string, WidgetState>): map<Content, WidgetState> {
    if saved == [] then map[]
    else
      var w := saved[|saved| - 1];
      var front := ReusableStates(saved[..|saved| - 1], states);
      if w.id in states && Reusable(states[w.id]) then front[ContentOf(w) := states[w.id]] else front
  }

  function PlanFor(reusable: map<Content, WidgetState>, current: seq<Widget>, hasData: string -> bool): Plan {
    if current == [] then Plan(map[], {})
    else
      var w := current[|current| - 1];
      var p := PlanFor(reusable, current[..|current| - 1], hasData);
      if !hasData(w.typeKey) then p.(byWidget := p.byWidget[w.id := NONE_STATE])
      else if ContentOf(w) in reusable then p.(byWidget := p.byWidget[w.id := reusable[ContentOf(w)]])
      else p.(previewIds := p.previewIds + {w.id})
  }

  function EditPlan(saved: seq<Widget>, states: map<string, WidgetState>, current: seq<Widget>, hasData: string -> bool): Plan {
    PlanFor(ReusableStates(saved, states), current, hasData)
  }

  method PlanEdit(saved: seq<Widget>, states: map<string, WidgetState>, current: seq<Widget>, hasData: string -> bool)
    returns (plan: Plan)
    ensures plan == EditPlan(saved, states, current, hasData)
  {
    var reusable: map<Content, WidgetState> := map[];
    for i := 0 to |saved|
      invariant reusable == ReusableStates(saved[..i], states)
    {
      assert saved[..i + 1][..i] == saved[..i];
      var w := saved[i];
      if w.id in states && Reusable(states[w.id]) {
        reusable := reusable[ContentOf(w) := states[w.id]];
      }
    }
    assert saved[..|saved|] == saved;
    var byWidget: map<string, WidgetState> := map[];
    var previewIds: set<string> := {};
    for i := 0 to |current|
      invariant Plan(byWidget, previewIds) == PlanFor(reusable, current[..i], hasData)
    {
      assert current[..i + 1][..i] == current[..i];
      var w := current[i];
      if !hasData(w.typeKey) {
        byWidget := byWidget[w.id := NONE_STATE];
        continue;
      }
      if ContentOf(w) in reusable {
        byWidget := byWidget[w.id := reusable[ContentOf(w)]];
      } else {
        previewIds := previewIds + {w.id};
      }
    }
    assert current[..|current|] == current;
    plan := Plan(byWidget, previewIds);
  }

  /** A loaded widget alike in type, version and settings, in a state worth keeping. */
  ghost predicate IsTwin(saved: seq<Widget>, states: map<string, WidgetState>, c: Content, w: Widget) {
    && w in saved && w.typeKey == c.typeKey && w.typeVersion == c.typeVersion && w.settings == c.settings
    && w.id in states && states[w.id].status in {Ok, Forbidden, Loading}
  }

  ghost predicate HasTwin(saved: seq<Widget>, states: map<string, WidgetState>, c: Content) {
    exists w :: IsTwin(saved, states, c, w)
  }

  /** The last of several twins. */
  ghost predicate LastTwin(saved: seq<Widget>, states: map<string, WidgetState>, c: Content, i: nat) {
    i < |saved| && IsTwin(saved, states, c, saved[i]) && forall j :: i < j < |saved| ==> !IsTwin(saved, states, c, saved[j])
  }

  lemma TwinSnoc(saved: seq<Widget>, states: map<string, WidgetState>, c: Content, w: Widget)
    requires saved != []
    ensures var n := |saved| - 1;
            IsTwin(saved, states, c, w) <==>
            IsTwin(saved[..n], states, c, w) || (w == saved[n] && IsTwin(saved, states, c, saved[n]))
  {
    assert saved == saved[..|saved| - 1] + [saved[|saved| - 1]];
  }

  lemma {:induction false} ReusableExact(saved: seq<Widget>, states: map<string, WidgetState>, c: Content)
    ensures c in ReusableStates(saved, states) <==> HasTwin(saved, states, c)
    ensures c in ReusableStates(saved, states) ==>
      exists i: nat :: LastTwin(saved, states, c, i) && ReusableStates(saved, states)[c] == states[saved[i].id]
  {
    if saved != [] {
      var n := |saved| - 1;
      ReusableExact(saved[..n], states, c);
      forall w
        ensures IsTwin(saved, states, c, w) <==>
                IsTwin(saved[..n], states, c, w) || (w == saved[n] && IsTwin(saved, states, c, saved[n]))
      {
        TwinSnoc(saved, states, c, w);
      }
      if IsTwin(saved, states, c, saved[n]) {
        assert LastTwin(saved, states, c, n);
      } else if c in ReusableStates(saved[..n], states) {
        var i: nat :| LastTwin(saved[..n], states, c, i) && ReusableStates(saved[..n], states)[c] == states[saved[..n][i].id];
        assert LastTwin(saved, states, c, i);
      }
    }
  }

  ghost predicate DistinctIds(ws: seq<Widget>) {
    forall i, j :: 0 <= i < j < |ws| ==> ws[i].id != ws[j].id
  }

  lemma {:induction false} PlanExact(reusable: map<Content, WidgetState>, current: seq<Widget>, hasData: string -> bool, i: nat)
    requires DistinctIds(current) && i < |current|
    ensures var p, w := PlanFor(reusable, current, hasData), current[i];
            && (w.id in p.previewIds <==> hasData(w.typeKey) && ContentOf(w) !in reusable)
            && (w.id in p.byWidget <==> w.id !in p.previewIds)
            && (w.id in p.byWidget ==>
                  p.byWidget[w.id] == if hasData(w.typeKey) then reusable[ContentOf(w)] else NONE_STATE)
  {
    var n := |current| - 1;
    if i < n {
      PlanExact(reusable, current[..n], hasData, i);
    } else {
      PlanOnlyIds(reusable, current[..n], hasData, current[n].id);
    }
  }

  lemma {:induction false} PlanOnlyIds(reusable: map<Content, WidgetState>, current: seq<Widget>, hasData: string -> bool, id: string)
    requires forall w :: w in current ==> w.id != id
    ensures id !in PlanFor(reusable, current, hasData).byWidget && id !in PlanFor(reusable, current, hasData).previewIds
  {
    if current != [] {
      var n := |current| - 1;
      assert current[n] in current;
      PlanOnlyIds(reusable, current[..n], hasData, id);
    }
  }

  /** Exactly the data widgets without a finished (or still loading) twin are
      previewed; every other widget has a state, a twin's or "none". */
  lemma PreviewsExactlyTheNew(saved: seq<Widget>, states: map<string, WidgetState>, current: seq<Widget>, hasData: string -> bool, i: nat)
    requires DistinctIds(current) && i < |current|
    ensures var p, w := EditPlan(saved, states, current, hasData), current[i];
            && (w.id in p.previewIds <==> hasData(w.typeKey) && !HasTwin(saved, states, ContentOf(w)))
            && ContentOf(w) == Content(w.typeKey, w.typeVersion, w.settings)
            && (w.id in p.byWidget <==> w.id !in p.previewIds)
            && (w.id in p.byWidget && !hasData(w.typeKey) ==> p.byWidget[w.id].status == NoData)
            && (w.id in p.byWidget && hasData(w.typeKey) ==>
                  exists j: nat :: LastTwin(saved, states, ContentOf(w), j) && p.byWidget[w.id] == states[saved[j].id])
  {
    PlanExact(ReusableStates(saved, states), current, hasData, i);
    ReusableExact(saved, states, ContentOf(current[i]));
  }

  predicate Finished(s: WidgetState) {
    s.status == Ok || s.status == Forbidden
  }

  /** Reuse agrees with fetching: if the finished states of a widget's own twins
      are what a fetch of its content answers, the widget is previewed, still
      loading, or shows that answer; what other widgets show does not matter. */
  lemma ReuseAgreesWithFetching(saved: seq<Widget>, states: map<string, WidgetState>, current: seq<Widget>, hasData: string -> bool,
                                fetch: Content -> WidgetState, i: nat)
    requires DistinctIds(current) && i < |current| && hasData(current[i].typeKey)
    requires var c := ContentOf(current[i]);
             forall w :: IsTwin(saved, states, c, w) && Finished(states[w.id]) ==> states[w.id] == fetch(c)
    ensures var p, w := EditPlan(saved, states, current, hasData), current[i];
            w.id in p.previewIds ||
            (w.id in p.byWidget && (p.byWidget[w.id].status == Loading || p.byWidget[w.id] == fetch(ContentOf(w))))
  {
    PreviewsExactlyTheNew(saved, states, current, hasData, i);
  }

  /** A layout whose contents were all loaded needs no preview, wherever and
      however often they appear in it. */
  lemma RearrangingNeverFetches(saved: seq<Widget>, states: map<string, WidgetState>, current: seq<Widget>, hasData: string -> bool)
    requires forall w :: w in current && hasData(w.typeKey) ==> HasTwin(saved, states, ContentOf(w))
    ensures EditPlan(saved, states, current, hasData).previewIds == {}
  {
    forall w | w in current && hasData(w.typeKey)
      ensures ContentOf(w) in ReusableStates(saved, states)
    {
      ReusableExact(saved, states, ContentOf(w));
    }
    NoPreviews(ReusableStates(saved, states), current, hasData);
  }

  lemma {:induction false} NoPreviews(reusable: map<Content, WidgetState>, current: seq<Widget>, hasData: string -> bool)
    requires forall w :: w in current && hasData(w.typeKey) ==> ContentOf(w) in reusable
    ensures PlanFor(reusable, current, hasData).previewIds == {}
  {
    if current != [] {
      assert current[|current| - 1] in current;
      NoPreviews(reusable, current[..|current| - 1], hasData);
    }
  }
}
