/** What creating and updating a change accept, refuse and set. */
module ChangeEdits {
  import opened Common
  import opened Text
  import opened Chains
  import opened ChangePhases
  import opened ChangeRecord
  import opened ChangeGuards
  import opened ChangeEffects

  ghost predicate InOrder(start: Option<string>, end: Option<string>) {
    Given(start) && Given(end) ==> Less(start.value, end.value)
  }

  // ---- update ----

  /** The text a field is to have: unchanged if not sent, nothing if sent blank. */
  ghost function WantedText(b: UpdateBody, f: Field, now: Option<string>): Option<string> {
    if f !in b.texts then now
    else if Blank(b.texts[f]) then None
    else Some(Trimmed(b.texts[f]))
  }

  ghost function WantedPlans(b: UpdateBody, p: Plans): Plans {
    Plans(WantedText(b, ImplementationPlan, p.implementation), WantedText(b, BackoutPlan, p.backout), WantedText(b, TestPlan, p.test))
  }

  ghost function WantedEnd(b: UpdateBody, given: Option<string>, now: Option<string>): Option<string> {
    if b.clearWindow then None else if given.Some? then given else now
  }

  ghost function WantedCab(b: UpdateBody, now: Option<int>): Option<int> {
    if b.cabId.Some? then b.cabId.value else now
  }

  ghost function WantedPortal(b: UpdateBody, now: bool): bool {
    if b.portal.Some? then b.portal.value else now
  }

  /** The record the update asks for. */
  ghost function Wanted(r: Change, b: UpdateBody): Change {
    r.(reason := WantedText(b, ReasonField, r.reason), plans := WantedPlans(b, r.plans),
       start := WantedEnd(b, b.start, r.start), end := WantedEnd(b, b.end, r.end),
       cabId := WantedCab(b, r.cabId), portal := WantedPortal(b, r.portal))
  }

  ghost function NameIf(c: bool, name: string): seq<string> {
    if c then [name] else []
  }

  ghost function TextNames(r: Change, w: Change): seq<string> {
    NameIf(w.reason != r.reason, "reason") +
    NameIf(w.plans.implementation != r.plans.implementation, "implementation_plan") +
    NameIf(w.plans.backout != r.plans.backout, "backout_plan") +
    NameIf(w.plans.test != r.plans.test, "test_plan")
  }

  /** The names of the fields that differ, as the log has them. */
  ghost function ChangedNames(r: Change, w: Change): seq<string> {
    TextNames(r, w) + NameIf(w.start != r.start || w.end != r.end, "window") +
    NameIf(w.cabId != r.cabId, "cab_id") + NameIf(w.portal != r.portal, "portal_visible")
  }

  lemma TextEdited(e: Edit, b: UpdateBody, f: Field)
    requires e.stop.None?
    ensures var want, d := WantedText(b, f, TextOf(e.r, f)), EditText(e, b, f);
            d == if want == TextOf(e.r, f) then e
                 else if f != ReasonField && e.r.phase == Approval then e.(stop := Some(LOCKED))
                 else Edit(SetText(e.r, f, want), e.changed + [FieldName(f)], None)
  {
    if f in b.texts {
      CleanExactly(Some(b.texts[f]));
    }
  }

  lemma TextsUnrolled(r: Change, b: UpdateBody)
    ensures var e0 := Edit(r, [], None);
            EditTexts(e0, b, 4) ==
            EditText(EditText(EditText(EditText(e0, b, ReasonField), b, ImplementationPlan), b, BackoutPlan), b, TestPlan)
  {
    var e0 := Edit(r, [], None);
    assert EditTexts(e0, b, 1) == EditText(EditTexts(e0, b, 0), b, ReasonField);
    assert EditTexts(e0, b, 2) == EditText(EditTexts(e0, b, 1), b, ImplementationPlan);
    assert EditTexts(e0, b, 3) == EditText(EditTexts(e0, b, 2), b, BackoutPlan);
    assert EditTexts(e0, b, 4) == EditText(EditTexts(e0, b, 3), b, TestPlan);
  }

  /** One more text: applied, or the first plan that is locked. */
  ghost predicate Texts(r: Change, b: UpdateBody, reason: Option<string>, plans: Plans, names: seq<string>, e: Edit) {
    if r.phase == Approval && plans != r.plans
    then e.stop == Some(LOCKED) && e.r == r.(reason := reason)
    else e == Edit(r.(reason := reason, plans := plans), names, None)
  }

  lemma StoppedText(e: Edit, b: UpdateBody, f: Field)
    requires e.stop.Some?
    ensures EditText(e, b, f) == e
  {
  }

  lemma NextPlan(r: Change, b: UpdateBody, f: Field, reason: Option<string>, plans: Plans, next: Plans, names: seq<string>, e: Edit)
    requires f != ReasonField && Texts(r, b, reason, plans, names, e)
    requires next == SetText(r.(plans := plans), f, WantedText(b, f, TextOf(r, f))).plans
    requires TextOf(r.(plans := plans), f) == TextOf(r, f)
    ensures Texts(r, b, reason, next, names + NameIf(WantedText(b, f, TextOf(r, f)) != TextOf(r, f), FieldName(f)), EditText(e, b, f))
  {
    if e.stop.Some? {
      StoppedText(e, b, f);
    } else {
      TextEdited(e, b, f);
    }
  }

  lemma TextsExactly(r: Change, b: UpdateBody)
    ensures var w := Wanted(r, b); Texts(r, b, w.reason, w.plans, TextNames(r, w), EditTexts(Edit(r, [], None), b, 4))
  {
    var w, e0, p := Wanted(r, b), Edit(r, [], None), r.plans;
    TextsUnrolled(r, b);
    TextEdited(e0, b, ReasonField);
    var e1 := EditText(e0, b, ReasonField);
    var n1 := NameIf(w.reason != r.reason, "reason");
    assert Texts(r, b, w.reason, p, n1, e1);
    var p2 := p.(implementation := w.plans.implementation);
    NextPlan(r, b, ImplementationPlan, w.reason, p, p2, n1, e1);
    var e2, n2 := EditText(e1, b, ImplementationPlan), n1 + NameIf(w.plans.implementation != p.implementation, "implementation_plan");
    var p3 := p2.(backout := w.plans.backout);
    NextPlan(r, b, BackoutPlan, w.reason, p2, p3, n2, e2);
    var e3, n3 := EditText(e2, b, BackoutPlan), n2 + NameIf(w.plans.backout != p.backout, "backout_plan");
    NextPlan(r, b, TestPlan, w.reason, p3, w.plans, n3, e3);
  }

  /** Fields an approval in progress locks. */
  ghost predicate Unlocks(r: Change, w: Change) {
    w.plans != r.plans || w.start != r.start || w.end != r.end || w.cabId != r.cabId
  }

  ghost predicate Updatable(r: Change, b: UpdateBody) {
    var w := Wanted(r, b);
    && r.phase !in {Closed, Cancelled}
    && InOrder(w.start, w.end)
    && (r.phase == Approval ==> !Unlocks(r, w))
  }

  /** Why an update is refused. */
  ghost function UpdateFailure(r: Change, b: UpdateBody): Answer {
    var w := Wanted(r, b);
    if r.phase in {Closed, Cancelled} then Fail(409, "change_final", [])
    else if r.phase == Approval && w.plans != r.plans then Fail(409, "change_locked_in_approval", [])
    else if !InOrder(w.start, w.end) then Fail(422, "window_invalid", [])
    else Fail(409, "change_locked_in_approval", [])
  }

  lemma WindowEdited(e: Edit, b: UpdateBody)
    requires e.stop.None?
    ensures var start, end := WantedEnd(b, b.start, e.r.start), WantedEnd(b, b.end, e.r.end);
            EditWindow(e, b) ==
            if !InOrder(start, end) then e.(stop := Some(Fail(422, "window_invalid", [])))
            else if start == e.r.start && end == e.r.end then e
            else if e.r.phase == Approval then e.(stop := Some(LOCKED))
            else Edit(e.r.(start := start, end := end), e.changed + ["window"], None)
  {
  }

  lemma RestEdited(e: Edit, b: UpdateBody)
    requires e.stop.None?
    ensures var cab, portal := WantedCab(b, e.r.cabId), WantedPortal(b, e.r.portal);
            EditPortal(EditCab(e, b), b) ==
            if cab != e.r.cabId && e.r.phase == Approval then e.(stop := Some(LOCKED))
            else Edit(e.r.(cabId := cab, portal := portal),
                      e.changed + (NameIf(cab != e.r.cabId, "cab_id") + NameIf(portal != e.r.portal, "portal_visible")), None)
  {
  }

  function AllEdits(r: Change, b: UpdateBody): Edit {
    EditPortal(EditCab(EditWindow(EditTexts(Edit(r, [], None), b, 4), b), b), b)
  }

  /** The window after the texts. */
  lemma WindowAfterTexts(r: Change, b: UpdateBody, e: Edit)
    requires var w := Wanted(r, b);
             e == Edit(r.(reason := w.reason, plans := w.plans), TextNames(r, w), None) && (r.phase == Approval ==> w.plans == r.plans)
    ensures var w, f := Wanted(r, b), EditWindow(e, b);
            if !InOrder(w.start, w.end) then f == e.(stop := Some(Fail(422, "window_invalid", [])))
            else if r.phase == Approval && (w.start != r.start || w.end != r.end) then f == e.(stop := Some(LOCKED))
            else f == Edit(e.r.(start := w.start, end := w.end), e.changed + NameIf(w.start != r.start || w.end != r.end, "window"), None)
  {
    WindowEdited(e, b);
  }

  lemma RestAfterWindow(r: Change, b: UpdateBody, f: Edit)
    requires var w := Wanted(r, b);
             && f.r == r.(reason := w.reason, plans := w.plans, start := w.start, end := w.end) && f.stop.None?
             && f.changed == TextNames(r, w) + NameIf(w.start != r.start || w.end != r.end, "window")
    ensures var w, g := Wanted(r, b), EditPortal(EditCab(f, b), b);
            if r.phase == Approval && w.cabId != r.cabId then g == f.(stop := Some(LOCKED))
            else g == Edit(w, ChangedNames(r, w), None)
  {
    RestEdited(f, b);
  }

  lemma StoppedEdits(e: Edit, b: UpdateBody)
    requires e.stop.Some?
    ensures EditWindow(e, b) == e && EditPortal(EditCab(e, b), b) == e
  {
  }

  /** All edits of a change that is not final. */
  lemma EditsExactly(r: Change, b: UpdateBody)
    requires r.phase !in {Closed, Cancelled}
    ensures var w, e := Wanted(r, b), AllEdits(r, b);
            if Updatable(r, b) then e == Edit(w, ChangedNames(r, w), None)
            else e.stop == Some(UpdateFailure(r, b)) &&
                 e.r == r.(reason := w.reason, plans := if r.phase == Approval then r.plans else w.plans)
  {
    var e := EditTexts(Edit(r, [], None), b, 4);
    TextsExactly(r, b);
    if e.stop.Some? {
      StoppedEdits(e, b);
    } else {
      WindowAfterTexts(r, b, e);
      var f := EditWindow(e, b);
      if f.stop.Some? {
        StoppedEdits(f, b);
      } else {
        RestAfterWindow(r, b, f);
      }
    }
  }

  /** An update applies exactly what it asks for and logs the changed fields'
      names once, if any; a refused one keeps only the reason, and outside
      approval the plans, and logs nothing. */
  lemma UpdateExactly(at: At, b: UpdateBody)
    ensures var r, w, res := at.r, Wanted(at.r, b), UpdateStep(at, b);
            if Updatable(r, b)
            then && res.answer == Done && res.at.r == w.(events := res.at.r.events)
                 && Kinds(res.at.r.events) == Kinds(r.events) + (if ChangedNames(r, w) == [] then [] else [Updated(ChangedNames(r, w))])
            else && res.answer == UpdateFailure(r, b) && res.at.tick == at.tick
                 && res.at.r == (if r.phase in {Closed, Cancelled} then r
                                 else r.(reason := w.reason, plans := if r.phase == Approval then r.plans else w.plans))
  {
    if at.r.phase !in {Closed, Cancelled} {
      EditsExactly(at.r, b);
      KindsAppended(at.r.events, at.tick, Updated(ChangedNames(at.r, Wanted(at.r, b))));
    }
  }

  // ---- create ----

  ghost predicate IsTemplate(ts: seq<Template>, id: int, i: nat) {
    i < |ts| && ts[i].id == id && ts[i].valid
  }

  ghost predicate FirstTemplate(ts: seq<Template>, id: int, i: nat) {
    IsTemplate(ts, id, i) && forall j: nat :: j < i ==> !IsTemplate(ts, id, j)
  }

  /** The first valid template with the id asked for. */
  ghost predicate Chosen(ts: seq<Template>, id: Option<int>, t: Option<Template>) {
    match t
    case None => id.None? || forall i: nat :: !IsTemplate(ts, id.value, i)
    case Some(x) => id.Some? && exists i: nat :: FirstTemplate(ts, id.value, i) && ts[i] == x
  }

  lemma {:induction false} TemplateChosen(ts: seq<Template>, id: Option<int>)
    ensures Chosen(ts, id, FindTemplate(ts, id))
  {
    if ts != [] && id.Some? {
      if IsTemplate(ts, id.value, 0) {
        assert FirstTemplate(ts, id.value, 0);
      } else {
        TemplateChosen(ts[1..], id);
        var t := FindTemplate(ts[1..], id);
        forall i: nat
          ensures IsTemplate(ts, id.value, i) <==> i > 0 && IsTemplate(ts[1..], id.value, i - 1)
        {
        }
        if t.Some? {
          var i: nat :| FirstTemplate(ts[1..], id.value, i) && ts[1..][i] == t.value;
          assert FirstTemplate(ts, id.value, i + 1) && ts[i + 1] == t.value;
        }
      }
    }
  }

  function TypeOf(b: CreateBody): ChangeType {
    if b.ctype.None? then Normal else b.ctype.value
  }

  ghost predicate Creatable(b: CreateBody, t: Option<Template>) {
    && (TypeOf(b) == Standard ==> t.Some? && t.value.isStandard)
    && (b.templateId.Some? ==> t.Some?)
    && (t.Some? ==> t.value.ctype == TypeOf(b))
    && InOrder(b.start, b.end)
  }

  /** Why a create is refused. */
  ghost function CreateFailure(b: CreateBody, t: Option<Template>): string {
    if TypeOf(b) == Standard && (t.None? || !t.value.isStandard) then "standard_needs_template"
    else if b.templateId.Some? && t.None? then "template_not_found"
    else if t.Some? && t.value.ctype != TypeOf(b) then "template_type_mismatch" else "window_invalid"
  }

  lemma CreatableExactly(cfg: Config, b: CreateBody)
    ensures var t := FindTemplate(cfg.templates, b.templateId);
            && Chosen(cfg.templates, b.templateId, t)
            && (CreateRefusal(cfg, b).None? <==> Creatable(b, t))
            && (CreateRefusal(cfg, b).Some? ==> CreateRefusal(cfg, b).value == CreateFailure(b, t))
  {
    TemplateChosen(cfg.templates, b.templateId);
  }

  /** A new change: a draft with what the body says, then what the template says. */
  lemma CreatedExactly(cfg: Config, id: int, tick: nat, b: CreateBody, t: Option<Template>)
    requires t == FindTemplate(cfg.templates, b.templateId)
    ensures var at := CreatedRecord(cfg, id, tick, b);
            var r := at.r;
            && r.id == id && r.ctype == TypeOf(b) && r.phase == Draft
            && r.title == (if SaysSomething(b.title) then Trimmed(b.title.value) else "Neuer Change")
            && r.reason == (if SaysSomething(b.reason) then Some(Trimmed(b.reason.value)) else None)
            && r.start == b.start && r.end == b.end
            && r.templateId == (if t.Some? then Some(t.value.id) else None)
            && r.cabId == (if b.cabId.Some? then b.cabId else if t.Some? then t.value.cabId else None)
            && r.plans == (if t.Some? then Plans(t.value.implementationPlan, t.value.backoutPlan, None) else Plans(None, None, None))
            && r.answers == (if t.Some? then t.value.riskAnswers else map[])
            && r.portal == (t.Some? && t.value.portal)
            && r.via == (if TypeOf(b) == Standard then Some("template") else None)
            && Kinds(r.events) == [Created, PhaseChanged(None, Draft, None)]
  {
    CleanExactly(b.title);
    CleanExactly(b.reason);
    var at := At(NewRecord(id, b, t), tick);
    KindsAppended([], tick, Created);
    KindsAppended(at.Log(Created).r.events, tick + 1, PhaseChanged(None, Draft, None));
  }

  /** Nothing has happened to it yet; its services are those named, each once, and
      its tasks the template's. */
  lemma CreatedFresh(cfg: Config, id: int, tick: nat, b: CreateBody, t: Option<Template>)
    requires t == FindTemplate(cfg.templates, b.templateId)
    ensures var r := CreatedRecord(cfg, id, tick, b).r;
            && r.outcome == None && r.pir == None && r.actualStart == None && r.actualEnd == None && r.evaluatedAt == None
            && r.overrideLevel == None && r.overrideReason == None && r.round == 0 && r.approvalId == None
            && r.approvedAt == None && r.approvalStatus == None && r.impactComputedAt == None
            && Distinct(r.services)
            && (forall s :: s in r.services <==> b.serviceId == Some(s) || s in b.serviceIds)
            && (r.impactRequestedAt.Some? <==> r.services != [])
  {
    DedupedElements((if b.serviceId.Some? then [b.serviceId.value] else []) + b.serviceIds);
  }

  lemma CreatedTasks(cfg: Config, id: int, tick: nat, b: CreateBody, t: Option<Template>)
    requires t == FindTemplate(cfg.templates, b.templateId)
    ensures var r := CreatedRecord(cfg, id, tick, b).r;
            if t.None? then r.tasks == []
            else |r.tasks| == |t.value.tasks| &&
                 forall i :: 0 <= i < |r.tasks| ==>
                   var x := t.value.tasks[i]; r.tasks[i] == Task(400 + 10 * id + x.position, x.title, x.kind, x.position, false)
  {
  }
}
