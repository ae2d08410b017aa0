/** The mutable store behind the change routes, proved against the record
    steps of `ChangeRuns`. */
module ChangeStoreObject {
  import opened Common
  import opened Text
  import opened ChangePhases
  import opened ChangeRecord
  import opened ChangeRuns
  import EventPaging

  class Rec {
    const id: int
    const title: string
    const ctype: ChangeType
    var phase: Phase
    var outcome: Option<string>
    const templateId: Option<int>
    var cabId: Option<int>
    var start: Option<string>
    var end: Option<string>
    var actualStart: Option<nat>
    var actualEnd: Option<nat>
    var reason: Option<string>
    var plans: Plans
    var pir: Option<string>
    var answers: map<string, string>
    var overrideLevel: Option<string>
    var overrideReason: Option<string>
    var evaluatedAt: Option<nat>
    var round: nat
    var approvalId: Option<int>
    var via: Option<string>
    var approvedAt: Option<nat>
    var approvalStatus: Option<ApprovalStatus>
    var portal: bool
    const services: seq<int>
    var impactRequestedAt: Option<nat>
    var impactComputedAt: Option<nat>
    var tasks: seq<Task>
    var events: seq<Event>

    function View(): Change
      reads this
    {
      Change(id, title, ctype, phase, outcome, templateId, cabId, start, end, actualStart, actualEnd, reason, plans, pir,
             answers, overrideLevel, overrideReason, evaluatedAt, round, approvalId, via, approvedAt, approvalStatus,
             portal, services, impactRequestedAt, impactComputedAt, tasks, events)
    }

    constructor (v: Change)
      ensures View() == v
    {
      id, title, ctype, phase, outcome := v.id, v.title, v.ctype, v.phase, v.outcome;
      templateId, cabId, start, end := v.templateId, v.cabId, v.start, v.end;
      actualStart, actualEnd, reason, plans, pir := v.actualStart, v.actualEnd, v.reason, v.plans, v.pir;
      answers, overrideLevel, overrideReason := v.answers, v.overrideLevel, v.overrideReason;
      evaluatedAt, round, approvalId, via := v.evaluatedAt, v.round, v.approvalId, v.via;
      approvedAt, approvalStatus, portal, services := v.approvedAt, v.approvalStatus, v.portal, v.services;
      impactRequestedAt, impactComputedAt, tasks, events := v.impactRequestedAt, v.impactComputedAt, v.tasks, v.events;
    }
  }

  class ChangeStore {
    const cfg: Config
    var changes: map<int, Rec>
    var next: int
    var tick: nat
    var manager: bool

    constructor (cfg: Config)
      ensures Valid() && View() == EMPTY_STORE && this.cfg == cfg && fresh(Records())
    {
      this.cfg := cfg;
      changes, next, tick, manager := map[], FIRST_ID, 0, true;
    }

    ghost function Records(): set<Rec>
      reads this
    {
      set id | id in changes :: changes[id]
    }

    /** Different ids own different records. */
    ghost predicate Valid()
      reads this
    {
      forall i, j :: i in changes && j in changes && i != j ==> changes[i] != changes[j]
    }

    ghost function View(): Store
      reads this, Records()
    {
      Store(map id | id in changes :: changes[id].View(), next, tick, manager)
    }

    ghost function Here(r: Rec): At
      reads this, r
    {
      At(r.View(), tick)
    }

    // ---- helpers ----

    method Stamp() returns (s: nat)
      modifies this`tick
      ensures tick == old(tick) + 1 && s == tick
    {
      tick := tick + 1;
      s := tick;
    }

    method LogEvent(r: Rec, kind: EventKind)
      modifies r`events, this`tick
      ensures Here(r) == old(Here(r)).Log(kind)
    {
      var s := Stamp();
      r.events := r.events + [Event(|r.events| + 1, s, kind)];
    }

    // ---- update ----

    method EditTextField(r: Rec, b: UpdateBody, f: Field) returns (changed: seq<string>, stop: Option<Answer>)
      modifies r
      ensures Edit(r.View(), changed, stop) == EditText(Edit(old(r.View()), [], None), b, f)
    {
      changed, stop := [], None;
      if f !in b.texts { return; }
      var value := Clean(Some(b.texts[f]));
      if value == TextOf(r.View(), f) { return; }
      if f == ReasonField {
        r.reason := value;
      } else {
        if r.phase == Approval {
          stop := Some(LOCKED);
          return;
        }
        match f
        case ImplementationPlan => r.plans := r.plans.(implementation := value);
        case BackoutPlan => r.plans := r.plans.(backout := value);
        case TestPlan => r.plans := r.plans.(test := value);
      }
      changed := [FieldName(f)];
    }

    method EditTextFields(r: Rec, b: UpdateBody) returns (changed: seq<string>, stop: Option<Answer>)
      modifies r
      ensures Edit(r.View(), changed, stop) == EditTexts(Edit(old(r.View()), [], None), b, 4)
    {
      changed, stop := [], None;
      ghost var e0 := Edit(r.View(), [], None);
      for i := 0 to 4
        invariant Edit(r.View(), changed, stop) == EditTexts(e0, b, i)
      {
        if stop.None? {
          ghost var e := Edit(r.View(), changed, stop);
          ghost var e' := Edit(r.View(), [], None);
          var more, s := EditTextField(r, b, FIELDS[i]);
          EditTextPrefix(e, b, FIELDS[i]);
          changed, stop := changed + more, s;
        }
      }
    }

    /** The list of changed names is only ever appended to. */
    static lemma EditTextPrefix(e: Edit, b: UpdateBody, f: Field)
      requires e.stop.None?
      ensures var d := EditText(Edit(e.r, [], None), b, f);
              EditText(e, b, f) == Edit(d.r, e.changed + d.changed, d.stop)
    {
      assert e.changed + [] == e.changed;
    }

    method EditWindowField(r: Rec, b: UpdateBody, changed0: seq<string>) returns (changed: seq<string>, stop: Option<Answer>)
      modifies r
      ensures Edit(r.View(), changed, stop) == EditWindow(Edit(old(r.View()), changed0, None), b)
    {
      changed, stop := changed0, None;
      var start, end := r.start, r.end;
      if b.clearWindow {
        start, end := None, None;
      } else {
        start := if b.start.Some? then b.start else start;
        end := if b.end.Some? then b.end else end;
      }
      if BadWindow(start, end) {
        stop := Some(Fail(422, "window_invalid", []));
        return;
      }
      if start != r.start || end != r.end {
        if r.phase == Approval {
          stop := Some(LOCKED);
          return;
        }
        r.start, r.end := start, end;
        changed := changed + ["window"];
      }
    }

    method EditCabField(r: Rec, b: UpdateBody, changed0: seq<string>) returns (changed: seq<string>, stop: Option<Answer>)
      modifies r
      ensures Edit(r.View(), changed, stop) == EditCab(Edit(old(r.View()), changed0, None), b)
    {
      changed, stop := changed0, None;
      if b.cabId.Some? && b.cabId.value != r.cabId {
        if r.phase == Approval {
          stop := Some(LOCKED);
          return;
        }
        r.cabId := b.cabId.value;
        changed := changed + ["cab_id"];
      }
    }

    method EditPortalField(r: Rec, b: UpdateBody, changed0: seq<string>) returns (changed: seq<string>)
      modifies r
      ensures Edit(r.View(), changed, None) == EditPortal(Edit(old(r.View()), changed0, None), b)
    {
      changed := changed0;
      if b.portal.Some? && b.portal.value != r.portal {
        r.portal := b.portal.value;
        changed := changed + ["portal_visible"];
      }
    }

    method EditFields(r: Rec, b: UpdateBody) returns (changed: seq<string>, stop: Option<Answer>)
      modifies r
      ensures Edit(r.View(), changed, stop) ==
              EditPortal(EditCab(EditWindow(EditTexts(Edit(old(r.View()), [], None), b, 4), b), b), b)
    {
      changed, stop := EditTextFields(r, b);
      if stop.None? {
        changed, stop := EditWindowField(r, b, changed);
      }
      if stop.None? {
        changed, stop := EditCabField(r, b, changed);
      }
      if stop.None? {
        changed := EditPortalField(r, b, changed);
      }
    }

    method DoUpdate(r: Rec, b: UpdateBody) returns (answer: Answer)
      modifies r, this`tick
      ensures Result(Here(r), answer) == UpdateStep(old(Here(r)), b)
    {
      if IsFinal(r.phase) {
        return Fail(409, "change_final", []);
      }
      var changed, stop := EditFields(r, b);
      if stop.Some? {
        return stop.value;
      }
      if changed != [] {
        LogEvent(r, Updated(changed));
      }
      answer := Done;
    }

    // ---- transition ----

    method CheckWindow(r: Rec, to: Phase, b: TransitionBody) returns (f: seq<Failure>)
      ensures f == WindowGuards(cfg, manager, r.View(), to, b)
    {
      f := [];
      if NeedsWindow(to) {
        var blocks := BlockCount(cfg, r.View());
        if r.start.None? || r.end.None? { f := f + [Failure("window_missing", false)]; }
        if blocks > 0 && !(manager && Clean(b.overrideReason).Some?) { f := f + [Failure("block_conflict", true)]; }
      }
    }

    method CheckPlans(r: Rec, to: Phase) returns (f: seq<Failure>)
      ensures f == PlanGuards(cfg, r.View(), to)
    {
      f := [];
      var plansComplete := Truthy(r.plans.implementation) && Truthy(r.plans.backout);
      var needsPlans := r.ctype != Standard && to == Approval && (r.phase == Assessment || r.phase == Draft);
      if needsPlans && !plansComplete { f := f + [Failure("plans_missing", false)]; }
      if r.ctype == Normal && r.phase == Assessment && to == Approval {
        if !QuestionnaireComplete(cfg, r.View()) { f := f + [Failure("questionnaire_incomplete", false)]; }
        if r.impactComputedAt.None? { f := f + [Failure("impact_pending", false)]; }
      }
    }

    method CheckClosing(r: Rec, to: Phase, b: TransitionBody) returns (f: seq<Failure>)
      ensures f == ClosingGuards(manager, r.View(), to, b)
    {
      f := [];
      var openTasks := OpenTasks(r.tasks);
      if r.phase == Implementing && (to == Review || to == Closed) && openTasks > 0 && !(manager && b.force) {
        f := f + [Failure("tasks_open", true)];
      }
      if to == Closed {
        if !Truthy(b.outcome) { f := f + [Failure("outcome_missing", false)]; }
        var pir := if Clean(b.pirNotes).Some? then Clean(b.pirNotes) else r.pir;
        if r.phase == Review && r.ctype != Standard && !Truthy(pir) { f := f + [Failure("pir_missing", false)]; }
      }
      if manager && b.force && openTasks > 0 && r.phase == Implementing && Clean(b.reason).None? {
        f := f + [Failure("reason_missing", false)];
      }
    }

    method CheckGuards(r: Rec, to: Phase, b: TransitionBody) returns (f: seq<Failure>)
      ensures f == Guards(cfg, manager, r.View(), to, b)
    {
      if !PersonMay(r.ctype, r.phase, to) {
        return [Failure("transition_not_allowed", false)];
      }
      if SystemOnly(r.phase, to) {
        return [Failure("system_only", false)];
      }
      var window := CheckWindow(r, to, b);
      var plans := CheckPlans(r, to);
      var closing := CheckClosing(r, to, b);
      f := window + plans + closing;
    }

    method DoLogOverrides(r: Rec, to: Phase, b: TransitionBody)
      modifies r`events, this`tick
      ensures Here(r) == LogOverrides(cfg, manager, old(Here(r)), to, b)
    {
      var openTasks := OpenTasks(r.tasks);
      var blocks := BlockCount(cfg, r.View());
      if blocks > 0 && manager && Clean(b.overrideReason).Some? && NeedsWindow(to) {
        LogEvent(r, ConflictOverride(blocks, Clean(b.overrideReason)));
      }
      if b.force && manager && openTasks > 0 && r.phase == Implementing {
        LogEvent(r, Forced(openTasks, Clean(b.reason)));
      }
    }

    method DoReevaluate(r: Rec, to: Phase)
      modifies r`evaluatedAt, this`tick
      ensures Here(r) == Reevaluate(old(Here(r)), to)
    {
      if to == Approval || (r.phase == Assessment && to == Scheduled) {
        var s := Stamp();
        r.evaluatedAt := Some(s);
      }
    }

    method OpenRound(r: Rec)
      modifies r`round, r`approvalId, r`via, r`approvalStatus
      ensures r.View() == Requested(old(r.View()))
    {
      r.round := r.round + 1;
      r.approvalId := Some(700 + r.id + (r.round - 1) * 1000);
      r.via := Some("cab");
      r.approvalStatus := Some(Pending);
    }

    method DoRequestApproval(r: Rec, to: Phase)
      modifies r, this`tick
      ensures Here(r) == RequestApproval(old(Here(r)), to)
    {
      if to == Approval {
        OpenRound(r);
        LogEvent(r, ApprovalRequested(r.round));
      }
    }

    method DoPrepare(r: Rec, to: Phase, b: TransitionBody)
      modifies r, this`tick
      ensures Here(r) == Prepare(old(Here(r)), to, b)
    {
      DoReevaluate(r, to);
      if Clean(b.pirNotes).Some? {
        r.pir := Clean(b.pirNotes);
      }
      DoRequestApproval(r, to);
    }

    method DoDropApproval(r: Rec, from: Phase, to: Phase)
      modifies r`via, r`approvedAt, r`approvalStatus
      ensures r.View() == DropApproval(old(Here(r)), from, to).r
    {
      if from == Approval && to == Cancelled {
        r.approvalStatus := Some(Withdrawn);
      } else if from == Scheduled && to == Draft {
        Unschedule(r);
      }
    }

    method Unschedule(r: Rec)
      modifies r`via, r`approvedAt, r`approvalStatus
      ensures r.View() == old(r.View()).(via := if r.ctype == Standard then Some("template") else None, approvedAt := None,
                                         approvalStatus := if old(r.approvalStatus).Some? then Some(Withdrawn) else None)
    {
      r.via := if r.ctype == Standard then Some("template") else None;
      r.approvedAt := None;
      r.approvalStatus := if r.approvalStatus.Some? then Some(Withdrawn) else None;
    }

    method DoRecordTimes(r: Rec, to: Phase, b: TransitionBody)
      modifies r, this`tick
      ensures Here(r) == RecordTimes(old(Here(r)), to, b)
    {
      if to == Implementing {
        var s := Stamp();
        r.actualStart := Some(s);
      }
      if to == Closed {
        r.outcome := b.outcome;
        var s := Stamp();
        r.actualEnd := Some(s);
      }
    }

    method DoSettle(r: Rec, from: Phase, to: Phase, b: TransitionBody)
      modifies r, this`tick
      ensures Here(r) == Settle(old(Here(r)), from, to, b)
    {
      DoDropApproval(r, from, to);
      DoRecordTimes(r, to, b);
      DoPreApprove(r, to);
    }

    method DoPreApprove(r: Rec, to: Phase)
      modifies r`approvedAt, this`tick
      ensures Here(r) == PreApprove(old(Here(r)), to)
    {
      if to == Scheduled && r.ctype == Standard {
        var s := Stamp();
        r.approvedAt := Some(s);
      }
    }

    method Move(r: Rec, from: Phase, to: Phase, reason: Option<string>)
      modifies r`events, r`phase, this`tick
      ensures Here(r) == Moved(old(Here(r)), from, to, reason)
    {
      LogEvent(r, PhaseChanged(Some(from), to, reason));
      r.phase := to;
    }

    method DoTransition(r: Rec, b: TransitionBody) returns (answer: Answer)
      modifies r, this`tick
      ensures Result(Here(r), answer) == TransitionStep(cfg, manager, old(Here(r)), b)
    {
      match b.target
      case NoTarget => answer := Fail(422, "validation_error", []);
      case Unknown => answer := Fail(409, "transition_refused", [Failure("transition_not_allowed", false)]);
      case To(to) =>
        var failures := CheckGuards(r, to, b);
        if failures != [] {
          return Fail(409, "transition_refused", failures);
        }
        var from := r.phase;
        DoLogOverrides(r, to, b);
        DoPrepare(r, to, b);
        DoSettle(r, from, to, b);
        Move(r, from, to, Clean(b.reason));
        answer := Done;
    }

    /** The CAB's decision; only a change in approval takes one. */
    method DecideApproval(r: Rec, approved: bool) returns (answer: Answer)
      modifies r, this`tick
      ensures Result(Here(r), answer) == DecideStep(old(Here(r)), approved)
    {
      if r.phase != Approval {
        return Thrown;
      }
      var status := if approved then Approved else Refused;
      RecordOutcome(r, status);
      Move(r, r.phase, if approved then Scheduled else Rejected, None);
      if approved {
        var s := Stamp();
        r.approvedAt := Some(s);
      }
      answer := Done;
    }

    method RecordOutcome(r: Rec, status: ApprovalStatus)
      modifies r`approvalStatus, r`events, this`tick
      ensures Here(r) == old(Here(r)).(r := old(r.View()).(approvalStatus := Some(status))).Log(ApprovalOutcome(status, old(r.round)))
    {
      r.approvalStatus := Some(status);
      LogEvent(r, ApprovalOutcome(status, r.round));
    }

    // ---- risk, impact and tasks ----

    method DoRisk(r: Rec, a: Action) returns (answer: Answer)
      requires a.AnswerRisk? || a.EvaluateRisk? || a.OverrideRisk?
      modifies r, this`tick
      ensures Result(Here(r), answer) == RiskStep(cfg, manager, old(Here(r)), a)
    {
      if IsFinal(r.phase) {
        return Fail(409, "change_final", []);
      }
      match a {
      case AnswerRisk(answers) =>
        if exists k :: k in answers && k !in cfg.questions {
          return Fail(422, "unknown_question", []);
        }
        r.answers := r.answers + answers;
        LogEvent(r, Updated(["risk_answers"]));
      case EvaluateRisk =>
        var s := Stamp();
        r.evaluatedAt := Some(s);
      case OverrideRisk(level, reason) =>
        if !manager {
          return Fail(403, "forbidden", []);
        }
        var why := Clean(reason);
        if why.None? {
          return Fail(422, "reason_missing", []);
        }
        SetOverride(r, level, why.value);
      }
      answer := Done;
    }

    method SetOverride(r: Rec, level: Option<string>, why: string)
      modifies r, this`tick
      ensures Here(r) == old(Here(r)).(r := old(r.View()).(overrideLevel := level,
                           overrideReason := if Truthy(level) then Some(why) else None)).Log(RiskOverridden(level, why))
    {
      r.overrideLevel := level;
      r.overrideReason := if Truthy(level) then Some(why) else None;
      LogEvent(r, RiskOverridden(level, why));
    }

    method DoTasks(r: Rec, a: Action) returns (answer: Answer)
      requires a.OrderTasks? || a.AddTask?
      modifies r, this`tick
      ensures Result(Here(r), answer) == TaskStep(old(Here(r)), a)
    {
      if IsFinal(r.phase) {
        return Fail(409, "change_final", []);
      }
      match a {
      case OrderTasks(order) =>
        if |order| != |r.tasks| || exists x :: x in order && IndexOfTicket(r.tasks, x) == |r.tasks| {
          return Fail(422, "order_mismatch", []);
        }
        Reorder(r, order);
      case AddTask(title, kind) =>
        var t := Clean(title);
        if t.None? {
          return Fail(422, "validation_error", []);
        }
        var task := NewTask(r.View(), t.value, if kind.Some? then kind.value else "workorder");
        r.tasks := r.tasks + [task];
        LogEvent(r, TaskAdded(task.ticket));
      }
      answer := Done;
    }

    method Reorder(r: Rec, order: seq<int>)
      modifies r`tasks
      ensures r.tasks == Reordered(old(r.tasks), order)
    {
      ghost var tasks0 := r.tasks;
      for i := 0 to |order|
        invariant r.tasks == Reordered(tasks0, order[..i])
      {
        assert order[..i + 1][..i] == order[..i];
        var at := IndexOfTicket(r.tasks, order[i]);
        if at < |r.tasks| {
          r.tasks := r.tasks[at := r.tasks[at].(position := i + 1)];
        }
      }
      assert order[..|order|] == order;
    }

    method DoRecompute(r: Rec) returns (answer: Answer)
      modifies r, this`tick
      ensures Result(Here(r), answer) == RecomputeStep(old(Here(r)))
    {
      if r.impactRequestedAt.None? {
        var s := Stamp();
        r.impactRequestedAt := Some(s);
      }
      var s := Stamp();
      r.impactComputedAt := Some(s);
      answer := Done;
    }

    method Act(r: Rec, a: Action) returns (answer: Answer)
      modifies r, this`tick
      ensures Result(Here(r), answer) == ActionStep(cfg, manager, old(Here(r)), a)
    {
      match a
      case Update(b) => answer := DoUpdate(r, b);
      case Transition(b) => answer := DoTransition(r, b);
      case RecomputeImpact => answer := DoRecompute(r);
      case Decide(approved) => answer := DecideApproval(r, approved);
      case FinishTasks =>
        r.tasks := Finished(r.tasks);
        answer := Done;
      case OrderTasks(_) => answer := DoTasks(r, a);
      case AddTask(_, _) => answer := DoTasks(r, a);
      case AnswerRisk(_) => answer := DoRisk(r, a);
      case EvaluateRisk => answer := DoRisk(r, a);
      case OverrideRisk(_, _) => answer := DoRisk(r, a);
    }

    // ---- routes ----

    method NewChange(b: CreateBody) returns (r: Rec)
      modifies this`tick
      ensures fresh(r) && Here(r) == CreatedRecord(cfg, next, old(tick), b)
    {
      var t := FindTemplate(cfg.templates, b.templateId);
      r := new Rec(NewRecord(next, b, t));
      LogEvent(r, Created);
      LogEvent(r, PhaseChanged(None, Draft, None));
      if t.Some? {
        r.tasks := TemplateTasks(next, t.value.tasks);
      }
    }

    method AddChange(r: Rec)
      requires Valid() && r !in Records() && next !in changes
      modifies this`changes, this`next
      ensures Valid() && Records() == old(Records()) + {r}
      ensures View() == old(View()).(changes := old(View()).changes[old(next) := r.View()], next := old(next) + 1)
    {
      forall k | k in changes
        ensures changes[k] != r
      {
        assert changes[k] in Records();
      }
      ghost var before := View();
      changes := changes[next := r];
      assert changes[next] == r && forall k :: k in old(changes) ==> changes[k] == old(changes)[k];
      assert View().changes == before.changes[next := r.View()];
      next := next + 1;
      assert Records() == old(Records()) + {r} by {
        forall q | q in old(Records()) + {r}
          ensures q in Records()
        {
          if q != r {
            var k :| k in old(changes) && old(changes)[k] == q;
            assert changes[k] == q;
          }
        }
      }
    }

    method CreateNew(b: CreateBody) returns (answer: Answer)
      requires Valid() && next !in changes
      modifies this
      ensures Valid() && fresh(Records() - old(Records()))
      ensures StoreResult(View(), answer) == StoreStep(cfg, old(View()), Create(b))
    {
      var refusal := CreateRefusal(cfg, b);
      if refusal.Some? {
        return Fail(422, refusal.value, []);
      }
      var r := NewChange(b);
      assert View() == old(View()).(tick := tick);
      AddChange(r);
      answer := Done;
    }

    method CreateChange(b: CreateBody) returns (answer: Answer)
      requires Valid() && StoreOk(View())
      modifies this
      ensures Valid() && fresh(Records() - old(Records())) && StoreOk(View())
      ensures StoreResult(View(), answer) == StoreStep(cfg, old(View()), Create(b))
    {
      StepStoreOk(cfg, View(), Create(b));
      assert next !in View().changes;
      answer := CreateNew(b);
    }

    /** The request goes to its record; the other record objects stay untouched. */
    method ActOn(id: int, a: Action) returns (answer: Answer)
      requires Valid() && id in changes
      modifies this`tick, changes[id]
      ensures Result(Here(changes[id]), answer) == ActionStep(cfg, manager, old(Here(changes[id])), a)
      ensures View() == Put(old(View()), id, Here(changes[id]))
    {
      var r := changes[id];
      ghost var before := View();
      answer := Act(r, a);
      forall k | k in changes && k != id
        ensures changes[k].View() == old(changes[k].View())
      {
        assert changes[k] != r;
      }
      assert View().changes == before.changes[id := r.View()];
    }

    static lemma OnStep(cfg: Config, s: Store, id: int, a: Action, res: Result)
      requires id in s.changes && res == ActionStep(cfg, s.manager, At(s.changes[id], s.tick), a)
      ensures StoreStep(cfg, s, On(id, a)) == StoreResult(Put(s, id, res.at), res.answer)
    {
    }

    method Dispatch(id: int, a: Action) returns (answer: Answer)
      requires Valid()
      modifies this`tick, Records()
      ensures Valid() && changes == old(changes)
      ensures StoreResult(View(), answer) == StoreStep(cfg, old(View()), On(id, a))
    {
      if id !in changes {
        return if a.Decide? || a.FinishTasks? then Thrown else NotHandled;
      }
      ghost var s := View();
      assert s.changes[id] == changes[id].View() && changes[id] in Records();
      answer := ActOn(id, a);
      OnStep(cfg, s, id, a, Result(Here(changes[id]), answer));
    }

    /** One request on one change. */
    method Handle(id: int, a: Action) returns (answer: Answer)
      requires Valid() && StoreOk(View())
      modifies this`tick, Records()
      ensures Valid() && changes == old(changes) && StoreOk(View())
      ensures StoreResult(View(), answer) == StoreStep(cfg, old(View()), On(id, a))
    {
      StepStoreOk(cfg, View(), On(id, a));
      answer := Dispatch(id, a);
    }

    method Events(id: int, before: real, limit: real) returns (page: Option<seq<Event>>)
      ensures page == if id in changes then Some(EventPaging.Page(changes[id].events, before, limit)) else None
    {
      if id !in changes {
        return None;
      }
      var p := EventPaging.EventPage(changes[id].events, before, limit);
      page := Some(p);
    }
  }
}
