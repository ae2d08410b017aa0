/** What holds of every change record, whatever requests arrive. */
module ChangeInvariants {
  import opened Common
  import opened Text
  import opened ChangePhases
  import opened ChangeRecord

  // ---- the event log ----

  /** Ids count from 1, stamps strictly increase and never run ahead of the clock. */
  ghost predicate LogOk(events: seq<Event>, tick: nat) {
    && (forall i :: 0 <= i < |events| ==> events[i].id == i + 1 && events[i].stamp <= tick)
    && (forall i, j :: 0 <= i < j < |events| ==> events[i].stamp < events[j].stamp)
  }

  /** Overrides and forces are logged with a reason that is not blank. */
  ghost predicate Reasoned(kind: EventKind) {
    (kind.ConflictOverride? || kind.Forced?) ==> kind.why.Some? && Strip(kind.why.value) != ""
  }

  ghost predicate ReasonsOk(events: seq<Event>) {
    forall i :: 0 <= i < |events| ==> Reasoned(events[i].kind)
  }

  /** The phase the log has led to. */
  function LastPhase(events: seq<Event>): Option<Phase> {
    if events == [] then None
    else
      var k := events[|events| - 1].kind;
      if k.PhaseChanged? then Some(k.to) else LastPhase(events[..|events| - 1])
  }

  function Rounds(events: seq<Event>): nat {
    if events == [] then 0
    else Rounds(events[..|events| - 1]) + if events[|events| - 1].kind.ApprovalRequested? then 1 else 0
  }

  ghost predicate OutcomeLogged(events: seq<Event>, to: Phase) {
    && events != []
    && events[|events| - 1].kind.ApprovalOutcome?
    && events[|events| - 1].kind.status == (if to == Scheduled then Approved else Refused)
  }

  /** A phase event that continues the log: the first one enters draft; every
      other leaves the phase reached so far by a pair of the table for the
      type, and a system-only pair only right after the CAB's outcome. */
  ghost predicate Continues(t: ChangeType, events: seq<Event>, kind: EventKind) {
    kind.PhaseChanged? ==>
      && kind.from == LastPhase(events)
      && (kind.from.None? ==> kind.to == Draft)
      && (kind.from.Some? ==>
            InTable(t, kind.from.value, kind.to) &&
            (SystemOnly(kind.from.value, kind.to) ==> OutcomeLogged(events, kind.to)))
  }

  ghost predicate PathOk(t: ChangeType, events: seq<Event>) {
    forall i :: 0 <= i < |events| ==> Continues(t, events[..i], events[i].kind)
  }

  ghost predicate HistoryOk(t: ChangeType, events: seq<Event>, tick: nat) {
    LogOk(events, tick) && ReasonsOk(events) && PathOk(t, events)
  }

  /** Appending one well-formed event keeps the log well-formed. */
  lemma AppendKeeps(t: ChangeType, es: seq<Event>, tick: nat, kind: EventKind)
    requires HistoryOk(t, es, tick) && Reasoned(kind) && Continues(t, es, kind)
    ensures var fs := Appended(es, tick, kind);
            && HistoryOk(t, fs, tick + 1)
            && LastPhase(fs) == (if kind.PhaseChanged? then Some(kind.to) else LastPhase(es))
            && Rounds(fs) == Rounds(es) + if kind.ApprovalRequested? then 1 else 0
  {
    var fs := Appended(es, tick, kind);
    assert fs[..|fs| - 1] == es;
    forall i | 0 <= i < |fs|
      ensures Continues(t, fs[..i], fs[i].kind)
    {
      if i < |es| {
        assert fs[..i] == es[..i];
      } else {
        assert fs[..i] == es;
      }
    }
  }

  // ---- the record ----

  function ApprovalNumber(id: int, round: nat): Option<int> {
    if round == 0 then None else Some(700 + id + (round - 1) * 1000)
  }

  ghost predicate FieldsOk(r: Change) {
    && !BadWindow(r.start, r.end)
    && (r.phase == Approval ==> r.start.Some? && r.end.Some? && r.approvalStatus == Some(Pending) && r.round > 0)
    && r.approvalId == ApprovalNumber(r.id, r.round)
    && (r.outcome.Some? <==> r.phase == Closed)
    && (r.ctype == Standard ==> r.phase != Approval)
  }

  ghost predicate RecordOk(r: Change, tick: nat) {
    && HistoryOk(r.ctype, r.events, tick)
    && FieldsOk(r)
    && LastPhase(r.events) == Some(r.phase)
    && Rounds(r.events) == r.round
  }

  ghost predicate AtOk(at: At) {
    RecordOk(at.r, at.tick)
  }

  lemma LaterTick(r: Change, tick: nat, tick': nat)
    requires RecordOk(r, tick) && tick <= tick'
    ensures RecordOk(r, tick')
  {
  }

  /** Changing fields outside the log, on a clock that does not go back. */
  lemma SameHistory(at: At, at': At)
    requires AtOk(at) && FieldsOk(at'.r) && at.tick <= at'.tick
    requires at'.r.events == at.r.events && at'.r.ctype == at.r.ctype
    requires at'.r.phase == at.r.phase && at'.r.round == at.r.round
    ensures AtOk(at')
  {
  }

  /** Logging something that is neither a phase nor an approval request. */
  lemma LogNote(at: At, kind: EventKind)
    requires AtOk(at) && Reasoned(kind) && !kind.PhaseChanged? && !kind.ApprovalRequested?
    ensures AtOk(at.Log(kind))
  {
    AppendKeeps(at.r.ctype, at.r.events, at.tick, kind);
  }

  lemma FirstEvents(t: ChangeType, tick: nat)
    ensures var es := Appended(Appended([], tick, Created), tick + 1, PhaseChanged(None, Draft, None));
            HistoryOk(t, es, tick + 2) && LastPhase(es) == Some(Draft) && Rounds(es) == 0
  {
    AppendKeeps(t, [], tick, Created);
    AppendKeeps(t, Appended([], tick, Created), tick + 1, PhaseChanged(None, Draft, None));
  }

  lemma DraftSound(r: Change, es: seq<Event>, tick: nat)
    requires r.phase == Draft && r.round == 0 && r.approvalId.None? && r.outcome.None? && !BadWindow(r.start, r.end)
    requires HistoryOk(r.ctype, es, tick) && LastPhase(es) == Some(Draft) && Rounds(es) == 0
    ensures RecordOk(r.(events := es), tick)
  {
  }

  /** A draft without history becomes a sound record by its first two events. */
  lemma DraftOk(at: At)
    requires at.r.events == [] && at.r.phase == Draft && at.r.round == 0 && at.r.approvalId.None? && at.r.outcome.None?
    requires !BadWindow(at.r.start, at.r.end)
    ensures AtOk(at.Log(Created).Log(PhaseChanged(None, Draft, None)))
  {
    FirstEvents(at.r.ctype, at.tick);
    var es := Appended(Appended([], at.tick, Created), at.tick + 1, PhaseChanged(None, Draft, None));
    DraftSound(at.r, es, at.tick + 2);
    assert at.Log(Created).Log(PhaseChanged(None, Draft, None)) == At(at.r.(events := es), at.tick + 2);
  }

  lemma NewRecordIsDraft(id: int, b: CreateBody, t: Option<Template>)
    ensures var r := NewRecord(id, b, t);
            && r.id == id && r.events == [] && r.phase == Draft && r.round == 0 && r.approvalId.None? && r.outcome.None?
            && r.start == b.start && r.end == b.end
  {
  }

  lemma CreatedOk(cfg: Config, id: int, tick: nat, b: CreateBody)
    requires CreateRefusal(cfg, b).None?
    ensures AtOk(CreatedRecord(cfg, id, tick, b)) && CreatedRecord(cfg, id, tick, b).tick > tick
    ensures CreatedRecord(cfg, id, tick, b).r.id == id
  {
    var t := FindTemplate(cfg.templates, b.templateId);
    NewRecordIsDraft(id, b, t);
    DraftOk(At(NewRecord(id, b, t), tick));
  }

  // ---- update ----

  /** What an update leaves alone. */
  ghost predicate OnlyEdited(r: Change, e: Edit) {
    && e.r == r.(reason := e.r.reason, plans := e.r.plans, start := e.r.start, end := e.r.end, cabId := e.r.cabId, portal := e.r.portal)
    && (r.phase == Approval ==> e.r.plans == r.plans && e.r.start == r.start && e.r.end == r.end && e.r.cabId == r.cabId)
    && !BadWindow(e.r.start, e.r.end)
  }

  lemma {:induction false} EditTextsKeep(r: Change, b: UpdateBody, n: nat)
    requires n <= 4 && !BadWindow(r.start, r.end)
    ensures OnlyEdited(r, EditTexts(Edit(r, [], None), b, n))
  {
    if n > 0 {
      EditTextsKeep(r, b, n - 1);
    }
  }

  lemma EditsKeep(r: Change, b: UpdateBody)
    requires !BadWindow(r.start, r.end)
    ensures OnlyEdited(r, EditPortal(EditCab(EditWindow(EditTexts(Edit(r, [], None), b, 4), b), b), b))
  {
    EditTextsKeep(r, b, 4);
    assert OnlyEdited(r, EditWindow(EditTexts(Edit(r, [], None), b, 4), b));
  }

  lemma UpdateOk(at: At, b: UpdateBody)
    requires AtOk(at)
    ensures AtOk(UpdateStep(at, b).at)
  {
    if !IsFinal(at.r.phase) {
      EditsKeep(at.r, b);
      var e := EditPortal(EditCab(EditWindow(EditTexts(Edit(at.r, [], None), b, 4), b), b), b);
      SameHistory(at, at.(r := e.r));
      LogNote(at.(r := e.r), Updated(e.changed));
    }
  }

  // ---- transition ----

  /** What a passed guard list means for the invariants. */
  lemma GuardsPassed(cfg: Config, manager: bool, r: Change, to: Phase, b: TransitionBody)
    requires Guards(cfg, manager, r, to, b) == []
    ensures PersonMay(r.ctype, r.phase, to)
    ensures NeedsWindow(to) ==> r.start.Some? && r.end.Some?
    ensures to == Closed ==> b.outcome.Some?
    ensures manager && b.force && OpenTasks(r.tasks) > 0 && r.phase == Implementing ==> Clean(b.reason).Some?
  {
  }

  lemma LogIfNote(at: At, c: bool, kind: EventKind)
    requires AtOk(at) && (c ==> Reasoned(kind)) && !kind.PhaseChanged? && !kind.ApprovalRequested?
    ensures AtOk(LogIf(at, c, kind)) && at.tick <= LogIf(at, c, kind).tick
    ensures LogIf(at, c, kind).r == at.r.(events := LogIf(at, c, kind).r.events)
    ensures at.r.events <= LogIf(at, c, kind).r.events
  {
    if c {
      LogNote(at, kind);
    }
  }

  lemma OverridesOk(cfg: Config, manager: bool, at: At, to: Phase, b: TransitionBody)
    requires AtOk(at) && Guards(cfg, manager, at.r, to, b) == []
    ensures var a := LogOverrides(cfg, manager, at, to, b);
            AtOk(a) && a.r == at.r.(events := a.r.events) && at.r.events <= a.r.events && at.tick <= a.tick
  {
    GuardsPassed(cfg, manager, at.r, to, b);
    var blocks, openTasks := BlockCount(cfg, at.r), OpenTasks(at.r.tasks);
    var why, reason := Clean(b.overrideReason), Clean(b.reason);
    var over := blocks > 0 && manager && why.Some? && NeedsWindow(to);
    LogIfNote(at, over, ConflictOverride(blocks, why));
    LogIfNote(LogIf(at, over, ConflictOverride(blocks, why)),
              b.force && manager && openTasks > 0 && at.r.phase == Implementing, Forced(openTasks, reason));
  }

  /** The state between the approval request and the phase event. */
  ghost predicate Between(at: At, from: Phase, to: Phase) {
    && HistoryOk(at.r.ctype, at.r.events, at.tick)
    && LastPhase(at.r.events) == Some(from) && at.r.phase == from
    && Rounds(at.r.events) == at.r.round && at.r.approvalId == ApprovalNumber(at.r.id, at.r.round)
    && !BadWindow(at.r.start, at.r.end)
    && (to == Approval ==> at.r.start.Some? && at.r.end.Some? && at.r.approvalStatus == Some(Pending) && at.r.round > 0)
  }

  lemma ReevaluateOk(at: At, to: Phase)
    requires AtOk(at)
    ensures var a := Reevaluate(at, to);
            AtOk(a) && a.r == at.r.(evaluatedAt := a.r.evaluatedAt) && at.tick <= a.tick
  {
  }

  lemma NoteReviewOk(at: At, notes: Option<string>)
    requires AtOk(at)
    ensures var a := NoteReview(at, notes);
            AtOk(a) && a.r == at.r.(pir := a.r.pir) && at.tick == a.tick
  {
  }

  lemma RequestApprovalFrame(at: At, to: Phase)
    ensures var n := RequestApproval(at, to);
            && n.r == at.r.(round := n.r.round, approvalId := n.r.approvalId, via := n.r.via,
                            approvalStatus := n.r.approvalStatus, events := n.r.events)
            && at.r.events <= n.r.events && at.tick <= n.tick
            && n.r.round == at.r.round + if to == Approval then 1 else 0
  {
  }

  lemma RequestedFields(r: Change)
    requires FieldsOk(r)
    ensures var q := Requested(r);
            && q.approvalId == ApprovalNumber(q.id, q.round) && q.approvalStatus == Some(Pending) && q.round == r.round + 1
            && !BadWindow(q.start, q.end) && q.start == r.start && q.end == r.end
            && q.events == r.events && q.ctype == r.ctype && q.phase == r.phase
  {
  }

  lemma RequestLogged(t: ChangeType, es: seq<Event>, tick: nat, phase: Phase, round: nat)
    requires HistoryOk(t, es, tick) && LastPhase(es) == Some(phase) && Rounds(es) + 1 == round
    ensures var fs := Appended(es, tick, ApprovalRequested(round));
            HistoryOk(t, fs, tick + 1) && LastPhase(fs) == Some(phase) && Rounds(fs) == round
  {
    AppendKeeps(t, es, tick, ApprovalRequested(round));
  }

  lemma RequestApprovalOk(at: At, to: Phase)
    requires AtOk(at) && (to == Approval ==> at.r.start.Some? && at.r.end.Some?)
    ensures Between(RequestApproval(at, to), at.r.phase, to)
  {
    if to == Approval {
      RequestedFields(at.r);
      RequestLogged(at.r.ctype, at.r.events, at.tick, at.r.phase, at.r.round + 1);
      var q := Requested(at.r);
      assert RequestApproval(at, to) == At(q.(events := Appended(at.r.events, at.tick, ApprovalRequested(q.round))), at.tick + 1);
    }
  }

  lemma PrepareOk(at: At, to: Phase, b: TransitionBody)
    requires AtOk(at) && (to == Approval ==> at.r.start.Some? && at.r.end.Some?)
    ensures var n := Prepare(at, to, b);
            && Between(n, at.r.phase, to)
            && n.r == at.r.(evaluatedAt := n.r.evaluatedAt, pir := n.r.pir, round := n.r.round, approvalId := n.r.approvalId,
                            via := n.r.via, approvalStatus := n.r.approvalStatus, events := n.r.events)
            && at.r.events <= n.r.events && at.tick <= n.tick
            && n.r.round == at.r.round + if to == Approval then 1 else 0
  {
    var notes := Clean(b.pirNotes);
    ReevaluateOk(at, to);
    NoteReviewOk(Reevaluate(at, to), notes);
    RequestApprovalOk(NoteReview(Reevaluate(at, to), notes), to);
    RequestApprovalFrame(NoteReview(Reevaluate(at, to), notes), to);
  }

  lemma DropApprovalOk(at: At, from: Phase, to: Phase)
    requires Between(at, from, to) && (to == Approval ==> from != Approval)
    ensures var d := DropApproval(at, from, to);
            && Between(d, from, to) && d.tick == at.tick
            && d.r == at.r.(via := d.r.via, approvedAt := d.r.approvedAt, approvalStatus := d.r.approvalStatus)
  {
  }

  lemma RecordTimesOk(at: At, from: Phase, to: Phase, b: TransitionBody)
    requires Between(at, from, to) && (to == Closed ==> b.outcome.Some?) && at.r.outcome.None?
    ensures var d := RecordTimes(at, to, b);
            && Between(d, from, to) && at.tick <= d.tick && (d.r.outcome.Some? <==> to == Closed)
            && d.r == at.r.(actualStart := d.r.actualStart, outcome := d.r.outcome, actualEnd := d.r.actualEnd)
  {
  }

  lemma PreApproveOk(at: At, from: Phase, to: Phase)
    requires Between(at, from, to)
    ensures var d := PreApprove(at, to);
            Between(d, from, to) && at.tick <= d.tick && d.r == at.r.(approvedAt := d.r.approvedAt)
  {
  }

  lemma SettleOk(at: At, from: Phase, to: Phase, b: TransitionBody)
    requires Between(at, from, to) && (to == Closed ==> b.outcome.Some?)
    requires at.r.outcome.None? && (to == Approval ==> from != Approval)
    ensures var f := Settle(at, from, to, b);
            && Between(f, from, to)
            && f.r == at.r.(via := f.r.via, approvedAt := f.r.approvedAt, approvalStatus := f.r.approvalStatus,
                            actualStart := f.r.actualStart, outcome := f.r.outcome, actualEnd := f.r.actualEnd)
            && (f.r.outcome.Some? <==> to == Closed) && at.tick <= f.tick
  {
    DropApprovalOk(at, from, to);
    var d := DropApproval(at, from, to);
    RecordTimesOk(d, from, to, b);
    PreApproveOk(RecordTimes(d, to, b), from, to);
  }

  lemma ToApproval(t: ChangeType, from: Phase, to: Phase)
    requires InTable(t, from, to)
    ensures to == Approval ==> t != Standard
    ensures !IsFinal(from) && from != to
  {
  }

  /** A phase event by a pair of the table. */
  lemma MoveContinues(t: ChangeType, es: seq<Event>, tick: nat, from: Phase, to: Phase, reason: Option<string>)
    requires HistoryOk(t, es, tick) && LastPhase(es) == Some(from)
    requires InTable(t, from, to) && (SystemOnly(from, to) ==> OutcomeLogged(es, to))
    ensures var fs := Appended(es, tick, PhaseChanged(Some(from), to, reason));
            HistoryOk(t, fs, tick + 1) && LastPhase(fs) == Some(to) && Rounds(fs) == Rounds(es)
  {
    AppendKeeps(t, es, tick, PhaseChanged(Some(from), to, reason));
  }

  lemma MovedOk(at: At, from: Phase, to: Phase, reason: Option<string>)
    requires Between(at, from, to) && (at.r.outcome.Some? <==> to == Closed)
    requires InTable(at.r.ctype, from, to) && (SystemOnly(from, to) ==> OutcomeLogged(at.r.events, to))
    ensures AtOk(Moved(at, from, to, reason))
  {
    ToApproval(at.r.ctype, from, to);
    MoveContinues(at.r.ctype, at.r.events, at.tick, from, to, reason);
  }

  lemma TakenOk(cfg: Config, manager: bool, at: At, to: Phase, b: TransitionBody)
    requires AtOk(at) && Guards(cfg, manager, at.r, to, b) == []
    ensures AtOk(Taken(cfg, manager, at, to, b))
  {
    GuardsPassed(cfg, manager, at.r, to, b);
    OverridesOk(cfg, manager, at, to, b);
    var a := LogOverrides(cfg, manager, at, to, b);
    PrepareOk(a, to, b);
    var n := Prepare(a, to, b);
    SettleOk(n, at.r.phase, to, b);
    var f := Settle(n, at.r.phase, to, b);
    MovedOk(f, at.r.phase, to, Clean(b.reason));
    assert Taken(cfg, manager, at, to, b) == Moved(f, at.r.phase, to, Clean(b.reason));
  }

  lemma TransitionOk(cfg: Config, manager: bool, at: At, b: TransitionBody)
    requires AtOk(at)
    ensures AtOk(TransitionStep(cfg, manager, at, b).at)
  {
    if b.target.To? && Guards(cfg, manager, at.r, b.target.phase, b) == [] {
      TakenOk(cfg, manager, at, b.target.phase, b);
    }
  }

  /** The CAB's outcome is logged just before its phase event. */
  lemma OutcomeStep(at: At, approved: bool)
    requires AtOk(at) && at.r.phase == Approval
    ensures var status := if approved then Approved else Refused;
            var a := at.(r := at.r.(approvalStatus := Some(status))).Log(ApprovalOutcome(status, at.r.round));
            var to := if approved then Scheduled else Rejected;
            Between(a, Approval, to) && OutcomeLogged(a.r.events, to) && a.r.outcome.None?
            && InTable(at.r.ctype, Approval, to) && a.r.ctype == at.r.ctype && at.tick <= a.tick
  {
    var status := if approved then Approved else Refused;
    AppendKeeps(at.r.ctype, at.r.events, at.tick, ApprovalOutcome(status, at.r.round));
  }

  lemma DecideOk(at: At, approved: bool)
    requires AtOk(at)
    ensures AtOk(DecideStep(at, approved).at)
  {
    if at.r.phase == Approval {
      var status := if approved then Approved else Refused;
      var to := if approved then Scheduled else Rejected;
      OutcomeStep(at, approved);
      var a := at.(r := at.r.(approvalStatus := Some(status))).Log(ApprovalOutcome(status, at.r.round));
      MovedOk(a, Approval, to, None);
      var c := Moved(a, Approval, to, None);
      SameHistory(c, At(c.r.(approvedAt := Some(c.tick + 1)), c.tick + 1));
    }
  }

  lemma RiskOk(cfg: Config, manager: bool, at: At, a: Action)
    requires AtOk(at) && (a.AnswerRisk? || a.EvaluateRisk? || a.OverrideRisk?)
    ensures AtOk(RiskStep(cfg, manager, at, a).at)
  {
    if !IsFinal(at.r.phase) {
      match a
      case AnswerRisk(answers) =>
        SameHistory(at, at.(r := at.r.(answers := at.r.answers + answers)));
        LogNote(at.(r := at.r.(answers := at.r.answers + answers)), Updated(["risk_answers"]));
      case EvaluateRisk =>
      case OverrideRisk(level, reason) =>
        if manager && Clean(reason).Some? {
          var s := at.(r := at.r.(overrideLevel := level, overrideReason := if Truthy(level) then Clean(reason) else None));
          SameHistory(at, s);
          LogNote(s, RiskOverridden(level, Clean(reason).value));
        }
    }
  }

  lemma TaskAppendedOk(at: At, task: Task)
    requires AtOk(at)
    ensures AtOk(TaskAppended(at, task))
  {
    var s := at.(r := at.r.(tasks := at.r.tasks + [task]));
    SameHistory(at, s);
    LogNote(s, TaskAdded(task.ticket));
  }

  lemma TasksOk(at: At, a: Action)
    requires AtOk(at) && (a.OrderTasks? || a.AddTask?)
    ensures AtOk(TaskStep(at, a).at)
  {
    match a
    case OrderTasks(order) => SameHistory(at, at.(r := at.r.(tasks := Reordered(at.r.tasks, order))));
    case AddTask(title, kind) =>
      var t := Clean(title);
      if t.Some? {
        TaskAppendedOk(at, NewTask(at.r, t.value, if kind.Some? then kind.value else "workorder"));
      }
  }

  /** Every request keeps the record's invariant. */
  lemma ActionOk(cfg: Config, manager: bool, at: At, a: Action)
    requires AtOk(at)
    ensures AtOk(ActionStep(cfg, manager, at, a).at)
  {
    match a
    case Update(b) => UpdateOk(at, b);
    case Transition(b) => TransitionOk(cfg, manager, at, b);
    case RecomputeImpact => SameHistory(at, RecomputeStep(at).at);
    case Decide(approved) => DecideOk(at, approved);
    case FinishTasks => SameHistory(at, at.(r := at.r.(tasks := Finished(at.r.tasks))));
    case OrderTasks(_) => TasksOk(at, a);
    case AddTask(_, _) => TasksOk(at, a);
    case AnswerRisk(_) => RiskOk(cfg, manager, at, a);
    case EvaluateRisk => RiskOk(cfg, manager, at, a);
    case OverrideRisk(_, _) => RiskOk(cfg, manager, at, a);
  }
}
