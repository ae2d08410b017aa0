/** What each granted request does to a record: every field it sets, everything
    it logs, and that it touches nothing else. */
module ChangeEffects {
  import opened Common
  import opened Text
  import opened ChangePhases
  import opened ChangeRecord
  import opened ChangeInvariants
  import opened ChangeGuards

  function Kinds(events: seq<Event>): (r: seq<EventKind>)
    ensures |r| == |events|
  {
    seq(|events|, i requires 0 <= i < |events| => events[i].kind)
  }

  lemma KindsAppended(events: seq<Event>, tick: nat, kind: EventKind)
    ensures Kinds(Appended(events, tick, kind)) == Kinds(events) + [kind]
  {
  }

  /** A stamp taken while the clock went from `before` to `after`. */
  ghost predicate StampedIn(stamp: Option<nat>, before: nat, after: nat) {
    stamp.Some? && before < stamp.value <= after
  }

  function Trimmed(v: string): string {
    Strip(v)
  }

  // ---- a granted transition ----

  /** The overrides that were needed, with their reasons. */
  ghost function OverrideKinds(cfg: Config, manager: bool, r: Change, to: Phase, b: TransitionBody): seq<EventKind> {
    (if Starts(to) && Conflicting(cfg, r) && manager && SaysSomething(b.overrideReason)
     then [ConflictOverride(|Hits(cfg.freezes, r)|, Some(Trimmed(b.overrideReason.value)))] else []) +
    (if r.phase == Implementing && WorkLeft(r.tasks) && manager && b.force
     then [Forced(|set i | 0 <= i < |r.tasks| && !r.tasks[i].finished|, if SaysSomething(b.reason) then Some(Trimmed(b.reason.value)) else None)]
     else [])
  }

  lemma LogIfValues(at: At, c: bool, kind: EventKind)
    ensures var a := LogIf(at, c, kind);
            && a.r == at.r.(events := a.r.events) && at.tick <= a.tick
            && Kinds(a.r.events) == Kinds(at.r.events) + LoggedIf(c, kind)
  {
    KindsAppended(at.r.events, at.tick, kind);
  }

  ghost function LoggedIf(c: bool, kind: EventKind): seq<EventKind> {
    if c then [kind] else []
  }

  /** What is logged, as the store decides it. */
  lemma OverridesDecided(cfg: Config, manager: bool, r: Change, to: Phase, b: TransitionBody)
    ensures var blocks, openTasks := BlockCount(cfg, r), OpenTasks(r.tasks);
            var why, reason := Clean(b.overrideReason), Clean(b.reason);
            OverrideKinds(cfg, manager, r, to, b) ==
            LoggedIf(blocks > 0 && manager && why.Some? && NeedsWindow(to), ConflictOverride(blocks, why)) +
            LoggedIf(b.force && manager && openTasks > 0 && r.phase == Implementing, Forced(openTasks, reason))
  {
    BlockCountExactly(cfg, r);
    OpenTasksExactly(r.tasks);
    CleanExactly(b.overrideReason);
    CleanExactly(b.reason);
  }

  lemma OverrideValues(cfg: Config, manager: bool, at: At, to: Phase, b: TransitionBody)
    ensures var a := LogOverrides(cfg, manager, at, to, b);
            && a.r == at.r.(events := a.r.events) && at.tick <= a.tick
            && Kinds(a.r.events) == Kinds(at.r.events) + OverrideKinds(cfg, manager, at.r, to, b)
  {
    OverridesDecided(cfg, manager, at.r, to, b);
    var blocks, openTasks := BlockCount(cfg, at.r), OpenTasks(at.r.tasks);
    var over := blocks > 0 && manager && Clean(b.overrideReason).Some? && NeedsWindow(to);
    var force := b.force && manager && openTasks > 0 && at.r.phase == Implementing;
    LogTwice(at, over, ConflictOverride(blocks, Clean(b.overrideReason)), force, Forced(openTasks, Clean(b.reason)));
  }

  lemma LogTwice(at: At, c: bool, k: EventKind, d: bool, l: EventKind)
    ensures var a := LogIf(LogIf(at, c, k), d, l);
            && a.r == at.r.(events := a.r.events) && at.tick <= a.tick
            && Kinds(a.r.events) == Kinds(at.r.events) + (LoggedIf(c, k) + LoggedIf(d, l))
  {
    LogIfValues(at, c, k);
    LogIfValues(LogIf(at, c, k), d, l);
  }

  lemma PrepareValues(at: At, to: Phase, b: TransitionBody)
    ensures var n := Prepare(at, to, b);
            && n.r == at.r.(evaluatedAt := n.r.evaluatedAt, pir := if SaysSomething(b.pirNotes) then Some(Trimmed(b.pirNotes.value)) else at.r.pir,
                            round := if to == Approval then at.r.round + 1 else at.r.round,
                            approvalId := if to == Approval then Some(700 + at.r.id + 1000 * at.r.round) else at.r.approvalId,
                            via := if to == Approval then Some("cab") else at.r.via,
                            approvalStatus := if to == Approval then Some(Pending) else at.r.approvalStatus,
                            events := n.r.events)
            && (if to == Approval || (at.r.phase == Assessment && to == Scheduled)
                then StampedIn(n.r.evaluatedAt, at.tick, n.tick) else n.r.evaluatedAt == at.r.evaluatedAt)
            && Kinds(n.r.events) == Kinds(at.r.events) + (if to == Approval then [ApprovalRequested(at.r.round + 1)] else [])
            && at.tick <= n.tick
  {
    CleanExactly(b.pirNotes);
    var e := Reevaluate(at, to);
    var p := NoteReview(e, Clean(b.pirNotes));
    assert p.r == at.r.(evaluatedAt := e.r.evaluatedAt, pir := p.r.pir) && p.tick == e.tick;
    KindsAppended(p.r.events, p.tick, ApprovalRequested(p.r.round + 1));
  }

  lemma SettleValues(at: At, from: Phase, to: Phase, b: TransitionBody)
    ensures var f := Settle(at, from, to, b);
            && f.r == at.r.(via := if from == Scheduled && to == Draft then (if at.r.ctype == Standard then Some("template") else None) else at.r.via,
                            approvedAt := f.r.approvedAt,
                            approvalStatus := if (from == Approval && to == Cancelled) ||
                                                 (from == Scheduled && to == Draft && at.r.approvalStatus.Some?)
                                              then Some(Withdrawn) else at.r.approvalStatus,
                            actualStart := f.r.actualStart, actualEnd := f.r.actualEnd,
                            outcome := if to == Closed then b.outcome else at.r.outcome)
            && (if to == Implementing then StampedIn(f.r.actualStart, at.tick, f.tick) else f.r.actualStart == at.r.actualStart)
            && (if to == Closed then StampedIn(f.r.actualEnd, at.tick, f.tick) else f.r.actualEnd == at.r.actualEnd)
            && (if to == Scheduled && at.r.ctype == Standard then StampedIn(f.r.approvedAt, at.tick, f.tick)
                else f.r.approvedAt == if from == Scheduled && to == Draft then None else at.r.approvedAt)
            && at.tick <= f.tick
  {
    var d := DropApproval(at, from, to);
    var e := RecordTimes(d, to, b);
    assert d.tick == at.tick && d.r.ctype == at.r.ctype;
    assert e.r == d.r.(actualStart := e.r.actualStart, actualEnd := e.r.actualEnd, outcome := e.r.outcome);
  }

  /** The record after a granted transition, field by field.  `t` is what the
      clock showed before. */
  ghost predicate MovedTo(r: Change, t: nat, r': Change, t': nat, to: Phase, b: TransitionBody) {
    && r' == r.(phase := to,
                outcome := if to == Closed then b.outcome else r.outcome,
                pir := if SaysSomething(b.pirNotes) then Some(Trimmed(b.pirNotes.value)) else r.pir,
                round := if to == Approval then r.round + 1 else r.round,
                approvalId := if to == Approval then Some(700 + r.id + 1000 * r.round) else r.approvalId,
                via := if to == Approval then Some("cab")
                       else if r.phase == Scheduled && to == Draft then (if r.ctype == Standard then Some("template") else None) else r.via,
                approvalStatus := if to == Approval then Some(Pending)
                                  else if (r.phase == Approval && to == Cancelled) ||
                                          (r.phase == Scheduled && to == Draft && r.approvalStatus.Some?)
                                  then Some(Withdrawn) else r.approvalStatus,
                evaluatedAt := r'.evaluatedAt, approvedAt := r'.approvedAt,
                actualStart := r'.actualStart, actualEnd := r'.actualEnd, events := r'.events)
    && (if to == Approval || (r.phase == Assessment && to == Scheduled)
        then StampedIn(r'.evaluatedAt, t, t') else r'.evaluatedAt == r.evaluatedAt)
    && (if to == Implementing then StampedIn(r'.actualStart, t, t') else r'.actualStart == r.actualStart)
    && (if to == Closed then StampedIn(r'.actualEnd, t, t') else r'.actualEnd == r.actualEnd)
    && (if to == Scheduled && r.ctype == Standard then StampedIn(r'.approvedAt, t, t')
        else r'.approvedAt == if r.phase == Scheduled && to == Draft then None else r.approvedAt)
  }

  lemma MovedValues(at: At, from: Phase, to: Phase, reason: Option<string>)
    ensures var m := Moved(at, from, to, reason);
            && m.r == at.r.(phase := to, events := m.r.events) && at.tick < m.tick
            && Kinds(m.r.events) == Kinds(at.r.events) + [PhaseChanged(Some(from), to, reason)]
  {
    KindsAppended(at.r.events, at.tick, PhaseChanged(Some(from), to, reason));
  }

  /** What a granted transition logs, in order. */
  ghost function TransitionKinds(cfg: Config, manager: bool, r: Change, to: Phase, b: TransitionBody): seq<EventKind> {
    OverrideKinds(cfg, manager, r, to, b) +
    (if to == Approval then [ApprovalRequested(r.round + 1)] else []) +
    [PhaseChanged(Some(r.phase), to, if SaysSomething(b.reason) then Some(Trimmed(b.reason.value)) else None)]
  }

  lemma TakenRecord(cfg: Config, manager: bool, at: At, to: Phase, b: TransitionBody)
    ensures var at' := Taken(cfg, manager, at, to, b); MovedTo(at.r, at.tick, at'.r, at'.tick, to, b)
  {
    var a := LogOverrides(cfg, manager, at, to, b);
    OverrideValues(cfg, manager, at, to, b);
    var n := Prepare(a, to, b);
    PrepareValues(a, to, b);
    var f := Settle(n, at.r.phase, to, b);
    SettleValues(n, at.r.phase, to, b);
    MovedValues(f, at.r.phase, to, Clean(b.reason));
    assert Taken(cfg, manager, at, to, b) == Moved(f, at.r.phase, to, Clean(b.reason));
  }

  lemma OverridesLogged(cfg: Config, manager: bool, at: At, to: Phase, b: TransitionBody)
    ensures var a := LogOverrides(cfg, manager, at, to, b);
            a.r.round == at.r.round && Kinds(a.r.events) == Kinds(at.r.events) + OverrideKinds(cfg, manager, at.r, to, b)
  {
    OverrideValues(cfg, manager, at, to, b);
  }

  lemma RequestLoggedOnly(at: At, to: Phase, b: TransitionBody)
    ensures Kinds(Prepare(at, to, b).r.events) == Kinds(at.r.events) + (if to == Approval then [ApprovalRequested(at.r.round + 1)] else [])
  {
    PrepareValues(at, to, b);
  }

  lemma SettleLogsNothing(at: At, from: Phase, to: Phase, b: TransitionBody)
    ensures Settle(at, from, to, b).r.events == at.r.events
  {
    SettleValues(at, from, to, b);
  }

  /** The phase event comes last, after what preparing logged. */
  lemma TakenLogsLast(cfg: Config, manager: bool, at: At, to: Phase, b: TransitionBody)
    ensures Kinds(Taken(cfg, manager, at, to, b).r.events) ==
            Kinds(Prepare(LogOverrides(cfg, manager, at, to, b), to, b).r.events) +
            [PhaseChanged(Some(at.r.phase), to, Clean(b.reason))]
  {
    var n := Prepare(LogOverrides(cfg, manager, at, to, b), to, b);
    SettleLogsNothing(n, at.r.phase, to, b);
    MovedValues(Settle(n, at.r.phase, to, b), at.r.phase, to, Clean(b.reason));
  }

  lemma TakenKinds(cfg: Config, manager: bool, at: At, to: Phase, b: TransitionBody)
    ensures var at' := Taken(cfg, manager, at, to, b);
            Kinds(at'.r.events) == Kinds(at.r.events) + TransitionKinds(cfg, manager, at.r, to, b)
  {
    CleanExactly(b.reason);
    OverridesLogged(cfg, manager, at, to, b);
    RequestLoggedOnly(LogOverrides(cfg, manager, at, to, b), to, b);
    TakenLogsLast(cfg, manager, at, to, b);
  }

  /** The answer to a transition that is not granted. */
  ghost predicate RefusedWith(cfg: Config, manager: bool, r: Change, b: TransitionBody, answer: Answer) {
    match b.target
    case NoTarget => answer == Fail(422, "validation_error", [])
    case Unknown => answer == Fail(409, "transition_refused", [Failure("transition_not_allowed", false)])
    case To(to) =>
      && answer.Fail? && answer.status == 409 && answer.code == "transition_refused"
      && (to !in Offered(r.ctype, r.phase) ==> answer.failures == [Failure("transition_not_allowed", false)])
      && (to in Offered(r.ctype, r.phase) ==> forall f :: f in answer.failures <==> Missing(cfg, manager, r, to, b, f))
  }

  /** A transition does exactly this when it is granted, and nothing when not;
      then the answer lists exactly what is missing. */
  lemma TransitionExactly(cfg: Config, manager: bool, at: At, b: TransitionBody)
    ensures var res := TransitionStep(cfg, manager, at, b);
            if b.target.To? && Ready(cfg, manager, at.r, b.target.phase, b)
            then res.answer == Done && MovedTo(at.r, at.tick, res.at.r, res.at.tick, b.target.phase, b) &&
                 Kinds(res.at.r.events) == Kinds(at.r.events) + TransitionKinds(cfg, manager, at.r, b.target.phase, b)
            else res.at == at && RefusedWith(cfg, manager, at.r, b, res.answer)
  {
    GrantedExactly(cfg, manager, at, b);
    if b.target.To? {
      var to := b.target.phase;
      if Ready(cfg, manager, at.r, to, b) {
        TakenRecord(cfg, manager, at, to, b);
        TakenKinds(cfg, manager, at, to, b);
        assert TransitionStep(cfg, manager, at, b).at == Taken(cfg, manager, at, to, b);
      } else {
        NoGuardsExactly(cfg, manager, at.r, to, b);
        FailuresExactly(cfg, manager, at.r, to, b);
      }
    }
  }

  // ---- the CAB's outcome ----

  lemma DecideExactly(at: At, approved: bool)
    ensures at.r.phase != Approval ==> DecideStep(at, approved) == Result(at, Thrown)
    ensures at.r.phase == Approval ==>
      var res := DecideStep(at, approved);
      var status, to := if approved then Approved else Refused, if approved then Scheduled else Rejected;
      && res.answer == Done
      && res.at.r == at.r.(phase := to, approvalStatus := Some(status), approvedAt := res.at.r.approvedAt, events := res.at.r.events)
      && (if approved then StampedIn(res.at.r.approvedAt, at.tick, res.at.tick) else res.at.r.approvedAt == at.r.approvedAt)
      && Kinds(res.at.r.events) == Kinds(at.r.events) + [ApprovalOutcome(status, at.r.round), PhaseChanged(Some(Approval), to, None)]
  {
    if at.r.phase == Approval {
      var status, to := if approved then Approved else Refused, if approved then Scheduled else Rejected;
      var a := at.(r := at.r.(approvalStatus := Some(status))).Log(ApprovalOutcome(status, at.r.round));
      KindsAppended(at.r.events, at.tick, ApprovalOutcome(status, at.r.round));
      MovedValues(a, Approval, to, None);
      assert Kinds(at.r.events) + [ApprovalOutcome(status, at.r.round)] + [PhaseChanged(Some(Approval), to, None)] ==
             Kinds(at.r.events) + [ApprovalOutcome(status, at.r.round), PhaseChanged(Some(Approval), to, None)];
    }
  }

  // ---- risk, impact, tasks ----

  /** Answers are taken if the change is not final and all questions are known. */
  lemma AnswersExactly(cfg: Config, manager: bool, at: At, answers: map<string, string>)
    ensures var res := RiskStep(cfg, manager, at, AnswerRisk(answers));
            if at.r.phase !in {Closed, Cancelled} && answers.Keys <= cfg.questions
            then && res.answer == Done && res.at.r == at.r.(answers := res.at.r.answers, events := res.at.r.events)
                 && Kinds(res.at.r.events) == Kinds(at.r.events) + [Updated(["risk_answers"])]
                 && res.at.r.answers.Keys == at.r.answers.Keys + answers.Keys
                 && (forall k :: k in res.at.r.answers ==> res.at.r.answers[k] == if k in answers then answers[k] else at.r.answers[k])
            else res == Result(at, if at.r.phase in {Closed, Cancelled} then Fail(409, "change_final", []) else Fail(422, "unknown_question", []))
  {
    KindsAppended(at.r.events, at.tick, Updated(["risk_answers"]));
  }

  /** An override needs a manager and a reason; the reason is kept with a level only. */
  lemma OverrideExactly(cfg: Config, manager: bool, at: At, level: Option<string>, reason: Option<string>)
    ensures var res := RiskStep(cfg, manager, at, OverrideRisk(level, reason));
            if at.r.phase !in {Closed, Cancelled} && manager && SaysSomething(reason)
            then var why := Trimmed(reason.value);
                 && res.answer == Done
                 && res.at.r == at.r.(overrideLevel := level, overrideReason := if Given(level) then Some(why) else None, events := res.at.r.events)
                 && Kinds(res.at.r.events) == Kinds(at.r.events) + [RiskOverridden(level, why)]
            else res.at == at && res.answer == (if at.r.phase in {Closed, Cancelled} then Fail(409, "change_final", [])
                                                else if !manager then Fail(403, "forbidden", []) else Fail(422, "reason_missing", []))
  {
    CleanExactly(reason);
    if SaysSomething(reason) {
      KindsAppended(at.r.events, at.tick, RiskOverridden(level, Trimmed(reason.value)));
    }
  }

  lemma EvaluateExactly(cfg: Config, manager: bool, at: At)
    ensures var res := RiskStep(cfg, manager, at, EvaluateRisk);
            if at.r.phase !in {Closed, Cancelled}
            then res.answer == Done && res.at.r == at.r.(evaluatedAt := res.at.r.evaluatedAt) && StampedIn(res.at.r.evaluatedAt, at.tick, res.at.tick)
            else res == Result(at, Fail(409, "change_final", []))
  {
  }

  /** Impact is requested once and computed every time. */
  lemma RecomputeExactly(at: At)
    ensures var res := RecomputeStep(at);
            && res.answer == Done
            && res.at.r == at.r.(impactRequestedAt := res.at.r.impactRequestedAt, impactComputedAt := res.at.r.impactComputedAt)
            && (if at.r.impactRequestedAt.Some? then res.at.r.impactRequestedAt == at.r.impactRequestedAt
                else StampedIn(res.at.r.impactRequestedAt, at.tick, res.at.tick))
            && StampedIn(res.at.r.impactComputedAt, at.tick, res.at.tick)
  {
  }

  /** A task needs a title; it comes last, unfinished, under the next number. */
  lemma AddTaskExactly(at: At, title: Option<string>, kind: Option<string>)
    ensures var res := TaskStep(at, AddTask(title, kind));
            if at.r.phase !in {Closed, Cancelled} && SaysSomething(title)
            then var n := |at.r.tasks|;
                 var task := Task(450 + at.r.id * 10 + n, Trimmed(title.value), if kind.Some? then kind.value else "workorder", n + 1, false);
                 && res.answer == Done
                 && res.at.r == at.r.(tasks := at.r.tasks + [task], events := res.at.r.events)
                 && Kinds(res.at.r.events) == Kinds(at.r.events) + [TaskAdded(task.ticket)]
            else res == Result(at, if at.r.phase in {Closed, Cancelled} then Fail(409, "change_final", []) else Fail(422, "validation_error", []))
  {
    CleanExactly(title);
    KindsAppended(at.r.events, at.tick, TaskAdded(450 + at.r.id * 10 + |at.r.tasks|));
    if SaysSomething(title) {
      var task := NewTask(at.r, Trimmed(title.value), if kind.Some? then kind.value else "workorder");
      assert task.ticket == 450 + at.r.id * 10 + |at.r.tasks|;
      assert !IsFinal(at.r.phase) ==> TaskStep(at, AddTask(title, kind)) == Result(TaskAppended(at, task), Done);
    }
  }

  /** Finishing marks every task and changes nothing else. */
  lemma FinishExactly(cfg: Config, manager: bool, at: At)
    ensures var res := ActionStep(cfg, manager, at, FinishTasks);
            && res.answer == Done && res.at.tick == at.tick && res.at.r == at.r.(tasks := res.at.r.tasks)
            && |res.at.r.tasks| == |at.r.tasks| && !WorkLeft(res.at.r.tasks)
            && forall i :: 0 <= i < |at.r.tasks| ==> res.at.r.tasks[i] == at.r.tasks[i].(finished := res.at.r.tasks[i].finished)
  {
  }
}
