/** What a change's phase says about its approval and its times, in every
    reachable store. */
module ChangeStages {
  import opened Common
  import opened ChangePhases
  import opened ChangeRecord
  import opened ChangeInvariants
  import opened ChangeRuns

  /** The part of a record that moves with its phase. */
  datatype Stage = Stage(phase: Phase, round: nat, status: Option<ApprovalStatus>, approved: bool, began: bool, ended: bool)

  function StageOf(r: Change): Stage {
    Stage(r.phase, r.round, r.approvalStatus, r.approvedAt.Some?, r.actualStart.Some?, r.actualEnd.Some?)
  }

  predicate UnderWay(p: Phase) {
    p == Implementing || p == Review || p == Closed
  }

  /** An approval is pending exactly in `approval`; a rejected change was refused;
      only changes scheduled or later (or cancelled from there) are approved, and
      standard and emergency changes are not scheduled without it; work has begun
      exactly from `implementing` on and ended exactly in `closed`. */
  ghost predicate StageOk(t: ChangeType, s: Stage) {
    && (s.status == Some(Pending) <==> s.phase == Approval)
    && (s.status.Some? <==> s.round > 0)
    && (s.phase == Rejected ==> s.status == Some(Refused))
    && (s.approved || s.status == Some(Approved) ==> s.phase == Scheduled || UnderWay(s.phase) || s.phase == Cancelled)
    && (t == Standard && (s.phase == Scheduled || UnderWay(s.phase)) ==> s.approved)
    && (t == Emergency && s.phase == Scheduled ==> s.approved)
    && (s.began <==> UnderWay(s.phase))
    && (s.ended <==> s.phase == Closed)
  }

  // ---- transitions ----

  lemma StageLogIf(at: At, c: bool, kind: EventKind)
    ensures StageOf(LogIf(at, c, kind).r) == StageOf(at.r) && LogIf(at, c, kind).r.ctype == at.r.ctype
  {
  }

  lemma StageOverrides(cfg: Config, manager: bool, at: At, to: Phase, b: TransitionBody)
    ensures var a := LogOverrides(cfg, manager, at, to, b);
            StageOf(a.r) == StageOf(at.r) && a.r.ctype == at.r.ctype
  {
    var blocks, openTasks := BlockCount(cfg, at.r), OpenTasks(at.r.tasks);
    var why := Clean(b.overrideReason);
    var over := blocks > 0 && manager && why.Some? && NeedsWindow(to);
    StageLogIf(at, over, ConflictOverride(blocks, why));
    StageLogIf(LogIf(at, over, ConflictOverride(blocks, why)),
               b.force && manager && openTasks > 0 && at.r.phase == Implementing, Forced(openTasks, Clean(b.reason)));
  }

  lemma StagePrepare(at: At, to: Phase, b: TransitionBody)
    ensures var n := Prepare(at, to, b);
            && n.r.ctype == at.r.ctype
            && StageOf(n.r) == if to == Approval then StageOf(at.r).(round := at.r.round + 1, status := Some(Pending)) else StageOf(at.r)
  {
    var p := NoteReview(Reevaluate(at, to), Clean(b.pirNotes));
    assert p.r == at.r.(evaluatedAt := p.r.evaluatedAt, pir := p.r.pir);
    RequestApprovalFrame(p, to);
  }

  function DroppedStatus(s: Option<ApprovalStatus>, from: Phase, to: Phase): Option<ApprovalStatus> {
    if (from == Approval && to == Cancelled) || (from == Scheduled && to == Draft && s.Some?) then Some(Withdrawn) else s
  }

  lemma StageSettle(at: At, from: Phase, to: Phase, b: TransitionBody)
    ensures var f, s := Settle(at, from, to, b), StageOf(at.r);
            && f.r.ctype == at.r.ctype
            && StageOf(f.r) == Stage(s.phase, s.round, DroppedStatus(s.status, from, to),
                                     (s.approved && !(from == Scheduled && to == Draft)) || (to == Scheduled && at.r.ctype == Standard),
                                     s.began || to == Implementing, s.ended || to == Closed)
  {
    var d := DropApproval(at, from, to);
    var e := RecordTimes(d, to, b);
    assert d.r.ctype == at.r.ctype && d.r.round == at.r.round && d.r.phase == at.r.phase;
    assert e.r == d.r.(actualStart := e.r.actualStart, outcome := e.r.outcome, actualEnd := e.r.actualEnd);
  }

  lemma StageTaken(cfg: Config, manager: bool, at: At, to: Phase, b: TransitionBody)
    requires Guards(cfg, manager, at.r, to, b) == [] && StageOk(at.r.ctype, StageOf(at.r))
    ensures var r' := Taken(cfg, manager, at, to, b).r;
            r'.ctype == at.r.ctype && StageOk(r'.ctype, StageOf(r'))
  {
    GuardsPassed(cfg, manager, at.r, to, b);
    var a := LogOverrides(cfg, manager, at, to, b);
    var n := Prepare(a, to, b);
    var f := Settle(n, at.r.phase, to, b);
    StageOverrides(cfg, manager, at, to, b);
    StagePrepare(a, to, b);
    StageSettle(n, at.r.phase, to, b);
    StageMoved(f, at.r.phase, to, Clean(b.reason));
    StageByPerson(at.r.ctype, StageOf(at.r), StageOf(Moved(f, at.r.phase, to, Clean(b.reason)).r), to);
  }

  lemma StageMoved(at: At, from: Phase, to: Phase, reason: Option<string>)
    ensures StageOf(Moved(at, from, to, reason).r) == StageOf(at.r).(phase := to)
    ensures Moved(at, from, to, reason).r.ctype == at.r.ctype
  {
  }

  /** A person's step keeps the stage sound. */
  lemma StageByPerson(t: ChangeType, s: Stage, s': Stage, to: Phase)
    requires StageOk(t, s) && PersonMay(t, s.phase, to)
    requires s' == Stage(to, if to == Approval then s.round + 1 else s.round,
                         DroppedStatus(if to == Approval then Some(Pending) else s.status, s.phase, to),
                         (s.approved && !(s.phase == Scheduled && to == Draft)) || (to == Scheduled && t == Standard),
                         s.began || to == Implementing, s.ended || to == Closed)
    ensures StageOk(t, s')
  {
  }

  // ---- the other requests ----

  lemma StageUpdate(at: At, b: UpdateBody)
    requires AtOk(at)
    ensures var r' := UpdateStep(at, b).at.r; StageOf(r') == StageOf(at.r) && r'.ctype == at.r.ctype
  {
    EditsKeep(at.r, b);
  }

  lemma StageDecide(at: At, approved: bool)
    requires AtOk(at) && StageOk(at.r.ctype, StageOf(at.r))
    ensures var r' := DecideStep(at, approved).at.r; StageOk(r'.ctype, StageOf(r')) && r'.ctype == at.r.ctype
  {
    if at.r.phase == Approval {
      var status := if approved then Approved else Refused;
      var to := if approved then Scheduled else Rejected;
      var a := at.(r := at.r.(approvalStatus := Some(status))).Log(ApprovalOutcome(status, at.r.round));
      assert StageOf(a.r) == StageOf(at.r).(status := Some(status));
      StageMoved(a, Approval, to, None);
      var s := StageOf(at.r).(phase := to, status := Some(status), approved := approved);
      assert StageOf(DecideStep(at, approved).at.r) == s;
    }
  }

  lemma StageRisk(cfg: Config, manager: bool, at: At, a: Action)
    requires a.AnswerRisk? || a.EvaluateRisk? || a.OverrideRisk?
    ensures var r' := RiskStep(cfg, manager, at, a).at.r; StageOf(r') == StageOf(at.r) && r'.ctype == at.r.ctype
  {
  }

  lemma StageTasks(at: At, a: Action)
    requires a.OrderTasks? || a.AddTask?
    ensures var r' := TaskStep(at, a).at.r; StageOf(r') == StageOf(at.r) && r'.ctype == at.r.ctype
  {
  }

  lemma StageRecompute(at: At)
    ensures var r' := RecomputeStep(at).at.r; StageOf(r') == StageOf(at.r) && r'.ctype == at.r.ctype
  {
  }

  lemma StageFinish(r: Change)
    ensures StageOf(r.(tasks := Finished(r.tasks))) == StageOf(r)
  {
  }

  lemma StageTransition(cfg: Config, manager: bool, at: At, b: TransitionBody)
    requires StageOk(at.r.ctype, StageOf(at.r))
    ensures var r' := TransitionStep(cfg, manager, at, b).at.r; StageOk(r'.ctype, StageOf(r'))
  {
    if b.target.To? && Guards(cfg, manager, at.r, b.target.phase, b) == [] {
      StageTaken(cfg, manager, at, b.target.phase, b);
      assert TransitionStep(cfg, manager, at, b).at == Taken(cfg, manager, at, b.target.phase, b);
    } else {
      assert TransitionStep(cfg, manager, at, b).at == at;
    }
  }

  lemma StageAction(cfg: Config, manager: bool, at: At, a: Action)
    requires AtOk(at) && StageOk(at.r.ctype, StageOf(at.r))
    ensures var r' := ActionStep(cfg, manager, at, a).at.r; StageOk(r'.ctype, StageOf(r'))
  {
    match a
    case Update(b) => StageUpdate(at, b);
    case Transition(b) => StageTransition(cfg, manager, at, b);
    case RecomputeImpact => StageRecompute(at);
    case Decide(approved) => StageDecide(at, approved);
    case FinishTasks => StageFinish(at.r);
    case OrderTasks(_) => StageTasks(at, a);
    case AddTask(_, _) => StageTasks(at, a);
    case AnswerRisk(_) => StageRisk(cfg, manager, at, a);
    case EvaluateRisk => StageRisk(cfg, manager, at, a);
    case OverrideRisk(_, _) => StageRisk(cfg, manager, at, a);
  }

  // ---- runs ----

  ghost predicate StagesOk(s: Store) {
    forall id :: id in s.changes ==> StageOk(s.changes[id].ctype, StageOf(s.changes[id]))
  }

  lemma StageCreated(cfg: Config, id: int, tick: nat, b: CreateBody)
    ensures var r := CreatedRecord(cfg, id, tick, b).r; StageOk(r.ctype, StageOf(r))
  {
    var r := NewRecord(id, b, FindTemplate(cfg.templates, b.templateId));
    assert StageOf(r) == Stage(Draft, 0, None, false, false, false);
    assert StageOf(CreatedRecord(cfg, id, tick, b).r) == StageOf(r);
  }

  lemma StageStep(cfg: Config, s: Store, q: Request)
    requires StoreOk(s) && StagesOk(s)
    ensures StagesOk(StoreStep(cfg, s, q).store)
  {
    match q
    case SetManager(_) =>
    case Create(b) => StageCreated(cfg, s.next, s.tick, b);
    case On(id, action) =>
      if id in s.changes {
        assert RecordOk(s.changes[id], s.tick);
        StageAction(cfg, s.manager, At(s.changes[id], s.tick), action);
      }
  }

  /** In every reachable store every record's approval and times fit its phase. */
  lemma {:induction false} ReachableStages(cfg: Config, qs: seq<Request>)
    ensures StagesOk(Run(cfg, qs))
  {
    if qs != [] {
      ReachableStages(cfg, qs[..|qs| - 1]);
      ReachableOk(cfg, qs[..|qs| - 1]);
      StageStep(cfg, Run(cfg, qs[..|qs| - 1]), qs[|qs| - 1]);
    }
  }
}
