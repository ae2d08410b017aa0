/** What a transition requires, and what every change in approval therefore has. */
module ChangeGuards {
  import opened Common
  import opened Text
  import opened ChangePhases
  import opened ChangeRecord
  import opened ChangeInvariants
  import opened ChangeRuns

  // ---- who may go where ----

  /** The phases a person is offered. */
  function Offered(t: ChangeType, from: Phase): set<Phase> {
    match from
    case Draft => (match t case Normal => {Submitted, Cancelled} case Standard => {Scheduled, Cancelled} case Emergency => {Approval, Cancelled})
    case Submitted => if t == Normal then {Assessment, Draft, Cancelled} else {Cancelled}
    case Assessment => if t == Normal then {Approval, Cancelled} else {Cancelled}
    case Approval => {Cancelled}
    case Scheduled => {Implementing, Draft, Cancelled}
    case Implementing => if t == Standard then {Review, Closed} else {Review}
    case Review => {Closed}
    case Rejected => if t == Standard then {Cancelled} else {Draft, Cancelled}
    case Closed => {}
    case Cancelled => {}
  }

  lemma OfferedNormal(from: Phase, to: Phase)
    ensures PersonMay(Normal, from, to) <==> to in Offered(Normal, from)
  {
  }

  lemma OfferedStandard(from: Phase, to: Phase)
    ensures PersonMay(Standard, from, to) <==> to in Offered(Standard, from)
  {
  }

  lemma OfferedEmergency(from: Phase, to: Phase)
    ensures PersonMay(Emergency, from, to) <==> to in Offered(Emergency, from)
  {
  }

  lemma OfferedExactly(t: ChangeType, from: Phase, to: Phase)
    ensures PersonMay(t, from, to) <==> to in Offered(t, from)
  {
    match t
    case Normal => OfferedNormal(from, to);
    case Standard => OfferedStandard(from, to);
    case Emergency => OfferedEmergency(from, to);
  }

  // ---- texts, conflicts, open tasks ----

  ghost predicate SaysSomething(v: Option<string>) {
    v.Some? && !Blank(v.value)
  }

  ghost predicate Given(v: Option<string>) {
    v.Some? && |v.value| > 0
  }

  lemma CleanExactly(v: Option<string>)
    ensures SaysSomething(v) ==> Clean(v) == Some(Strip(v.value))
    ensures !SaysSomething(v) ==> Clean(v) == None
  {
    if v.Some? {
      var before, after := StripCuts(v.value);
      var t := Strip(v.value);
      if t != "" {
        assert v.value[|before|] == t[0];
      }
    }
  }

  /** A blocking freeze that touches the change's services during its window,
      and is not one that lets an emergency through. */
  ghost predicate InTheWay(f: Freeze, r: Change) {
    && Given(r.start) && Given(r.end)
    && f.blocking && (r.ctype == Emergency ==> !f.allowEmergency)
    && (f.services == [] || exists s :: s in f.services && s in r.services)
    && Less(f.start, r.end.value) && Less(r.start.value, f.end)
  }

  lemma BlocksOne(f: Freeze, r: Change)
    requires Given(r.start) && Given(r.end)
    ensures Blocks(f, r) <==> InTheWay(f, r)
  {
  }

  ghost function Hits(fs: seq<Freeze>, r: Change): set<int> {
    set i | 0 <= i < |fs| && InTheWay(fs[i], r)
  }

  lemma HitsSnoc(fs: seq<Freeze>, f: Freeze, r: Change)
    ensures Hits(fs + [f], r) == Hits(fs, r) + if InTheWay(f, r) then {|fs|} else {}
    ensures |Hits(fs + [f], r)| == |Hits(fs, r)| + if InTheWay(f, r) then 1 else 0
  {
    assert (fs + [f])[|fs|] == f;
    assert forall i :: 0 <= i < |fs| ==> (fs + [f])[i] == fs[i];
  }

  lemma {:induction false} BlocksExactly(fs: seq<Freeze>, r: Change)
    requires Given(r.start) && Given(r.end)
    ensures CountBlocks(fs, r) == |Hits(fs, r)|
  {
    if fs != [] {
      var n := |fs| - 1;
      BlocksExactly(fs[..n], r);
      BlocksOne(fs[n], r);
      HitsSnoc(fs[..n], fs[n], r);
      assert fs == fs[..n] + [fs[n]];
    }
  }

  ghost predicate Conflicting(cfg: Config, r: Change) {
    exists i :: 0 <= i < |cfg.freezes| && InTheWay(cfg.freezes[i], r)
  }

  lemma BlockCountExactly(cfg: Config, r: Change)
    ensures BlockCount(cfg, r) == |Hits(cfg.freezes, r)|
    ensures BlockCount(cfg, r) > 0 <==> Conflicting(cfg, r)
  {
    var these := Hits(cfg.freezes, r);
    if Given(r.start) && Given(r.end) {
      BlocksExactly(cfg.freezes, r);
    } else {
      assert these == {};
    }
    if Conflicting(cfg, r) {
      var i :| 0 <= i < |cfg.freezes| && InTheWay(cfg.freezes[i], r);
      assert i in these;
    }
    if these != {} {
      var i :| i in these;
    }
  }

  ghost predicate WorkLeft(tasks: seq<Task>) {
    exists i :: 0 <= i < |tasks| && !tasks[i].finished
  }

  lemma {:induction false} OpenTasksExactly(tasks: seq<Task>)
    ensures OpenTasks(tasks) == |set i | 0 <= i < |tasks| && !tasks[i].finished|
    ensures OpenTasks(tasks) > 0 <==> WorkLeft(tasks)
  {
    var these := set i | 0 <= i < |tasks| && !tasks[i].finished;
    if tasks != [] {
      var n := |tasks| - 1;
      var js := set i | 0 <= i < n && !tasks[..n][i].finished;
      OpenTasksExactly(tasks[..n]);
      assert these == if tasks[n].finished then js else js + {n};
    }
    if WorkLeft(tasks) {
      var i :| 0 <= i < |tasks| && !tasks[i].finished;
      assert i in these;
    }
    if these != {} {
      var i :| i in these;
    }
  }

  // ---- what is missing, each with its code ----

  predicate Starts(to: Phase) {
    to in {Approval, Scheduled, Implementing}
  }

  ghost predicate MissingWindow(cfg: Config, manager: bool, r: Change, to: Phase, b: TransitionBody, f: Failure) {
    || (f == Failure("window_missing", false) && Starts(to) && (r.start == None || r.end == None))
    || (f == Failure("block_conflict", true) && Starts(to) && Conflicting(cfg, r) && !(manager && SaysSomething(b.overrideReason)))
  }

  ghost predicate MissingPaper(cfg: Config, r: Change, to: Phase, f: Failure) {
    || (f == Failure("plans_missing", false) && to == Approval && !(Given(r.plans.implementation) && Given(r.plans.backout)))
    || (f == Failure("questionnaire_incomplete", false) && to == Approval && r.ctype == Normal &&
        exists q :: q in cfg.questions && q !in r.answers)
    || (f == Failure("impact_pending", false) && to == Approval && r.ctype == Normal && r.impactComputedAt == None)
  }

  ghost predicate MissingClosing(manager: bool, r: Change, to: Phase, b: TransitionBody, f: Failure) {
    || (f == Failure("tasks_open", true) && r.phase == Implementing && WorkLeft(r.tasks) && !(manager && b.force))
    || (f == Failure("outcome_missing", false) && to == Closed && !Given(b.outcome))
    || (f == Failure("pir_missing", false) && to == Closed && r.phase == Review && r.ctype != Standard &&
        !SaysSomething(b.pirNotes) && !Given(r.pir))
    || (f == Failure("reason_missing", false) && r.phase == Implementing && WorkLeft(r.tasks) && manager && b.force &&
        !SaysSomething(b.reason))
  }

  ghost predicate Missing(cfg: Config, manager: bool, r: Change, to: Phase, b: TransitionBody, f: Failure) {
    MissingWindow(cfg, manager, r, to, b, f) || MissingPaper(cfg, r, to, f) || MissingClosing(manager, r, to, b, f)
  }

  lemma WindowFailures(cfg: Config, manager: bool, r: Change, to: Phase, b: TransitionBody, f: Failure)
    ensures f in WindowGuards(cfg, manager, r, to, b) <==>
            MissingWindow(cfg, manager, r, to, b, f)
  {
    BlockCountExactly(cfg, r);
    CleanExactly(b.overrideReason);
  }

  lemma PlanFailures(cfg: Config, r: Change, to: Phase, f: Failure)
    requires to in Offered(r.ctype, r.phase)
    ensures f in PlanGuards(cfg, r, to) <==> MissingPaper(cfg, r, to, f)
  {
  }

  lemma InWhen(c: bool, code: string, overridable: bool, f: Failure)
    ensures f in When(c, code, overridable) <==> c && f == Failure(code, overridable)
  {
  }

  lemma ClosingFailures(manager: bool, r: Change, to: Phase, b: TransitionBody, f: Failure)
    requires to in Offered(r.ctype, r.phase)
    ensures f in ClosingGuards(manager, r, to, b) <==> MissingClosing(manager, r, to, b, f)
  {
    OpenTasksExactly(r.tasks);
    CleanExactly(b.pirNotes);
    CleanExactly(b.reason);
    var openTasks := OpenTasks(r.tasks);
    var pir := if Clean(b.pirNotes).Some? then Clean(b.pirNotes) else r.pir;
    InWhen(r.phase == Implementing && (to == Review || to == Closed) && openTasks > 0 && !(manager && b.force), "tasks_open", true, f);
    InWhen(to == Closed && !Truthy(b.outcome), "outcome_missing", false, f);
    InWhen(to == Closed && r.phase == Review && r.ctype != Standard && !Truthy(pir), "pir_missing", false, f);
    InWhen(manager && b.force && openTasks > 0 && r.phase == Implementing && Clean(b.reason).None?, "reason_missing", false, f);
  }

  /** The failures reported are exactly the things missing, or the one failure
      that the phase is not offered. */
  lemma FailuresExactly(cfg: Config, manager: bool, r: Change, to: Phase, b: TransitionBody)
    ensures to !in Offered(r.ctype, r.phase) ==> Guards(cfg, manager, r, to, b) == [Failure("transition_not_allowed", false)]
    ensures to in Offered(r.ctype, r.phase) ==>
      forall f :: f in Guards(cfg, manager, r, to, b) <==> Missing(cfg, manager, r, to, b, f)
  {
    OfferedExactly(r.ctype, r.phase, to);
    if to in Offered(r.ctype, r.phase) {
      forall f
        ensures f in Guards(cfg, manager, r, to, b) <==> Missing(cfg, manager, r, to, b, f)
      {
        WindowFailures(cfg, manager, r, to, b, f);
        PlanFailures(cfg, r, to, f);
        ClosingFailures(manager, r, to, b, f);
      }
    }
  }

  // ---- when a transition is granted ----

  ghost predicate Ready(cfg: Config, manager: bool, r: Change, to: Phase, b: TransitionBody) {
    && to in Offered(r.ctype, r.phase)
    && (Starts(to) ==> r.start.Some? && r.end.Some?)
    && (Starts(to) && Conflicting(cfg, r) ==> manager && SaysSomething(b.overrideReason))
    && (to == Approval ==> Given(r.plans.implementation) && Given(r.plans.backout))
    && (to == Approval && r.ctype == Normal ==> r.impactComputedAt.Some? && forall q :: q in cfg.questions ==> q in r.answers)
    && (r.phase == Implementing && WorkLeft(r.tasks) ==> manager && b.force && SaysSomething(b.reason))
    && (to == Closed ==> Given(b.outcome))
    && (to == Closed && r.phase == Review && r.ctype != Standard ==> SaysSomething(b.pirNotes) || Given(r.pir))
  }

  lemma WindowThere(cfg: Config, manager: bool, r: Change, to: Phase, b: TransitionBody)
    ensures (forall f :: !MissingWindow(cfg, manager, r, to, b, f)) <==>
            (Starts(to) ==> r.start.Some? && r.end.Some? && (Conflicting(cfg, r) ==> manager && SaysSomething(b.overrideReason)))
  {
    var f1, f2 := Failure("window_missing", false), Failure("block_conflict", true);
    assert MissingWindow(cfg, manager, r, to, b, f1) <==> Starts(to) && (r.start == None || r.end == None);
    assert MissingWindow(cfg, manager, r, to, b, f2) <==> Starts(to) && Conflicting(cfg, r) && !(manager && SaysSomething(b.overrideReason));
  }

  lemma PapersThere(cfg: Config, r: Change, to: Phase)
    ensures (forall f :: !MissingPaper(cfg, r, to, f)) <==>
            && (to == Approval ==> Given(r.plans.implementation) && Given(r.plans.backout))
            && (to == Approval && r.ctype == Normal ==> r.impactComputedAt.Some? && forall q :: q in cfg.questions ==> q in r.answers)
  {
    var f1, f2, f3 := Failure("plans_missing", false), Failure("questionnaire_incomplete", false), Failure("impact_pending", false);
    if forall f :: !MissingPaper(cfg, r, to, f) {
      assert !MissingPaper(cfg, r, to, f1) && !MissingPaper(cfg, r, to, f2) && !MissingPaper(cfg, r, to, f3);
    }
  }

  lemma ClosingThere(manager: bool, r: Change, to: Phase, b: TransitionBody)
    ensures (forall f :: !MissingClosing(manager, r, to, b, f)) <==>
            && (r.phase == Implementing && WorkLeft(r.tasks) ==> manager && b.force && SaysSomething(b.reason))
            && (to == Closed ==> Given(b.outcome))
            && (to == Closed && r.phase == Review && r.ctype != Standard ==> SaysSomething(b.pirNotes) || Given(r.pir))
  {
    if forall f :: !MissingClosing(manager, r, to, b, f) {
      assert !MissingClosing(manager, r, to, b, Failure("tasks_open", true));
      assert !MissingClosing(manager, r, to, b, Failure("outcome_missing", false));
      assert !MissingClosing(manager, r, to, b, Failure("pir_missing", false));
      assert !MissingClosing(manager, r, to, b, Failure("reason_missing", false));
    }
  }

  lemma NothingMissing(cfg: Config, manager: bool, r: Change, to: Phase, b: TransitionBody)
    requires to in Offered(r.ctype, r.phase)
    ensures Ready(cfg, manager, r, to, b) <==> forall f :: !Missing(cfg, manager, r, to, b, f)
  {
    WindowThere(cfg, manager, r, to, b);
    PapersThere(cfg, r, to);
    ClosingThere(manager, r, to, b);
    if forall f :: !Missing(cfg, manager, r, to, b, f) {
      forall f
        ensures !MissingWindow(cfg, manager, r, to, b, f) && !MissingPaper(cfg, r, to, f) && !MissingClosing(manager, r, to, b, f)
      {
        assert !Missing(cfg, manager, r, to, b, f);
      }
    }
  }

  lemma NoGuardsExactly(cfg: Config, manager: bool, r: Change, to: Phase, b: TransitionBody)
    ensures Guards(cfg, manager, r, to, b) == [] <==> Ready(cfg, manager, r, to, b)
  {
    FailuresExactly(cfg, manager, r, to, b);
    if to in Offered(r.ctype, r.phase) {
      NothingMissing(cfg, manager, r, to, b);
      var g := Guards(cfg, manager, r, to, b);
      if g != [] {
        assert g[0] in g;
      }
    }
  }

  /** A transition is granted exactly when its target is offered and nothing it
      needs is missing. */
  lemma GrantedExactly(cfg: Config, manager: bool, at: At, b: TransitionBody)
    ensures TransitionStep(cfg, manager, at, b).answer == Done <==>
            b.target.To? && Ready(cfg, manager, at.r, b.target.phase, b)
  {
    if b.target.To? {
      NoGuardsExactly(cfg, manager, at.r, b.target.phase, b);
    }
  }

  // ---- changes in approval, over runs ----

  /** A change in approval has both plans; a normal one also all answers and its
      impact. */
  ghost predicate ApprovalReady(cfg: Config, r: Change) {
    r.phase == Approval ==>
      && Given(r.plans.implementation) && Given(r.plans.backout)
      && (r.ctype == Normal ==> r.impactComputedAt.Some? && forall q :: q in cfg.questions ==> q in r.answers)
  }

  /** What a transition leaves alone of this. */
  lemma TakenKeepsPapers(cfg: Config, manager: bool, at: At, to: Phase, b: TransitionBody)
    requires AtOk(at) && Guards(cfg, manager, at.r, to, b) == []
    ensures var r' := Taken(cfg, manager, at, to, b).r;
            && r'.phase == to && r'.ctype == at.r.ctype && r'.plans == at.r.plans
            && r'.answers == at.r.answers && r'.impactComputedAt == at.r.impactComputedAt
  {
    GuardsPassed(cfg, manager, at.r, to, b);
    ToApproval(at.r.ctype, at.r.phase, to);
    OverridesOk(cfg, manager, at, to, b);
    var a := LogOverrides(cfg, manager, at, to, b);
    PrepareOk(a, to, b);
    SettleOk(Prepare(a, to, b), at.r.phase, to, b);
  }

  lemma TransitionReady(cfg: Config, manager: bool, at: At, b: TransitionBody)
    requires AtOk(at) && ApprovalReady(cfg, at.r)
    ensures ApprovalReady(cfg, TransitionStep(cfg, manager, at, b).at.r)
  {
    GrantedExactly(cfg, manager, at, b);
    if TransitionStep(cfg, manager, at, b).answer == Done {
      TakenKeepsPapers(cfg, manager, at, b.target.phase, b);
    }
  }

  lemma UpdateReady(cfg: Config, at: At, b: UpdateBody)
    requires AtOk(at) && ApprovalReady(cfg, at.r)
    ensures ApprovalReady(cfg, UpdateStep(at, b).at.r)
  {
    EditsKeep(at.r, b);
  }

  lemma RiskReady(cfg: Config, manager: bool, at: At, a: Action)
    requires (a.AnswerRisk? || a.EvaluateRisk? || a.OverrideRisk?) && ApprovalReady(cfg, at.r)
    ensures ApprovalReady(cfg, RiskStep(cfg, manager, at, a).at.r)
  {
  }

  lemma TasksReady(cfg: Config, at: At, a: Action)
    requires (a.OrderTasks? || a.AddTask?) && ApprovalReady(cfg, at.r)
    ensures ApprovalReady(cfg, TaskStep(at, a).at.r)
  {
  }

  lemma DecideReady(cfg: Config, at: At, approved: bool)
    requires ApprovalReady(cfg, at.r)
    ensures ApprovalReady(cfg, DecideStep(at, approved).at.r)
  {
  }

  lemma RecomputeReady(cfg: Config, at: At)
    requires ApprovalReady(cfg, at.r)
    ensures ApprovalReady(cfg, RecomputeStep(at).at.r)
  {
  }

  lemma ActionReady(cfg: Config, manager: bool, at: At, a: Action)
    requires AtOk(at) && ApprovalReady(cfg, at.r)
    ensures ApprovalReady(cfg, ActionStep(cfg, manager, at, a).at.r)
  {
    match a
    case Update(b) => UpdateReady(cfg, at, b);
    case Transition(b) => TransitionReady(cfg, manager, at, b);
    case RecomputeImpact => RecomputeReady(cfg, at);
    case Decide(approved) => DecideReady(cfg, at, approved);
    case FinishTasks =>
    case OrderTasks(_) => TasksReady(cfg, at, a);
    case AddTask(_, _) => TasksReady(cfg, at, a);
    case AnswerRisk(_) => RiskReady(cfg, manager, at, a);
    case EvaluateRisk => RiskReady(cfg, manager, at, a);
    case OverrideRisk(_, _) => RiskReady(cfg, manager, at, a);
  }

  ghost predicate AllReady(cfg: Config, s: Store) {
    forall id :: id in s.changes ==> ApprovalReady(cfg, s.changes[id])
  }

  lemma StepReady(cfg: Config, s: Store, q: Request)
    requires StoreOk(s) && AllReady(cfg, s)
    ensures AllReady(cfg, StoreStep(cfg, s, q).store)
  {
    match q
    case SetManager(_) =>
    case Create(b) => NewRecordIsDraft(s.next, b, FindTemplate(cfg.templates, b.templateId));
    case On(id, action) =>
      if id in s.changes {
        assert RecordOk(s.changes[id], s.tick);
        ActionReady(cfg, s.manager, At(s.changes[id], s.tick), action);
      }
  }

  /** In every reachable store every change in approval has its papers. */
  lemma {:induction false} ReachableReady(cfg: Config, qs: seq<Request>)
    ensures AllReady(cfg, Run(cfg, qs))
  {
    if qs != [] {
      ReachableReady(cfg, qs[..|qs| - 1]);
      ReachableOk(cfg, qs[..|qs| - 1]);
      StepReady(cfg, Run(cfg, qs[..|qs| - 1]), qs[|qs| - 1]);
    }
  }
}
