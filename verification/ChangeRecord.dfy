/** A change record and what every request does to it. */
module ChangeRecord {
  import opened Common
  import opened Text
  import opened Chains
  import opened ChangePhases

  // ---- data ----

  datatype ApprovalStatus = Pending | Approved | Refused | Withdrawn

  datatype EventKind =
    | Created
    | PhaseChanged(from: Option<Phase>, to: Phase, reason: Option<string>)
    | Updated(fields: seq<string>)
    | ConflictOverride(blocks: nat, why: Option<string>)
    | Forced(openTasks: nat, why: Option<string>)
    | ApprovalRequested(round: nat)
    | ApprovalOutcome(status: ApprovalStatus, round: nat)
    | RiskOverridden(level: Option<string>, note: string)
    | TaskAdded(ticket: int)

  /** `stamp` counts minutes since the store's start. */
  datatype Event = Event(id: nat, stamp: nat, kind: EventKind)

  datatype Task = Task(ticket: int, title: string, kind: string, position: int, finished: bool)

  datatype Plans = Plans(implementation: Option<string>, backout: Option<string>, test: Option<string>)

  datatype Change = Change(
    id: int,
    title: string,
    ctype: ChangeType,
    phase: Phase,
    outcome: Option<string>,
    templateId: Option<int>,
    cabId: Option<int>,
    start: Option<string>,
    end: Option<string>,
    actualStart: Option<nat>,
    actualEnd: Option<nat>,
    reason: Option<string>,
    plans: Plans,
    pir: Option<string>,
    answers: map<string, string>,
    overrideLevel: Option<string>,
    overrideReason: Option<string>,
    evaluatedAt: Option<nat>,
    round: nat,
    approvalId: Option<int>,
    via: Option<string>,
    approvedAt: Option<nat>,
    approvalStatus: Option<ApprovalStatus>,
    portal: bool,
    services: seq<int>,
    impactRequestedAt: Option<nat>,
    impactComputedAt: Option<nat>,
    tasks: seq<Task>,
    events: seq<Event>)

  datatype Freeze = Freeze(start: string, end: string, blocking: bool, allowEmergency: bool, services: seq<int>)

  datatype TemplateTask = TemplateTask(title: string, kind: string, position: int)

  datatype Template = Template(
    id: int,
    valid: bool,
    isStandard: bool,
    ctype: ChangeType,
    implementationPlan: Option<string>,
    backoutPlan: Option<string>,
    riskAnswers: map<string, string>,
    cabId: Option<int>,
    portal: bool,
    tasks: seq<TemplateTask>)

  /** What the store reads from elsewhere: freezes, questions, templates. */
  datatype Config = Config(freezes: seq<Freeze>, questions: set<string>, templates: seq<Template>)

  datatype Failure = Failure(code: string, overridable: bool)

  datatype Answer = Done | Fail(status: nat, code: string, failures: seq<Failure>) | Thrown | NotHandled

  // ---- request bodies ----

  datatype CreateBody = CreateBody(
    ctype: Option<ChangeType>,
    templateId: Option<int>,
    title: Option<string>,
    start: Option<string>,
    end: Option<string>,
    cabId: Option<int>,
    reason: Option<string>,
    serviceId: Option<int>,
    serviceIds: seq<int>)

  datatype Field = ReasonField | ImplementationPlan | BackoutPlan | TestPlan

  const FIELDS: seq<Field> := [ReasonField, ImplementationPlan, BackoutPlan, TestPlan]

  function FieldName(f: Field): string {
    match f
    case ReasonField => "reason"
    case ImplementationPlan => "implementation_plan"
    case BackoutPlan => "backout_plan"
    case TestPlan => "test_plan"
  }

  /** `cabId`: absent, or present with null or a number. */
  datatype UpdateBody = UpdateBody(
    texts: map<Field, string>,
    clearWindow: bool,
    start: Option<string>,
    end: Option<string>,
    cabId: Option<Option<int>>,
    portal: Option<bool>)

  datatype Target = NoTarget | Unknown | To(phase: Phase)

  datatype TransitionBody = TransitionBody(
    target: Target,
    overrideReason: Option<string>,
    force: bool,
    outcome: Option<string>,
    pirNotes: Option<string>,
    reason: Option<string>)

  datatype Action =
    | Update(update: UpdateBody)
    | Transition(transition: TransitionBody)
    | AnswerRisk(answers: map<string, string>)
    | EvaluateRisk
    | OverrideRisk(level: Option<string>, reason: Option<string>)
    | RecomputeImpact
    | OrderTasks(order: seq<int>)
    | AddTask(title: Option<string>, kind: Option<string>)
    | Decide(approved: bool)
    | FinishTasks

  // ---- helpers ----

  /** Trimmed text, or nothing for blank or missing text. */
  function Clean(v: Option<string>): (r: Option<string>)
    ensures r.Some? ==> Strip(r.value) == r.value && r.value != ""
  {
    if v.None? || Strip(v.value) == "" then None
    else
      StripTwice(v.value);
      Some(Strip(v.value))
  }

  predicate Truthy(v: Option<string>) {
    v.Some? && v.value != ""
  }

  /** A window whose given ends are not in order. */
  predicate BadWindow(start: Option<string>, end: Option<string>) {
    Truthy(start) && Truthy(end) && !Less(start.value, end.value)
  }

  predicate Blocks(f: Freeze, r: Change)
    requires r.start.Some? && r.end.Some?
  {
    && (f.services == [] || exists s :: s in f.services && s in r.services)
    && Less(r.start.value, f.end) && Less(f.start, r.end.value)
    && f.blocking && !(r.ctype == Emergency && f.allowEmergency)
  }

  function CountBlocks(fs: seq<Freeze>, r: Change): nat
    requires r.start.Some? && r.end.Some?
  {
    if fs == [] then 0 else CountBlocks(fs[..|fs| - 1], r) + if Blocks(fs[|fs| - 1], r) then 1 else 0
  }

  function BlockCount(cfg: Config, r: Change): nat {
    if Truthy(r.start) && Truthy(r.end) then CountBlocks(cfg.freezes, r) else 0
  }

  function OpenTasks(tasks: seq<Task>): nat {
    if tasks == [] then 0 else OpenTasks(tasks[..|tasks| - 1]) + if tasks[|tasks| - 1].finished then 0 else 1
  }

  predicate QuestionnaireComplete(cfg: Config, r: Change) {
    forall q :: q in cfg.questions ==> q in r.answers
  }

  /** The log with one more event, numbered and stamped next. */
  function Appended(events: seq<Event>, tick: nat, kind: EventKind): seq<Event> {
    events + [Event(|events| + 1, tick + 1, kind)]
  }

  /** A record and the store's clock, the two things a request can move. */
  datatype At = At(r: Change, tick: nat) {
    function Log(kind: EventKind): At {
      At(r.(events := Appended(r.events, tick, kind)), tick + 1)
    }
  }

  datatype Result = Result(at: At, answer: Answer)

  function NewRecord(id: int, b: CreateBody, t: Option<Template>): Change {
    var ctype := if b.ctype.Some? then b.ctype.value else Normal;
    var services := Deduped((if b.serviceId.Some? then [b.serviceId.value] else []) + b.serviceIds);
    var title := Clean(b.title);
    Change(
      id, if title.Some? then title.value else "Neuer Change", ctype, Draft, None,
      if t.Some? then Some(t.value.id) else None,
      if b.cabId.Some? then b.cabId else if t.Some? then t.value.cabId else None,
      b.start, b.end, None, None, Clean(b.reason),
      Plans(if t.Some? then t.value.implementationPlan else None, if t.Some? then t.value.backoutPlan else None, None),
      None, if t.Some? then t.value.riskAnswers else map[], None, None, None,
      0, None, if ctype == Standard then Some("template") else None, None, None,
      t.Some? && t.value.portal, services, if services != [] then Some(0) else None, None, [], [])
  }

  function TemplateTasks(id: int, ts: seq<TemplateTask>): (r: seq<Task>)
    ensures |r| == |ts|
  {
    seq(|ts|, i requires 0 <= i < |ts| => Task(400 + id * 10 + ts[i].position, ts[i].title, ts[i].kind, ts[i].position, false))
  }

  /** The valid template with the id, if any. */
  function FindTemplate(ts: seq<Template>, id: Option<int>): Option<Template> {
    if ts == [] || id.None? then None
    else if ts[0].id == id.value && ts[0].valid then Some(ts[0]) else FindTemplate(ts[1..], id)
  }

  function CreateRefusal(cfg: Config, b: CreateBody): Option<string> {
    var ctype := if b.ctype.Some? then b.ctype.value else Normal;
    var t := FindTemplate(cfg.templates, b.templateId);
    if ctype == Standard && !(t.Some? && t.value.isStandard) then Some("standard_needs_template")
    else if b.templateId.Some? && t.None? then Some("template_not_found")
    else if t.Some? && t.value.ctype != ctype then Some("template_type_mismatch")
    else if BadWindow(b.start, b.end) then Some("window_invalid")
    else None
  }

  function CreatedRecord(cfg: Config, id: int, tick: nat, b: CreateBody): At {
    var t := FindTemplate(cfg.templates, b.templateId);
    var at := At(NewRecord(id, b, t), tick).Log(Created).Log(PhaseChanged(None, Draft, None));
    if t.Some? then at.(r := at.r.(tasks := TemplateTasks(id, t.value.tasks))) else at
  }

  // ---- update: fields in turn, stopping at the first refusal ----

  datatype Edit = Edit(r: Change, changed: seq<string>, stop: Option<Answer>)

  function TextOf(r: Change, f: Field): Option<string> {
    match f
    case ReasonField => r.reason
    case ImplementationPlan => r.plans.implementation
    case BackoutPlan => r.plans.backout
    case TestPlan => r.plans.test
  }

  function SetText(r: Change, f: Field, v: Option<string>): Change {
    match f
    case ReasonField => r.(reason := v)
    case ImplementationPlan => r.(plans := r.plans.(implementation := v))
    case BackoutPlan => r.(plans := r.plans.(backout := v))
    case TestPlan => r.(plans := r.plans.(test := v))
  }

  const LOCKED := Fail(409, "change_locked_in_approval", [])

  function EditText(e: Edit, b: UpdateBody, f: Field): Edit {
    if e.stop.Some? || f !in b.texts then e
    else
      var v := Clean(Some(b.texts[f]));
      if v == TextOf(e.r, f) then e
      else if f != ReasonField && e.r.phase == Approval then e.(stop := Some(LOCKED))
      else Edit(SetText(e.r, f, v), e.changed + [FieldName(f)], None)
  }

  function EditTexts(e: Edit, b: UpdateBody, n: nat): Edit
    requires n <= 4
  {
    if n == 0 then e else EditText(EditTexts(e, b, n - 1), b, FIELDS[n - 1])
  }

  function EditWindow(e: Edit, b: UpdateBody): Edit {
    if e.stop.Some? then e
    else
      var start := if b.clearWindow then None else if b.start.Some? then b.start else e.r.start;
      var end := if b.clearWindow then None else if b.end.Some? then b.end else e.r.end;
      if BadWindow(start, end) then e.(stop := Some(Fail(422, "window_invalid", [])))
      else if start == e.r.start && end == e.r.end then e
      else if e.r.phase == Approval then e.(stop := Some(LOCKED))
      else Edit(e.r.(start := start, end := end), e.changed + ["window"], None)
  }

  function EditCab(e: Edit, b: UpdateBody): Edit {
    if e.stop.Some? || b.cabId.None? || b.cabId.value == e.r.cabId then e
    else if e.r.phase == Approval then e.(stop := Some(LOCKED))
    else Edit(e.r.(cabId := b.cabId.value), e.changed + ["cab_id"], None)
  }

  function EditPortal(e: Edit, b: UpdateBody): Edit {
    if e.stop.Some? || b.portal.None? || b.portal.value == e.r.portal then e
    else Edit(e.r.(portal := b.portal.value), e.changed + ["portal_visible"], None)
  }

  /** A refused update keeps the fields applied before the refusal. */
  function UpdateStep(at: At, b: UpdateBody): Result {
    if IsFinal(at.r.phase) then Result(at, Fail(409, "change_final", []))
    else
      var e := EditPortal(EditCab(EditWindow(EditTexts(Edit(at.r, [], None), b, 4), b), b), b);
      if e.stop.Some? then Result(at.(r := e.r), e.stop.value)
      else if e.changed == [] then Result(at.(r := e.r), Done)
      else Result(at.(r := e.r).Log(Updated(e.changed)), Done)
  }

  // ---- transition ----

  predicate NeedsWindow(to: Phase) {
    to == Approval || to == Scheduled || to == Implementing
  }

  function When(c: bool, code: string, overridable: bool): seq<Failure> {
    if c then [Failure(code, overridable)] else []
  }

  function WindowGuards(cfg: Config, manager: bool, r: Change, to: Phase, b: TransitionBody): seq<Failure> {
    When(NeedsWindow(to) && (r.start.None? || r.end.None?), "window_missing", false) +
    When(NeedsWindow(to) && BlockCount(cfg, r) > 0 && !(manager && Clean(b.overrideReason).Some?), "block_conflict", true)
  }

  function PlanGuards(cfg: Config, r: Change, to: Phase): seq<Failure> {
    var plansComplete := Truthy(r.plans.implementation) && Truthy(r.plans.backout);
    var needsPlans := r.ctype != Standard && to == Approval && (r.phase == Assessment || r.phase == Draft);
    var toCab := r.ctype == Normal && r.phase == Assessment && to == Approval;
    When(needsPlans && !plansComplete, "plans_missing", false) +
    When(toCab && !QuestionnaireComplete(cfg, r), "questionnaire_incomplete", false) +
    When(toCab && r.impactComputedAt.None?, "impact_pending", false)
  }

  function ClosingGuards(manager: bool, r: Change, to: Phase, b: TransitionBody): seq<Failure> {
    var openTasks := OpenTasks(r.tasks);
    var leaving := r.phase == Implementing && (to == Review || to == Closed);
    var pir := if Clean(b.pirNotes).Some? then Clean(b.pirNotes) else r.pir;
    When(leaving && openTasks > 0 && !(manager && b.force), "tasks_open", true) +
    When(to == Closed && !Truthy(b.outcome), "outcome_missing", false) +
    When(to == Closed && r.phase == Review && r.ctype != Standard && !Truthy(pir), "pir_missing", false) +
    When(manager && b.force && openTasks > 0 && r.phase == Implementing && Clean(b.reason).None?, "reason_missing", false)
  }

  function Guards(cfg: Config, manager: bool, r: Change, to: Phase, b: TransitionBody): seq<Failure> {
    if !PersonMay(r.ctype, r.phase, to) then [Failure("transition_not_allowed", false)]
    else if SystemOnly(r.phase, to) then [Failure("system_only", false)]
    else WindowGuards(cfg, manager, r, to, b) + PlanGuards(cfg, r, to) + ClosingGuards(manager, r, to, b)
  }

  function LogIf(at: At, c: bool, kind: EventKind): At {
    if c then at.Log(kind) else at
  }

  /** The overrides used on the way are logged first. */
  function LogOverrides(cfg: Config, manager: bool, at: At, to: Phase, b: TransitionBody): At {
    var blocks, openTasks := BlockCount(cfg, at.r), OpenTasks(at.r.tasks);
    var over := blocks > 0 && manager && Clean(b.overrideReason).Some? && NeedsWindow(to);
    var force := b.force && manager && openTasks > 0 && at.r.phase == Implementing;
    LogIf(LogIf(at, over, ConflictOverride(blocks, Clean(b.overrideReason))), force, Forced(openTasks, Clean(b.reason)))
  }

  /** Going to approval, or from assessment straight to scheduled, stamps a new risk evaluation. */
  function Reevaluate(at: At, to: Phase): At {
    if to == Approval || (at.r.phase == Assessment && to == Scheduled)
    then At(at.r.(evaluatedAt := Some(at.tick + 1)), at.tick + 1) else at
  }

  function NoteReview(at: At, notes: Option<string>): At {
    if notes.Some? then at.(r := at.r.(pir := notes)) else at
  }

  /** A new approval round. */
  function Requested(r: Change): Change {
    r.(round := r.round + 1, approvalId := Some(700 + r.id + r.round * 1000), via := Some("cab"), approvalStatus := Some(Pending))
  }

  function RequestApproval(at: At, to: Phase): At {
    if to == Approval then at.(r := Requested(at.r)).Log(ApprovalRequested(at.r.round + 1)) else at
  }

  function Prepare(at: At, to: Phase, b: TransitionBody): At {
    RequestApproval(NoteReview(Reevaluate(at, to), Clean(b.pirNotes)), to)
  }

  /** What happens to the approval when it is left behind. */
  function DropApproval(at: At, from: Phase, to: Phase): At {
    if from == Approval && to == Cancelled then at.(r := at.r.(approvalStatus := Some(Withdrawn)))
    else if from == Scheduled && to == Draft
    then at.(r := at.r.(via := if at.r.ctype == Standard then Some("template") else None,
                        approvedAt := None,
                        approvalStatus := if at.r.approvalStatus.Some? then Some(Withdrawn) else None))
    else at
  }

  function RecordTimes(at: At, to: Phase, b: TransitionBody): At {
    if to == Implementing then At(at.r.(actualStart := Some(at.tick + 1)), at.tick + 1)
    else if to == Closed then At(at.r.(outcome := b.outcome, actualEnd := Some(at.tick + 1)), at.tick + 1)
    else at
  }

  /** A standard change is approved by its template. */
  function PreApprove(at: At, to: Phase): At {
    if to == Scheduled && at.r.ctype == Standard then At(at.r.(approvedAt := Some(at.tick + 1)), at.tick + 1) else at
  }

  /** What leaving `from` for `to` resets or records. */
  function Settle(at: At, from: Phase, to: Phase, b: TransitionBody): At {
    PreApprove(RecordTimes(DropApproval(at, from, to), to, b), to)
  }

  function Moved(at: At, from: Phase, to: Phase, reason: Option<string>): At {
    var a := at.Log(PhaseChanged(Some(from), to, reason));
    a.(r := a.r.(phase := to))
  }

  function Taken(cfg: Config, manager: bool, at: At, to: Phase, b: TransitionBody): At {
    Moved(Settle(Prepare(LogOverrides(cfg, manager, at, to, b), to, b), at.r.phase, to, b), at.r.phase, to, Clean(b.reason))
  }

  function TransitionStep(cfg: Config, manager: bool, at: At, b: TransitionBody): Result {
    match b.target
    case NoTarget => Result(at, Fail(422, "validation_error", []))
    case Unknown => Result(at, Fail(409, "transition_refused", [Failure("transition_not_allowed", false)]))
    case To(to) =>
      var failures := Guards(cfg, manager, at.r, to, b);
      if failures != [] then Result(at, Fail(409, "transition_refused", failures))
      else Result(Taken(cfg, manager, at, to, b), Done)
  }

  // ---- the other requests ----

  function DecideStep(at: At, approved: bool): Result {
    if at.r.phase != Approval then Result(at, Thrown)
    else
      var status := if approved then Approved else Refused;
      var to := if approved then Scheduled else Rejected;
      var a := at.(r := at.r.(approvalStatus := Some(status))).Log(ApprovalOutcome(status, at.r.round));
      var c := Moved(a, at.r.phase, to, None);
      Result(if approved then At(c.r.(approvedAt := Some(c.tick + 1)), c.tick + 1) else c, Done)
  }

  function RiskStep(cfg: Config, manager: bool, at: At, a: Action): Result
    requires a.AnswerRisk? || a.EvaluateRisk? || a.OverrideRisk?
  {
    if IsFinal(at.r.phase) then Result(at, Fail(409, "change_final", []))
    else match a
      case AnswerRisk(answers) =>
        if exists k :: k in answers && k !in cfg.questions then Result(at, Fail(422, "unknown_question", []))
        else Result(at.(r := at.r.(answers := at.r.answers + answers)).Log(Updated(["risk_answers"])), Done)
      case EvaluateRisk => Result(At(at.r.(evaluatedAt := Some(at.tick + 1)), at.tick + 1), Done)
      case OverrideRisk(level, reason) =>
        if !manager then Result(at, Fail(403, "forbidden", []))
        else if Clean(reason).None? then Result(at, Fail(422, "reason_missing", []))
        else
          var why := if Truthy(level) then Clean(reason) else None;
          Result(at.(r := at.r.(overrideLevel := level, overrideReason := why))
                   .Log(RiskOverridden(level, Clean(reason).value)), Done)
  }

  function IndexOfTicket(tasks: seq<Task>, ticket: int): (i: nat)
    ensures i <= |tasks| && (i < |tasks| ==> tasks[i].ticket == ticket)
    ensures i == |tasks| ==> forall t :: t in tasks ==> t.ticket != ticket
  {
    if tasks == [] || tasks[0].ticket == ticket then 0 else 1 + IndexOfTicket(tasks[1..], ticket)
  }

  function SetPosition(tasks: seq<Task>, ticket: int, position: int): (r: seq<Task>)
    ensures |r| == |tasks|
  {
    var i := IndexOfTicket(tasks, ticket);
    if i < |tasks| then tasks[i := tasks[i].(position := position)] else tasks
  }

  function Reordered(tasks: seq<Task>, order: seq<int>): (r: seq<Task>)
    ensures |r| == |tasks|
  {
    if order == [] then tasks
    else
      var n := |order| - 1;
      SetPosition(Reordered(tasks, order[..n]), order[n], n + 1)
  }

  function TaskStep(at: At, a: Action): Result
    requires a.OrderTasks? || a.AddTask?
  {
    if IsFinal(at.r.phase) then Result(at, Fail(409, "change_final", []))
    else match a
      case OrderTasks(order) =>
        if |order| != |at.r.tasks| || exists x :: x in order && IndexOfTicket(at.r.tasks, x) == |at.r.tasks|
        then Result(at, Fail(422, "order_mismatch", []))
        else Result(at.(r := at.r.(tasks := Reordered(at.r.tasks, order))), Done)
      case AddTask(title, kind) =>
        if Clean(title).None? then Result(at, Fail(422, "validation_error", []))
        else Result(TaskAppended(at, NewTask(at.r, Clean(title).value, if kind.Some? then kind.value else "workorder")), Done)
  }

  function NewTask(r: Change, title: string, kind: string): Task {
    Task(400 + r.id * 10 + 50 + |r.tasks|, title, kind, |r.tasks| + 1, false)
  }

  function TaskAppended(at: At, task: Task): At {
    at.(r := at.r.(tasks := at.r.tasks + [task])).Log(TaskAdded(task.ticket))
  }

  function Finished(tasks: seq<Task>): (r: seq<Task>)
    ensures |r| == |tasks|
    ensures forall i :: 0 <= i < |r| ==> r[i] == tasks[i].(finished := true)
  {
    seq(|tasks|, i requires 0 <= i < |tasks| => tasks[i].(finished := true))
  }

  function RecomputeStep(at: At): Result {
    var a := if at.r.impactRequestedAt.Some? then at
             else At(at.r.(impactRequestedAt := Some(at.tick + 1)), at.tick + 1);
    Result(At(a.r.(impactComputedAt := Some(a.tick + 1)), a.tick + 1), Done)
  }

  /** One request on one record. */
  function ActionStep(cfg: Config, manager: bool, at: At, a: Action): Result {
    match a
    case Update(b) => UpdateStep(at, b)
    case Transition(b) => TransitionStep(cfg, manager, at, b)
    case RecomputeImpact => RecomputeStep(at)
    case Decide(approved) => DecideStep(at, approved)
    case FinishTasks => Result(at.(r := at.r.(tasks := Finished(at.r.tasks))), Done)
    case OrderTasks(_) => TaskStep(at, a)
    case AddTask(_, _) => TaskStep(at, a)
    case _ => RiskStep(cfg, manager, at, a)
  }
}
