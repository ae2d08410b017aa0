/** The store of changes as a state machine, and what holds over whole runs. */
module ChangeRuns {
  import opened Common
  import opened Text
  import opened ChangePhases
  import opened ChangeRecord
  import opened ChangeInvariants

  const FIRST_ID := 300

  datatype Store = Store(changes: map<int, Change>, next: int, tick: nat, manager: bool)

  datatype Request = Create(body: CreateBody) | On(id: int, action: Action) | SetManager(manager: bool)

  const EMPTY_STORE := Store(map[], FIRST_ID, 0, true)

  datatype StoreResult = StoreResult(store: Store, answer: Answer)

  function Put(s: Store, id: int, at: At): Store {
    s.(changes := s.changes[id := at.r], tick := at.tick)
  }

  function StoreStep(cfg: Config, s: Store, q: Request): StoreResult {
    match q
    case SetManager(m) => StoreResult(s.(manager := m), Done)
    case Create(b) =>
      var refusal := CreateRefusal(cfg, b);
      if refusal.Some? then StoreResult(s, Fail(422, refusal.value, []))
      else StoreResult(Put(s, s.next, CreatedRecord(cfg, s.next, s.tick, b)).(next := s.next + 1), Done)
    case On(id, action) =>
      if id !in s.changes then StoreResult(s, if action.Decide? || action.FinishTasks? then Thrown else NotHandled)
      else
        var res := ActionStep(cfg, s.manager, At(s.changes[id], s.tick), action);
        StoreResult(Put(s, id, res.at), res.answer)
  }

  function Run(cfg: Config, qs: seq<Request>): Store {
    if qs == [] then EMPTY_STORE
    else StoreStep(cfg, Run(cfg, qs[..|qs| - 1]), qs[|qs| - 1]).store
  }

  /** A request changes only the record it names and the clock, with the rights of
      whoever is signed in; a create takes the next number; one for a change the
      store does not own is left to others. */
  lemma StoreExactly(cfg: Config, s: Store, q: Request)
    ensures var res := StoreStep(cfg, s, q);
            match q
            case SetManager(m) => res == StoreResult(s.(manager := m), Done)
            case Create(b) =>
              (match CreateRefusal(cfg, b)
               case Some(code) => res == StoreResult(s, Fail(422, code, []))
               case None =>
                 && res.answer == Done && res.store.manager == s.manager && res.store.next == s.next + 1
                 && var at := CreatedRecord(cfg, s.next, s.tick, b);
                    res.store.tick == at.tick && res.store.changes == s.changes[s.next := at.r])
            case On(id, a) =>
              if id !in s.changes then res.store == s && (res.answer == Thrown || res.answer == NotHandled)
              else
                var r := ActionStep(cfg, s.manager, At(s.changes[id], s.tick), a);
                && res.answer == r.answer && res.store.manager == s.manager && res.store.next == s.next
                && res.store.tick == r.at.tick && res.store.changes == s.changes[id := r.at.r]
  {
  }

  // ---- how one request may change a record ----

  ghost predicate Frozen(r: Change, r': Change) {
    r'.plans == r.plans && r'.start == r.start && r'.end == r.end && r'.cabId == r.cabId && r'.approvalId == r.approvalId
  }

  /** Task records up to the finished mark, which the ticket zoom sets. */
  ghost predicate SameTaskList(ts: seq<Task>, us: seq<Task>) {
    |us| == |ts| && forall i :: 0 <= i < |ts| ==> us[i] == ts[i].(finished := us[i].finished)
  }

  ghost predicate Absorbed(r: Change, r': Change) {
    && r'.phase == r.phase && r'.outcome == r.outcome
    && r'.plans == r.plans && r'.start == r.start && r'.end == r.end && r'.cabId == r.cabId && r'.reason == r.reason
    && r'.answers == r.answers && SameTaskList(r.tasks, r'.tasks) && r'.events == r.events
  }

  ghost predicate Evolves(r: Change, r': Change) {
    && r'.id == r.id && r'.ctype == r.ctype
    && r.events <= r'.events && r.round <= r'.round
    && (r.phase == Approval && r'.phase == Approval ==> Frozen(r, r') && r'.round == r.round)
    && (r.phase != Approval && r'.phase == Approval ==> r'.round == r.round + 1)
    && (IsFinal(r.phase) ==> Absorbed(r, r'))
  }

  lemma UpdateEvolves(at: At, b: UpdateBody)
    requires AtOk(at)
    ensures Evolves(at.r, UpdateStep(at, b).at.r) && at.tick <= UpdateStep(at, b).at.tick
  {
    if !IsFinal(at.r.phase) {
      EditsKeep(at.r, b);
    }
  }

  lemma TakenEvolves(cfg: Config, manager: bool, at: At, to: Phase, b: TransitionBody)
    requires AtOk(at) && Guards(cfg, manager, at.r, to, b) == []
    ensures Evolves(at.r, Taken(cfg, manager, at, to, b).r) && at.tick <= Taken(cfg, manager, at, to, b).tick
    ensures Taken(cfg, manager, at, to, b).r.phase == to
  {
    GuardsPassed(cfg, manager, at.r, to, b);
    ToApproval(at.r.ctype, at.r.phase, to);
    OverridesOk(cfg, manager, at, to, b);
    var a := LogOverrides(cfg, manager, at, to, b);
    PrepareOk(a, to, b);
    var n := Prepare(a, to, b);
    SettleOk(n, at.r.phase, to, b);
    PrefixTrans(at.r.events, a.r.events, n.r.events);
    PrefixTrans(at.r.events, n.r.events, Taken(cfg, manager, at, to, b).r.events);
  }

  /** A refused transition changes nothing. */
  lemma RefusedTransitionUnchanged(cfg: Config, manager: bool, at: At, b: TransitionBody)
    ensures var res := TransitionStep(cfg, manager, at, b);
            && (res.answer != Done ==> res.at == at)
            && (res.answer == Done ==> b.target.To? && res.at.r.phase == b.target.phase &&
                                       PersonMay(at.r.ctype, at.r.phase, b.target.phase))
  {
    if b.target.To? {
      if Guards(cfg, manager, at.r, b.target.phase, b) == [] {
        GuardsPassed(cfg, manager, at.r, b.target.phase, b);
      }
    }
  }

  lemma DecideEvolves(at: At, approved: bool)
    requires AtOk(at)
    ensures Evolves(at.r, DecideStep(at, approved).at.r) && at.tick <= DecideStep(at, approved).at.tick
  {
  }

  lemma RiskEvolves(cfg: Config, manager: bool, at: At, a: Action)
    requires AtOk(at) && (a.AnswerRisk? || a.EvaluateRisk? || a.OverrideRisk?)
    ensures Evolves(at.r, RiskStep(cfg, manager, at, a).at.r) && at.tick <= RiskStep(cfg, manager, at, a).at.tick
  {
  }

  lemma TransitionEvolves(cfg: Config, manager: bool, at: At, b: TransitionBody)
    requires AtOk(at)
    ensures Evolves(at.r, TransitionStep(cfg, manager, at, b).at.r) && at.tick <= TransitionStep(cfg, manager, at, b).at.tick
  {
    if b.target.To? && Guards(cfg, manager, at.r, b.target.phase, b) == [] {
      TakenEvolves(cfg, manager, at, b.target.phase, b);
    }
  }

  lemma RecomputeEvolves(at: At)
    requires AtOk(at)
    ensures Evolves(at.r, RecomputeStep(at).at.r) && at.tick <= RecomputeStep(at).at.tick
  {
  }

  lemma FinishTasksEvolves(at: At)
    ensures Evolves(at.r, at.r.(tasks := Finished(at.r.tasks)))
  {
  }

  lemma OrderTasksEvolves(at: At, order: seq<int>)
    ensures Evolves(at.r, TaskStep(at, OrderTasks(order)).at.r) && at.tick <= TaskStep(at, OrderTasks(order)).at.tick
  {
  }

  lemma ActionEvolves(cfg: Config, manager: bool, at: At, a: Action)
    requires AtOk(at)
    ensures var at' := ActionStep(cfg, manager, at, a).at;
            Evolves(at.r, at'.r) && at.tick <= at'.tick
  {
    match a
    case Update(b) => UpdateEvolves(at, b);
    case Transition(b) => TransitionEvolves(cfg, manager, at, b);
    case RecomputeImpact => RecomputeEvolves(at);
    case Decide(approved) => DecideEvolves(at, approved);
    case FinishTasks => FinishTasksEvolves(at);
    case OrderTasks(order) => OrderTasksEvolves(at, order);
    case AddTask(title, kind) => AddTaskEvolves(at, title, kind);
    case AnswerRisk(_) => RiskEvolves(cfg, manager, at, a);
    case EvaluateRisk => RiskEvolves(cfg, manager, at, a);
    case OverrideRisk(_, _) => RiskEvolves(cfg, manager, at, a);
  }

  lemma AddTaskEvolves(at: At, title: Option<string>, kind: Option<string>)
    requires AtOk(at)
    ensures var at' := TaskStep(at, AddTask(title, kind)).at;
            Evolves(at.r, at'.r) && at.tick <= at'.tick
  {
    var t := Clean(title);
    if !IsFinal(at.r.phase) && t.Some? {
      var task := NewTask(at.r, t.value, if kind.Some? then kind.value else "workorder");
      assert TaskStep(at, AddTask(title, kind)).at == TaskAppended(at, task);
    }
  }

  // ---- reachable states ----

  ghost predicate StoreOk(s: Store) {
    forall id :: id in s.changes ==> id < s.next && s.changes[id].id == id && RecordOk(s.changes[id], s.tick)
  }

  lemma PutOk(s: Store, id: int, at: At, next: int)
    requires StoreOk(s) && AtOk(at) && at.r.id == id && s.tick <= at.tick && id < next && s.next <= next
    ensures StoreOk(Put(s, id, at).(next := next))
  {
    var s' := Put(s, id, at).(next := next);
    forall k | k in s'.changes
      ensures k < s'.next && s'.changes[k].id == k && RecordOk(s'.changes[k], s'.tick)
    {
      if k != id {
        LaterTick(s.changes[k], s.tick, at.tick);
      }
    }
  }

  lemma StepStoreOk(cfg: Config, s: Store, q: Request)
    requires StoreOk(s)
    ensures StoreOk(StoreStep(cfg, s, q).store)
  {
    match q
    case SetManager(_) =>
    case Create(b) =>
      if CreateRefusal(cfg, b).None? {
        CreatedOk(cfg, s.next, s.tick, b);
        PutOk(s, s.next, CreatedRecord(cfg, s.next, s.tick, b), s.next + 1);
      }
    case On(id, action) =>
      if id in s.changes {
        var at := At(s.changes[id], s.tick);
        ActionOk(cfg, s.manager, at, action);
        ActionEvolves(cfg, s.manager, at, action);
        PutOk(s, id, ActionStep(cfg, s.manager, at, action).at, s.next);
      }
  }

  /** In every reachable store every record satisfies its invariant. */
  lemma {:induction false} ReachableOk(cfg: Config, qs: seq<Request>)
    ensures StoreOk(Run(cfg, qs))
  {
    if qs != [] {
      ReachableOk(cfg, qs[..|qs| - 1]);
      StepStoreOk(cfg, Run(cfg, qs[..|qs| - 1]), qs[|qs| - 1]);
    }
  }

  lemma StepEvolves(cfg: Config, s: Store, q: Request, id: int)
    requires StoreOk(s) && id in s.changes
    ensures var s' := StoreStep(cfg, s, q).store;
            id in s'.changes && Evolves(s.changes[id], s'.changes[id])
  {
    var r := s.changes[id];
    assert RecordOk(r, s.tick) && id != s.next;
    if q.On? && q.id == id {
      ActionEvolves(cfg, s.manager, At(r, s.tick), q.action);
    } else {
      assert StoreStep(cfg, s, q).store.changes[id] == r;
    }
  }

  // ---- between two moments of a run ----

  /** What any number of requests leaves true of a record: the log only grows;
      while it stays in the same approval round its plans, window and CAB stay
      as they were; a final record stays as it is. */
  ghost predicate Later(r: Change, r': Change) {
    && r'.id == r.id && r'.ctype == r.ctype
    && r.events <= r'.events && r.round <= r'.round
    && (r.phase == Approval && r'.phase == Approval && r'.round == r.round ==> Frozen(r, r'))
    && (r.phase != Approval && r'.phase == Approval ==> r'.round > r.round)
    && (IsFinal(r.phase) ==> Absorbed(r, r'))
  }

  lemma LaterStep(r: Change, m: Change, r': Change)
    requires Later(r, m) && Evolves(m, r')
    ensures Later(r, r')
  {
    PrefixTrans(r.events, m.events, r'.events);
  }

  lemma RunStep(cfg: Config, qs: seq<Request>, q: Request, id: int)
    requires id in Run(cfg, qs).changes
    ensures id in Run(cfg, qs + [q]).changes && Evolves(Run(cfg, qs).changes[id], Run(cfg, qs + [q]).changes[id])
  {
    ReachableOk(cfg, qs);
    RunSnoc(cfg, qs, q);
    StepEvolves(cfg, Run(cfg, qs), q, id);
  }

  lemma RunSnoc(cfg: Config, qs: seq<Request>, q: Request)
    ensures Run(cfg, qs + [q]) == StoreStep(cfg, Run(cfg, qs), q).store
  {
    assert (qs + [q])[..|qs|] == qs;
  }

  /** Any two moments of any run. */
  lemma {:induction false} RunLater(cfg: Config, qs: seq<Request>, n: nat, id: int)
    requires n <= |qs| && id in Run(cfg, qs[..n]).changes
    ensures id in Run(cfg, qs).changes && Later(Run(cfg, qs[..n]).changes[id], Run(cfg, qs).changes[id])
  {
    if n < |qs| {
      var k := |qs| - 1;
      assert qs[..k][..n] == qs[..n] && qs == qs[..k] + [qs[k]];
      RunLater(cfg, qs[..k], n, id);
      RunStep(cfg, qs[..k], qs[k], id);
      var r, m, r' := Run(cfg, qs[..n]).changes[id], Run(cfg, qs[..k]).changes[id], Run(cfg, qs).changes[id];
      LaterStep(r, m, r');
    } else {
      assert qs[..n] == qs;
    }
  }

  /** The approval freeze: in two moments of the same round, plans, window, CAB
      and approval number agree; in a later round the number is larger. */
  lemma ApprovalFreeze(cfg: Config, qs: seq<Request>, n: nat, id: int)
    requires n <= |qs| && id in Run(cfg, qs[..n]).changes && id in Run(cfg, qs).changes
    requires Run(cfg, qs[..n]).changes[id].phase == Approval && Run(cfg, qs).changes[id].phase == Approval
    ensures var r, r' := Run(cfg, qs[..n]).changes[id], Run(cfg, qs).changes[id];
            && r.approvalStatus == Some(Pending) && r.round == Rounds(r.events) && r.approvalId.Some? && r'.approvalId.Some?
            && (r'.round == r.round ==> Frozen(r, r'))
            && (r'.round != r.round ==> r.approvalId.value < r'.approvalId.value)
  {
    RunLater(cfg, qs, n, id);
    ReachableOk(cfg, qs[..n]);
    ReachableOk(cfg, qs);
  }

  /** After reaching a final phase no request changes the phase, the outcome,
      plans, window, CAB, reason, risk answers, log or task list. */
  lemma FinalAbsorbs(cfg: Config, qs: seq<Request>, n: nat, id: int)
    requires n <= |qs| && id in Run(cfg, qs[..n]).changes && IsFinal(Run(cfg, qs[..n]).changes[id].phase)
    ensures id in Run(cfg, qs).changes && Absorbed(Run(cfg, qs[..n]).changes[id], Run(cfg, qs).changes[id])
    ensures Run(cfg, qs).changes[id].outcome.Some? <==> Run(cfg, qs).changes[id].phase == Closed
  {
    RunLater(cfg, qs, n, id);
    ReachableOk(cfg, qs);
  }

  /** Every reachable log: numbered from 1, strictly increasing stamps, reasons
      for every override and force, and phase events that lead from draft to
      the current phase by allowed steps. */
  lemma EveryLogSound(cfg: Config, qs: seq<Request>, id: int)
    requires id in Run(cfg, qs).changes
    ensures var r := Run(cfg, qs).changes[id];
            && LogOk(r.events, Run(cfg, qs).tick) && ReasonsOk(r.events)
            && PathOk(r.ctype, r.events) && LastPhase(r.events) == Some(r.phase)
            && r.round == Rounds(r.events)
  {
    ReachableOk(cfg, qs);
  }

  /** In approval both ends of the window are set; start lies before end exactly
      when the end is not the empty string, which the window check skips. */
  lemma ApprovalWindow(cfg: Config, qs: seq<Request>, id: int)
    requires id in Run(cfg, qs).changes && Run(cfg, qs).changes[id].phase == Approval
    ensures var r := Run(cfg, qs).changes[id];
            r.start.Some? && r.end.Some? && (Less(r.start.value, r.end.value) <==> r.end.value != "")
  {
    ReachableOk(cfg, qs);
  }

  // ---- an emergency change that reaches approval with an empty end ----

  const HASTY := CreateBody(Some(Emergency), None, None, Some("2026-11-01T20:00:00Z"), Some(""), None, None, None, [])

  const HASTY_PLANS := UpdateBody(map[ImplementationPlan := "swap", BackoutPlan := "swap back"], false, None, None, None, None)

  const TO_APPROVAL := TransitionBody(To(Approval), None, false, None, None, None)

  /** An update's text that is new to a draft. */
  lemma NewText(e: Edit, b: UpdateBody, f: Field, text: string)
    requires e.stop.None? && e.r.phase == Draft && f in b.texts && b.texts[f] == text && TextOf(e.r, f).None?
    requires text != "" && Strip(text) == text
    ensures EditText(e, b, f) == Edit(SetText(e.r, f, Some(text)), e.changed + [FieldName(f)], None)
  {
  }

  lemma HastyTexts(r: Change)
    requires r.plans == Plans(None, None, None) && r.phase == Draft
    ensures EditTexts(Edit(r, [], None), HASTY_PLANS, 4) ==
            Edit(r.(plans := Plans(Some("swap"), Some("swap back"), None)), [FieldName(ImplementationPlan), FieldName(BackoutPlan)], None)
  {
    var e0 := Edit(r, [], None);
    assert Strip("swap") == "swap" && Strip("swap back") == "swap back";
    assert EditTexts(e0, HASTY_PLANS, 1) == e0;
    NewText(e0, HASTY_PLANS, ImplementationPlan, "swap");
    var e2 := Edit(r.(plans := Plans(Some("swap"), None, None)), [FieldName(ImplementationPlan)], None);
    assert EditTexts(e0, HASTY_PLANS, 2) == e2;
    NewText(e2, HASTY_PLANS, BackoutPlan, "swap back");
    assert EditTexts(e0, HASTY_PLANS, 3) == EditText(e2, HASTY_PLANS, BackoutPlan);
    assert EditTexts(e0, HASTY_PLANS, 4) == EditTexts(e0, HASTY_PLANS, 3);
  }

  lemma HastyPlans(at: At)
    requires at.r.plans == Plans(None, None, None) && at.r.start == HASTY.start && at.r.end == HASTY.end && at.r.phase == Draft
    ensures var r' := UpdateStep(at, HASTY_PLANS).at.r;
            && Truthy(r'.plans.implementation) && Truthy(r'.plans.backout)
            && r'.start == at.r.start && r'.end == at.r.end && r'.phase == Draft && r'.ctype == at.r.ctype
  {
    HastyTexts(at.r);
    var e := EditTexts(Edit(at.r, [], None), HASTY_PLANS, 4);
    assert EditPortal(EditCab(EditWindow(e, HASTY_PLANS), HASTY_PLANS), HASTY_PLANS) == e;
  }

  lemma HastyGuards(cfg: Config, r: Change)
    requires r.ctype == Emergency && r.phase == Draft && r.start == HASTY.start && r.end == HASTY.end
    requires Truthy(r.plans.implementation) && Truthy(r.plans.backout)
    ensures Guards(cfg, true, r, Approval, TO_APPROVAL) == []
  {
  }

  /** The window in approval need not be in order: a concrete run. */
  lemma EmptyEndReachesApproval(cfg: Config)
    ensures var s := Run(cfg, [Create(HASTY), On(300, Update(HASTY_PLANS)), On(300, Transition(TO_APPROVAL))]);
            300 in s.changes && s.changes[300].phase == Approval &&
            s.changes[300].start == HASTY.start && s.changes[300].end == Some("") &&
            !Less(HASTY.start.value, "")
  {
    var c, u, t := Create(HASTY), On(300, Update(HASTY_PLANS)), On(300, Transition(TO_APPROVAL));
    assert [] + [c] == [c] && [c] + [u] == [c, u] && [c, u] + [t] == [c, u, t];
    RunSnoc(cfg, [], c);
    RunSnoc(cfg, [c], u);
    RunSnoc(cfg, [c, u], t);
    HastyCreated(cfg);
    var s1, s2 := Run(cfg, [c]), Run(cfg, [c, u]);
    HastyPlans(At(s1.changes[300], s1.tick));
    var at := At(s2.changes[300], s2.tick);
    ReachableOk(cfg, [c, u]);
    HastyApproved(cfg, at);
  }

  lemma HastyApproved(cfg: Config, at: At)
    requires AtOk(at) && at.r.ctype == Emergency && at.r.phase == Draft && at.r.start == HASTY.start && at.r.end == HASTY.end
    requires Truthy(at.r.plans.implementation) && Truthy(at.r.plans.backout)
    ensures var r' := TransitionStep(cfg, true, at, TO_APPROVAL).at.r;
            r'.phase == Approval && r'.start == HASTY.start && r'.end == HASTY.end
  {
    HastyGuards(cfg, at.r);
    TakenEvolves(cfg, true, at, Approval, TO_APPROVAL);
    TakenKeepsWindow(cfg, true, at, Approval, TO_APPROVAL);
  }

  lemma HastyCreated(cfg: Config)
    ensures var s := StoreStep(cfg, EMPTY_STORE, Create(HASTY)).store;
            300 in s.changes && s.manager &&
            var r := s.changes[300];
            r.plans == Plans(None, None, None) && r.start == HASTY.start && r.end == HASTY.end && r.phase == Draft && r.ctype == Emergency
  {
    assert CreateRefusal(cfg, HASTY).None?;
  }

  lemma TakenKeepsWindow(cfg: Config, manager: bool, at: At, to: Phase, b: TransitionBody)
    requires AtOk(at) && Guards(cfg, manager, at.r, to, b) == []
    ensures var r' := Taken(cfg, manager, at, to, b).r;
            r'.start == at.r.start && r'.end == at.r.end && r'.plans == at.r.plans && r'.cabId == at.r.cabId
  {
    GuardsPassed(cfg, manager, at.r, to, b);
    ToApproval(at.r.ctype, at.r.phase, to);
    OverridesOk(cfg, manager, at, to, b);
    var a := LogOverrides(cfg, manager, at, to, b);
    PrepareOk(a, to, b);
    SettleOk(Prepare(a, to, b), at.r.phase, to, b);
  }
}
