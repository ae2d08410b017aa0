/** Batched live refresh of one dashboard view: server events are collected
    before one batch, batches keep their distance, and a hidden page sends
    nothing.  One lifetime of the effect; times in milliseconds. */
module RefreshScheduler {
  import opened Common

  const SSE_COALESCE_MS := 2000
  const SSE_MIN_SPACING_MS := 10000

  type Ids = set<string>

  datatype Batch = Batch(at: int, ids: Ids, bySse: bool)

  /** `timer` is the armed deadline; `sent` records the batch requests. */
  datatype State = State(
    now: int,
    hidden: bool,
    queued: Ids,
    held: Ids,
    timer: Option<int>,
    lastSseBatch: Option<int>,
    sent: seq<Batch>)

  function Delay(s: State): int {
    if s.lastSseBatch.Some? && s.lastSseBatch.value + SSE_MIN_SPACING_MS - s.now > SSE_COALESCE_MS
    then s.lastSseBatch.value + SSE_MIN_SPACING_MS - s.now else SSE_COALESCE_MS
  }

  // ---- the engine's callbacks ----

  function Queue(s: State, ids: Ids): State {
    if ids == {} then s
    else if s.hidden then s.(held := s.held + ids)
    else
      var q := s.(queued := s.queued + ids);
      if s.timer.Some? then q else q.(timer := Some(s.now + Delay(s)))
  }

  function Flush(s: State): State {
    var f := s.(timer := None, queued := {});
    if s.hidden then f.(held := s.held + s.queued)
    else if s.queued == {} then f
    else f.(lastSseBatch := Some(s.now), sent := s.sent + [Batch(s.now, s.queued, true)])
  }

  function OnVisibility(s: State): State {
    if s.hidden then s else Queue(s.(held := {}), s.held)
  }

  /** An interval tick: held while hidden, else requested at once. */
  function FetchIds(s: State, ids: Ids): State {
    if s.hidden then s.(held := s.held + ids)
    else if ids == {} then s
    else s.(sent := s.sent + [Batch(s.now, ids, false)])
  }

  // ---- the environment ----

  datatype Step =
    | Wait(to: int)
    | ServerEvent(ids: Ids)
    | TimerFires
    | SetHidden(hidden: bool)
    | IntervalTick(ids: Ids)

  /** The clock does not go back and timers never fire early. */
  predicate Enabled(s: State, e: Step) {
    match e
    case Wait(to) => s.now <= to
    case TimerFires => s.timer.Some? && s.timer.value <= s.now
    case _ => true
  }

  function Apply(s: State, e: Step): State {
    match e
    case Wait(to) => s.(now := to)
    case ServerEvent(ids) => Queue(s, ids)
    case TimerFires => Flush(s)
    case SetHidden(h) => OnVisibility(s.(hidden := h))
    case IntervalTick(ids) => FetchIds(s, ids)
  }

  const START := State(0, false, {}, {}, None, None, [])

  /** A run: the states before and after every step. */
  ghost predicate IsRun(ss: seq<State>, es: seq<Step>) {
    && |ss| == |es| + 1
    && (ss[0] == START || ss[0] == START.(hidden := true))
    && forall i :: 0 <= i < |es| ==> Enabled(ss[i], es[i]) && ss[i + 1] == Apply(ss[i], es[i])
  }

  // ---- invariant ----

  ghost predicate SpacedOut(sent: seq<Batch>) {
    forall i, j :: 0 <= i < j < |sent| && sent[i].bySse && sent[j].bySse ==> sent[i].at + SSE_MIN_SPACING_MS <= sent[j].at
  }

  /** Nothing queued without a timer and no timer without something queued; ids
      are held only while hidden; the timer respects the spacing and is at most
      ten seconds away; batches are spaced and none is empty. */
  ghost predicate Inv(s: State) {
    && (s.queued != {} <==> s.timer.Some?)
    && (s.held != {} ==> s.hidden)
    && (s.timer.Some? ==>
          s.timer.value <= s.now + SSE_MIN_SPACING_MS &&
          (s.lastSseBatch.Some? ==> s.lastSseBatch.value + SSE_MIN_SPACING_MS <= s.timer.value))
    && (s.lastSseBatch.Some? ==> s.lastSseBatch.value <= s.now)
    && (forall i :: 0 <= i < |s.sent| ==> s.sent[i].at <= s.now && s.sent[i].ids != {})
    && (forall i :: 0 <= i < |s.sent| && s.sent[i].bySse ==> s.lastSseBatch.Some? && s.sent[i].at <= s.lastSseBatch.value)
    && SpacedOut(s.sent)
  }

  /** Ids a request has been asked for and not sent yet. */
  function Owed(s: State): Ids {
    s.queued + s.held
  }

  /** Ids newly asked for by a step. */
  function Asked(s: State, e: Step): Ids {
    match e
    case ServerEvent(ids) => ids
    case IntervalTick(ids) => ids
    case _ => {}
  }

  lemma StepKeeps(s: State, e: Step)
    requires Inv(s) && Enabled(s, e)
    ensures Inv(Apply(s, e)) && s.sent <= Apply(s, e).sent && s.now <= Apply(s, e).now
    ensures Apply(s, e).hidden ==> Apply(s, e).sent == s.sent
  {
  }

  /** Conservation: every id owed or newly asked for is afterwards either still
      owed or part of a batch this step sends, and only such ids are. */
  lemma StepConserves(s: State, e: Step)
    requires Inv(s) && Enabled(s, e)
    ensures var s' := Apply(s, e);
            s.sent <= s'.sent &&
            forall id :: id in Owed(s) + Asked(s, e) <==>
              id in Owed(s') || exists k :: |s.sent| <= k < |s'.sent| && id in s'.sent[k].ids
  {
    var s' := Apply(s, e);
    StepKeeps(s, e);
    if |s'.sent| > |s.sent| {
      var last := s'.sent[|s.sent|];
      assert |s'.sent| == |s.sent| + 1;
      assert Owed(s) + Asked(s, e) == Owed(s') + last.ids;
    } else {
      assert Owed(s) + Asked(s, e) == Owed(s');
    }
  }

  // ---- runs ----

  lemma {:induction false} RunKeeps(ss: seq<State>, es: seq<Step>, i: nat)
    requires IsRun(ss, es) && i < |ss|
    ensures Inv(ss[i])
  {
    if i > 0 {
      RunKeeps(ss, es, i - 1);
      StepKeeps(ss[i - 1], es[i - 1]);
    }
  }

  /** Safety over every interleaving: event batches at least ten seconds apart,
      none sent by a step that leaves or finds the page hidden. */
  lemma RunSafe(ss: seq<State>, es: seq<Step>, i: nat)
    requires IsRun(ss, es) && i < |ss|
    ensures Inv(ss[i])
    ensures i + 1 < |ss| ==> ss[i].sent <= ss[i + 1].sent
    ensures i + 1 < |ss| && (ss[i].hidden || ss[i + 1].hidden) ==> ss[i + 1].sent == ss[i].sent
  {
    RunKeeps(ss, es, i);
    if i + 1 < |ss| {
      StepKeeps(ss[i], es[i]);
      if ss[i].hidden && !ss[i + 1].hidden {
        assert es[i] == SetHidden(false);
      }
    }
  }

  ghost predicate SentIn(ss: seq<State>, i: nat, j: nat, id: string)
    requires i <= j < |ss|
  {
    exists k :: |ss[i].sent| <= k < |ss[j].sent| && id in ss[j].sent[k].ids
  }

  lemma StepGrows(s: State, e: Step)
    requires Enabled(s, e)
    ensures s.sent <= Apply(s, e).sent && s.now <= Apply(s, e).now
  {
  }

  lemma {:induction false} SentGrows(ss: seq<State>, es: seq<Step>, i: nat, j: nat)
    requires IsRun(ss, es) && i <= j < |ss|
    ensures ss[i].sent <= ss[j].sent && ss[i].now <= ss[j].now
  {
    if i < j {
      SentGrows(ss, es, i, j - 1);
      StepGrows(ss[j - 1], es[j - 1]);
      PrefixTrans(ss[i].sent, ss[j - 1].sent, ss[j].sent);
    }
  }

  lemma SentInLater(ss: seq<State>, i: nat, j: nat, id: string)
    requires i <= j && j + 1 < |ss| && ss[j].sent <= ss[j + 1].sent && SentIn(ss, i, j, id)
    ensures SentIn(ss, i, j + 1, id)
  {
    var k :| |ss[i].sent| <= k < |ss[j].sent| && id in ss[j].sent[k].ids;
    assert ss[j + 1].sent[k] == ss[j].sent[k];
  }

  /** One step of the promise below. */
  lemma StepOwesOrSends(ss: seq<State>, es: seq<Step>, j: nat, id: string)
    requires IsRun(ss, es) && j + 1 < |ss| && id in Owed(ss[j])
    ensures id in Owed(ss[j + 1]) || SentIn(ss, j, j + 1, id)
  {
    RunKeeps(ss, es, j);
    StepConserves(ss[j], es[j]);
  }

  lemma SentInEarlier(ss: seq<State>, i: nat, j: nat, id: string)
    requires i <= j && j + 1 < |ss| && ss[i].sent <= ss[j].sent && SentIn(ss, j, j + 1, id)
    ensures SentIn(ss, i, j + 1, id)
  {
  }

  lemma StillOwedOrSent(ss: seq<State>, es: seq<Step>, i: nat, j: nat, id: string)
    requires IsRun(ss, es) && i <= j && j + 1 < |ss| && (id in Owed(ss[j]) || SentIn(ss, i, j, id))
    ensures id in Owed(ss[j + 1]) || SentIn(ss, i, j + 1, id)
  {
    SentGrows(ss, es, i, j);
    SentGrows(ss, es, j, j + 1);
    if SentIn(ss, i, j, id) {
      SentInLater(ss, i, j, id);
    } else {
      StepOwesOrSends(ss, es, j, id);
      if id !in Owed(ss[j + 1]) {
        SentInEarlier(ss, i, j, id);
      }
    }
  }

  /** No id is dropped: once owed, it stays owed until a batch with it is sent. */
  lemma {:induction false} NeverDropped(ss: seq<State>, es: seq<Step>, i: nat, j: nat, id: string)
    requires IsRun(ss, es) && i <= j < |ss| && id in Owed(ss[i])
    ensures id in Owed(ss[j]) || SentIn(ss, i, j, id)
  {
    if i < j {
      NeverDropped(ss, es, i, j - 1, id);
      StillOwedOrSent(ss, es, i, j - 1, id);
    }
  }

  /** A step on a visible page leaves a queued id waiting for the same timer, or sends it. */
  lemma StepWaits(s: State, e: Step, id: string)
    requires Enabled(s, e) && id in s.queued && !s.hidden && !Apply(s, e).hidden && s.timer.Some?
    ensures var s' := Apply(s, e);
            || (id in s'.queued && s'.timer == s.timer)
            || (|s'.sent| == |s.sent| + 1 && id in s'.sent[|s.sent|].ids)
  {
  }

  /** While the page stays visible, a queued id waits for the timer armed for it. */
  lemma {:induction false} WaitsForTimer(ss: seq<State>, es: seq<Step>, i: nat, j: nat, id: string)
    requires IsRun(ss, es) && i <= j < |ss| && id in ss[i].queued
    requires forall k :: i <= k <= j ==> !ss[k].hidden
    ensures SentIn(ss, i, j, id) || (id in ss[j].queued && ss[j].timer == ss[i].timer)
  {
    if i < j {
      var m := j - 1;
      WaitsForTimer(ss, es, i, m, id);
      SentGrows(ss, es, i, m);
      SentGrows(ss, es, m, j);
      if SentIn(ss, i, m, id) {
        SentInLater(ss, i, m, id);
      } else {
        RunKeeps(ss, es, m);
        StepWaits(ss[m], es[m], id);
      }
    }
  }

  /** No timer is overdue: the event loop got around to every due callback. */
  ghost predicate Punctual(s: State) {
    s.timer.Some? ==> s.now <= s.timer.value
  }

  /** In a punctual run a queued id is sent within ten seconds if the page stays
      visible, and no later than ten seconds after it was seen queued. */
  lemma SentInTime(ss: seq<State>, es: seq<Step>, i: nat, j: nat, id: string)
    requires IsRun(ss, es) && i <= j < |ss| && id in ss[i].queued
    requires forall k :: i <= k <= j ==> !ss[k].hidden && Punctual(ss[k])
    requires ss[j].now > ss[i].now + SSE_MIN_SPACING_MS
    ensures exists k :: |ss[i].sent| <= k < |ss[j].sent| && id in ss[j].sent[k].ids &&
                        ss[j].sent[k].at <= ss[i].now + SSE_MIN_SPACING_MS
  {
    RunKeeps(ss, es, i);
    var m := LastInTime(ss, es, i, j);
    assert m < j;
    WaitsForTimer(ss, es, i, m + 1, id);
    RunKeeps(ss, es, m);
    StepKeeps(ss[m], es[m]);
    SentGrows(ss, es, i, m);
    SentGrows(ss, es, i, m + 1);
    SentGrows(ss, es, m + 1, j);
    assert SentIn(ss, i, m + 1, id);
    var k :| |ss[i].sent| <= k < |ss[m + 1].sent| && id in ss[m + 1].sent[k].ids;
    assert es[m].Wait? ==> ss[m + 1].sent == ss[m].sent;
    assert es[m].Wait?;
    assert ss[m].sent[k].at <= ss[m].now;
    assert ss[j].sent[k] == ss[m + 1].sent[k];
  }

  /** The last state within ten seconds of state i. */
  lemma {:induction false} LastInTime(ss: seq<State>, es: seq<Step>, i: nat, j: nat) returns (m: nat)
    requires IsRun(ss, es) && i <= j < |ss| && ss[j].now > ss[i].now + SSE_MIN_SPACING_MS
    ensures i <= m < j && ss[m].now <= ss[i].now + SSE_MIN_SPACING_MS < ss[m + 1].now
    decreases j - i
  {
    if ss[j - 1].now <= ss[i].now + SSE_MIN_SPACING_MS {
      m := j - 1;
    } else {
      m := LastInTime(ss, es, i, j - 1);
    }
  }

  // ---- when a batch goes out ----

  /** A visible event's ids are queued; the timer armed for them leaves two seconds
      for more and keeps ten from the last event batch, and no longer than either
      asks. */
  lemma ArmedExactly(s: State, ids: Ids)
    requires ids != {} && !s.hidden
    ensures var t := Apply(s, ServerEvent(ids));
            && t.queued == s.queued + ids && t.held == s.held && t.sent == s.sent && t.timer.Some?
            && (s.timer.Some? ==> t.timer == s.timer)
            && (s.timer.None? ==>
                  && t.timer.value >= s.now + 2000
                  && (s.lastSseBatch.Some? ==> t.timer.value >= s.lastSseBatch.value + 10000)
                  && (t.timer.value == s.now + 2000 || (s.lastSseBatch.Some? && t.timer.value == s.lastSseBatch.value + 10000)))
  {
  }

  /** A due timer sends everything queued as one batch, or holds it all. */
  lemma FiredExactly(s: State)
    requires Inv(s) && Enabled(s, TimerFires)
    ensures var t := Apply(s, TimerFires);
            && t.timer.None? && t.queued == {}
            && (if s.hidden then t.held == s.held + s.queued && t.sent == s.sent
                else t.held == s.held && t.sent == s.sent + [Batch(s.now, s.queued, true)])
  {
  }

  /** A tick's ids are requested at once and alone, or held. */
  lemma TickExactly(s: State, ids: Ids)
    requires ids != {}
    ensures Apply(s, IntervalTick(ids)) ==
            if s.hidden then s.(held := s.held + ids) else s.(sent := s.sent + [Batch(s.now, ids, false)])
  {
  }

  /** Showing the page queues everything held. */
  lemma ShownExactly(s: State)
    requires Inv(s)
    ensures var t := Apply(s, SetHidden(false));
            t.held == {} && t.queued == s.queued + s.held && t.sent == s.sent && (t.queued != {} ==> t.timer.Some?)
  {
  }

  /** Event batches after the first `n` are sent at `from` or later, and so will
      the next one be. */
  ghost predicate NotBefore(s: State, n: nat, from: int) {
    && n <= |s.sent|
    && (forall k :: n <= k < |s.sent| && s.sent[k].bySse ==> from <= s.sent[k].at)
    && (s.timer.Some? ==> from <= s.timer.value)
  }

  lemma StepNotBefore(s: State, e: Step, n: nat, from: int)
    requires Enabled(s, e) && NotBefore(s, n, from) && from <= s.now + SSE_COALESCE_MS
    ensures NotBefore(Apply(s, e), n, from)
  {
  }

  /** Coalescing: from a moment without a timer on, no event batch goes out for two
      seconds, so all that arrives in them goes out together. */
  lemma {:induction false} Coalesced(ss: seq<State>, es: seq<Step>, i: nat, j: nat)
    requires IsRun(ss, es) && i <= j < |ss| && ss[i].timer.None?
    ensures NotBefore(ss[j], |ss[i].sent|, ss[i].now + 2000)
  {
    if i < j {
      Coalesced(ss, es, i, j - 1);
      SentGrows(ss, es, i, j - 1);
      StepNotBefore(ss[j - 1], es[j - 1], |ss[i].sent|, ss[i].now + 2000);
    }
  }

  // ---- the engine's state, updated in place by its callbacks ----

  class Engine {
    var now: int
    var hidden: bool
    var queued: Ids
    var held: Ids
    var sseTimer: Option<int>
    var lastSseBatch: Option<int>
    var sent: seq<Batch>

    ghost function View(): State
      reads this
    {
      State(now, hidden, queued, held, sseTimer, lastSseBatch, sent)
    }

    constructor (hidden: bool)
      ensures View() == START.(hidden := hidden) && Inv(View())
    {
      now, this.hidden, queued, held, sseTimer, lastSseBatch, sent := 0, hidden, {}, {}, None, None, [];
    }

    method QueueIds(ids: Ids)
      requires Inv(View())
      modifies this`held, this`queued, this`sseTimer
      ensures View() == Queue(old(View()), ids)
    {
      if ids == {} { return; }
      if hidden {
        held := held + ids;
        return;
      }
      queued := queued + ids;
      if sseTimer.Some? { return; }
      var delay := SSE_COALESCE_MS;
      if lastSseBatch.Some? && lastSseBatch.value + SSE_MIN_SPACING_MS - now > delay {
        delay := lastSseBatch.value + SSE_MIN_SPACING_MS - now;
      }
      sseTimer := Some(now + delay);
    }

    /** The timer's callback. */
    method FlushQueue()
      requires Inv(View()) && Enabled(View(), TimerFires)
      modifies this`sseTimer, this`queued, this`held, this`lastSseBatch, this`sent
      ensures View() == Flush(old(View())) && Inv(View())
    {
      StepKeeps(View(), TimerFires);
      sseTimer := None;
      var ids := queued;
      queued := {};
      if hidden {
        held := held + ids;
        return;
      }
      if ids == {} { return; }
      lastSseBatch := Some(now);
      sent := sent + [Batch(now, ids, true)];
    }

    method OnServerEvent(ids: Ids)
      requires Inv(View())
      modifies this`held, this`queued, this`sseTimer
      ensures View() == Apply(old(View()), ServerEvent(ids)) && Inv(View())
    {
      StepKeeps(View(), ServerEvent(ids));
      QueueIds(ids);
    }

    /** The browser flips `hidden` and fires the event in one task. */
    method OnVisibilityChange(h: bool)
      requires Inv(View())
      modifies this`hidden, this`held, this`queued, this`sseTimer
      ensures View() == Apply(old(View()), SetHidden(h)) && Inv(View())
    {
      StepKeeps(View(), SetHidden(h));
      hidden := h;
      if hidden { return; }
      var ids := held;
      held := {};
      QueueIds(ids);
    }

    method OnIntervalTick(ids: Ids)
      requires Inv(View())
      modifies this`held, this`sent
      ensures View() == Apply(old(View()), IntervalTick(ids)) && Inv(View())
    {
      StepKeeps(View(), IntervalTick(ids));
      if hidden {
        held := held + ids;
        return;
      }
      if ids == {} { return; }
      sent := sent + [Batch(now, ids, false)];
    }
  }
}
