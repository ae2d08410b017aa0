/** A widget whose batch result is "pending" is asked for alone, after longer
    and longer pauses and at most six times in a row; a poll due on a hidden page
    waits.  Fetching by hand replaces the poll.
    Object identity of a poll is its serial number; a timeout or a fetch on its
    way belongs to the poll that started it. */
module PendingPolls {
  import opened Common

  datatype Status = Ready | StillPending | Failed | Forbidden

  datatype WidgetResult = WidgetResult(status: Status, text: string)

  const PENDING_RETRY_DELAYS_MS: seq<int> := [2000, 4000, 8000, 16000, 30000, 30000]

  const TOO_SLOW := WidgetResult(Failed, "too slow")

  /** `period` is the serial of the first poll of an uninterrupted pending period. */
  datatype Poll = Poll(serial: nat, attempt: nat, period: nat, armed: bool, held: bool)

  datatype Timer = Timer(widget: string, due: int)

  type Cache = Option<map<string, WidgetResult>>

  /** `timers`, `flights` and `manual` are outside the engine: pending timeouts,
      polls' fetches and manual fetches on their way.  `fetches` counts the polls'
      requests per pending period, `batchAsked` those for the whole dashboard. */
  datatype State = State(
    now: int,
    hidden: bool,
    polls: map<string, Poll>,
    next: nat,
    timers: map<nat, Timer>,
    flights: map<nat, string>,
    manual: map<nat, string>,
    refetching: set<string>,
    batchAsked: nat,
    cache: Cache,
    fetches: multiset<nat>)

  /** Without a cache entry there is nothing to update. */
  function Merge(c: Cache, news: map<string, WidgetResult>): Cache {
    if c.None? then None else Some(c.value + news)
  }

  // ---- the engine's callbacks ----

  function StopPoll(s: State, w: string): State {
    if w !in s.polls then s
    else s.(timers := s.timers - {s.polls[w].serial}, polls := s.polls - {w})
  }

  function StopAll(s: State, ws: seq<string>): State {
    if ws == [] then s else StopPoll(StopAll(s, ws[..|ws| - 1]), ws[|ws| - 1])
  }

  function SchedulePoll(s: State, w: string, attempt: nat, period: nat): State
    requires attempt < |PENDING_RETRY_DELAYS_MS|
  {
    s.(timers := s.timers[s.next := Timer(w, s.now + PENDING_RETRY_DELAYS_MS[attempt])],
       polls := s.polls[w := Poll(s.next, attempt, period, true, false)],
       next := s.next + 1)
  }

  /** What a live poll does when its pause is over. */
  function FirePoll(s: State, w: string): State
    requires w in s.polls
  {
    var p := s.polls[w].(armed := false);
    if s.hidden then s.(polls := s.polls[w := p.(held := true)])
    else s.(polls := s.polls[w := p.(held := false)],
            flights := s.flights[p.serial := w],
            fetches := s.fetches + multiset{p.period})
  }

  /** The answered poll is done; a further pause gets a new poll object. */
  function Landed(s: State, serial: nat, w: string): State {
    s.(flights := s.flights - {serial}, polls := s.polls - {w})
  }

  function Answered(s: State, serial: nat, r: WidgetResult): State
    requires serial in s.flights
  {
    var w := s.flights[serial];
    if w !in s.polls || s.polls[w].serial != serial then s.(flights := s.flights - {serial})
    else
      var p, f := s.polls[w], Landed(s, serial, w);
      if r.status != StillPending then f.(cache := Merge(f.cache, map[w := r]))
      else if p.attempt + 1 < |PENDING_RETRY_DELAYS_MS| then SchedulePoll(f, w, p.attempt + 1, p.period)
      else f.(cache := Merge(f.cache, map[w := TOO_SLOW]))
  }

  /** A fetch by hand, for one widget of a loaded batch or else for the whole
      dashboard.  It does not ask whether the page is hidden. */
  function FetchByHand(s: State, w: string): State {
    if s.cache.None? then s.(batchAsked := s.batchAsked + 1)
    else
      var t := StopPoll(s, w);
      t.(manual := t.manual[t.next := w], refetching := t.refetching + {w}, next := t.next + 1)
  }

  function HandAnswered(s: State, k: nat, r: WidgetResult): State
    requires k in s.manual
  {
    s.(manual := s.manual - {k}, refetching := s.refetching - {s.manual[k]}, cache := Merge(s.cache, map[s.manual[k] := r]))
  }

  /** Start polling these widgets unless they are polled already; stop all others. */
  function StartPolls(s: State, ids: seq<string>): State {
    if ids == [] then s
    else
      var f := StartPolls(s, ids[..|ids| - 1]);
      var w := ids[|ids| - 1];
      if w in f.polls then f else SchedulePoll(f, w, 0, f.next)
  }

  ghost predicate Lists(order: seq<string>, ws: set<string>) {
    Distinct(order) && forall w :: w in order <==> w in ws
  }

  function Held(s: State): set<string> {
    set w | w in s.polls && s.polls[w].held
  }

  function Stale(s: State, ids: seq<string>): set<string> {
    set w | w in s.polls && w !in ids
  }

  function FireAll(s: State, ws: seq<string>): (f: State)
    requires forall w :: w in ws ==> w in s.polls
    ensures f.polls.Keys == s.polls.Keys
  {
    if ws == [] then s
    else
      var n := |ws| - 1;
      assert ws[n] in ws;
      FirePoll(FireAll(s, ws[..n]), ws[n])
  }

  // ---- the environment ----

  /** `order` is the iteration order of the poll map over the widgets concerned. */
  datatype Step =
    | Wait(to: int)
    | SetHidden(hidden: bool, order: seq<string>)
    | Sync(ids: seq<string>, order: seq<string>)
    | TimerFires(serial: nat)
    | Answer(serial: nat, result: WidgetResult)
    | Refetch(widget: string)
    | HandAnswer(serial: nat, result: WidgetResult)
    | Fresh(results: map<string, WidgetResult>)
    | BatchLoaded(results: map<string, WidgetResult>)

  ghost predicate Enabled(s: State, e: Step) {
    match e
    case Wait(to) => s.now <= to
    case SetHidden(h, order) => Lists(order, Held(s))
    case Sync(ids, order) => Lists(order, Stale(s, ids))
    case TimerFires(k) => k in s.timers && s.timers[k].due <= s.now
    case Answer(k, _) => k in s.flights
    case HandAnswer(k, _) => k in s.manual
    case _ => true
  }

  function Unhide(s: State, h: bool): State {
    s.(hidden := h)
  }

  function Ring(s: State, k: nat): State
    requires k in s.timers
  {
    var w := s.timers[k].widget;
    var t := s.(timers := s.timers - {k});
    if w in t.polls then FirePoll(t, w) else t
  }

  function Apply(s: State, e: Step): State
    requires Enabled(s, e)
  {
    match e
    case Wait(to) => s.(now := to)
    case SetHidden(h, order) => if h then Unhide(s, h) else FireAll(Unhide(s, h), order)
    case Sync(ids, order) => StartPolls(StopAll(s, order), ids)
    case TimerFires(k) => Ring(s, k)
    case Answer(k, r) => Answered(s, k, r)
    case Refetch(w) => FetchByHand(s, w)
    case HandAnswer(k, r) => HandAnswered(s, k, r)
    case Fresh(m) => s.(cache := Merge(s.cache, m))
    case BatchLoaded(m) => s.(cache := Some(m))
  }

  const START := State(0, false, map[], 0, map[], map[], map[], {}, 0, None, multiset{})

  // ---- invariant ----

  ghost predicate PollOk(s: State, w: string, p: Poll) {
    && p.serial < s.next && p.period <= p.serial && p.attempt < |PENDING_RETRY_DELAYS_MS|
    && (p.armed <==> p.serial in s.timers) && (p.armed ==> s.timers[p.serial].widget == w)
    && (p.held ==> !p.armed)
    && (p.serial in s.flights <==> !p.armed && !p.held) && (p.serial in s.flights ==> s.flights[p.serial] == w)
    && s.fetches[p.period] == p.attempt + if p.serial in s.flights then 1 else 0
  }

  ghost predicate PollsOk(s: State) {
    forall w :: w in s.polls ==> PollOk(s, w, s.polls[w])
  }

  ghost predicate Apart(p: Poll, q: Poll) {
    p.serial != q.serial && p.period != q.period
  }

  ghost predicate PollsApart(s: State) {
    forall v, w :: v in s.polls && w in s.polls && v != w ==> Apart(s.polls[v], s.polls[w])
  }

  ghost predicate Owned(s: State, k: nat, w: string) {
    w in s.polls && s.polls[w].serial == k
  }

  ghost predicate TimersOwned(s: State) {
    forall k :: k in s.timers ==> Owned(s, k, s.timers[k].widget)
  }

  ghost predicate CountsOk(s: State) {
    && (forall k :: k in s.flights ==> k < s.next)
    && (forall k: nat :: s.fetches[k] <= |PENDING_RETRY_DELAYS_MS|)
    && (forall k: nat :: k >= s.next ==> s.fetches[k] == 0)
  }

  /** Every widget's poll is armed, held or awaiting its answer; every pending
      timeout belongs to the widget's current poll; periods are not mixed up and
      none has made more than six fetches. */
  ghost predicate Core(s: State) {
    PollsOk(s) && PollsApart(s) && TimersOwned(s) && CountsOk(s)
  }

  ghost predicate FetchedByHand(s: State, w: string) {
    exists k :: k in s.manual && s.manual[k] == w
  }

  /** A widget shown as refetching has a manual fetch on its way. */
  ghost predicate ManualOk(s: State) {
    && (forall k :: k in s.manual ==> k < s.next)
    && (forall w :: w in s.refetching ==> FetchedByHand(s, w))
  }

  ghost predicate Inv(s: State) {
    Core(s) && ManualOk(s) && (Held(s) != {} ==> s.hidden)
  }

  /** Steps that do not concern manual fetches. */
  ghost predicate SameManual(s: State, t: State) {
    t.manual == s.manual && t.refetching == s.refetching && s.next <= t.next && t.batchAsked == s.batchAsked
  }

  lemma ManualStays(s: State, t: State)
    requires ManualOk(s) && SameManual(s, t)
    ensures ManualOk(t)
  {
    forall w | w in t.refetching
      ensures FetchedByHand(t, w)
    {
      assert FetchedByHand(s, w);
    }
  }

  lemma HandKeeps(s: State, w: string)
    requires Core(s) && ManualOk(s)
    ensures Core(FetchByHand(s, w)) && ManualOk(FetchByHand(s, w)) && Held(FetchByHand(s, w)) <= Held(s)
  {
    var f := FetchByHand(s, w);
    if s.cache.None? {
      OtherFields(s, f);
    } else {
      var t := StopPoll(s, w);
      StopKeeps(s, w);
      OtherFields(t, f);
      assert f.manual[t.next] == w;
      forall v | v in f.refetching
        ensures FetchedByHand(f, v)
      {
        if v != w {
          assert FetchedByHand(s, v);
          var k :| k in s.manual && s.manual[k] == v;
          assert k in f.manual && f.manual[k] == v;
        }
      }
    }
  }

  /** The clock of serials may advance and everything apart from the polls may change. */
  lemma OtherFields(s: State, t: State)
    requires Core(s) && s.next <= t.next
    requires t == s.(now := t.now, cache := t.cache, next := t.next, manual := t.manual, refetching := t.refetching, batchAsked := t.batchAsked)
    ensures Core(t) && Held(t) == Held(s)
  {
    forall v | v in t.polls
      ensures PollOk(t, v, t.polls[v])
    {
      assert PollOk(s, v, s.polls[v]);
    }
    forall k | k in t.timers
      ensures Owned(t, k, t.timers[k].widget)
    {
      assert Owned(s, k, s.timers[k].widget);
    }
  }

  lemma HandAnsweredKeeps(s: State, k: nat, r: WidgetResult)
    requires Core(s) && ManualOk(s) && k in s.manual
    ensures Core(HandAnswered(s, k, r)) && ManualOk(HandAnswered(s, k, r)) && Held(HandAnswered(s, k, r)) == Held(s)
  {
    var t := HandAnswered(s, k, r);
    OtherFields(s, t);
    forall w | w in t.refetching
      ensures FetchedByHand(t, w)
    {
      assert FetchedByHand(s, w);
      var j :| j in s.manual && s.manual[j] == w;
      assert j in t.manual && t.manual[j] == w;
    }
  }

  /** Taking a widget's poll off the map together with its timeout. */
  lemma DropKeeps(s: State, t: State, w: string)
    requires Core(s) && w in s.polls
    requires t == s.(polls := s.polls - {w}, timers := s.timers - {s.polls[w].serial}, flights := t.flights)
    requires forall k :: k in t.flights ==> k in s.flights && t.flights[k] == s.flights[k]
    requires forall k :: k in s.flights && k != s.polls[w].serial ==> k in t.flights
    ensures Core(t)
  {
    var p := s.polls[w];
    forall v | v in t.polls
      ensures PollOk(t, v, t.polls[v])
    {
      assert PollOk(s, v, s.polls[v]) && Apart(s.polls[v], p);
    }
    forall k | k in t.timers
      ensures Owned(t, k, t.timers[k].widget)
    {
      assert Owned(s, k, s.timers[k].widget);
    }
  }

  lemma StopKeeps(s: State, w: string)
    requires Core(s)
    ensures Core(StopPoll(s, w)) && Held(StopPoll(s, w)) <= Held(s)
    ensures StopPoll(s, w).fetches == s.fetches
  {
    if w in s.polls {
      DropKeeps(s, StopPoll(s, w), w);
    }
  }

  lemma ScheduleApart(s: State, w: string, attempt: nat, period: nat)
    requires Core(s) && w !in s.polls && attempt < |PENDING_RETRY_DELAYS_MS|
    requires forall v :: v in s.polls ==> s.polls[v].period != period
    ensures PollsApart(SchedulePoll(s, w, attempt, period))
  {
    var t := SchedulePoll(s, w, attempt, period);
    forall v | v in s.polls
      ensures Apart(s.polls[v], t.polls[w]) && Apart(t.polls[w], s.polls[v])
    {
      assert PollOk(s, v, s.polls[v]);
    }
    forall u, v | u in t.polls && v in t.polls && u != v
      ensures Apart(t.polls[u], t.polls[v])
    {
      if u != w && v != w {
        assert Apart(s.polls[u], s.polls[v]);
      }
    }
  }

  lemma SchedulePolls(s: State, w: string, attempt: nat, period: nat)
    requires PollsOk(s) && CountsOk(s) && w !in s.polls && attempt < |PENDING_RETRY_DELAYS_MS| && period <= s.next
    requires s.fetches[period] == attempt
    ensures PollsOk(SchedulePoll(s, w, attempt, period)) && Held(SchedulePoll(s, w, attempt, period)) == Held(s)
  {
    var t := SchedulePoll(s, w, attempt, period);
    assert s.next !in s.flights;
    forall v | v in t.polls
      ensures PollOk(t, v, t.polls[v])
    {
      if v != w {
        assert PollOk(s, v, s.polls[v]);
      }
    }
  }

  lemma ScheduleOwned(s: State, w: string, attempt: nat, period: nat)
    requires TimersOwned(s) && w !in s.polls && attempt < |PENDING_RETRY_DELAYS_MS|
    ensures TimersOwned(SchedulePoll(s, w, attempt, period))
  {
    var t := SchedulePoll(s, w, attempt, period);
    forall k | k in t.timers
      ensures Owned(t, k, t.timers[k].widget)
    {
      if k != s.next {
        assert Owned(s, k, s.timers[k].widget);
      }
    }
  }

  lemma ScheduleKeeps(s: State, w: string, attempt: nat, period: nat)
    requires Core(s) && w !in s.polls && attempt < |PENDING_RETRY_DELAYS_MS| && period <= s.next
    requires s.fetches[period] == attempt && forall v :: v in s.polls ==> s.polls[v].period != period
    ensures Core(SchedulePoll(s, w, attempt, period)) && Held(SchedulePoll(s, w, attempt, period)) == Held(s)
  {
    ScheduleApart(s, w, attempt, period);
    SchedulePolls(s, w, attempt, period);
    ScheduleOwned(s, w, attempt, period);
  }

  lemma FireApart(s: State, w: string)
    requires PollsApart(s) && w in s.polls
    ensures PollsApart(FirePoll(s, w))
  {
    var t := FirePoll(s, w);
    forall u, v | u in t.polls && v in t.polls && u != v
      ensures Apart(t.polls[u], t.polls[v])
    {
      assert Apart(s.polls[u], s.polls[v]);
    }
  }

  /** A poll whose pause is over goes out or is held. */
  lemma FireLive(s: State, t: State, w: string)
    requires PollsApart(s) && CountsOk(s) && w in s.polls && t == FirePoll(s, w)
    requires var p := s.polls[w];
             p.serial < s.next && p.period <= p.serial && p.attempt < |PENDING_RETRY_DELAYS_MS| &&
             p.serial !in s.timers && p.serial !in s.flights && s.fetches[p.period] == p.attempt
    requires forall v :: v in s.polls && v != w ==> PollOk(s, v, s.polls[v])
    requires TimersOwned(s)
    ensures Core(t)
  {
    var p := s.polls[w];
    forall v | v in t.polls && v != w
      ensures PollOk(t, v, t.polls[v])
    {
      assert PollOk(s, v, s.polls[v]) && Apart(s.polls[v], p);
    }
    assert PollOk(t, w, t.polls[w]);
    FireApart(s, w);
    forall k | k in t.timers
      ensures Owned(t, k, t.timers[k].widget)
    {
      assert Owned(s, k, s.timers[k].widget);
    }
  }

  lemma FireKeeps(s: State, w: string)
    requires Core(s) && w in s.polls && s.polls[w].held
    ensures Core(FirePoll(s, w))
    ensures Held(FirePoll(s, w)) == if s.hidden then Held(s) else Held(s) - {w}
  {
    assert PollOk(s, w, s.polls[w]);
    FireLive(s, FirePoll(s, w), w);
  }

  lemma RingKeeps(s: State, k: nat)
    requires Core(s) && k in s.timers
    ensures Core(Ring(s, k)) && (Held(Ring(s, k)) <= Held(s) || s.hidden)
  {
    var w := s.timers[k].widget;
    var t := s.(timers := s.timers - {k});
    assert Owned(s, k, w) && PollOk(s, w, s.polls[w]);
    forall v | v in s.polls && v != w
      ensures PollOk(t, v, t.polls[v])
    {
      assert PollOk(s, v, s.polls[v]) && Apart(s.polls[v], s.polls[w]);
    }
    forall j | j in t.timers
      ensures Owned(t, j, t.timers[j].widget)
    {
      assert Owned(s, j, s.timers[j].widget);
    }
    FireLive(t, FirePoll(t, w), w);
  }

  /** An answered poll that is taken off the map leaves no trace behind. */
  lemma LandLive(s: State, serial: nat, w: string)
    requires Core(s) && serial in s.flights && Owned(s, serial, w)
    ensures Core(Landed(s, serial, w)) && Held(Landed(s, serial, w)) <= Held(s)
  {
    var t := Landed(s, serial, w);
    assert PollOk(s, w, s.polls[w]);
    assert s.timers - {serial} == s.timers;
    DropKeeps(s, t, w);
  }

  lemma LandReplaced(s: State, serial: nat)
    requires Core(s) && serial in s.flights && forall w :: w in s.polls ==> s.polls[w].serial != serial
    ensures Core(s.(flights := s.flights - {serial}))
  {
    var t := s.(flights := s.flights - {serial});
    forall v | v in t.polls
      ensures PollOk(t, v, t.polls[v])
    {
      assert PollOk(s, v, s.polls[v]);
    }
    forall k | k in t.timers
      ensures Owned(t, k, t.timers[k].widget)
    {
      assert Owned(s, k, s.timers[k].widget);
    }
  }

  /** The poll that was answered is the only one of its period. */
  lemma LandedFacts(s: State, serial: nat, w: string)
    requires Core(s) && serial in s.flights && Owned(s, serial, w)
    ensures var p, g := s.polls[w], Landed(s, serial, w);
            && w !in g.polls && p.period <= g.next && g.fetches[p.period] == p.attempt + 1
            && forall v :: v in g.polls ==> g.polls[v].period != p.period
  {
    assert PollOk(s, w, s.polls[w]);
    forall v | v in s.polls && v != w
      ensures s.polls[v].period != s.polls[w].period
    {
      assert Apart(s.polls[v], s.polls[w]);
    }
  }

  lemma AnsweredAgain(s: State, serial: nat, w: string)
    requires Core(s) && serial in s.flights && Owned(s, serial, w)
    requires s.polls[w].attempt + 1 < |PENDING_RETRY_DELAYS_MS|
    ensures var t := SchedulePoll(Landed(s, serial, w), w, s.polls[w].attempt + 1, s.polls[w].period);
            Core(t) && Held(t) <= Held(s)
  {
    LandLive(s, serial, w);
    LandedFacts(s, serial, w);
    ScheduleOnly(Landed(s, serial, w), Held(s), w, s.polls[w].attempt + 1, s.polls[w].period);
  }

  lemma ScheduleOnly(g: State, held: set<string>, w: string, attempt: nat, period: nat)
    requires Core(g) && Held(g) <= held && w !in g.polls && attempt < |PENDING_RETRY_DELAYS_MS| && period <= g.next
    requires g.fetches[period] == attempt && forall v :: v in g.polls ==> g.polls[v].period != period
    ensures Core(SchedulePoll(g, w, attempt, period)) && Held(SchedulePoll(g, w, attempt, period)) <= held
  {
    ScheduleKeeps(g, w, attempt, period);
  }

  lemma AnsweredEnd(s: State, serial: nat, w: string, c: Cache)
    requires Core(s) && serial in s.flights && Owned(s, serial, w)
    ensures var t := Landed(s, serial, w).(cache := c);
            Core(t) && Held(t) <= Held(s)
  {
    LandLive(s, serial, w);
    OtherFields(Landed(s, serial, w), Landed(s, serial, w).(cache := c));
  }

  lemma AnsweredIs(s: State, serial: nat, r: WidgetResult, w: string)
    requires serial in s.flights && s.flights[serial] == w && Owned(s, serial, w)
    ensures Answered(s, serial, r) ==
      if r.status == StillPending && s.polls[w].attempt + 1 < |PENDING_RETRY_DELAYS_MS|
      then SchedulePoll(Landed(s, serial, w), w, s.polls[w].attempt + 1, s.polls[w].period)
      else Landed(s, serial, w).(cache := Merge(s.cache, map[w := if r.status != StillPending then r else TOO_SLOW]))
  {
  }

  lemma AnsweredLive(s: State, serial: nat, r: WidgetResult, w: string)
    requires Core(s) && serial in s.flights && s.flights[serial] == w && Owned(s, serial, w)
    ensures Core(Answered(s, serial, r)) && Held(Answered(s, serial, r)) <= Held(s)
  {
    if r.status == StillPending && s.polls[w].attempt + 1 < |PENDING_RETRY_DELAYS_MS| {
      AnsweredAgain(s, serial, w);
    } else {
      AnsweredEnd(s, serial, w, Merge(s.cache, map[w := if r.status != StillPending then r else TOO_SLOW]));
    }
    AnsweredIs(s, serial, r, w);
  }

  lemma AnsweredKeeps(s: State, serial: nat, r: WidgetResult)
    requires Core(s) && serial in s.flights
    ensures Core(Answered(s, serial, r)) && Held(Answered(s, serial, r)) <= Held(s)
  {
    var w := s.flights[serial];
    if w in s.polls && s.polls[w].serial == serial {
      AnsweredLive(s, serial, r, w);
    } else {
      forall v | v in s.polls
        ensures s.polls[v].serial != serial
      {
        assert PollOk(s, v, s.polls[v]);
      }
      LandReplaced(s, serial);
    }
  }

  lemma {:induction false} StopAllKeeps(s: State, ws: seq<string>)
    requires Core(s)
    ensures Core(StopAll(s, ws)) && Held(StopAll(s, ws)) <= Held(s)
  {
    if ws != [] {
      StopAllKeeps(s, ws[..|ws| - 1]);
      StopKeeps(StopAll(s, ws[..|ws| - 1]), ws[|ws| - 1]);
    }
  }

  lemma {:induction false} StartPollsKeeps(s: State, ids: seq<string>)
    requires Core(s)
    ensures Core(StartPolls(s, ids)) && Held(StartPolls(s, ids)) == Held(s)
  {
    if ids != [] {
      var n := |ids| - 1;
      var f := StartPolls(s, ids[..n]);
      StartPollsKeeps(s, ids[..n]);
      if ids[n] !in f.polls {
        forall v | v in f.polls
          ensures f.polls[v].period != f.next
        {
          assert PollOk(f, v, f.polls[v]);
        }
        ScheduleKeeps(f, ids[n], 0, f.next);
      }
    }
  }

  lemma {:induction false} FireAllReleases(s: State, ws: seq<string>)
    requires !s.hidden && forall w :: w in ws ==> w in s.polls
    ensures !FireAll(s, ws).hidden
    ensures forall w :: w in s.polls ==> (FireAll(s, ws).polls[w].held <==> s.polls[w].held && w !in ws)
  {
    if ws != [] {
      var n := |ws| - 1;
      FireAllReleases(s, ws[..n]);
      assert ws == ws[..n] + [ws[n]];
    }
  }

  /** The last of the held polls is still held when its turn comes. */
  lemma FireAllNext(s: State, ws: seq<string>)
    requires !s.hidden && ws != [] && Distinct(ws) && forall w :: w in ws ==> w in s.polls && s.polls[w].held
    ensures var n := |ws| - 1;
            && (forall w :: w in ws[..n] ==> w in s.polls && s.polls[w].held) && ws[n] in s.polls
            && FireAll(s, ws[..n]).polls[ws[n]].held
            && FireAll(s, ws) == FirePoll(FireAll(s, ws[..n]), ws[n])
  {
    var n := |ws| - 1;
    assert ws[n] in ws && ws[n] !in ws[..n];
    assert forall w :: w in ws[..n] ==> w in ws;
    FireAllReleases(s, ws[..n]);
  }

  lemma {:induction false} FireAllKeeps(s: State, ws: seq<string>)
    requires Core(s) && !s.hidden && Distinct(ws) && forall w :: w in ws ==> w in s.polls && s.polls[w].held
    ensures Core(FireAll(s, ws))
  {
    if ws != [] {
      var n := |ws| - 1;
      FireAllNext(s, ws);
      FireAllKeeps(s, ws[..n]);
      FireKeeps(FireAll(s, ws[..n]), ws[n]);
    }
  }

  lemma VisibilityKeeps(s: State, h: bool, order: seq<string>)
    requires Core(s) && Lists(order, Held(s))
    ensures var t := Apply(s, SetHidden(h, order)); Core(t) && (Held(t) != {} ==> t.hidden)
  {
    assert Core(Unhide(s, h)) by {
      forall w | w in s.polls
        ensures PollOk(Unhide(s, h), w, s.polls[w])
      {
        assert PollOk(s, w, s.polls[w]);
      }
    }
    if !h {
      FireAllKeeps(Unhide(s, h), order);
      FireAllReleases(Unhide(s, h), order);
    }
  }

  lemma SyncKeeps(s: State, ids: seq<string>, order: seq<string>)
    requires Core(s)
    ensures var t := StartPolls(StopAll(s, order), ids); Core(t) && Held(t) <= Held(s) && t.hidden == s.hidden
  {
    StopAllKeeps(s, order);
    StartPollsKeeps(StopAll(s, order), ids);
    SyncHidden(s, ids, order);
  }

  /** Every step keeps the invariant. */
  lemma StepKeeps(s: State, e: Step)
    requires Inv(s) && Enabled(s, e)
    ensures Inv(Apply(s, e))
  {
    StepManual(s, e);
    match e
    case SetHidden(h, order) => VisibilityKeeps(s, h, order);
    case Sync(ids, order) => SyncKeeps(s, ids, order);
    case TimerFires(k) => RingKeeps(s, k);
    case Answer(k, r) => AnsweredKeeps(s, k, r);
    case Refetch(w) => HandKeeps(s, w);
    case HandAnswer(k, r) => HandAnsweredKeeps(s, k, r);
    case Wait(to) => OtherFields(s, s.(now := to));
    case Fresh(m) => OtherFields(s, s.(cache := Merge(s.cache, m)));
    case BatchLoaded(m) => OtherFields(s, s.(cache := Some(m)));
  }

  /** Only manual fetches and their answers concern manual fetches. */
  lemma StepManual(s: State, e: Step)
    requires ManualOk(s) && Core(s) && Enabled(s, e)
    ensures ManualOk(Apply(s, e))
    ensures !e.Refetch? && !e.HandAnswer? ==> SameManual(s, Apply(s, e))
  {
    match e
    case Refetch(w) => HandKeeps(s, w);
    case HandAnswer(k, r) => HandAnsweredKeeps(s, k, r);
    case SetHidden(h, order) =>
      if !h {
        FireAllHidden(Unhide(s, h), order);
      }
      ManualStays(s, Apply(s, e));
    case Sync(ids, order) =>
      SyncSilent(s, ids, order);
      ManualStays(s, Apply(s, e));
    case Answer(k, r) =>
      AnsweredSilent(s, k, r);
      ManualStays(s, Apply(s, e));
    case _ => ManualStays(s, Apply(s, e));
  }

  lemma {:induction false} SyncHidden(s: State, ids: seq<string>, order: seq<string>)
    ensures StartPolls(StopAll(s, order), ids).hidden == s.hidden
    decreases |ids|, |order|
  {
    if ids != [] {
      SyncHidden(s, ids[..|ids| - 1], order);
    } else if order != [] {
      SyncHidden(s, ids, order[..|order| - 1]);
    }
  }

  // ---- runs ----

  ghost predicate IsRun(ss: seq<State>, es: seq<Step>) {
    && |ss| == |es| + 1
    && (ss[0] == START || ss[0] == START.(hidden := true))
    && forall i :: 0 <= i < |es| ==> Enabled(ss[i], es[i]) && ss[i + 1] == Apply(ss[i], es[i])
  }

  /** In every reachable state: at most one live timeout per widget and it is the
      current poll's, delay indices in bounds, and no pending period with more
      than six fetches. */
  lemma {:induction false} RunKeeps(ss: seq<State>, es: seq<Step>, i: nat)
    requires IsRun(ss, es) && i < |ss|
    ensures Inv(ss[i])
    ensures forall period: nat :: ss[i].fetches[period] <= 6
    ensures forall j, k :: j in ss[i].timers && k in ss[i].timers && ss[i].timers[j].widget == ss[i].timers[k].widget ==> j == k
  {
    if i > 0 {
      RunKeeps(ss, es, i - 1);
      StepKeeps(ss[i - 1], es[i - 1]);
    }
  }

  /** The answer of a replaced or stopped poll is ignored. */
  lemma ReplacedAnswerIgnored(s: State, serial: nat, r: WidgetResult)
    requires Inv(s) && serial in s.flights
    requires forall w :: w in s.polls ==> s.polls[w].serial != serial
    ensures Answered(s, serial, r) == s.(flights := s.flights - {serial})
  {
  }

  /** The answer of a live poll either continues the period with the next, longer
      pause or ends it with a result that is not pending; the last of the six
      always ends it. */
  lemma LiveAnswer(s: State, serial: nat, r: WidgetResult, w: string)
    requires Inv(s) && serial in s.flights && w in s.polls && s.polls[w].serial == serial
    ensures var p, s' := s.polls[w], Answered(s, serial, r);
            if r.status == StillPending && p.attempt < 5
            then w in s'.polls && s'.polls[w].attempt == p.attempt + 1 && s'.polls[w].period == p.period &&
                 s'.polls[w].serial in s'.timers && s'.cache == s.cache &&
                 s'.timers[s'.polls[w].serial].due == s.now + PENDING_RETRY_DELAYS_MS[p.attempt + 1]
            else w !in s'.polls &&
                 exists end: WidgetResult :: end.status != StillPending && s'.cache == Merge(s.cache, map[w := end]) &&
                                             (r.status != StillPending ==> end == r)
  {
    assert PollOk(s, w, s.polls[w]);
    var end := if r.status != StillPending then r else TOO_SLOW;
    assert end.status != StillPending;
  }

  /** Single-widget fetches on their way. */
  function Requests(s: State): set<nat> {
    s.flights.Keys + s.manual.Keys
  }

  /** A step that leaves the page hidden starts no poll's fetch; it starts a
      single-widget fetch exactly when it is a manual one with a batch in the
      cache, and asks for the whole dashboard exactly when it is a manual one
      without. */
  lemma HiddenFetches(s: State, e: Step)
    requires Inv(s) && Enabled(s, e) && Apply(s, e).hidden
    ensures Apply(s, e).fetches == s.fetches && Apply(s, e).flights.Keys <= s.flights.Keys
    ensures Requests(Apply(s, e)) - Requests(s) != {} <==> e.Refetch? && s.cache.Some?
    ensures Apply(s, e).batchAsked != s.batchAsked <==> e.Refetch? && s.cache.None?
  {
    HiddenSilent(s, e);
    StepManual(s, e);
    if e.Refetch? && s.cache.Some? {
      assert s.next in Requests(Apply(s, e)) - Requests(s);
    }
  }

  lemma HiddenSilent(s: State, e: Step)
    requires Inv(s) && Enabled(s, e) && Apply(s, e).hidden
    ensures Apply(s, e).fetches == s.fetches && Apply(s, e).flights.Keys <= s.flights.Keys
  {
    match e
    case Sync(ids, order) => SyncSilent(s, ids, order);
    case SetHidden(h, order) =>
      if !h {
        FireAllHidden(Unhide(s, h), order);
      }
    case Answer(k, r) => AnsweredSilent(s, k, r);
    case TimerFires(k) => RingSilent(s, k);
    case _ =>
  }

  lemma AnsweredSilent(s: State, k: nat, r: WidgetResult)
    requires k in s.flights
    ensures var t := Answered(s, k, r);
            t.fetches == s.fetches && t.flights.Keys <= s.flights.Keys && t.hidden == s.hidden && SameManual(s, t)
  {
  }

  lemma RingSilent(s: State, k: nat)
    requires k in s.timers && s.hidden
    ensures var t := Ring(s, k); t.fetches == s.fetches && t.flights == s.flights && t.hidden
  {
  }

  lemma {:induction false} SyncSilent(s: State, ids: seq<string>, order: seq<string>)
    ensures var t := StartPolls(StopAll(s, order), ids); t.fetches == s.fetches && t.flights == s.flights && t.cache == s.cache && SameManual(s, t)
    decreases |ids|, |order|
  {
    if ids != [] {
      SyncSilent(s, ids[..|ids| - 1], order);
    } else if order != [] {
      SyncSilent(s, ids, order[..|order| - 1]);
    }
  }

  lemma {:induction false} FireAllHidden(s: State, ws: seq<string>)
    requires forall w :: w in ws ==> w in s.polls
    ensures FireAll(s, ws).hidden == s.hidden && FireAll(s, ws).cache == s.cache && SameManual(s, FireAll(s, ws))
  {
    if ws != [] {
      FireAllHidden(s, ws[..|ws| - 1]);
    }
  }

  /** The widgets whose cached result a step may touch. */
  function Touched(s: State, e: Step): set<string> {
    match e
    case Answer(k, _) => if k in s.flights then {s.flights[k]} else {}
    case HandAnswer(k, _) => if k in s.manual then {s.manual[k]} else {}
    case Fresh(m) => m.Keys
    case _ => {}
  }

  /** Only a loaded batch creates the cache entry; every other step keeps a
      missing entry missing and leaves all widgets but its own alone. */
  lemma MergeFrame(s: State, e: Step)
    requires Enabled(s, e) && !e.BatchLoaded?
    ensures var s' := Apply(s, e);
            && (s.cache.None? <==> s'.cache.None?)
            && (s.cache.Some? ==>
                  s.cache.value.Keys <= s'.cache.value.Keys &&
                  forall w :: w in s'.cache.value && w !in Touched(s, e) ==>
                    w in s.cache.value && s'.cache.value[w] == s.cache.value[w])
  {
    match e
    case Sync(ids, order) => SyncSilent(s, ids, order);
    case SetHidden(h, order) =>
      if !h {
        FireAllHidden(Unhide(s, h), order);
      }
    case _ =>
  }

  // ---- the engine's state, updated in place by its callbacks ----

  class Engine {
    var now: int
    var hidden: bool
    var polls: map<string, Poll>
    var next: nat
    var timers: map<nat, Timer>
    var flights: map<nat, string>
    var manual: map<nat, string>
    var refetching: set<string>
    var batchAsked: nat
    var cache: Cache
    ghost var fetches: multiset<nat>

    ghost function View(): State
      reads this
    {
      State(now, hidden, polls, next, timers, flights, manual, refetching, batchAsked, cache, fetches)
    }

    constructor (hidden: bool)
      ensures View() == START.(hidden := hidden) && Inv(View())
    {
      now, this.hidden, polls, next, timers, flights := 0, hidden, map[], 0, map[], map[];
      manual, refetching, batchAsked, cache, fetches := map[], {}, 0, None, multiset{};
    }

    /** Without a cache entry there is nothing to update. */
    method MergeIn(news: map<string, WidgetResult>)
      modifies this`cache
      ensures cache == Merge(old(cache), news)
    {
      if cache.Some? {
        cache := Some(cache.value + news);
      }
    }

    method Stop(w: string)
      modifies this`polls, this`timers
      ensures View() == StopPoll(old(View()), w)
    {
      if w in polls {
        timers := timers - {polls[w].serial};
        polls := polls - {w};
      }
    }

    method Schedule(w: string, attempt: nat, period: nat)
      requires attempt < |PENDING_RETRY_DELAYS_MS|
      modifies this`polls, this`timers, this`next
      ensures View() == SchedulePoll(old(View()), w, attempt, period)
    {
      timers := timers[next := Timer(w, now + PENDING_RETRY_DELAYS_MS[attempt])];
      polls := polls[w := Poll(next, attempt, period, true, false)];
      next := next + 1;
    }

    method Fire(w: string)
      requires w in polls
      modifies this`polls, this`flights, this`fetches
      ensures View() == FirePoll(old(View()), w)
    {
      var poll := polls[w].(armed := false);
      if hidden {
        polls := polls[w := poll.(held := true)];
        return;
      }
      polls := polls[w := poll.(held := false)];
      flights := flights[poll.serial := w];
      fetches := fetches + multiset{poll.period};
    }

    method OnTimer(k: nat)
      requires Inv(View()) && Enabled(View(), TimerFires(k))
      modifies this`polls, this`timers, this`flights, this`fetches
      ensures View() == Apply(old(View()), TimerFires(k)) && Inv(View())
    {
      StepKeeps(View(), TimerFires(k));
      var w := timers[k].widget;
      timers := timers - {k};
      if w in polls {
        Fire(w);
      }
    }

    method Land(k: nat, r: WidgetResult)
      requires k in flights
      modifies this`polls, this`timers, this`next, this`flights, this`cache
      ensures View() == Answered(old(View()), k, r)
    {
      var w := flights[k];
      flights := flights - {k};
      if w !in polls || polls[w].serial != k { return; }
      var poll := polls[w];
      polls := polls - {w};
      if r.status != StillPending {
        MergeIn(map[w := r]);
      } else if poll.attempt + 1 < |PENDING_RETRY_DELAYS_MS| {
        Schedule(w, poll.attempt + 1, poll.period);
      } else {
        MergeIn(map[w := TOO_SLOW]);
      }
    }

    method OnAnswer(k: nat, r: WidgetResult)
      requires Inv(View()) && Enabled(View(), Answer(k, r))
      modifies this`polls, this`timers, this`next, this`flights, this`cache
      ensures View() == Apply(old(View()), Answer(k, r)) && Inv(View())
    {
      StepKeeps(View(), Answer(k, r));
      Land(k, r);
    }

    method FireEach(order: seq<string>)
      requires forall w :: w in order ==> w in polls
      modifies this`polls, this`flights, this`fetches
      ensures View() == FireAll(old(View()), order)
    {
      ghost var start := View();
      for i := 0 to |order|
        invariant View() == FireAll(start, order[..i])
      {
        assert order[..i + 1][..i] == order[..i];
        assert order[i] in order;
        Fire(order[i]);
      }
      assert order[..|order|] == order;
    }

    method OnVisibilityChange(h: bool, order: seq<string>)
      requires Inv(View()) && Enabled(View(), SetHidden(h, order))
      modifies this`hidden, this`polls, this`flights, this`fetches
      ensures View() == Apply(old(View()), SetHidden(h, order)) && Inv(View())
    {
      StepKeeps(View(), SetHidden(h, order));
      hidden := h;
      if !h {
        FireEach(order);
      }
    }

    method SyncPending(ids: seq<string>, order: seq<string>)
      requires Inv(View()) && Enabled(View(), Sync(ids, order))
      modifies this`polls, this`timers, this`next
      ensures View() == Apply(old(View()), Sync(ids, order)) && Inv(View())
    {
      StepKeeps(View(), Sync(ids, order));
      ghost var start := View();
      for i := 0 to |order|
        invariant View() == StopAll(start, order[..i])
      {
        assert order[..i + 1][..i] == order[..i];
        Stop(order[i]);
      }
      assert order[..|order|] == order;
      ghost var middle := View();
      for i := 0 to |ids|
        invariant View() == StartPolls(middle, ids[..i])
      {
        assert ids[..i + 1][..i] == ids[..i];
        if ids[i] !in polls {
          Schedule(ids[i], 0, next);
        }
      }
      assert ids[..|ids|] == ids;
    }

    method RefetchWidget(w: string)
      requires Inv(View())
      modifies this`polls, this`timers, this`manual, this`refetching, this`next, this`batchAsked
      ensures View() == Apply(old(View()), Refetch(w)) && Inv(View())
    {
      StepKeeps(View(), Refetch(w));
      if cache.None? {
        batchAsked := batchAsked + 1;
        return;
      }
      Stop(w);
      SendByHand(w);
    }

    method SendByHand(w: string)
      modifies this`manual, this`refetching, this`next
      ensures manual == old(manual)[old(next) := w] && refetching == old(refetching) + {w} && next == old(next) + 1
    {
      refetching := refetching + {w};
      manual := manual[next := w];
      next := next + 1;
    }

    method OnHandAnswer(k: nat, r: WidgetResult)
      requires Inv(View()) && Enabled(View(), HandAnswer(k, r))
      modifies this`manual, this`refetching, this`cache
      ensures View() == Apply(old(View()), HandAnswer(k, r)) && Inv(View())
    {
      StepKeeps(View(), HandAnswer(k, r));
      var w := manual[k];
      manual := manual - {k};
      refetching := refetching - {w};
      MergeIn(map[w := r]);
    }

    /** The answer of a batch request for some widgets. */
    method OnBatchAnswer(news: map<string, WidgetResult>)
      requires Inv(View())
      modifies this`cache
      ensures View() == Apply(old(View()), Fresh(news)) && Inv(View())
    {
      StepKeeps(View(), Fresh(news));
      MergeIn(news);
    }
  }
}
