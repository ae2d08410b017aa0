/** Which widgets are polled after a sync, that a due poll is fetched, and what
    answers do to the cache. */
module PendingSync {
  import opened Common
  import opened PendingPolls

  const FIRST_PAUSE := 2000

  // ---- stopping ----

  lemma {:induction false} StoppedExactly(s: State, ws: seq<string>)
    requires Core(s)
    ensures var t := StopAll(s, ws);
            && (forall w :: w in t.polls <==> w in s.polls && w !in ws)
            && (forall w :: w in t.polls ==> t.polls[w] == s.polls[w])
            && (forall k :: k in t.timers <==> k in s.timers && s.timers[k].widget !in ws)
            && (forall k :: k in t.timers ==> t.timers[k] == s.timers[k])
            && t.now == s.now && t.next == s.next && t.flights == s.flights && t.cache == s.cache && t.hidden == s.hidden
  {
    if ws != [] {
      var n := |ws| - 1;
      StoppedExactly(s, ws[..n]);
      StopAllKeeps(s, ws[..n]);
      StoppedOne(StopAll(s, ws[..n]), ws[n]);
      assert ws == ws[..n] + [ws[n]];
    }
  }

  /** With a widget's poll goes its timeout, and no other. */
  lemma StoppedOne(s: State, w: string)
    requires Core(s)
    ensures var t := StopPoll(s, w);
            && (forall v :: v in t.polls <==> v in s.polls && v != w)
            && (forall v :: v in t.polls ==> t.polls[v] == s.polls[v])
            && (forall k :: k in t.timers <==> k in s.timers && s.timers[k].widget != w)
            && (forall k :: k in t.timers ==> t.timers[k] == s.timers[k])
            && t.now == s.now && t.next == s.next && t.flights == s.flights && t.cache == s.cache && t.hidden == s.hidden
  {
    forall k | k in s.timers
      ensures Owned(s, k, s.timers[k].widget)
    {
    }
    if w in s.polls {
      assert PollOk(s, w, s.polls[w]);
    }
  }

  // ---- starting ----

  /** A fresh poll, armed for the first pause. */
  ghost predicate JustStarted(s: State, t: State, w: string) {
    && w in t.polls && t.polls[w].attempt == 0 && s.next <= t.polls[w].serial
    && t.polls[w].serial in t.timers && t.timers[t.polls[w].serial] == Timer(w, s.now + FIRST_PAUSE)
  }

  ghost predicate Kept(s: State, t: State, w: string)
    requires w in s.polls
  {
    && w in t.polls && t.polls[w] == s.polls[w]
    && (t.polls[w].serial in t.timers <==> s.polls[w].serial in s.timers)
    && (t.polls[w].serial in t.timers ==> t.timers[t.polls[w].serial] == s.timers[s.polls[w].serial])
  }

  ghost predicate Started(s: State, t: State, ids: seq<string>) {
    && t.now == s.now && s.next <= t.next
    && (forall w :: w in t.polls <==> w in s.polls || w in ids)
    && (forall w :: w in s.polls ==> w in t.polls && Kept(s, t, w))
    && (forall w :: w in ids && w !in s.polls ==> JustStarted(s, t, w))
  }

  lemma StartedSkip(s: State, t: State, ids: seq<string>, w: string)
    requires Started(s, t, ids) && w in t.polls
    ensures Started(s, t, ids + [w])
  {
    forall v | v in ids + [w] && v !in s.polls
      ensures JustStarted(s, t, v)
    {
      assert v in ids;
    }
  }

  lemma StartedOne(s: State, t: State, ids: seq<string>, w: string)
    requires Core(s) && Core(t) && Started(s, t, ids) && w !in t.polls
    ensures Started(s, SchedulePoll(t, w, 0, t.next), ids + [w])
  {
    var u := SchedulePoll(t, w, 0, t.next);
    forall v | v in s.polls
      ensures v in u.polls && Kept(s, u, v)
    {
      assert Kept(s, t, v) && PollOk(t, v, t.polls[v]) && PollOk(s, v, s.polls[v]);
    }
    forall v | v in ids + [w] && v !in s.polls
      ensures JustStarted(s, u, v)
    {
      if v != w {
        assert v in ids && JustStarted(s, t, v) && PollOk(t, v, t.polls[v]);
      }
    }
  }

  lemma {:induction false} StartedExactly(s: State, ids: seq<string>)
    requires Core(s)
    ensures Started(s, StartPolls(s, ids), ids)
  {
    if ids != [] {
      var n := |ids| - 1;
      var t := StartPolls(s, ids[..n]);
      StartedExactly(s, ids[..n]);
      StartPollsKeeps(s, ids[..n]);
      if ids[n] in t.polls {
        StartedSkip(s, t, ids[..n], ids[n]);
      } else {
        StartedOne(s, t, ids[..n], ids[n]);
      }
      assert ids == ids[..n] + [ids[n]];
    }
  }

  /** After a sync exactly the given widgets are polled.  One polled before keeps
      its very poll and timeout; a new one waits for the first pause; no timeout
      of any other widget is left. */
  lemma SyncExactly(s: State, ids: seq<string>, order: seq<string>)
    requires Inv(s) && Enabled(s, Sync(ids, order))
    ensures var t := Apply(s, Sync(ids, order));
            && (forall w :: w in t.polls <==> w in ids)
            && (forall w :: w in ids && w in s.polls ==> Kept(s, t, w))
            && (forall w :: w in ids && w !in s.polls ==> JustStarted(s, t, w))
            && (forall k :: k in t.timers ==> t.timers[k].widget in ids)
  {
    var m, t := StopAll(s, order), Apply(s, Sync(ids, order));
    StoppedExactly(s, order);
    StopAllKeeps(s, order);
    StartedExactly(m, ids);
    StepKeeps(s, Sync(ids, order));
    forall w | w in ids && w in s.polls
      ensures Kept(s, t, w)
    {
      assert w in m.polls && Kept(m, t, w);
      assert PollOk(s, w, s.polls[w]);
    }
    forall k | k in t.timers
      ensures t.timers[k].widget in ids
    {
      assert Owned(t, k, t.timers[k].widget);
    }
  }

  // ---- a waiting poll is fetched ----

  /** The poll with this serial waits for this timeout. */
  ghost predicate Waiting(s: State, w: string, serial: nat, timer: Timer) {
    && w in s.polls && s.polls[w].serial == serial
    && serial in s.timers && s.timers[serial] == timer && timer.widget == w
  }

  ghost predicate OnItsWay(s: State, w: string, serial: nat) {
    serial in s.flights && s.flights[serial] == w
  }

  /** The step takes the widget's poll away. */
  ghost predicate Drops(e: Step, w: string) {
    (e.Sync? && w !in e.ids) || (e.Refetch? && e.widget == w)
  }

  lemma SyncWaits(s: State, w: string, serial: nat, timer: Timer, ids: seq<string>, order: seq<string>)
    requires Inv(s) && Enabled(s, Sync(ids, order)) && Waiting(s, w, serial, timer) && w in ids
    ensures Waiting(Apply(s, Sync(ids, order)), w, serial, timer)
  {
    SyncExactly(s, ids, order);
    assert Kept(s, Apply(s, Sync(ids, order)), w);
  }

  lemma RingWaits(s: State, w: string, serial: nat, timer: Timer, k: nat)
    requires Inv(s) && Enabled(s, TimerFires(k)) && Waiting(s, w, serial, timer) && !s.hidden
    ensures Waiting(Ring(s, k), w, serial, timer) || OnItsWay(Ring(s, k), w, serial)
  {
    assert Owned(s, k, s.timers[k].widget);
    if k != serial {
      var v := s.timers[k].widget;
      assert PollOk(s, w, s.polls[w]) && PollOk(s, v, s.polls[v]);
    }
  }

  lemma AnswerWaits(s: State, w: string, serial: nat, timer: Timer, k: nat, r: WidgetResult)
    requires Inv(s) && k in s.flights && Waiting(s, w, serial, timer)
    ensures Waiting(Answered(s, k, r), w, serial, timer)
  {
    assert PollOk(s, w, s.polls[w]);
    assert k != serial;
  }

  lemma HandWaits(s: State, w: string, serial: nat, timer: Timer, v: string)
    requires Inv(s) && Waiting(s, w, serial, timer) && v != w
    ensures Waiting(FetchByHand(s, v), w, serial, timer)
  {
    assert PollOk(s, w, s.polls[w]);
    if v in s.polls {
      assert Apart(s.polls[v], s.polls[w]);
    }
  }

  lemma {:induction false} FireAllWaits(s: State, ws: seq<string>, w: string, serial: nat, timer: Timer)
    requires w !in ws && Waiting(s, w, serial, timer) && forall v :: v in ws ==> v in s.polls
    ensures Waiting(FireAll(s, ws), w, serial, timer)
  {
    if ws != [] {
      FireAllWaits(s, ws[..|ws| - 1], w, serial, timer);
    }
  }

  /** A step on a visible page leaves a waiting poll waiting, or sends its fetch. */
  lemma StepWaits(s: State, e: Step, w: string, serial: nat, timer: Timer)
    requires Inv(s) && Enabled(s, e) && Waiting(s, w, serial, timer) && !Drops(e, w)
    requires !s.hidden && !Apply(s, e).hidden
    ensures Waiting(Apply(s, e), w, serial, timer) || OnItsWay(Apply(s, e), w, serial)
  {
    match e
    case Sync(ids, order) => SyncWaits(s, w, serial, timer, ids, order);
    case TimerFires(k) => RingWaits(s, w, serial, timer, k);
    case Answer(k, r) => AnswerWaits(s, w, serial, timer, k, r);
    case Refetch(v) => HandWaits(s, w, serial, timer, v);
    case SetHidden(h, order) =>
      assert PollOk(s, w, s.polls[w]);
      FireAllWaits(Unhide(s, h), order, w, serial, timer);
    case _ =>
  }

  /** No timeout is overdue. */
  ghost predicate Punctual(s: State) {
    forall k :: k in s.timers ==> s.now <= s.timers[k].due
  }

  ghost predicate Fetched(ss: seq<State>, i: nat, j: nat, w: string, serial: nat)
    requires j < |ss|
  {
    exists k :: i <= k <= j && OnItsWay(ss[k], w, serial)
  }

  lemma WaitsOn(ss: seq<State>, es: seq<Step>, i: nat, j: nat, w: string, serial: nat, timer: Timer)
    requires IsRun(ss, es) && i <= j < |es| && !ss[j].hidden && !ss[j + 1].hidden && !Drops(es[j], w)
    requires Waiting(ss[j], w, serial, timer) || Fetched(ss, i, j, w, serial)
    ensures Waiting(ss[j + 1], w, serial, timer) || Fetched(ss, i, j + 1, w, serial)
  {
    if Waiting(ss[j], w, serial, timer) {
      StepOfRun(ss, es, j);
      StepWaits(ss[j], es[j], w, serial, timer);
    }
  }

  /** While the page is visible and the widget stays pending, a waiting poll keeps
      waiting for the same timeout until its fetch goes out. */
  lemma {:induction false} WaitingIsFetched(ss: seq<State>, es: seq<Step>, i: nat, j: nat, w: string, serial: nat, timer: Timer)
    requires IsRun(ss, es) && i <= j < |ss| && Waiting(ss[i], w, serial, timer)
    requires forall k :: i <= k <= j ==> !ss[k].hidden
    requires forall k :: i <= k < j ==> !Drops(es[k], w)
    ensures Waiting(ss[j], w, serial, timer) || Fetched(ss, i, j, w, serial)
  {
    if i < j {
      WaitingIsFetched(ss, es, i, j - 1, w, serial, timer);
      WaitsOn(ss, es, i, j - 1, w, serial, timer);
    }
  }

  lemma StepOfRun(ss: seq<State>, es: seq<Step>, j: nat)
    requires IsRun(ss, es) && j < |es|
    ensures Inv(ss[j]) && Enabled(ss[j], es[j]) && ss[j + 1] == Apply(ss[j], es[j])
  {
    RunKeeps(ss, es, j);
  }

  /** From a sync that finds a widget newly pending: its fetch goes out within the
      first pause, as long as the page is visible and the widget stays pending. */
  lemma NewlyPendingIsFetched(ss: seq<State>, es: seq<Step>, i: nat, j: nat, w: string)
    requires IsRun(ss, es) && i + 1 <= j < |ss| && es[i].Sync? && w in es[i].ids && w !in ss[i].polls
    requires Punctual(ss[j]) && forall k :: i + 1 <= k <= j ==> !ss[k].hidden
    requires forall k :: i + 1 <= k < j ==> !Drops(es[k], w)
    requires ss[j].now > ss[i].now + FIRST_PAUSE
    ensures w in ss[i + 1].polls && Fetched(ss, i + 1, j, w, ss[i + 1].polls[w].serial)
  {
    StepOfRun(ss, es, i);
    SyncExactly(ss[i], es[i].ids, es[i].order);
    assert JustStarted(ss[i], ss[i + 1], w);
    var serial := ss[i + 1].polls[w].serial;
    WaitingIsFetched(ss, es, i + 1, j, w, serial, Timer(w, ss[i].now + FIRST_PAUSE));
    assert Punctual(ss[j]);
  }

  /** A due timeout sends its widget's fetch, or holds the poll on a hidden page. */
  lemma DueExactly(s: State, k: nat)
    requires Inv(s) && Enabled(s, TimerFires(k))
    ensures var w, t := s.timers[k].widget, Apply(s, TimerFires(k));
            && k !in t.timers && w in t.polls && t.polls[w].serial == k
            && (if s.hidden then t.polls[w].held && t.flights == s.flights
                else !t.polls[w].held && t.flights == s.flights[k := w])
  {
    assert Owned(s, k, s.timers[k].widget);
  }

  lemma {:induction false} FiredSerials(s: State, ws: seq<string>, w: string)
    requires w in s.polls && forall v :: v in ws ==> v in s.polls
    ensures var t := FireAll(s, ws); t.polls[w].serial == s.polls[w].serial && (t.polls[w].armed ==> s.polls[w].armed)
  {
    if ws != [] {
      FiredSerials(s, ws[..|ws| - 1], w);
    }
  }

  /** When the page is shown again every held poll's fetch goes out. */
  lemma ShownFetchesHeld(s: State, order: seq<string>, w: string)
    requires Inv(s) && Enabled(s, SetHidden(false, order)) && w in s.polls && s.polls[w].held
    ensures OnItsWay(Apply(s, SetHidden(false, order)), w, s.polls[w].serial)
  {
    var u := Unhide(s, false);
    VisibilityKeeps(s, false, order);
    FireAllReleases(u, order);
    FiredSerials(u, order, w);
    assert PollOk(s, w, s.polls[w]);
    SentPoll(FireAll(u, order), w, s.polls[w].serial);
  }

  lemma SentPoll(t: State, w: string, serial: nat)
    requires Core(t) && w in t.polls && t.polls[w].serial == serial && !t.polls[w].armed && !t.polls[w].held
    ensures OnItsWay(t, w, serial)
  {
    assert PollOk(t, w, t.polls[w]);
  }

  function Doubled(n: nat): nat {
    if n == 0 then 2000 else 2 * Doubled(n - 1)
  }

  /** There are six pauses; they double from two seconds on, up to thirty. */
  lemma Pauses(n: nat)
    requires n < 6
    ensures |PENDING_RETRY_DELAYS_MS| == 6
    ensures PENDING_RETRY_DELAYS_MS[n] == if Doubled(n) < 30000 then Doubled(n) else 30000
  {
    assert Doubled(1) == 4000 && Doubled(2) == 8000 && Doubled(3) == 16000 && Doubled(4) == 32000 && Doubled(5) == 64000;
  }

  // ---- what answers do to the cache ----

  /** Fresh results take the place of the widgets' old ones in a loaded batch. */
  lemma FreshResultsShown(s: State, news: map<string, WidgetResult>)
    ensures var t := Apply(s, Fresh(news));
            && (s.cache.None? ==> t.cache.None?)
            && (s.cache.Some? ==> t.cache.Some? && t.cache.value.Keys == s.cache.value.Keys + news.Keys)
            && (s.cache.Some? ==> forall w :: w in t.cache.value ==>
                  t.cache.value[w] == if w in news then news[w] else s.cache.value[w])
  {
  }

  lemma BatchShown(s: State, results: map<string, WidgetResult>)
    ensures Apply(s, BatchLoaded(results)).cache == Some(results)
  {
  }

  /** A live poll's answer that settles the widget is shown as it is; after the
      sixth pending one the widget fails; another pending one changes nothing. */
  lemma AnswerShown(s: State, k: nat, r: WidgetResult, w: string)
    requires Inv(s) && k in s.flights && w in s.polls && s.polls[w].serial == k
    ensures s.cache.None? ==> Apply(s, Answer(k, r)).cache.None?
    ensures s.cache.Some? ==>
      var c, d := s.cache.value, Apply(s, Answer(k, r)).cache;
      && d.Some?
      && (r.status != StillPending ==> d.value == c[w := r])
      && (r.status == StillPending && s.polls[w].attempt == 5 ==> d.value == c[w := WidgetResult(Failed, "too slow")])
      && (r.status == StillPending && s.polls[w].attempt < 5 ==> d.value == c)
  {
    assert PollOk(s, w, s.polls[w]);
    AnsweredIs(s, k, r, w);
    if s.cache.Some? {
      MergeOne(s.cache.value, w, r);
      MergeOne(s.cache.value, w, TOO_SLOW);
    }
  }

  lemma MergeOne(c: map<string, WidgetResult>, w: string, r: WidgetResult)
    ensures Merge(Some(c), map[w := r]) == Some(c[w := r])
  {
    assert c + map[w := r] == c[w := r];
  }

  lemma HandAnswerShown(s: State, k: nat, r: WidgetResult)
    requires k in s.manual && s.cache.Some?
    ensures Apply(s, HandAnswer(k, r)).cache == Some(s.cache.value[s.manual[k] := r])
    ensures s.manual[k] !in Apply(s, HandAnswer(k, r)).refetching && k !in Apply(s, HandAnswer(k, r)).manual
  {
    MergeOne(s.cache.value, s.manual[k], r);
  }

  /** A fetch by hand of a loaded batch's widget goes out at once and ends its poll. */
  lemma HandFetchSent(s: State, w: string)
    requires Inv(s) && s.cache.Some?
    ensures var t := Apply(s, Refetch(w));
            w !in t.polls && w in t.refetching && exists k :: k in t.manual && k !in s.manual && t.manual[k] == w
  {
    var t := Apply(s, Refetch(w));
    assert t.manual[s.next] == w;
  }
}
