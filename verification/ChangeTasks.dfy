/** Reordering a change's tasks. */
module ChangeTasks {
  import opened Common
  import opened ChangePhases
  import opened ChangeRecord

  ghost predicate SameTickets(ts: seq<Task>, us: seq<Task>) {
    |us| == |ts| && forall i :: 0 <= i < |ts| ==> us[i] == ts[i].(position := us[i].position)
  }

  lemma {:induction false} SameIndex(ts: seq<Task>, us: seq<Task>, ticket: int)
    requires SameTickets(ts, us)
    ensures IndexOfTicket(us, ticket) == IndexOfTicket(ts, ticket)
  {
    if ts != [] && ts[0].ticket != ticket {
      SameIndex(ts[1..], us[1..], ticket);
    }
  }

  /** Only positions change. */
  lemma {:induction false} OnlyPositions(tasks: seq<Task>, order: seq<int>)
    ensures SameTickets(tasks, Reordered(tasks, order))
  {
    if order != [] {
      OnlyPositions(tasks, order[..|order| - 1]);
    }
  }

  /** The position of a ticket's task. */
  function PositionOf(tasks: seq<Task>, ticket: int): int
    requires IndexOfTicket(tasks, ticket) < |tasks|
  {
    tasks[IndexOfTicket(tasks, ticket)].position
  }

  /** The requests the route accepts. */
  ghost predicate Accepted(tasks: seq<Task>, order: seq<int>) {
    |order| == |tasks| && forall x :: x in order ==> IndexOfTicket(tasks, x) < |tasks|
  }

  lemma StillThere(tasks: seq<Task>, order: seq<int>, ticket: int)
    ensures IndexOfTicket(Reordered(tasks, order), ticket) == IndexOfTicket(tasks, ticket)
  {
    OnlyPositions(tasks, order);
    SameIndex(tasks, Reordered(tasks, order), ticket);
  }

  /** The last mention of a ticket decides its position. */
  lemma {:induction false} LastMentionWins(tasks: seq<Task>, order: seq<int>, i: nat)
    requires i < |order| && IndexOfTicket(tasks, order[i]) < |tasks|
    requires forall j :: i < j < |order| ==> order[j] != order[i]
    ensures IndexOfTicket(Reordered(tasks, order), order[i]) < |tasks|
    ensures PositionOf(Reordered(tasks, order), order[i]) == i + 1
  {
    var n := |order| - 1;
    StillThere(tasks, order, order[i]);
    StillThere(tasks, order[..n], order[i]);
    StillThere(tasks, order[..n], order[n]);
    if i < n {
      LastMentionWins(tasks, order[..n], i);
    }
  }

  /** Two tasks and an order that lists the second twice: accepted, and both end
      up in second place. */
  lemma TwiceListedExample(a: Task, b: Task)
    requires a.ticket == 431 && b.ticket == 432 && a.position == 2 && b.position == 1
    ensures Accepted([a, b], [432, 432])
    ensures var ts := Reordered([a, b], [432, 432]);
            IndexOfTicket(ts, 431) < 2 && PositionOf(ts, 431) == 2 && IndexOfTicket(ts, 432) < 2 && PositionOf(ts, 432) == 2
  {
    var ts := [a, b];
    assert ts[1..] == [b] && [b][1..] == [];
    assert IndexOfTicket([b], 432) == 0 && IndexOfTicket(ts, 432) == 1 && IndexOfTicket(ts, 431) == 0;
    var one, two := [a, b.(position := 1)], [a, b.(position := 2)];
    assert one[1..] == [one[1]] && two[1..] == [two[1]];
    assert [432][..0] == [] && [432, 432][..1] == [432];
    assert Reordered(ts, [432]) == one;
    assert IndexOfTicket([one[1]], 432) == 0 && IndexOfTicket(one, 432) == 1;
    assert Reordered(ts, [432, 432]) == two;
    assert IndexOfTicket(two, 431) == 0 && IndexOfTicket([two[1]], 432) == 0 && IndexOfTicket(two, 432) == 1;
  }

  /** An accepted order takes effect exactly when it names no ticket twice;
      the route itself only compares lengths and looks tickets up. */
  lemma OrderTakesEffect(tasks: seq<Task>, order: seq<int>)
    requires Accepted(tasks, order)
    ensures forall i :: 0 <= i < |order| ==> IndexOfTicket(Reordered(tasks, order), order[i]) < |tasks|
    ensures Distinct(order) <==> forall i :: 0 <= i < |order| ==> PositionOf(Reordered(tasks, order), order[i]) == i + 1
  {
    forall i | 0 <= i < |order|
      ensures IndexOfTicket(Reordered(tasks, order), order[i]) < |tasks|
    {
      assert order[i] in order;
      StillThere(tasks, order, order[i]);
    }
    if Distinct(order) {
      forall i | 0 <= i < |order|
        ensures PositionOf(Reordered(tasks, order), order[i]) == i + 1
      {
        LastMentionWins(tasks, order, i);
      }
    }
  }

  lemma {:induction false} FoundTicket(tasks: seq<Task>, ticket: int)
    ensures IndexOfTicket(tasks, ticket) < |tasks| <==> exists i :: 0 <= i < |tasks| && tasks[i].ticket == ticket
  {
    if tasks != [] && tasks[0].ticket != ticket {
      FoundTicket(tasks[1..], ticket);
      if i :| 0 <= i < |tasks| && tasks[i].ticket == ticket {
        assert tasks[1..][i - 1] == tasks[i];
      }
    }
  }

  /** An order is accepted if the change is not final, it has as many entries as
      there are tasks, and each is some task's ticket.  Only positions change. */
  lemma OrderExactly(at: At, order: seq<int>)
    ensures var res, ts := TaskStep(at, OrderTasks(order)), at.r.tasks;
            if at.r.phase !in {Closed, Cancelled} && |order| == |ts| &&
               forall x :: x in order ==> exists i :: 0 <= i < |ts| && ts[i].ticket == x
            then res.answer == Done && res.at == at.(r := at.r.(tasks := res.at.r.tasks)) &&
                 SameTickets(ts, res.at.r.tasks) && Accepted(ts, order) && res.at.r.tasks == Reordered(ts, order)
            else res == Result(at, if at.r.phase in {Closed, Cancelled} then Fail(409, "change_final", []) else Fail(422, "order_mismatch", []))
  {
    forall x
      ensures IndexOfTicket(at.r.tasks, x) < |at.r.tasks| <==> exists i :: 0 <= i < |at.r.tasks| && at.r.tasks[i].ticket == x
    {
      FoundTicket(at.r.tasks, x);
    }
    OnlyPositions(at.r.tasks, order);
  }
}
