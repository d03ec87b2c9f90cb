/** The count BulkComplete returns. It is meant to say how many sessions were completed; the reading
    loop stops at the first hard error, so it says less on some schedules. */
module BulkCount {
  import opened OpsModel
  import opened Sessions
  import opened BulkComplete

  /** All the steps of goroutine i. */
  function AllSteps(i: nat): seq<Turn> {
    [Go(i, ""), Go(i, "")] + [Go(i, "")]
  }

  /** All the steps of the goroutines from i on. */
  function Remaining(i: nat, n: nat): seq<Turn>
    decreases n - i
  {
    if i >= n then [] else AllSteps(i) + Remaining(i + 1, n)
  }

  lemma {:induction false} RunConcat(b: Bulk, first: seq<Turn>, second: seq<Turn>)
    ensures Run(b, first + second) == Run(Run(b, first), second)
    decreases |first|
  {
    hide Next;
    if first == [] {
      assert first + second == second;
    } else {
      assert (first + second)[1..] == first[1..] + second;
      RunConcat(Next(b, first[0]), first[1..], second);
    }
  }

  lemma AloneConcat(first: seq<Turn>, second: seq<Turn>)
    requires Alone(first) && Alone(second)
    ensures Alone(first + second)
  {
  }

  lemma {:induction false} RemainingAlone(i: nat, n: nat)
    ensures Alone(Remaining(i, n))
    decreases n - i
  {
    if i < n { RemainingAlone(i + 1, n); }
  }

  // ---- Everything is sent in the end, and what was received first stays first ----

  /** No result received is lost, and no goroutine goes back. */
  predicate Onward(b: Bulk, b': Bulk) {
    && b'.ids == b.ids && |b'.points| == |b.points| && b.results <= b'.results
    && forall i :: 0 <= i < |b.points| && b.points[i].Sent? ==> b'.points[i].Sent?
  }

  lemma NextOnward(b: Bulk, turn: Turn)
    ensures Onward(b, Next(b, turn))
  {
    hide CloseResult, After;
  }

  lemma {:induction false} RunOnward(b: Bulk, schedule: seq<Turn>)
    ensures Onward(b, Run(b, schedule))
    decreases |schedule|
  {
    hide Next;
    if schedule == [] {
      RunNothing(b);
    } else {
      NextOnward(b, schedule[0]);
      RunOnward(Next(b, schedule[0]), schedule[1..]);
    }
  }

  lemma RunOne(b: Bulk, turn: Turn)
    ensures Run(b, [turn]) == Next(b, turn)
  {
    assert [turn][1..] == [];
  }

  lemma RunTwo(b: Bulk, first: Turn, second: Turn)
    ensures Run(b, [first, second]) == Next(Next(b, first), second)
  {
    hide Next;
    assert [first, second][1..] == [second];
    RunOne(Next(b, first), second);
  }

  lemma RunThree(b: Bulk, i: nat)
    ensures Run(b, AllSteps(i)) == Next(Next(Next(b, Go(i, "")), Go(i, "")), Go(i, ""))
  {
    hide Next, Run;
    RunConcat(b, [Go(i, ""), Go(i, "")], [Go(i, "")]);
    RunTwo(b, Go(i, ""), Go(i, ""));
    RunOne(Next(Next(b, Go(i, "")), Go(i, "")), Go(i, ""));
  }

  /** How many steps goroutine i has left at most. */
  function Left(b: Bulk, i: nat): nat
    requires i < |b.points|
  {
    match b.points[i]
    case Ready => 3
    case Completing => 2
    case Sending(_) => 1
    case Sent(_) => 0
  }

  lemma LeftLess(b: Bulk, i: nat)
    requires i < |b.points| == |b.ids| && (b.points[i].Sending? ==> |b.results| < |b.ids|)
    ensures var b' := Next(b, Go(i, ""));
            && |b'.points| == |b.points|
            && Left(b', i) <= if Left(b, i) == 0 then 0 else Left(b, i) - 1
  {
    hide CloseResult;
  }

  lemma OneLess(b: Bulk, i: nat)
    requires BulkOk(b) && i < |b.points|
    ensures var b' := Next(b, Go(i, ""));
            && BulkOk(b') && |b'.points| == |b.points|
            && Left(b', i) <= if Left(b, i) == 0 then 0 else Left(b, i) - 1
  {
    hide Next, DeskOk, ChannelOk, WonOk, Left;
    NextKeeps(b, Go(i, ""));
    CountOfAll(b);
    LeftLess(b, i);
  }

  lemma StepsSend(b: Bulk, i: nat)
    requires BulkOk(b) && i < |b.points|
    ensures var b' := Run(b, AllSteps(i)); BulkOk(b') && Onward(b, b') && b'.points[i].Sent?
  {
    hide BulkOk, Next;
    RunOnward(b, AllSteps(i));
    RunThree(b, i);
    OneLess(b, i);
    OneLess(Next(b, Go(i, "")), i);
    OneLess(Next(Next(b, Go(i, "")), Go(i, "")), i);
  }

  lemma {:induction false} RemainingSend(b: Bulk, i: nat)
    requires BulkOk(b) && i <= |b.points| && forall k :: 0 <= k < i ==> b.points[k].Sent?
    ensures AllSent(Run(b, Remaining(i, |b.points|)))
    decreases |b.points| - i
  {
    hide BulkOk, Run;
    if i < |b.points| {
      StepsSend(b, i);
      RunConcat(b, AllSteps(i), Remaining(i + 1, |b.points|));
      RemainingSend(Run(b, AllSteps(i)), i + 1);
    } else {
      hide *;
      RunNothing(b);
    }
  }

  lemma RunNothing(b: Bulk)
    ensures Run(b, []) == b
  {
  }

  // ---- A refusal that arrives first ----

  /** Goroutine i finds its session finished and sends that before anybody else sends anything. */
  lemma RefusedFirst(b: Bulk, i: nat)
    requires i < |b.points| == |b.ids| && b.points[i] == Ready && !b.cancelled && b.results == []
    requires b.ids[i] in b.desk.sessions && !IsOpen(b.desk, b.ids[i])
    ensures Run(b, AllSteps(i)).results == [Some(TransitionRefused)]
  {
    RunThree(b, i);
    hide Run;
  }

  /** Goroutine i completes its session and has not sent yet. */
  lemma CompletesQuietly(b: Bulk, i: nat)
    requires i < |b.points| == |b.ids| && b.points[i] == Ready && !b.cancelled && IsOpen(b.desk, b.ids[i])
    ensures var b' := Run(b, [Go(i, ""), Go(i, "")]);
            && b'.ids == b.ids && b'.results == b.results && b'.cancelled == b.cancelled
            && |b'.points| == |b.points| && (forall k :: 0 <= k < |b.points| && k != i ==> b'.points[k] == b.points[k])
            && b.ids[i] in b'.desk.sessions && !IsOpen(b'.desk, b.ids[i])
  {
    RunTwo(b, Go(i, ""), Go(i, ""));
    hide Run;
  }

  /** A known id that is not open, or is listed twice. */
  lemma SoilsList(desk: Desk, ids: seq<string>) returns (i: nat, j: nat)
    requires !CleanList(desk, ids)
    ensures i < |ids| && j < |ids| && ids[j] == ids[i] && ids[i] in desk.sessions && (IsOpen(desk, ids[i]) ==> j != i)
  {
    i :| 0 <= i < |ids| && ids[i] in desk.sessions
         && !(IsOpen(desk, ids[i]) && forall j :: 0 <= j < |ids| && j != i ==> ids[j] != ids[i]);
    j := i;
    if IsOpen(desk, ids[i]) {
      j :| 0 <= j < |ids| && j != i && ids[j] == ids[i];
    }
  }

  /** The turns up to the first result, a refusal. */
  lemma RefusalArrives(desk: Desk, ids: seq<string>) returns (turns: seq<Turn>)
    requires !CleanList(desk, ids)
    ensures Alone(turns) && Run(Start(desk, ids), turns).results == [Some(TransitionRefused)]
  {
    var i, j := SoilsList(desk, ids);
    hide Run, CleanList, Next;
    var b := Start(desk, ids);
    if IsOpen(desk, ids[i]) {
      CompletesQuietly(b, i);
      RefusedFirst(Run(b, [Go(i, ""), Go(i, "")]), j);
      RunConcat(b, [Go(i, ""), Go(i, "")], AllSteps(j));
      return [Go(i, ""), Go(i, "")] + AllSteps(j);
    } else {
      RefusedFirst(b, i);
      return AllSteps(i);
    }
  }

  /** The call by itself, uncancelled, to its end. */
  ghost predicate Undisturbed(desk: Desk, ids: seq<string>, schedule: seq<Turn>) {
    Alone(schedule) && AllSent(Run(Start(desk, ids), schedule))
  }

  function CountReturned(desk: Desk, ids: seq<string>, schedule: seq<Turn>): nat {
    Read(Run(Start(desk, ids), schedule).results).0
  }

  /** A list with a duplicate or a finished session: some schedule returns 0 and completes all the
      open sessions on the list. */
  lemma ShortCount(desk: Desk, ids: seq<string>) returns (schedule: seq<Turn>)
    requires DeskOk(desk) && !CleanList(desk, ids)
    ensures Undisturbed(desk, ids, schedule) && CountReturned(desk, ids, schedule) == 0
    ensures Settled(desk, OpenListed(desk, ids), Run(Start(desk, ids), schedule).desk)
  {
    hide Run, DeskOk, BulkOk, Settled, CleanList, Remaining, Onward;
    var turns := RefusalArrives(desk, ids);
    var start, rest := Start(desk, ids), Remaining(0, |ids|);
    StartOk(desk, ids);
    RunKeeps(start, turns);
    RemainingAlone(0, |ids|);
    AloneConcat(turns, rest);
    RunConcat(start, turns, rest);
    schedule := turns + rest;
    RefusedRun(Run(start, turns), |ids|);
    SameOutcomeOnEverySchedule(desk, ids, schedule);
  }

  lemma RefusedRun(b: Bulk, n: nat)
    requires BulkOk(b) && |b.ids| == n && b.results == [Some(TransitionRefused)]
    ensures AllSent(Run(b, Remaining(0, n))) && Read(Run(b, Remaining(0, n)).results).0 == 0
  {
    hide DeskOk, ChannelOk, WonOk, Run;
    RemainingSend(b, 0);
    RunOnward(b, Remaining(0, n));
    assert Run(b, Remaining(0, n)).results[0] == Some(TransitionRefused);
  }

  /** Alone and uncancelled, the count is the number of sessions completed on every schedule exactly
      if each known id was open and listed once, or there was nothing to complete. */
  lemma CountIsExactly(desk: Desk, ids: seq<string>)
    requires DeskOk(desk)
    ensures (forall schedule :: Undisturbed(desk, ids, schedule) ==>
                                  CountReturned(desk, ids, schedule) == |OpenListed(desk, ids)|)
            <==> CleanList(desk, ids) || OpenListed(desk, ids) == {}
  {
    hide DeskOk, Run, Settled, CleanList, AllSent;
    if CleanList(desk, ids) || OpenListed(desk, ids) == {} {
      forall schedule | Undisturbed(desk, ids, schedule)
        ensures CountReturned(desk, ids, schedule) == |OpenListed(desk, ids)|
      {
        SameOutcomeOnEverySchedule(desk, ids, schedule);
      }
    } else {
      var schedule := ShortCount(desk, ids);
      assert Undisturbed(desk, ids, schedule);
    }
  }

  /** One open session listed twice, say. */
  lemma ListedTwice(desk: Desk, id: string) returns (schedule: seq<Turn>)
    requires DeskOk(desk) && IsOpen(desk, id)
    ensures Undisturbed(desk, [id, id], schedule) && CountReturned(desk, [id, id], schedule) == 0
    ensures OpenListed(desk, [id, id]) == {id}
    ensures Settled(desk, {id}, Run(Start(desk, [id, id]), schedule).desk)
  {
    hide DeskOk, Run, Settled;
    assert [id, id][0] == [id, id][1];
    assert OpenListed(desk, [id, id]) == {id};
    schedule := ShortCount(desk, [id, id]);
  }
}
