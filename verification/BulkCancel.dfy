/** What BulkComplete does with a context that ends, and what each result says about its session. */
module BulkCancel {
  import opened OpsModel
  import opened Sessions
  import opened BulkComplete

  // ---- The context has ended before the first goroutine starts ----

  /** No goroutine has got to its session, or will. */
  predicate Stopped(p: Point) {
    p == Ready || p == Sending(Some(Cancelled)) || p == Sent(Some(Cancelled))
  }

  ghost predicate AllStopped(desk: Desk, b: Bulk) {
    && b.cancelled && b.desk == desk && b.won == {}
    && (forall i :: 0 <= i < |b.points| ==> Stopped(b.points[i]))
    && (forall v :: v in b.results ==> v == Some(Cancelled))
  }

  lemma GoStaysStopped(desk: Desk, b: Bulk, i: nat, now: string)
    requires AllStopped(desk, b)
    ensures AllStopped(desk, Next(b, Go(i, now)))
  {
    hide CloseResult;
  }

  lemma {:induction false} RunStaysStopped(desk: Desk, b: Bulk, schedule: seq<Turn>)
    requires AllStopped(desk, b) && Alone(schedule)
    ensures AllStopped(desk, Run(b, schedule))
    decreases |schedule|
  {
    hide AllStopped, Next;
    if schedule != [] {
      assert schedule[0].Go?;
      GoStaysStopped(desk, b, schedule[0].i, schedule[0].now);
      RunStaysStopped(desk, Next(b, schedule[0]), schedule[1..]);
    }
  }

  /** A call whose context has ended before it starts leaves the desk alone and completes nothing;
      every result is the context's error, and so, unless the list is empty, is the answer. */
  lemma CancelledCompletesNothing(desk: Desk, ids: seq<string>, schedule: seq<Turn>)
    requires DeskOk(desk) && Alone(schedule)
    ensures var b := Run(Start(desk, ids), [Cancel] + schedule);
            && b.desk == desk && b.won == {} && (forall v :: v in b.results ==> v == Some(Cancelled))
            && (AllSent(b) && ids != [] ==> Read(b.results) == (0, Some(Cancelled)))
  {
    var all := [Cancel] + schedule;
    assert all[1..] == schedule;
    RunStaysStopped(desk, Next(Start(desk, ids), Cancel), schedule);
    CountIsSessionsWon(desk, ids, all);
    var b := Run(Start(desk, ids), all);
    hide Run, DeskOk;
    if AllSent(b) && ids != [] {
      assert b.results[0] in b.results;
    }
  }

  // ---- The context ends at any moment ----

  /** Who is still at the start when the context ends does not get to its session. */
  lemma ReadyStaysOut(b: Bulk, i: nat, turn: Turn)
    requires b.cancelled && i < |b.points| && Stopped(b.points[i])
    ensures var b' := Next(b, turn);
            && b'.cancelled && |b'.points| == |b.points| && Stopped(b'.points[i])
            && b'.ids == b.ids
  {
    hide CloseResult, After;
  }

  lemma WonBySomebody(b: Bulk, turn: Turn, id: string)
    requires id in Next(b, turn).won && id !in b.won
    ensures turn.Go? && turn.i < |b.points| == |b.ids| && b.ids[turn.i] == id && b.points[turn.i] == Completing
  {
    hide CloseResult, After;
  }

  /** Every goroutine for this id is out. */
  predicate Spared(b: Bulk, id: string) {
    b.cancelled && |b.points| == |b.ids| && forall i :: 0 <= i < |b.ids| && b.ids[i] == id ==> Stopped(b.points[i])
  }

  lemma NextSpares(b: Bulk, turn: Turn, id: string)
    requires Spared(b, id)
    ensures Spared(Next(b, turn), id) && (id in Next(b, turn).won ==> id in b.won)
  {
    forall i | 0 <= i < |b.ids| && b.ids[i] == id
      ensures Stopped(Next(b, turn).points[i]) && Next(b, turn).ids == b.ids
    {
      ReadyStaysOut(b, i, turn);
    }
    KeepsLengths(b, turn);
    hide Next;
    if id in Next(b, turn).won && id !in b.won {
      WonBySomebody(b, turn, id);
    }
  }

  lemma KeepsLengths(b: Bulk, turn: Turn)
    ensures var b' := Next(b, turn); b'.ids == b.ids && |b'.points| == |b.points| && (b.cancelled ==> b'.cancelled)
  {
    hide CloseResult, After;
  }

  /** Once the context has ended, an id whose goroutines are all still at the start is not completed
      by this call, whatever the schedule. */
  lemma {:induction false} EndedBeforeStart(b: Bulk, schedule: seq<Turn>, id: string)
    requires Spared(b, id)
    ensures Spared(Run(b, schedule), id) && (id in Run(b, schedule).won ==> id in b.won)
    decreases |schedule|
  {
    hide Next, Spared;
    if schedule != [] {
      NextSpares(b, schedule[0], id);
      EndedBeforeStart(Next(b, schedule[0]), schedule[1..], id);
    }
  }

  // ---- What each result says ----

  predicate SaysWhy(desk0: Desk, b: Bulk, i: nat)
    requires i < |b.points| == |b.ids|
  {
    Decided(b.points[i]) ==>
      var id := b.ids[i];
      match b.points[i].verdict
      case None => id in b.won && id in b.desk.sessions && b.desk.sessions[id].status == Completed
      case Some(NotFound) => id !in desk0.sessions
      case Some(TransitionRefused) => id in b.desk.sessions && b.desk.sessions[id].status != Open
      case Some(Cancelled) => b.cancelled
      case Some(_) => false
  }

  ghost predicate AllSayWhy(desk0: Desk, b: Bulk) {
    && SessionsPersist(desk0, b.desk) && |b.points| == |b.ids|
    && forall i :: 0 <= i < |b.points| ==> SaysWhy(desk0, b, i)
  }

  /** Later states of the desk do not take it back. */
  lemma StillSaysWhy(desk0: Desk, b: Bulk, b': Bulk, i: nat)
    requires i < |b.points| == |b.ids| && b'.ids == b.ids && |b'.points| == |b.points| && b'.points[i] == b.points[i]
    requires SaysWhy(desk0, b, i) && SessionsPersist(b.desk, b'.desk) && b.won <= b'.won
    requires b.cancelled ==> b'.cancelled
    ensures SaysWhy(desk0, b', i)
  {
  }

  lemma GoSaysWhy(desk0: Desk, b: Bulk, i: nat, now: string)
    requires i < |b.points| == |b.ids| && SaysWhy(desk0, b, i) && SessionsPersist(desk0, b.desk)
    ensures SaysWhy(desk0, GoStep(b, i, now), i)
  {
  }

  lemma DeskPersists(b: Bulk, turn: Turn)
    requires DeskOk(b.desk)
    ensures var b' := Next(b, turn);
            && SessionsPersist(b.desk, b'.desk) && b.won <= b'.won
            && forall k :: 0 <= k < |b.points| && !(turn.Go? && turn.i == k) ==> b'.points[k] == b.points[k]
  {
    hide DeskOk, SessionsPersist;
    SamePersists(b.desk);
    match turn
    case Elsewhere(call) => CallKeepsDesk(b.desk, call);
    case Go(i, now) => if i < |b.points| == |b.ids| { CallKeepsDesk(b.desk, CompleteCall(b.ids[i], now)); }
    case Cancel =>
  }

  lemma SamePersists(desk: Desk)
    ensures SessionsPersist(desk, desk)
  {
  }

  lemma NextSaysWhy(desk0: Desk, b: Bulk, turn: Turn)
    requires BulkOk(b) && AllSayWhy(desk0, b)
    ensures AllSayWhy(desk0, Next(b, turn))
  {
    var b' := Next(b, turn);
    DeskPersists(b, turn);
    KeepsLengths(b, turn);
    PersistTransitive(desk0, b.desk, b'.desk);
    forall k | 0 <= k < |b.points| ensures SaysWhy(desk0, b', k) {
      hide SessionsPersist, DeskOk, SaysWhy, BulkOk;
      if turn.Go? && turn.i == k {
        GoSaysWhy(desk0, b, k, turn.now);
      } else {
        hide Next;
        StillSaysWhy(desk0, b, b', k);
      }
    }
  }

  lemma {:induction false} RunSaysWhy(desk0: Desk, b: Bulk, schedule: seq<Turn>)
    requires BulkOk(b) && AllSayWhy(desk0, b)
    ensures AllSayWhy(desk0, Run(b, schedule))
    decreases |schedule|
  {
    hide BulkOk, AllSayWhy, Next;
    if schedule != [] {
      NextKeeps(b, schedule[0]);
      NextSaysWhy(desk0, b, schedule[0]);
      RunSaysWhy(desk0, Next(b, schedule[0]), schedule[1..]);
    }
  }

  lemma {:induction false} CancelledByTurn(b: Bulk, schedule: seq<Turn>)
    ensures Run(b, schedule).cancelled <==> b.cancelled || Cancel in schedule
    decreases |schedule|
  {
    if schedule != [] {
      FlagByTurn(b, schedule[0]);
      hide Next;
      CancelledByTurn(Next(b, schedule[0]), schedule[1..]);
      assert schedule == [schedule[0]] + schedule[1..];
    }
  }

  lemma FlagByTurn(b: Bulk, turn: Turn)
    ensures Next(b, turn).cancelled <==> b.cancelled || turn == Cancel
  {
    hide CloseResult, After;
  }

  /** Under every schedule a nil result is sent for a session this call completed, and completed it
      still is; not-found for an id unknown when the call began; refused for a session that is
      finished; and the context's error only if the context ended. There are no other results. */
  lemma ResultsSayWhy(desk: Desk, ids: seq<string>, schedule: seq<Turn>)
    requires DeskOk(desk)
    ensures var b := Run(Start(desk, ids), schedule);
            && (forall i :: 0 <= i < |b.points| && |b.points| == |b.ids| ==> SaysWhy(desk, b, i))
            && (forall v :: v in b.results ==> v in {None, Some(NotFound), Some(TransitionRefused), Some(Cancelled)})
            && (Some(Cancelled) in b.results ==> Cancel in schedule)
  {
    hide Run, DeskOk, BulkOk, AllSayWhy;
    StartOk(desk, ids);
    StartSaysWhy(desk, ids);
    RunSaysWhy(desk, Start(desk, ids), schedule);
    RunKeeps(Start(desk, ids), schedule);
    CancelledByTurn(Start(desk, ids), schedule);
    ReceivedSayWhy(desk, Run(Start(desk, ids), schedule));
  }

  lemma StartSaysWhy(desk: Desk, ids: seq<string>)
    ensures AllSayWhy(desk, Start(desk, ids))
  {
    SamePersists(desk);
  }

  lemma ReceivedSayWhy(desk: Desk, b: Bulk)
    requires BulkOk(b) && AllSayWhy(desk, b)
    ensures forall i :: 0 <= i < |b.points| && |b.points| == |b.ids| ==> SaysWhy(desk, b, i)
    ensures forall v :: v in b.results ==> v in {None, Some(NotFound), Some(TransitionRefused), Some(Cancelled)}
    ensures Some(Cancelled) in b.results ==> b.cancelled
  {
    hide DeskOk, ChannelOk, WonOk, SessionsPersist;
    forall v | v in b.results
      ensures v in {None, Some(NotFound), Some(TransitionRefused), Some(Cancelled)}
      ensures v == Some(Cancelled) ==> b.cancelled
    {
      var i := ReceivedWasSent(b, v);
      assert SaysWhy(desk, b, i);
    }
  }
}
