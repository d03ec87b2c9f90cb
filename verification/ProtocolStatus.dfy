/** Which status changes an interleaving can cause, and exactly which Transition requests keep
    them on the table. */
module ProtocolStatus {
  import opened Text
  import opened OpsModel
  import opened StateMachine
  import opened Store
  import opened Protocol
  import opened ProtocolCopies

  /** A revision to check, or a target that is legal from wherever the record has gone. */
  predicate SafeRequest(expected: int, target: OpsStatus) {
    expected > 0 || target == Closed || target.OtherStatus?
  }

  predicate SafeTurn(turn: Turn) {
    turn.Spawn? && turn.call.TransitionCall? ==> SafeRequest(turn.call.request.expected, turn.call.request.target)
  }

  predicate SafeSchedule(schedule: seq<Turn>) {
    forall i :: 0 <= i < |schedule| ==> SafeTurn(schedule[i])
  }

  /** A copy outside the table, or of a record outside the table, has the stored status. */
  predicate Aligned(sh: Shared, c: OpsRecord) {
    c.id in sh.items && (c.status.OtherStatus? || sh.items[c.id].status.OtherStatus?) ==>
      c.status == sh.items[c.id].status
  }

  ghost predicate ProcSafe(sh: Shared, p: Proc) {
    && (p.Operating? ==> SafeRequest(p.request.expected, p.request.target))
    && forall c :: Holds(p, c) ==> Aligned(sh, c)
  }

  ghost predicate StatusInv(s: State) {
    CopyInv(s) && forall pid :: pid in s.procs ==> ProcSafe(s.shared, s.procs[pid])
  }

  /** Every record present before and after keeps its status or follows an edge. */
  predicate OnTable(items: Items, items': Items) {
    forall k :: k in items && k in items' ==> CanMove(items[k].status, items'[k].status)
  }

  lemma UpdateOnTable(sh: Shared, copy: OpsRecord, target: OpsStatus, expected: int, env: Env, writer: Writer)
    requires StoreOk(sh) && CopyOk(sh, copy) && Aligned(sh, copy) && CanMove(copy.status, target)
    requires SafeRequest(expected, target) && (expected > 0 ==> copy.revision == expected)
    ensures var r := Updated(sh, copy, target, expected, env, writer); r.Ok? ==> OnTable(sh.items, r.value.items)
  {
  }

  lemma TransitionOnTable(sh: Shared, req: Request, at: Flight, env: Env)
    requires StoreOk(sh) && RequestOk(req, at) && SafeRequest(req.expected, req.target)
    requires forall c :: InFlight(at, c) ==> CopyOk(sh, c) && Aligned(sh, c)
    ensures OnTable(sh.items, TransitionStep(sh, req, at, env).0.items)
  {
    if at.Writing? {
      assert InFlight(at, at.copy);
      UpdateOnTable(sh, at.copy, req.target, req.expected, env, ByTransition);
    }
  }

  lemma BatchOnTable(sh: Shared, pid: nat, p: Proc, env: Env)
    requires StoreOk(sh) && CopiesOk(sh, p) && ProcSafe(sh, p) && p.Batching?
    ensures OnTable(sh.items, BatchStep(sh, pid, p, env).0.items)
  {
    if p.point.InItem? && p.point.at.Writing? {
      var copy := p.point.at.copy;
      assert Holds(p, copy);
      UpdateOnTable(sh, copy, p.job.to, copy.revision, env, ByBatch(pid));
    }
  }

  lemma WorkerOnTable(sh: Shared, p: Proc, env: Env)
    requires StoreOk(sh) && CopiesOk(sh, p) && ProcSafe(sh, p) && IsWorker(p)
    ensures OnTable(sh.items, WorkerStep(sh, p, env).0.items)
  {
    hide TransitionStep;
    if p.Closing? {
      forall c | InFlight(p.at, c) ensures CopyOk(sh, c) && Aligned(sh, c) { assert Holds(p, c); }
      TransitionOnTable(sh, CloseRequest(p.item), p.at, env);
    }
  }

  lemma OthersLeaveStatus(sh: Shared, pid: nat, p: Proc, env: Env)
    requires IsCreate(p) || IsClaim(p) || IsArchive(p)
    ensures OnTable(sh.items, ProcStep(sh, pid, p, env).0.items)
  {
  }

  lemma StepOnTable(sh: Shared, pid: nat, p: Proc, env: Env)
    requires StoreOk(sh) && CopiesOk(sh, p) && ProcSafe(sh, p)
    ensures OnTable(sh.items, ProcStep(sh, pid, p, env).0.items)
  {
    hide TransitionStep, WorkerStep, BatchStep, CreateStep, ArchiveStep, ClaimStep;
    if IsCreate(p) || IsClaim(p) || IsArchive(p) {
      OthersLeaveStatus(sh, pid, p, env);
    } else if p.Operating? {
      forall c | InFlight(p.at, c) ensures CopyOk(sh, c) && Aligned(sh, c) { assert Holds(p, c); }
      TransitionOnTable(sh, p.request, p.at, env);
    } else if IsWorker(p) {
      WorkerOnTable(sh, p, env);
    } else if p.Batching? {
      BatchOnTable(sh, pid, p, env);
    }
  }

  lemma AlignmentSurvives(sh: Shared, sh': Shared, c: OpsRecord)
    requires OnTable(sh.items, sh'.items) && Aligned(sh, c) && (c.id in sh'.items ==> c.id in sh.items)
    ensures Aligned(sh', c)
  {
  }

  /** c was held before a step of p, or read from the store by a step that changed nothing. */
  predicate HeldOrRead(sh: Shared, p: Proc, sh': Shared, c: OpsRecord) {
    Holds(p, c) || (c.id in sh.items && sh.items[c.id] == c && sh'.items == sh.items)
  }

  lemma WorkerCopies(sh: Shared, p: Proc, env: Env, c: OpsRecord)
    requires Keyed(sh.items) && IsWorker(p) && Holds(WorkerStep(sh, p, env).1, c)
    ensures HeldOrRead(sh, p, WorkerStep(sh, p, env).0, c)
  {
  }

  lemma BatchCopies(sh: Shared, pid: nat, p: Proc, env: Env, c: OpsRecord)
    requires Keyed(sh.items) && p.Batching? && Holds(BatchStep(sh, pid, p, env).1, c)
    ensures HeldOrRead(sh, p, BatchStep(sh, pid, p, env).0, c)
  {
  }

  lemma WhereCopiesComeFrom(sh: Shared, pid: nat, p: Proc, env: Env, c: OpsRecord)
    requires Keyed(sh.items) && Holds(ProcStep(sh, pid, p, env).1, c)
    ensures HeldOrRead(sh, p, ProcStep(sh, pid, p, env).0, c)
  {
    hide WorkerStep, BatchStep;
    if IsWorker(p) {
      WorkerCopies(sh, p, env, c);
    } else if p.Batching? {
      BatchCopies(sh, pid, p, env, c);
    }
  }

  lemma StepKeepsRequest(sh: Shared, pid: nat, p: Proc, env: Env)
    ensures var p' := ProcStep(sh, pid, p, env).1; p'.Operating? ==> p.Operating? && p'.request == p.request
  {
  }

  lemma NextKeepsStatus(s: State, turn: Turn)
    requires StatusInv(s) && !Recreates(s, turn) && SafeTurn(turn)
    ensures StatusInv(Next(s, turn)) && OnTable(s.shared.items, Next(s, turn).shared.items)
  {
    hide ProcStep;
    var s' := Next(s, turn);
    NextKeepsCopies(s, turn);
    match turn
    case Spawn(pid, call) =>
      BeginOk(call);
    case Step(pid, env) =>
      if pid in s.procs {
        StepOnTable(s.shared, pid, s.procs[pid], env);
        StepKeepsRequest(s.shared, pid, s.procs[pid], env);
        forall q, c | q in s'.procs && Holds(s'.procs[q], c) ensures Aligned(s'.shared, c) {
          if q == pid && !Holds(s.procs[pid], c) {
            WhereCopiesComeFrom(s.shared, pid, s.procs[pid], env, c);
          } else {
            assert ProcSafe(s.shared, s.procs[q]) && CopiesOk(s.shared, s.procs[q]);
            AlignmentSurvives(s.shared, s'.shared, c);
          }
        }
      }
  }

  /** The statuses stored under id in the successive states of a run. */
  function StatusTrail(s: State, schedule: seq<Turn>, id: string): seq<OpsStatus>
    decreases |schedule|
  {
    (if id in s.shared.items then [s.shared.items[id].status] else [])
    + (if schedule == [] then [] else StatusTrail(Next(s, schedule[0]), schedule[1..], id))
  }

  /** An id that was deleted stays deleted. */
  lemma {:induction false} GoneForGood(s: State, schedule: seq<Turn>, id: string)
    requires CopyInv(s) && NoRecreation(s, schedule) && id in s.shared.born && id !in s.shared.items
    ensures StatusTrail(s, schedule, id) == []
    decreases |schedule|
  {
    if schedule != [] {
      NextKeepsCopies(s, schedule[0]);
      GoneForGood(Next(s, schedule[0]), schedule[1..], id);
    }
  }

  lemma TrailStep(s: State, schedule: seq<Turn>, id: string)
    requires schedule != []
    requires var s', rest := Next(s, schedule[0]), schedule[1..];
             && Walk(StatusTrail(s', rest, id))
             && (id in s.shared.items ==>
                   if id in s'.shared.items then CanMove(s.shared.items[id].status, s'.shared.items[id].status)
                   else StatusTrail(s', rest, id) == [])
    ensures Walk(StatusTrail(s, schedule, id))
  {
  }

  lemma {:induction false} TrailIsWalk(s: State, schedule: seq<Turn>, id: string)
    requires StatusInv(s) && NoRecreation(s, schedule) && SafeSchedule(schedule)
    ensures Walk(StatusTrail(s, schedule, id))
    decreases |schedule|
  {
    hide Next;
    if schedule != [] {
      var s', rest := Next(s, schedule[0]), schedule[1..];
      assert SafeTurn(schedule[0]);
      NextKeepsStatus(s, schedule[0]);
      TrailIsWalk(s', rest, id);
      if id in s.shared.items && id !in s'.shared.items {
        NextKeepsCopies(s, schedule[0]);
        GoneForGood(s', rest, id);
      }
      TrailStep(s, schedule, id);
    }
  }

  lemma BootStatusOk(seed: seq<OpsRecord>, unitLimit: nat)
    ensures StatusInv(Boot(seed, unitLimit))
  {
  }

  /** For every interleaving of safe operations, every record's stored status walks along the
      table from the moment it is stored, and a closed record stays closed for as long as it
      is stored. */
  lemma StatusFollowsTable(seed: seq<OpsRecord>, unitLimit: nat, schedule: seq<Turn>, id: string)
    requires NoRecreation(Boot(seed, unitLimit), schedule) && SafeSchedule(schedule)
    ensures var trail := StatusTrail(Boot(seed, unitLimit), schedule, id);
            && Walk(trail)
            && forall i, j :: 0 <= i <= j < |trail| && trail[i] == Closed ==> trail[j] == Closed
  {
    hide Next, Boot;
    var trail := StatusTrail(Boot(seed, unitLimit), schedule, id);
    BootStatusOk(seed, unitLimit);
    TrailIsWalk(Boot(seed, unitLimit), schedule, id);
    forall i, j | 0 <= i <= j < |trail| && trail[i] == Closed ensures trail[j] == Closed {
      WalkEnds(trail[i..j + 1]);
    }
  }

  // ---- The condition is exact ----

  /** Apart from requests that name a revision, a schedule asks for this expected revision and
      target only. */
  predicate AsksOnly(schedule: seq<Turn>, expected: int, target: OpsStatus) {
    forall i :: 0 <= i < |schedule| && schedule[i].Spawn? && schedule[i].call.TransitionCall? ==>
      var req := schedule[i].call.request;
      req.expected > 0 || (req.expected == expected && req.target == target)
  }

  ghost predicate LeavesTable(seed: seq<OpsRecord>, unitLimit: nat, schedule: seq<Turn>, id: string) {
    NoRecreation(Boot(seed, unitLimit), schedule) && !Walk(StatusTrail(Boot(seed, unitLimit), schedule, id))
  }

  /** A Transition request can take a record off the table, in company with checked requests
      only, exactly when it is not a safe request. */
  lemma SafeRequestsExactly(expected: int, target: OpsStatus)
    ensures SafeRequest(expected, target) <==>
            !exists seed, unitLimit, schedule, id ::
              AsksOnly(schedule, expected, target) && LeavesTable(seed, unitLimit, schedule, id)
  {
    if SafeRequest(expected, target) {
      forall seed, unitLimit, schedule, id | AsksOnly(schedule, expected, target)
        ensures !LeavesTable(seed, unitLimit, schedule, id)
      {
        assert SafeSchedule(schedule);
        if NoRecreation(Boot(seed, unitLimit), schedule) {
          StatusFollowsTable(seed, unitLimit, schedule, id);
        }
      }
    } else {
      var seed := [SomeRecord(OpeningStatus(target))];
      var schedule := OvertakenSchedule(expected, target);
      OvertakenRun(expected, target);
      assert LeavesTable(seed, 1, schedule, "r");
    }
  }

  /** A status from which the table allows (or a self-move allows) the target. */
  function OpeningStatus(target: OpsStatus): OpsStatus {
    match target
    case Paused => Active
    case _ => Queued
  }

  function SomeRecord(status: OpsStatus): OpsRecord {
    OpsRecord("r", "", "o", status, Normal, 1, map[], "", "")
  }

  const PLAIN := Env(false, "", (stamp: string) => false, SomeRecord(Queued))

  function TwoSteps(first: nat, second: nat): seq<Turn> {
    [Step(first, PLAIN), Step(second, PLAIN)]
  }

  function TwoRequests(expected: int, target: OpsStatus): seq<Turn> {
    [Spawn(0, TransitionCall(Request("r", expected, target, "a"))),
     Spawn(1, TransitionCall(Request("r", 1, Closed, "b")))]
  }

  /** Operator 0 reads and moves; operator 1 closes the record with a checked request; then
      operator 0 writes over it. */
  function OvertakenSchedule(expected: int, target: OpsStatus): seq<Turn> {
    TwoRequests(expected, target) + (TwoSteps(0, 0) + (TwoSteps(1, 1) + TwoSteps(1, 0)))
  }

  lemma SomeRecordIsNormal(status: OpsStatus)
    requires !status.OtherStatus?
    ensures Seeded([SomeRecord(status)]) == map["r" := SomeRecord(status)]
  {
    var r := SomeRecord(status);
    TrimSound("r");
    LowerSound("r");
    TrimSound("o");
    assert NormalizeOpsRecord(r) == r;
    assert Seeded([r][..0]) == map[];
  }

  /** A walk's tail is a walk; a run whose first turn recreates nothing does so iff its rest
      does. */
  lemma OneTurn(s: State, turn: Turn, rest: seq<Turn>, id: string)
    ensures Walk(StatusTrail(s, [turn] + rest, id)) ==> Walk(StatusTrail(Next(s, turn), rest, id))
    ensures NoRecreation(s, [turn] + rest) <==> !Recreates(s, turn) && NoRecreation(Next(s, turn), rest)
  {
    var all := [turn] + rest;
    assert all[1..] == rest;
    var trail, tail := StatusTrail(s, all, id), StatusTrail(Next(s, turn), rest, id);
    assert tail == trail[|trail| - |tail|..];
  }

  /** Undisturbed, an operator reads and moves in two steps. */
  lemma ReadsAndMoves(s: State, pid: nat, req: Request, record: OpsRecord)
    requires pid in s.procs && s.procs[pid] == Operating(req, Reading)
    requires s.shared.items == map[req.id := record] && (req.expected > 0 ==> req.expected == record.revision)
    requires CanMove(record.status, req.target)
    ensures var s' := Next(Next(s, Step(pid, PLAIN)), Step(pid, PLAIN));
            && s'.procs == s.procs[pid := Operating(req, Writing(record))]
            && s'.shared.items == s.shared.items
            && !Recreates(s, Step(pid, PLAIN)) && !Recreates(Next(s, Step(pid, PLAIN)), Step(pid, PLAIN))
  {
  }

  /** The two writes: first the closing one, then the overtaken one. */
  lemma WritesOver(s: State, a: Request, b: Request, record: OpsRecord)
    requires s.shared.items == map["r" := record] && record.id == "r"
    requires s.procs == map[0 := Operating(a, Writing(record)), 1 := Operating(b, Writing(record))]
    requires a.expected <= 0 && b.expected == record.revision && b.target == Closed
    requires !CanMove(Closed, a.target)
    ensures var turns := [Step(1, PLAIN), Step(0, PLAIN)];
            NoRecreation(s, turns) && !Walk(StatusTrail(s, turns, "r"))
  {
    hide NormalizeOpsRecord, BatchStep, WorkerStep, CreateStep, ArchiveStep, ClaimStep;
    var s1 := Next(s, Step(1, PLAIN));
    assert s1.shared.items["r"].status == Closed && s1.procs[0] == s.procs[0];
    var s2 := Next(s1, Step(0, PLAIN));
    assert s2.shared.items["r"].status == a.target;
    var last := [Step(0, PLAIN)];
    assert StatusTrail(s2, [], "r") == [a.target];
    assert StatusTrail(s1, last, "r") == [Closed, a.target] by {
      assert last[1..] == [];
    }
    assert !CanMove([Closed, a.target][0], [Closed, a.target][1]);
    OneTurn(s1, last[0], [], "r");
    OneTurn(s, Step(1, PLAIN), last, "r");
    assert last == [last[0]] + [] && [Step(1, PLAIN)] + last == [Step(1, PLAIN), Step(0, PLAIN)];
  }

  lemma OvertakenAsks(expected: int, target: OpsStatus)
    ensures AsksOnly(OvertakenSchedule(expected, target), expected, target)
  {
  }

  lemma OvertakenRun(expected: int, target: OpsStatus)
    requires !SafeRequest(expected, target)
    ensures AsksOnly(OvertakenSchedule(expected, target), expected, target)
    ensures LeavesTable([SomeRecord(OpeningStatus(target))], 1, OvertakenSchedule(expected, target), "r")
  {
    OvertakenAsks(expected, target);
    var first := SomeRecord(OpeningStatus(target));
    SomeRecordIsNormal(first.status);
    var s0 := Boot([first], 1);
    RequestsArrive(s0, expected, target);
    OvertakenWrites(AfterTwo(s0, TwoRequests(expected, target)), expected, target, first);
    TwoTurns(s0, TwoRequests(expected, target), TwoSteps(0, 0) + (TwoSteps(1, 1) + TwoSteps(1, 0)), "r");
  }

  lemma OvertakenWrites(s: State, expected: int, target: OpsStatus, first: OpsRecord)
    requires !SafeRequest(expected, target) && first == SomeRecord(OpeningStatus(target))
    requires s.shared.items == map["r" := first]
    requires s.procs == map[0 := Operating(Request("r", expected, target, "a"), Reading),
                            1 := Operating(Request("r", 1, Closed, "b"), Reading)]
    ensures var steps := TwoSteps(0, 0) + (TwoSteps(1, 1) + TwoSteps(1, 0));
            NoRecreation(s, steps) && !Walk(StatusTrail(s, steps, "r"))
  {
    hide Next;
    var a, b := Request("r", expected, target, "a"), Request("r", 1, Closed, "b");
    ReadsAndMoves(s, 0, a, first);
    var s' := AfterTwo(s, TwoSteps(0, 0));
    ReadsAndMoves(s', 1, b, first);
    WritesOver(AfterTwo(s', TwoSteps(1, 1)), a, b, first);
    TwoTurns(s', TwoSteps(1, 1), TwoSteps(1, 0), "r");
    TwoTurns(s, TwoSteps(0, 0), TwoSteps(1, 1) + TwoSteps(1, 0), "r");
  }

  function AfterTwo(s: State, turns: seq<Turn>): State
    requires |turns| == 2
  {
    Next(Next(s, turns[0]), turns[1])
  }

  lemma RequestsArrive(s: State, expected: int, target: OpsStatus)
    requires s.procs == map[]
    ensures AfterTwo(s, TwoRequests(expected, target)) ==
            s.(procs := map[0 := Operating(Request("r", expected, target, "a"), Reading),
                            1 := Operating(Request("r", 1, Closed, "b"), Reading)])
    ensures var two := TwoRequests(expected, target);
            !Recreates(s, two[0]) && !Recreates(Next(s, two[0]), two[1])
  {
  }

  lemma TwoTurns(s: State, two: seq<Turn>, rest: seq<Turn>, id: string)
    requires |two| == 2 && !Recreates(s, two[0]) && !Recreates(Next(s, two[0]), two[1])
    requires NoRecreation(AfterTwo(s, two), rest) && !Walk(StatusTrail(AfterTwo(s, two), rest, id))
    ensures NoRecreation(s, two + rest) && !Walk(StatusTrail(s, two + rest, id))
  {
    hide Next, Recreates, Walk;
    assert two + rest == [two[0]] + ([two[1]] + rest);
    OneTurn(Next(s, two[0]), two[1], rest, id);
    OneTurn(s, two[0], [two[1]] + rest, id);
  }
}
