/** When the Update of a get-move-update sequence takes effect. Move has already recorded the
    change by then, so this is also when a recorded move never happens. */
module ProtocolWrites {
  import opened OpsModel
  import opened StateMachine
  import opened Store
  import opened Protocol
  import opened ProtocolCopies
  import opened ProtocolStatus
  import opened ProtocolStore

  /** A write about to be made: the copy as it was read, where it is to go, whether the revision
      is checked, and what Move gave as its reason. */
  datatype Pending = Pending(copy: OpsRecord, target: OpsStatus, checked: bool, reason: string)

  function FlightPending(req: Request, at: Flight): Option<Pending> {
    if at.Writing? then Some(Pending(at.copy, req.target, req.expected > 0, "operator update")) else None
  }

  function PendingOf(p: Proc): Option<Pending> {
    match p
    case Operating(req, at) => FlightPending(req, at)
    case Closing(item, _, at, _) => FlightPending(CloseRequest(item), at)
    case Batching(job, _, _, InItem(_, Writing(copy))) => Some(Pending(copy, job.to, true, "batch"))
    case _ => None
  }

  /** Move has recorded it, unless the status stays. */
  predicate Recorded(sh: Shared, w: Pending) {
    w.copy.status != w.target ==> OpsTransition(w.copy.status, w.target, w.reason) in sh.history
  }

  /** What a process in flight knows whatever the others do. */
  predicate LocalOk(p: Proc) {
    match p
    case Operating(req, at) => RequestOk(req, at)
    case Closing(item, _, at, asOf) =>
      item.status == Active && asOf(item.updatedAt) && RequestOk(CloseRequest(item), at)
    case Batching(job, _, _, InItem(id, at)) =>
      && (at.Moving? || at.Writing? ==> at.copy.id == id && at.copy.revision >= 1)
      && (at.Writing? ==> CanMove(at.copy.status, job.to))
    case _ => true
  }

  predicate WriteOk(sh: Shared, p: Proc) {
    LocalOk(p) && (PendingOf(p).Some? ==> Recorded(sh, PendingOf(p).value))
  }

  ghost predicate WritesInv(s: State) {
    && StoreInv(s) && OnlyEdges(s.shared.history)
    && forall pid :: pid in s.procs ==> WriteOk(s.shared, s.procs[pid])
  }

  /** The history only grows, and by edges only. */
  predicate HistoryGrows(sh: Shared, sh': Shared) {
    sh.history <= sh'.history && (OnlyEdges(sh.history) ==> OnlyEdges(sh'.history))
  }

  lemma MoveGrows(history: seq<OpsTransition>, from: OpsStatus, to: OpsStatus, reason: string)
    ensures var r := MoveResult(history, from, to, reason);
            r.Ok? ==>
              && CanMove(from, to) && history <= r.value && (OnlyEdges(history) ==> OnlyEdges(r.value))
              && (from != to ==> OpsTransition(from, to, reason) in r.value)
  {
  }

  lemma UpdatedHistory(sh: Shared, copy: OpsRecord, target: OpsStatus, expected: int, env: Env, writer: Writer)
    ensures var r := Updated(sh, copy, target, expected, env, writer); r.Ok? ==> r.value.history == sh.history
  {
  }

  lemma TransitionWrites(sh: Shared, req: Request, at: Flight, env: Env)
    requires Keyed(sh.items) && RequestOk(req, at)
    ensures var (sh', at') := TransitionStep(sh, req, at, env);
            && HistoryGrows(sh, sh')
            && (at'.Some? ==>
                  && RequestOk(req, at'.value)
                  && (at'.value.Writing? ==> Recorded(sh', FlightPending(req, at'.value).value)))
  {
  }

  lemma OperatorWrites(sh: Shared, p: Proc, env: Env)
    requires Keyed(sh.items) && p.Operating? && LocalOk(p)
    ensures var (sh', p') := OperatorStep(sh, p.request, p.at, env); HistoryGrows(sh, sh') && WriteOk(sh', p')
  {
    hide TransitionStep, RequestOk, HistoryGrows;
    TransitionWrites(sh, p.request, p.at, env);
  }

  lemma WorkerWrites(sh: Shared, p: Proc, env: Env)
    requires Keyed(sh.items) && IsWorker(p) && LocalOk(p)
    ensures var (sh', p') := WorkerStep(sh, p, env); HistoryGrows(sh, sh') && WriteOk(sh', p')
  {
    hide TransitionStep;
    if p.Closing? {
      hide RequestOk, HistoryGrows;
      TransitionWrites(sh, CloseRequest(p.item), p.at, env);
    }
  }

  lemma BatchWrites(sh: Shared, pid: nat, p: Proc, env: Env)
    requires Keyed(sh.items) && p.Batching? && LocalOk(p)
    ensures var (sh', p') := BatchStep(sh, pid, p, env); HistoryGrows(sh, sh') && WriteOk(sh', p')
  {
    hide Edge, OnlyEdges, Updated;
    if p.point.InItem? {
      match p.point.at
      case Moving(copy) => MoveGrows(sh.history, copy.status, p.job.to, "batch");
      case Writing(copy) => UpdatedHistory(sh, copy, p.job.to, copy.revision, env, ByBatch(pid));
      case _ =>
    }
  }

  lemma OthersWriteNothing(sh: Shared, pid: nat, p: Proc, env: Env)
    requires !p.Operating? && !IsWorker(p) && !p.Batching?
    ensures var (sh', p') := ProcStep(sh, pid, p, env); HistoryGrows(sh, sh') && WriteOk(sh', p')
  {
    hide NormalizeOpsRecord, Edge;
  }

  lemma StepWrites(sh: Shared, pid: nat, p: Proc, env: Env)
    requires Keyed(sh.items) && LocalOk(p)
    ensures var (sh', p') := ProcStep(sh, pid, p, env); HistoryGrows(sh, sh') && WriteOk(sh', p')
  {
    hide CreateStep, OperatorStep, WorkerStep, BatchStep, ArchiveStep, ClaimStep, WriteOk, LocalOk, HistoryGrows, Keyed;
    if p.Operating? { OperatorWrites(sh, p, env); }
    else if IsWorker(p) { WorkerWrites(sh, p, env); }
    else if p.Batching? { BatchWrites(sh, pid, p, env); }
    else { OthersWriteNothing(sh, pid, p, env); }
  }

  lemma RecordedStays(sh: Shared, sh': Shared, p: Proc)
    requires WriteOk(sh, p) && HistoryGrows(sh, sh')
    ensures WriteOk(sh', p)
  {
  }

  lemma FreshWrites(sh: Shared, call: Call)
    ensures WriteOk(sh, Begin(call))
  {
  }

  lemma NextKeepsWrites(s: State, turn: Turn)
    requires WritesInv(s)
    ensures WritesInv(Next(s, turn))
  {
    hide ProcStep, Begin, LocalOk, StoreInv, OnlyEdges, PendingOf;
    NextKeepsStore(s, turn);
    match turn
    case Spawn(pid, call) => FreshWrites(s.shared, call);
    case Step(pid, env) =>
      if pid in s.procs {
        var sh' := ProcStep(s.shared, pid, s.procs[pid], env).0;
        KeyedNow(s);
        StepWrites(s.shared, pid, s.procs[pid], env);
        forall q | q in s.procs ensures WriteOk(sh', s.procs[q]) { RecordedStays(s.shared, sh', s.procs[q]); }
      }
  }

  lemma KeyedNow(s: State)
    requires StoreInv(s)
    ensures Keyed(s.shared.items)
  {
  }

  lemma {:induction false} RunKeepsWrites(s: State, schedule: seq<Turn>)
    requires WritesInv(s)
    ensures WritesInv(Run(s, schedule))
    decreases |schedule|
  {
    hide WritesInv;
    if schedule != [] {
      NextKeepsWrites(s, schedule[0]);
      RunKeepsWrites(Next(s, schedule[0]), schedule[1..]);
    }
  }

  lemma BootWrites(seed: seq<OpsRecord>, unitLimit: nat)
    ensures WritesInv(Boot(seed, unitLimit))
  {
  }

  /** The record a write puts in place of the stored one. */
  function Written(w: Pending, stored: OpsRecord, now: string): OpsRecord {
    w.copy.(status := w.target, revision := stored.revision + 1, updatedAt := now)
  }

  /** The write step, exactly. */
  predicate WritesExactly(sh: Shared, w: Pending, env: Env, sh': Shared) {
    if env.cancelled || w.copy.id !in sh.items || (w.checked && sh.items[w.copy.id].revision != w.copy.revision) then
      sh' == sh
    else
      && sh'.items == sh.items[w.copy.id := Written(w, sh.items[w.copy.id], env.now)]
      && |sh'.writes| == |sh.writes| + 1 && sh'.history == sh.history
  }

  lemma FlightWritesExactly(sh: Shared, req: Request, at: Flight, env: Env)
    requires RequestOk(req, at) && at.Writing?
    ensures WritesExactly(sh, FlightPending(req, at).value, env, TransitionStep(sh, req, at, env).0)
  {
  }

  lemma StepWritesExactly(sh: Shared, pid: nat, p: Proc, env: Env)
    requires LocalOk(p) && PendingOf(p).Some?
    ensures WritesExactly(sh, PendingOf(p).value, env, ProcStep(sh, pid, p, env).0)
  {
    hide CreateStep, ArchiveStep, ClaimStep, TransitionStep, RequestOk, CanMove;
    if p.Operating? { FlightWritesExactly(sh, p.request, p.at, env); }
    if p.Closing? { FlightWritesExactly(sh, CloseRequest(p.item), p.at, env); }
  }

  /** In every run, whichever ids are created again: the history holds edges only; a process about
      to write has its move in it; and the step leaves that move without effect, the state as it
      was, exactly if the context has ended, the record is gone, or a revision is checked and the
      stored one is not the one read. Otherwise exactly that record moves. */
  lemma MovesTakeEffectExactly(seed: seq<OpsRecord>, unitLimit: nat, schedule: seq<Turn>, pid: nat, env: Env)
    ensures var s := Run(Boot(seed, unitLimit), schedule);
            && OnlyEdges(s.shared.history)
            && (pid in s.procs && PendingOf(s.procs[pid]).Some? ==>
                  var w := PendingOf(s.procs[pid]).value;
                  Recorded(s.shared, w) && WritesExactly(s.shared, w, env, Next(s, Step(pid, env)).shared))
  {
    hide ProcStep, LocalOk, PendingOf, WritesExactly, Recorded, OnlyEdges, Boot;
    var s := Run(Boot(seed, unitLimit), schedule);
    BootWrites(seed, unitLimit);
    RunKeepsWrites(Boot(seed, unitLimit), schedule);
    if pid in s.procs && PendingOf(s.procs[pid]).Some? {
      assert WriteOk(s.shared, s.procs[pid]);
      StepWritesExactly(s.shared, pid, s.procs[pid], env);
    }
  }

  // ---- A recorded move that never happens ----

  const CUT := Env(true, "", (stamp: string) => false, SomeRecord(Queued))

  /** Read, move, and then the context ends. */
  function CutShort(): seq<Turn> {
    [Spawn(0, TransitionCall(Request("r", 1, Paused, "a"))), Step(0, PLAIN), Step(0, PLAIN), Step(0, CUT)]
  }

  lemma MoveThatNeverHappened()
    ensures var s := Run(Boot([SomeRecord(Active)], 1), CutShort());
            && s.shared.history == [OpsTransition(Active, Paused, "operator update")] && s.shared.writes == []
            && s.shared.items == map["r" := SomeRecord(Active)] && s.procs == map[0 := Finished]
  {
    hide NormalizeOpsRecord, BatchStep, WorkerStep, CreateStep, ArchiveStep, ClaimStep;
    SomeRecordIsNormal(Active);
    var turns, s0 := CutShort(), Boot([SomeRecord(Active)], 1);
    var s1 := Next(s0, turns[0]);
    var s2 := Next(s1, turns[1]);
    var s3 := Next(s2, turns[2]);
    var s4 := Next(s3, turns[3]);
    assert turns[1..][1..] == turns[2..] && turns[2..][1..] == turns[3..] && turns[3..][1..] == [];
    assert Run(s3, turns[3..]) == s4;
    assert Run(s2, turns[2..]) == s4;
    assert Run(s1, turns[1..]) == s4;
  }
}
