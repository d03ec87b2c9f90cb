/** The invariant that makes the unlocked get-move-update sequences sound: every record copy an
    operation holds is either older than the stored record or equal to it. It needs no
    assumption on revisions asked for, only that deleted ids are not created again. */
module ProtocolCopies {
  import opened OpsModel
  import opened StateMachine
  import opened Store
  import opened Protocol

  predicate InFlight(at: Flight, c: OpsRecord) {
    (at.Moving? || at.Writing?) && at.copy == c
  }

  /** Process p works with a copy c of a stored record. */
  predicate Holds(p: Proc, c: OpsRecord) {
    match p
    case Operating(_, at) => InFlight(at, c)
    case Sweeping(todo) => c in todo
    case Closing(item, todo, at, _) => c == item || c in todo || InFlight(at, c)
    case Batching(_, _, _, InItem(_, at)) => InFlight(at, c)
    case Saving(_, copy) => c == copy
    case _ => false
  }

  /** A copy belongs to the record born under its id, and if it carries the stored revision it
      is the stored record. */
  predicate CopyOk(sh: Shared, c: OpsRecord) {
    && c.id in sh.born && c.revision >= 1 && SameIdentity(c, sh.born[c.id])
    && (c.id in sh.items ==>
          c.revision <= sh.items[c.id].revision && (c.revision == sh.items[c.id].revision ==> c == sh.items[c.id]))
  }

  predicate StoreOk(sh: Shared) {
    && Keyed(sh.items) && Keyed(sh.born)
    && forall k :: k in sh.items ==> k in sh.born && SameIdentity(sh.items[k], sh.born[k])
  }

  predicate FlightOk(at: Flight, id: string, target: OpsStatus) {
    && (at.Moving? || at.Writing? || at.Logging? ==> at.copy.id == id)
    && (at.Writing? ==> CanMove(at.copy.status, target))
  }

  predicate RequestOk(req: Request, at: Flight) {
    && FlightOk(at, req.id, req.target)
    && ((at.Moving? || at.Writing?) && req.expected > 0 ==> at.copy.revision == req.expected)
  }

  /** What each program point knows about its own locals. */
  predicate ProcOk(p: Proc) {
    match p
    case Creating(r) => NormalizeOpsRecord(r) == r && r.revision >= 1
    case Operating(req, at) => RequestOk(req, at)
    case Sweeping(todo) => forall c :: c in todo ==> c.revision >= 1
    case Closing(item, todo, at, asOf) =>
      && item.status == Active && asOf(item.updatedAt) && item.revision >= 1 && RequestOk(CloseRequest(item), at)
      && forall c :: c in todo ==> c.revision >= 1
    case Batching(job, _, _, InItem(id, at)) =>
      FlightOk(at, id, job.to) && (at.Moving? || at.Writing? ==> at.copy.status == job.from && at.copy.revision >= 1)
    case Saving(id, copy) => copy.id == id && copy.Terminal()
    case _ => true
  }

  ghost predicate CopiesOk(sh: Shared, p: Proc) {
    ProcOk(p) && forall c :: Holds(p, c) ==> CopyOk(sh, c)
  }

  ghost predicate CopyInv(s: State) {
    StoreOk(s.shared) && forall pid :: pid in s.procs ==> CopiesOk(s.shared, s.procs[pid])
  }

  /** What one step may do to the store: nothing, replace one record by its next revision,
      add a record under a new id, or delete. */
  ghost predicate Evolves(sh: Shared, sh': Shared) {
    && StoreOk(sh')
    && (forall k :: k in sh.born ==> k in sh'.born && sh'.born[k] == sh.born[k])
    && (forall k :: k in sh'.items && k !in sh.items ==> k !in sh.born)
    && (forall k :: k in sh.items && k in sh'.items ==>
          sh'.items[k] == sh.items[k] || sh'.items[k].revision == sh.items[k].revision + 1)
  }

  lemma CopySurvives(sh: Shared, sh': Shared, c: OpsRecord)
    requires StoreOk(sh) && Evolves(sh, sh') && CopyOk(sh, c)
    ensures CopyOk(sh', c)
  {
  }

  lemma SameStoreEvolves(sh: Shared, sh': Shared)
    requires StoreOk(sh) && sh'.items == sh.items && sh'.born == sh.born
    ensures Evolves(sh, sh') && forall c :: CopyOk(sh, c) ==> CopyOk(sh', c)
  {
  }

  lemma UpdateEvolves(sh: Shared, copy: OpsRecord, target: OpsStatus, expected: int, env: Env, writer: Writer)
    requires StoreOk(sh) && CopyOk(sh, copy)
    ensures var r := Updated(sh, copy, target, expected, env, writer); r.Ok? ==> Evolves(sh, r.value)
  {
  }

  lemma TransitionKeepsCopies(sh: Shared, req: Request, at: Flight, env: Env)
    requires StoreOk(sh) && RequestOk(req, at) && (forall c :: InFlight(at, c) ==> CopyOk(sh, c))
    ensures var (sh', at') := TransitionStep(sh, req, at, env);
            && Evolves(sh, sh')
            && (at'.Some? ==> RequestOk(req, at'.value) && forall c :: InFlight(at'.value, c) ==> CopyOk(sh', c))
  {
    hide Evolves, CopyOk;
    var sh' := TransitionStep(sh, req, at, env).0;
    match at
    case Reading =>
      SameStoreEvolves(sh, sh');
      if req.id in sh.items { StoredIsOk(sh, req.id); }
    case Moving(copy) =>
      SameStoreEvolves(sh, sh');
      assert InFlight(at, copy);
    case Writing(copy) =>
      assert InFlight(at, copy);
      UpdateEvolves(sh, copy, req.target, req.expected, env, ByTransition);
      SameStoreEvolves(sh, sh);
    case Logging(_) => SameStoreEvolves(sh, sh');
  }

  lemma ItemKeepsCopies(sh: Shared, pid: nat, job: Job, number: nat, id: string, tally: Tally, at: Flight, env: Env)
    requires StoreOk(sh) && CopiesOk(sh, Batching(job, number, tally, InItem(id, at)))
    ensures var (sh', point) := ItemStep(sh, pid, job, number, id, at, env);
            Evolves(sh, sh') && CopiesOk(sh', Batching(job, number, tally, point))
  {
    hide Evolves, CopyOk;
    var p := Batching(job, number, tally, InItem(id, at));
    var sh' := ItemStep(sh, pid, job, number, id, at, env).0;
    match at
    case Reading =>
      SameStoreEvolves(sh, sh');
      if id in sh.items { StoredIsOk(sh, id); }
    case Moving(copy) =>
      SameStoreEvolves(sh, sh');
      assert Holds(p, copy);
    case Writing(copy) =>
      assert Holds(p, copy);
      UpdateEvolves(sh, copy, job.to, copy.revision, env, ByBatch(pid));
      SameStoreEvolves(sh, sh);
    case Logging(_) => SameStoreEvolves(sh, sh');
  }

  lemma StoredIsOk(sh: Shared, id: string)
    requires StoreOk(sh) && id in sh.items
    ensures CopyOk(sh, sh.items[id]) && sh.items[id].id == id && sh.items[id].revision >= 1
  {
  }

  lemma CreateKeepsCopies(sh: Shared, p: Proc, env: Env)
    requires StoreOk(sh) && CopiesOk(sh, p) && p.Creating?
    requires !env.cancelled && p.record.id in sh.born ==> p.record.id in sh.items
    ensures var (sh', p') := CreateStep(sh, p, env); Evolves(sh, sh') && CopiesOk(sh', p')
  {
    hide Evolves, NormalizeOpsRecord;
    SameStoreEvolves(sh, sh);
    if p.record.id !in sh.items && !env.cancelled { PutEvolves(sh, p.record); }
  }

  lemma PutEvolves(sh: Shared, record: OpsRecord)
    requires StoreOk(sh) && record.revision >= 1 && record.id !in sh.born
    ensures Evolves(sh, sh.(items := sh.items[record.id := record], born := sh.born[record.id := record]))
  {
  }

  lemma OperatorKeepsCopies(sh: Shared, p: Proc, env: Env)
    requires StoreOk(sh) && CopiesOk(sh, p) && p.Operating?
    ensures var (sh', p') := OperatorStep(sh, p.request, p.at, env); Evolves(sh, sh') && CopiesOk(sh', p')
  {
    hide TransitionStep;
    forall c | InFlight(p.at, c) ensures CopyOk(sh, c) { assert Holds(p, c); }
    TransitionKeepsCopies(sh, p.request, p.at, env);
  }

  lemma CloseKeepsCopies(sh: Shared, p: Proc, env: Env)
    requires StoreOk(sh) && CopiesOk(sh, p) && p.Closing?
    ensures var (sh', p') := WorkerStep(sh, p, env); Evolves(sh, sh') && CopiesOk(sh', p')
  {
    hide TransitionStep;
    var Closing(item, todo, at, _) := p;
    forall c | InFlight(at, c) ensures CopyOk(sh, c) { assert Holds(p, c); }
    TransitionKeepsCopies(sh, CloseRequest(item), at, env);
    var (sh', p') := WorkerStep(sh, p, env);
    forall c | c == item || c in todo ensures CopyOk(sh', c) {
      assert Holds(p, c);
      CopySurvives(sh, sh', c);
    }
  }

  lemma ListKeepsCopies(sh: Shared)
    requires StoreOk(sh)
    ensures CopiesOk(sh, Sweeping(sh.items.Values))
  {
  }

  lemma WorkerKeepsCopies(sh: Shared, p: Proc, env: Env)
    requires StoreOk(sh) && CopiesOk(sh, p) && IsWorker(p)
    ensures var (sh', p') := WorkerStep(sh, p, env); Evolves(sh, sh') && CopiesOk(sh', p')
  {
    hide TransitionStep, Evolves, CopyOk;
    match p
    case Listing =>
      SameStoreEvolves(sh, sh);
      ListKeepsCopies(sh);
    case Sweeping(todo) =>
      SameStoreEvolves(sh, sh);
      forall c | c in todo ensures CopyOk(sh, c) { assert Holds(p, c); }
    case Closing(_, _, _, _) => CloseKeepsCopies(sh, p, env);
    case Pruning => SameStoreEvolves(sh, WorkerStep(sh, p, env).0);
  }

  lemma BatchKeepsCopies(sh: Shared, pid: nat, p: Proc, env: Env)
    requires StoreOk(sh) && CopiesOk(sh, p) && p.Batching?
    ensures var (sh', p') := BatchStep(sh, pid, p, env); Evolves(sh, sh') && CopiesOk(sh', p')
  {
    hide ItemStep, Evolves, CopyOk;
    if !p.point.InItem? {
      SameStoreEvolves(sh, BatchStep(sh, pid, p, env).0);
    } else {
      ItemKeepsCopies(sh, pid, p.job, p.number, p.point.id, p.tally, p.point.at, env);
    }
  }

  lemma ClaimKeepsCopies(sh: Shared, p: Proc)
    requires StoreOk(sh) && IsClaim(p)
    ensures var (sh', p') := ClaimStep(sh, p); Evolves(sh, sh') && CopiesOk(sh', p')
  {
    hide Evolves;
    SameStoreEvolves(sh, ClaimStep(sh, p).0);
  }

  lemma ArchiveKeepsCopies(sh: Shared, p: Proc, env: Env)
    requires StoreOk(sh) && CopiesOk(sh, p) && IsArchive(p)
    ensures var (sh', p') := ArchiveStep(sh, p, env); Evolves(sh, sh') && CopiesOk(sh', p')
  {
    hide Evolves, CopyOk, StoreOk;
    if p.Deleting? {
      DeleteEvolves(sh, p.id);
      SameStoreEvolves(sh, sh);
    } else {
      SameStoreEvolves(sh, ArchiveStep(sh, p, env).0);
      if p.Archiving? && p.id in sh.items { StoredIsOk(sh, p.id); }
    }
  }

  lemma DeleteEvolves(sh: Shared, id: string)
    requires StoreOk(sh)
    ensures Evolves(sh, sh.(items := sh.items - {id}))
  {
  }

  lemma StepKeepsCopies(sh: Shared, pid: nat, p: Proc, env: Env)
    requires StoreOk(sh) && CopiesOk(sh, p)
    requires p.Creating? && !env.cancelled && p.record.id in sh.born ==> p.record.id in sh.items
    ensures var (sh', p') := ProcStep(sh, pid, p, env); Evolves(sh, sh') && CopiesOk(sh', p')
  {
    hide CreateStep, OperatorStep, WorkerStep, BatchStep, ClaimStep, ArchiveStep;
    if p.CreateLogging? { CreateLogKeepsCopies(sh, p, env); }
    else if p.Creating? { CreateKeepsCopies(sh, p, env); }
    else if p.Operating? { OperatorKeepsCopies(sh, p, env); }
    else if IsWorker(p) { WorkerKeepsCopies(sh, p, env); }
    else if p.Batching? { BatchKeepsCopies(sh, pid, p, env); }
    else if IsClaim(p) { ClaimKeepsCopies(sh, p); }
    else if IsArchive(p) { ArchiveKeepsCopies(sh, p, env); }
  }

  lemma CreateLogKeepsCopies(sh: Shared, p: Proc, env: Env)
    requires StoreOk(sh) && p.CreateLogging?
    ensures var (sh', p') := CreateStep(sh, p, env); Evolves(sh, sh') && CopiesOk(sh', p')
  {
  }

  lemma NextKeepsCopies(s: State, turn: Turn)
    requires CopyInv(s) && !Recreates(s, turn)
    ensures CopyInv(Next(s, turn)) && Evolves(s.shared, Next(s, turn).shared)
  {
    hide ProcStep, Begin;
    var s' := Next(s, turn);
    match turn
    case Spawn(pid, call) =>
      if pid !in s.procs { BeginOk(call); }
    case Step(pid, env) =>
      if pid in s.procs {
        StepKeepsCopies(s.shared, pid, s.procs[pid], env);
        forall q, c | q in s.procs && q != pid && Holds(s.procs[q], c) ensures CopyOk(s'.shared, c) {
          assert CopiesOk(s.shared, s.procs[q]);
          CopySurvives(s.shared, s'.shared, c);
        }
        forall q | q in s'.procs ensures CopiesOk(s'.shared, s'.procs[q]) {
          assert CopiesOk(s.shared, s.procs[q]);
        }
      }
  }

  lemma BeginOk(call: Call)
    ensures ProcOk(Begin(call)) && forall c :: !Holds(Begin(call), c)
  {
    if call.CreateCall? {
      NormalForm(call.record);
    }
  }

  lemma BootOk(seed: seq<OpsRecord>, unitLimit: nat)
    ensures CopyInv(Boot(seed, unitLimit))
  {
  }

  /** The invariant holds in every state of every run. */
  lemma {:induction false} RunKeepsCopies(s: State, schedule: seq<Turn>)
    requires CopyInv(s) && NoRecreation(s, schedule)
    ensures CopyInv(Run(s, schedule))
    decreases |schedule|
  {
    if schedule != [] {
      NextKeepsCopies(s, schedule[0]);
      RunKeepsCopies(Next(s, schedule[0]), schedule[1..]);
    }
  }
}
