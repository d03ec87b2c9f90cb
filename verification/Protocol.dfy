/** The record protocol as one interleaved machine.

    No mutex of the service spans a whole operation: Create, Transition, batches, the worker's
    sweep and Archive are sequences of separately locked steps. Each running operation is a
    process with a program counter; one turn of a schedule lets one process make its next
    atomic step. A schedule is any sequence of turns, so a statement about Run(start,
    schedule) is a statement about every interleaving of any number of operations.

    The fields dropped, born and writes of the shared state are history variables: no step
    reads them to decide anything. */
module Protocol {
  import opened OpsModel
  import opened StateMachine
  import opened Store
  import opened Policy
  import opened Manifest
  import opened Audit
  import opened Decimal

  /** Who made a successful store update. */
  datatype Writer = ByTransition | ByBatch(pid: nat)
  datatype Write = Write(id: string, writer: Writer)

  datatype Shared = Shared(
    items: Items,                      // OpsStore.items
    archived: Items,                   // OpsArchive.closed
    history: seq<OpsTransition>,       // OpsStateMachine.history
    events: seq<OpsEvent>,             // OpsAudit.events
    eventSequence: nat,                // opsAuditSequence
    units: nat,                        // tokens in OpsBatchProcessor.units
    claims: Claims,                    // OpsManifestRegistry.manifests
    sequence: nat,                     // opsManifestSequence
    dropped: seq<OpsEvent>,            // history: events pruned so far
    born: Items,                       // history: each id's record as it entered the store
    writes: seq<Write>)                // history: every successful Update

  /** The arguments of a Transition. */
  datatype Request = Request(id: string, expected: int, target: OpsStatus, actor: string)

  /** Where a get-move-update sequence stands; copy is the record as Get returned it. */
  datatype Flight = Reading | Moving(copy: OpsRecord) | Writing(copy: OpsRecord) | Logging(copy: OpsRecord)

  datatype Job = Job(owner: string, from: OpsStatus, to: OpsStatus, ids: seq<string>)

  datatype ItemOutcome = Moved | Skipped | Failed

  datatype BatchPoint =
    | AtHead                           // the loop's ctx.Err() check
    | AtUnits(id: string)              // waiting for a work unit
    | InItem(id: string, at: Flight)   // holding a unit; Logging is the Progress call
    | Freeing(outcome: ItemOutcome)    // the deferred release

  datatype Tally = Tally(next: nat, applied: nat, skipped: nat)

  datatype Proc =
    | Creating(record: OpsRecord)
    | CreateLogging(record: OpsRecord)
    | Operating(request: Request, at: Flight)
    | Listing                                                      // the worker's tick, before List
    | Sweeping(todo: set<OpsRecord>)
    | Closing(item: OpsRecord, todo: set<OpsRecord>, at: Flight,
              asOf: string -> bool)                                // inside Transition; asOf: history, the
                                                                   // staleness test that picked the item
    | Pruning
    | Starting(job: Job)                                           // Apply, before the counter
    | Claiming(job: Job, number: nat)
    | Batching(job: Job, number: nat, tally: Tally, point: BatchPoint)
    | Unclaiming(job: Job, number: nat, tally: Tally)
    | Archiving(id: string)
    | Saving(id: string, copy: OpsRecord)
    | Deleting(id: string)
    | Finished

  datatype Call =
    | CreateCall(record: OpsRecord, stamp: string)
    | TransitionCall(request: Request)
    | BatchCall(job: Job)
    | TickCall
    | ArchiveCall(id: string)

  /** What a step takes from outside: whether its context has ended, the clock's stamp, which
      stamps are older than the worker's limit just now, and which listed record a sweep turns
      to (List sorts by id; any order is allowed here). */
  datatype Env = Env(cancelled: bool, now: string, stale: string -> bool, pick: OpsRecord)

  datatype Turn = Spawn(pid: nat, call: Call) | Step(pid: nat, env: Env)

  datatype State = State(shared: Shared, procs: map<nat, Proc>)

  const AUDIT_KEEP := 2000

  function Boot(seed: seq<OpsRecord>, unitLimit: nat): State {
    var items := Seeded(seed);
    State(Shared(items, map[], [], [], 0, unitLimit, map[], 0, [], items, []), map[])
  }

  function Logged(sh: Shared, id: string, kind: EventType, actor: string): Shared {
    sh.(events := sh.events + [OpsEvent(sh.eventSequence + 1, id, kind, actor)],
        eventSequence := sh.eventSequence + 1)
  }

  /** The Update step of a flight: write the copy with its new status. */
  function Updated(sh: Shared, copy: OpsRecord, target: OpsStatus, expected: int, env: Env, writer: Writer)
    : Reply<Shared>
  {
    if env.cancelled then Err(Cancelled) else
      match UpdateResult(sh.items, copy.(status := target), expected, env.now)
      case Err(e) => Err(e)
      case Ok(items) => Ok(sh.(items := items, writes := sh.writes + [Write(copy.id, writer)]))
  }

  /** One step of OpsService.Transition; None: it has returned. */
  function TransitionStep(sh: Shared, req: Request, at: Flight, env: Env): (Shared, Option<Flight>) {
    match at
    case Reading =>
      if env.cancelled then (sh, None) else
        (match GetResult(sh.items, req.id)
         case Err(_) => (sh, None)
         case Ok(record) =>
           if req.expected > 0 && req.expected != record.revision then (sh, None)
           else (sh, Some(Moving(record))))
    case Moving(copy) =>
      (match MoveResult(sh.history, copy.status, req.target, "operator update")
       case Err(_) => (sh, None)
       case Ok(history) => (sh.(history := history), Some(Writing(copy))))
    case Writing(copy) =>
      (match Updated(sh, copy, req.target, req.expected, env, ByTransition)
       case Err(_) => (sh, None)
       case Ok(sh') => (sh', Some(Logging(copy))))
    case Logging(copy) =>
      (Logged(sh, copy.id, StatusChanged, req.actor), None)
  }

  /** One step of processOne on its current id, which holds a unit throughout. */
  function ItemStep(sh: Shared, pid: nat, job: Job, number: nat, id: string, at: Flight, env: Env)
    : (Shared, BatchPoint)
  {
    match at
    case Reading =>
      if env.cancelled then (sh, Freeing(Failed)) else
        (match GetResult(sh.items, id)
         case Err(_) => (sh, Freeing(Skipped))
         case Ok(record) =>
           if record.status != job.from then (sh, Freeing(Skipped))
           else (sh, InItem(id, Moving(record))))
    case Moving(copy) =>
      (match MoveResult(sh.history, copy.status, job.to, "batch")
       case Err(_) => (sh, Freeing(Failed))
       case Ok(history) => (sh.(history := history), InItem(id, Writing(copy))))
    case Writing(copy) =>
      (match Updated(sh, copy, job.to, copy.revision, env, ByBatch(pid))
       case Err(_) => (sh, Freeing(Failed))
       case Ok(sh') => (sh', InItem(id, Logging(copy))))
    case Logging(copy) =>
      // The manifest was passed by value with Done = 0, so the progress reported is 1.
      (match ProgressResult(sh.claims, BatchID(job.owner, number), 1)
       case Err(_) => (sh, Freeing(Moved))
       case Ok(claims) => (sh.(claims := claims), Freeing(Moved)))
  }

  function BatchStep(sh: Shared, pid: nat, p: Proc, env: Env): (Shared, Proc)
    requires p.Batching?
  {
    var Batching(job, number, tally, point) := p;
    match point
    case AtHead =>
      if tally.next >= |job.ids| || env.cancelled then (sh, Unclaiming(job, number, tally))
      else (sh, p.(point := AtUnits(job.ids[tally.next])))
    case AtUnits(id) =>
      if env.cancelled then (sh, Unclaiming(job, number, tally))
      else if sh.units == 0 then (sh, p)
      else (sh.(units := sh.units - 1), p.(point := InItem(id, Reading)))
    case InItem(id, flight) =>
      var (sh', at') := ItemStep(sh, pid, job, number, id, flight, env);
      (sh', p.(point := at'))
    case Freeing(outcome) =>
      var freed := sh.(units := sh.units + 1);
      match outcome
      case Moved => (freed, p.(tally := Tally(tally.next + 1, tally.applied + 1, tally.skipped), point := AtHead))
      case Skipped => (freed, p.(tally := Tally(tally.next + 1, tally.applied, tally.skipped + 1), point := AtHead))
      case Failed => (freed, Unclaiming(job, number, tally))
  }

  predicate IsCreate(p: Proc) {
    p.Creating? || p.CreateLogging?
  }

  function CreateStep(sh: Shared, p: Proc, env: Env): (Shared, Proc)
    requires IsCreate(p)
  {
    match p
    case Creating(record) =>
      if env.cancelled then (sh, Finished) else
        (match PutResult(sh.items, record)
         case Err(_) => (sh, Finished)
         case Ok(items) => (sh.(items := items, born := sh.born[record.id := items[record.id]]), CreateLogging(record)))
    case CreateLogging(record) =>
      (Logged(sh, record.id, Created, record.owner), Finished)
  }

  function OperatorStep(sh: Shared, req: Request, at: Flight, env: Env): (Shared, Proc) {
    var (sh', at') := TransitionStep(sh, req, at, env);
    (sh', if at'.Some? then Operating(req, at'.value) else Finished)
  }

  predicate IsWorker(p: Proc) {
    p.Listing? || p.Sweeping? || p.Closing? || p.Pruning?
  }

  function CloseRequest(item: OpsRecord): Request {
    Request(item.id, item.revision, Closed, "worker")
  }

  function WorkerStep(sh: Shared, p: Proc, env: Env): (Shared, Proc)
    requires IsWorker(p)
  {
    match p
    case Listing =>
      (sh, if env.cancelled then Pruning else Sweeping(sh.items.Values))
    case Sweeping(todo) =>
      if todo == {} || env.cancelled then (sh, Pruning)
      else if env.pick !in todo then (sh, p)
      else if env.pick.status != Active || !env.stale(env.pick.updatedAt) then (sh, Sweeping(todo - {env.pick}))
      else (sh, Closing(env.pick, todo - {env.pick}, Reading, env.stale))
    case Closing(item, todo, at, asOf) =>
      var (sh', at') := TransitionStep(sh, CloseRequest(item), at, env);
      (sh', if at'.Some? then Closing(item, todo, at'.value, asOf) else Sweeping(todo))
    case Pruning =>
      var kept := Newest(sh.events, AUDIT_KEEP);
      (sh.(events := kept, dropped := sh.dropped + sh.events[..|sh.events| - |kept|]), Finished)
  }

  predicate IsClaim(p: Proc) {
    p.Starting? || p.Claiming? || p.Unclaiming?
  }

  function ClaimStep(sh: Shared, p: Proc): (Shared, Proc)
    requires IsClaim(p)
  {
    match p
    case Starting(job) =>
      (sh.(sequence := sh.sequence + 1), Claiming(job, sh.sequence + 1))
    case Claiming(job, number) =>
      (match ClaimResult(sh.claims, sh.sequence, BatchID(job.owner, number), job.owner, |job.ids|)
       case Err(_) => (sh, Finished)
       case Ok(claims) =>
         (sh.(claims := claims, sequence := sh.sequence + 1), Batching(job, number, Tally(0, 0, 0), AtHead)))
    case Unclaiming(job, number, _) =>
      (match ReleaseResult(sh.claims, BatchID(job.owner, number))
       case Err(_) => (sh, Finished)
       case Ok(claims) => (sh.(claims := claims), Finished))
  }

  predicate IsArchive(p: Proc) {
    p.Archiving? || p.Saving? || p.Deleting?
  }

  function ArchiveStep(sh: Shared, p: Proc, env: Env): (Shared, Proc)
    requires IsArchive(p)
  {
    match p
    case Archiving(id) =>
      if env.cancelled then (sh, Finished) else
        (match GetResult(sh.items, id)
         case Err(_) => (sh, Finished)
         case Ok(item) => (sh, if item.Terminal() then Saving(id, item) else Finished))
    case Saving(id, copy) =>
      (sh.(archived := sh.archived[id := copy]), Deleting(id))
    case Deleting(id) =>
      if env.cancelled then (sh, Finished) else
        (match DeleteResult(sh.items, id)
         case Err(_) => (sh, Finished)
         case Ok(items) => (sh.(items := items), Finished))
  }

  /** The next step of process p; a blocked process stays as it is. */
  function ProcStep(sh: Shared, pid: nat, p: Proc, env: Env): (Shared, Proc) {
    if IsCreate(p) then CreateStep(sh, p, env)
    else if p.Operating? then OperatorStep(sh, p.request, p.at, env)
    else if IsWorker(p) then WorkerStep(sh, p, env)
    else if IsClaim(p) then ClaimStep(sh, p)
    else if p.Batching? then BatchStep(sh, pid, p, env)
    else if IsArchive(p) then ArchiveStep(sh, p, env)
    else (sh, p)
  }

  /** A new operation's first program point; Create normalises and checks the policy first. */
  function Begin(call: Call): Proc {
    match call
    case CreateCall(record, stamp) =>
      (match Admit(record)
       case Err(_) => Finished
       case Ok(r) => Creating(r.(createdAt := stamp, updatedAt := stamp)))
    case TransitionCall(req) => Operating(req, Reading)
    case BatchCall(job) => Starting(job)
    case TickCall => Listing
    case ArchiveCall(id) => Archiving(id)
  }

  function Next(s: State, turn: Turn): State {
    match turn
    case Spawn(pid, call) => if pid in s.procs then s else s.(procs := s.procs[pid := Begin(call)])
    case Step(pid, env) =>
      if pid !in s.procs then s else
        var (sh, p) := ProcStep(s.shared, pid, s.procs[pid], env);
        State(sh, s.procs[pid := p])
  }

  /** The state after a schedule. */
  function Run(s: State, schedule: seq<Turn>): State
    decreases |schedule|
  {
    if schedule == [] then s else Run(Next(s, schedule[0]), schedule[1..])
  }

  /** This turn would put back an id that was deleted earlier. */
  predicate Recreates(s: State, turn: Turn) {
    && turn.Step? && turn.pid in s.procs && s.procs[turn.pid].Creating? && !turn.env.cancelled
    && var id := s.procs[turn.pid].record.id; id in s.shared.born && id !in s.shared.items
  }

  predicate NoRecreation(s: State, schedule: seq<Turn>)
    decreases |schedule|
  {
    schedule == [] || (!Recreates(s, schedule[0]) && NoRecreation(Next(s, schedule[0]), schedule[1..]))
  }
}
