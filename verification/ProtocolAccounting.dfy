/** What revisions, audit events and batch writes add up to on every run, whether or not the
    transitions name a revision. */
module ProtocolAccounting {
  import opened OpsModel
  import opened Protocol
  import opened ProtocolCopies

  /** The successful updates of one record. */
  function WritesTo(writes: seq<Write>, id: string): nat {
    if writes == [] then 0 else
      WritesTo(writes[..|writes| - 1], id) + (if writes[|writes| - 1].id == id then 1 else 0)
  }

  /** Those of them made by batches. */
  function BatchWritesTo(writes: seq<Write>, id: string): nat {
    if writes == [] then 0 else
      BatchWritesTo(writes[..|writes| - 1], id)
      + (if writes[|writes| - 1].id == id && writes[|writes| - 1].writer.ByBatch? then 1 else 0)
  }

  /** The status_changed events of one record. */
  function StatusEvents(log: seq<OpsEvent>, id: string): nat {
    if log == [] then 0 else
      StatusEvents(log[..|log| - 1], id)
      + (if log[|log| - 1].recordID == id && log[|log| - 1].kind == StatusChanged then 1 else 0)
  }

  /** Every event ever added, pruned or not. */
  function FullLog(sh: Shared): seq<OpsEvent> {
    sh.dropped + sh.events
  }

  /** Process p has updated record id and not yet written its audit event. */
  predicate Unlogged(p: Proc, id: string) {
    match p
    case Operating(_, Logging(copy)) => copy.id == id
    case Closing(_, _, Logging(copy), _) => copy.id == id
    case _ => false
  }

  function UnloggedFor(procs: map<nat, Proc>, id: string): set<nat> {
    set pid | pid in procs && Unlogged(procs[pid], id)
  }

  ghost predicate Accounted(s: State, id: string) {
    && (id in s.shared.items ==>
          && id in s.shared.born
          && s.shared.items[id].revision == s.shared.born[id].revision + WritesTo(s.shared.writes, id))
    && WritesTo(s.shared.writes, id) ==
         StatusEvents(FullLog(s.shared), id) + BatchWritesTo(s.shared.writes, id) + |UnloggedFor(s.procs, id)|
    && (WritesTo(s.shared.writes, id) > 0 ==> id in s.shared.born)
  }

  ghost predicate AccountInv(s: State) {
    CopyInv(s) && forall id: string :: Accounted(s, id)
  }

  datatype Effect = Quiet | Writes(write: Write) | Logs(id: string) | Births(id: string) | Deletes(id: string)

  /** Each step is one of five kinds as far as the books are concerned. */
  ghost predicate Books(sh: Shared, sh': Shared, e: Effect) {
    && sh'.writes == (if e.Writes? then sh.writes + [e.write] else sh.writes)
    && (forall id :: StatusEvents(FullLog(sh'), id) == StatusEvents(FullLog(sh), id) + (if e == Logs(id) then 1 else 0))
    && match e
       case Writes(w) =>
         && w.id in sh.items && w.id in sh.born && sh'.items.Keys == sh.items.Keys && sh'.born == sh.born
         && forall k :: k in sh.items ==>
              sh'.items[k].revision == sh.items[k].revision + (if k == w.id then 1 else 0)
       case Births(id) =>
         && id !in sh.born && id in sh'.born && sh'.born == sh.born[id := sh'.born[id]]
         && sh'.items == sh.items[id := sh'.born[id]]
       case Deletes(id) => sh'.items == sh.items - {id} && sh'.born == sh.born
       case _ => sh'.items == sh.items && sh'.born == sh.born
  }

  /** A process owes an audit entry from a Transition's write until it logs it. */
  ghost predicate Owes(p: Proc, p': Proc, e: Effect) {
    && (forall id :: Unlogged(p, id) <==> e == Logs(id))
    && (forall id :: Unlogged(p', id) <==> e == Writes(Write(id, ByTransition)))
  }

  lemma LogOneMore(sh: Shared, id: string, kind: EventType, actor: string)
    ensures Books(sh, Logged(sh, id, kind, actor), if kind == StatusChanged then Logs(id) else Quiet)
  {
    var log := FullLog(Logged(sh, id, kind, actor));
    assert log[..|log| - 1] == FullLog(sh);
  }

  lemma UpdateBooks(sh: Shared, copy: OpsRecord, target: OpsStatus, expected: int, env: Env, writer: Writer)
    requires StoreOk(sh) && CopyOk(sh, copy)
    ensures var r := Updated(sh, copy, target, expected, env, writer);
            r.Ok? ==> Books(sh, r.value, Writes(Write(copy.id, writer)))
  {
  }

  function TransitionEffect(sh: Shared, req: Request, at: Flight, env: Env): Effect {
    match at
    case Logging(copy) => Logs(copy.id)
    case Writing(copy) =>
      if Updated(sh, copy, req.target, req.expected, env, ByTransition).Ok? then Writes(Write(copy.id, ByTransition))
      else Quiet
    case _ => Quiet
  }

  lemma TransitionBooks(sh: Shared, req: Request, at: Flight, env: Env)
    requires StoreOk(sh) && (forall c :: InFlight(at, c) ==> CopyOk(sh, c))
    ensures Books(sh, TransitionStep(sh, req, at, env).0, TransitionEffect(sh, req, at, env))
  {
    match at
    case Logging(copy) => LogOneMore(sh, copy.id, StatusChanged, req.actor);
    case Writing(copy) =>
      assert InFlight(at, copy);
      UpdateBooks(sh, copy, req.target, req.expected, env, ByTransition);
    case _ =>
  }

  function ItemEffect(sh: Shared, pid: nat, job: Job, at: Flight, env: Env): Effect {
    match at
    case Writing(copy) =>
      if Updated(sh, copy, job.to, copy.revision, env, ByBatch(pid)).Ok? then Writes(Write(copy.id, ByBatch(pid)))
      else Quiet
    case _ => Quiet
  }

  lemma ItemBooks(sh: Shared, pid: nat, job: Job, number: nat, id: string, at: Flight, env: Env)
    requires StoreOk(sh) && (forall c :: InFlight(at, c) ==> CopyOk(sh, c))
    ensures Books(sh, ItemStep(sh, pid, job, number, id, at, env).0, ItemEffect(sh, pid, job, at, env))
  {
    match at
    case Writing(copy) =>
      assert InFlight(at, copy);
      UpdateBooks(sh, copy, job.to, copy.revision, env, ByBatch(pid));
    case _ =>
  }

  function StepEffect(sh: Shared, pid: nat, p: Proc, env: Env): Effect {
    match p
    case Creating(record) => if !env.cancelled && record.id !in sh.items then Births(record.id) else Quiet
    case Operating(req, at) => TransitionEffect(sh, req, at, env)
    case Closing(item, _, at, _) => TransitionEffect(sh, CloseRequest(item), at, env)
    case Batching(job, _, _, InItem(_, at)) => ItemEffect(sh, pid, job, at, env)
    case Deleting(id) => if !env.cancelled && id in sh.items then Deletes(id) else Quiet
    case _ => Quiet
  }

  lemma CreateBooks(sh: Shared, pid: nat, p: Proc, env: Env)
    requires StoreOk(sh) && ProcOk(p) && IsCreate(p)
    requires p.Creating? && !env.cancelled && p.record.id in sh.born ==> p.record.id in sh.items
    ensures Books(sh, CreateStep(sh, p, env).0, StepEffect(sh, pid, p, env))
  {
    if p.CreateLogging? {
      LogOneMore(sh, p.record.id, Created, p.record.owner);
    }
  }

  lemma WorkerBooks(sh: Shared, pid: nat, p: Proc, env: Env)
    requires StoreOk(sh) && CopiesOk(sh, p) && IsWorker(p)
    ensures Books(sh, WorkerStep(sh, p, env).0, StepEffect(sh, pid, p, env))
  {
    hide TransitionStep, TransitionEffect;
    if p.Closing? {
      forall c | InFlight(p.at, c) ensures CopyOk(sh, c) { assert Holds(p, c); }
      TransitionBooks(sh, CloseRequest(p.item), p.at, env);
    } else if p.Pruning? {
      assert FullLog(WorkerStep(sh, p, env).0) == FullLog(sh);
    }
  }

  lemma BatchBooks(sh: Shared, pid: nat, p: Proc, env: Env)
    requires StoreOk(sh) && CopiesOk(sh, p) && p.Batching?
    ensures Books(sh, BatchStep(sh, pid, p, env).0, StepEffect(sh, pid, p, env))
  {
    hide ItemStep, ItemEffect;
    if p.point.InItem? {
      forall c | InFlight(p.point.at, c) ensures CopyOk(sh, c) { assert Holds(p, c); }
      ItemBooks(sh, pid, p.job, p.number, p.point.id, p.point.at, env);
    }
  }

  lemma StepBooks(sh: Shared, pid: nat, p: Proc, env: Env)
    requires StoreOk(sh) && CopiesOk(sh, p)
    requires p.Creating? && !env.cancelled && p.record.id in sh.born ==> p.record.id in sh.items
    ensures Books(sh, ProcStep(sh, pid, p, env).0, StepEffect(sh, pid, p, env))
  {
    hide CreateStep, TransitionStep, TransitionEffect, WorkerStep, BatchStep;
    if IsCreate(p) {
      CreateBooks(sh, pid, p, env);
    } else if p.Operating? {
      forall c | InFlight(p.at, c) ensures CopyOk(sh, c) { assert Holds(p, c); }
      TransitionBooks(sh, p.request, p.at, env);
    } else if IsWorker(p) {
      WorkerBooks(sh, pid, p, env);
    } else if p.Batching? {
      BatchBooks(sh, pid, p, env);
    }
  }

  lemma TransitionOwes(sh: Shared, req: Request, at: Flight, env: Env)
    ensures var at', e := TransitionStep(sh, req, at, env).1, TransitionEffect(sh, req, at, env);
            && (e.Logs? <==> at.Logging?) && (at.Logging? ==> e.id == at.copy.id)
            && (e.Writes? <==> at'.Some? && at'.value.Logging?)
            && (e.Writes? ==> e.write == Write(at'.value.copy.id, ByTransition))
  {
  }

  lemma ItemOwes(sh: Shared, pid: nat, job: Job, at: Flight, env: Env)
    ensures var e := ItemEffect(sh, pid, job, at, env); e == Quiet || (e.Writes? && e.write.writer.ByBatch?)
  {
  }

  lemma StepOwes(sh: Shared, pid: nat, p: Proc, env: Env)
    ensures Owes(p, ProcStep(sh, pid, p, env).1, StepEffect(sh, pid, p, env))
  {
    hide TransitionStep, TransitionEffect, ItemStep, ItemEffect;
    match p
    case Operating(req, at) => TransitionOwes(sh, req, at, env);
    case Closing(item, _, at, _) => TransitionOwes(sh, CloseRequest(item), at, env);
    case Batching(job, _, _, InItem(_, at)) => ItemOwes(sh, pid, job, at, env);
    case _ =>
  }

  lemma OneMoreWrite(writes: seq<Write>, w: Write, id: string)
    ensures WritesTo(writes + [w], id) == WritesTo(writes, id) + (if w.id == id then 1 else 0)
    ensures BatchWritesTo(writes + [w], id) ==
            BatchWritesTo(writes, id) + (if w.id == id && w.writer.ByBatch? then 1 else 0)
  {
  }

  lemma UnloggedChanges(procs: map<nat, Proc>, pid: nat, p': Proc, id: string)
    requires pid in procs ==> !(Unlogged(procs[pid], id) && Unlogged(p', id))
    ensures |UnloggedFor(procs[pid := p'], id)| == |UnloggedFor(procs, id)|
              + (if Unlogged(p', id) then 1 else 0)
              - (if pid in procs && Unlogged(procs[pid], id) then 1 else 0)
  {
    var a, b := UnloggedFor(procs, id), UnloggedFor(procs[pid := p'], id);
    if Unlogged(p', id) {
      assert b == a + {pid};
    } else {
      assert b == a - {pid};
    }
  }

  lemma BooksBalance(sh: Shared, procs: map<nat, Proc>, pid: nat, sh': Shared, p': Proc, e: Effect, id: string)
    requires pid in procs && StoreOk(sh) && Accounted(State(sh, procs), id)
    requires Books(sh, sh', e) && Owes(procs[pid], p', e)
    ensures Accounted(State(sh', procs[pid := p']), id)
  {
    UnloggedChanges(procs, pid, p', id);
    if e.Writes? {
      OneMoreWrite(sh.writes, e.write, id);
    }
  }

  lemma NextKeepsAccounts(s: State, turn: Turn)
    requires AccountInv(s) && !Recreates(s, turn)
    ensures AccountInv(Next(s, turn))
  {
    hide ProcStep, StepEffect;
    NextKeepsCopies(s, turn);
    match turn
    case Spawn(pid, call) =>
      forall id: string ensures Accounted(Next(s, turn), id) {
        assert Accounted(s, id);
        if pid !in s.procs { UnloggedChanges(s.procs, pid, Begin(call), id); }
      }
    case Step(pid, env) =>
      if pid in s.procs {
        assert CopiesOk(s.shared, s.procs[pid]);
        StepBooks(s.shared, pid, s.procs[pid], env);
        StepOwes(s.shared, pid, s.procs[pid], env);
        var (sh', p') := ProcStep(s.shared, pid, s.procs[pid], env);
        forall id: string ensures Accounted(Next(s, turn), id) {
          assert Accounted(s, id);
          BooksBalance(s.shared, s.procs, pid, sh', p', StepEffect(s.shared, pid, s.procs[pid], env), id);
        }
      }
  }

  lemma {:induction false} RunKeepsAccounts(s: State, schedule: seq<Turn>)
    requires AccountInv(s) && NoRecreation(s, schedule)
    ensures AccountInv(Run(s, schedule))
    decreases |schedule|
  {
    if schedule != [] {
      NextKeepsAccounts(s, schedule[0]);
      RunKeepsAccounts(Next(s, schedule[0]), schedule[1..]);
    }
  }

  /** In every state of every run, a stored record's revision has grown since it was stored by
      one per successful Update; that growth is its status_changed events (pruned ones
      included), plus its batch updates, plus the operations between their Update and their
      audit entry; and nothing but status, revision and update stamp has changed. */
  lemma RevisionsAddUp(seed: seq<OpsRecord>, unitLimit: nat, schedule: seq<Turn>, id: string)
    requires NoRecreation(Boot(seed, unitLimit), schedule)
    requires id in Run(Boot(seed, unitLimit), schedule).shared.items
    ensures var s := Run(Boot(seed, unitLimit), schedule);
            var sh := s.shared;
            && id in sh.born && SameIdentity(sh.items[id], sh.born[id])
            && sh.items[id].revision - sh.born[id].revision == WritesTo(sh.writes, id)
            && WritesTo(sh.writes, id) ==
                 StatusEvents(FullLog(sh), id) + BatchWritesTo(sh.writes, id) + |UnloggedFor(s.procs, id)|
  {
    var s := Boot(seed, unitLimit);
    BootOk(seed, unitLimit);
    assert AccountInv(s) by {
      forall k: string ensures Accounted(s, k) {
        assert UnloggedFor(s.procs, k) == {};
      }
    }
    RunKeepsAccounts(s, schedule);
    assert Accounted(Run(s, schedule), id);
  }
}
