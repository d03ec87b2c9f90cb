/** What the store keeps in every run whatever, ids created again after their deletion
    included. */
module ProtocolStore {
  import opened OpsModel
  import opened Store
  import opened Protocol

  /** A record on its way into the store has been normalised. */
  predicate Normalised(p: Proc) {
    p.Creating? ==> NormalizeOpsRecord(p.record) == p.record && p.record.revision >= 1
  }

  ghost predicate StoreInv(s: State) {
    Keyed(s.shared.items) && forall pid :: pid in s.procs ==> Normalised(s.procs[pid])
  }

  lemma UpdatedKeepsKeyed(sh: Shared, copy: OpsRecord, target: OpsStatus, expected: int, env: Env, writer: Writer)
    requires Keyed(sh.items)
    ensures var r := Updated(sh, copy, target, expected, env, writer); r.Ok? ==> Keyed(r.value.items)
  {
  }

  lemma TransitionKeepsKeyed(sh: Shared, req: Request, at: Flight, env: Env)
    requires Keyed(sh.items)
    ensures Keyed(TransitionStep(sh, req, at, env).0.items)
  {
  }

  lemma BatchKeepsKeyed(sh: Shared, pid: nat, p: Proc, env: Env)
    requires Keyed(sh.items) && p.Batching?
    ensures Keyed(BatchStep(sh, pid, p, env).0.items) && !BatchStep(sh, pid, p, env).1.Creating?
  {
    hide Keyed, Updated;
    if p.point.InItem? && p.point.at.Writing? {
      UpdatedKeepsKeyed(sh, p.point.at.copy, p.job.to, p.point.at.copy.revision, env, ByBatch(pid));
    }
  }

  lemma WorkerKeepsKeyed(sh: Shared, p: Proc, env: Env)
    requires Keyed(sh.items) && IsWorker(p)
    ensures Keyed(WorkerStep(sh, p, env).0.items) && !WorkerStep(sh, p, env).1.Creating?
  {
    hide Keyed, TransitionStep;
    if p.Closing? { TransitionKeepsKeyed(sh, CloseRequest(p.item), p.at, env); }
  }

  lemma CreateKeepsKeyed(sh: Shared, p: Proc, env: Env)
    requires Keyed(sh.items) && IsCreate(p) && Normalised(p)
    ensures Keyed(CreateStep(sh, p, env).0.items) && !CreateStep(sh, p, env).1.Creating?
  {
  }

  lemma ArchiveKeepsKeyed(sh: Shared, p: Proc, env: Env)
    requires Keyed(sh.items) && IsArchive(p)
    ensures Keyed(ArchiveStep(sh, p, env).0.items) && !ArchiveStep(sh, p, env).1.Creating?
  {
  }

  lemma StepKeepsStore(sh: Shared, pid: nat, p: Proc, env: Env)
    requires Keyed(sh.items) && Normalised(p)
    ensures var (sh', p') := ProcStep(sh, pid, p, env); Keyed(sh'.items) && !p'.Creating?
  {
    hide CreateStep, TransitionStep, WorkerStep, BatchStep, ArchiveStep, Keyed, Normalised;
    if IsCreate(p) { CreateKeepsKeyed(sh, p, env); }
    else if p.Operating? { TransitionKeepsKeyed(sh, p.request, p.at, env); }
    else if IsWorker(p) { WorkerKeepsKeyed(sh, p, env); }
    else if p.Batching? { BatchKeepsKeyed(sh, pid, p, env); }
    else if IsArchive(p) { ArchiveKeepsKeyed(sh, p, env); }
  }

  lemma BeginNormalised(call: Call)
    ensures Normalised(Begin(call))
  {
    if call.CreateCall? { NormalForm(call.record); }
  }

  lemma NextKeepsStore(s: State, turn: Turn)
    requires StoreInv(s)
    ensures StoreInv(Next(s, turn))
  {
    hide ProcStep, Begin, Keyed;
    match turn
    case Spawn(pid, call) => BeginNormalised(call);
    case Step(pid, env) => if pid in s.procs { StepKeepsStore(s.shared, pid, s.procs[pid], env); }
  }

  lemma {:induction false} RunKeepsStore(s: State, schedule: seq<Turn>)
    requires StoreInv(s)
    ensures StoreInv(Run(s, schedule))
    decreases |schedule|
  {
    hide StoreInv;
    if schedule != [] {
      NextKeepsStore(s, schedule[0]);
      RunKeepsStore(Next(s, schedule[0]), schedule[1..]);
    }
  }

  /** In every state of every run each key is its record's id and revisions are at least 1. */
  lemma KeysAreIds(seed: seq<OpsRecord>, unitLimit: nat, schedule: seq<Turn>)
    ensures Keyed(Run(Boot(seed, unitLimit), schedule).shared.items)
  {
    RunKeepsStore(Boot(seed, unitLimit), schedule);
  }
}
