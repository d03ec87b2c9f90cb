/** Archiving as a move between two containers in separate steps: nothing is ever lost on the
    way, and what is kept is what was deleted. */
module ProtocolArchive {
  import opened OpsModel
  import opened Store
  import opened Protocol
  import opened ProtocolCopies
  import opened ProtocolStatus
  import opened ProtocolStore

  /** Every id ever stored is live or archived, and an archived record is a closed version of
      the record born under its id. */
  predicate KeptId(sh: Shared, k: string) {
    && (k in sh.born ==> k in sh.items || k in sh.archived)
    && (k in sh.archived ==> sh.archived[k].id == k && sh.archived[k].Terminal() && CopyOk(sh, sh.archived[k]))
  }

  ghost predicate Kept(s: State) {
    && (forall k :: KeptId(s.shared, k))
    && (forall pid :: pid in s.procs && s.procs[pid].Deleting? ==> s.procs[pid].id in s.shared.archived)
  }

  ghost predicate Handles(sh: Shared, p: Proc, sh': Shared, p': Proc) {
    && sh'.archived == (if p.Saving? then sh.archived[p.id := p.copy] else sh.archived)
    && (p'.Deleting? ==> p.Saving? && p'.id == p.id)
    && (p'.Saving? ==> sh' == sh && p'.id in sh.items && p'.copy == sh.items[p'.id] && p'.copy.status == Closed)
    && (forall k :: k in sh.born ==> k in sh'.born)
    && (forall k :: k in sh'.born ==> k in sh.born || k in sh'.items)
    && (forall k :: k in sh'.items ==> k in sh.items || k in sh'.born)
    && (forall k :: k in sh.items && k !in sh'.items ==> p == Deleting(k))
  }

  lemma UpdatedHandles(sh: Shared, copy: OpsRecord, target: OpsStatus, expected: int, env: Env, writer: Writer)
    ensures var r := Updated(sh, copy, target, expected, env, writer);
            r.Ok? ==> r.value.archived == sh.archived && r.value.born == sh.born && r.value.items.Keys == sh.items.Keys
  {
  }

  lemma SameKeysHandled(sh: Shared, p: Proc, sh': Shared, p': Proc)
    requires sh'.items.Keys == sh.items.Keys && sh'.archived == sh.archived && sh'.born == sh.born
    requires !p.Saving? && !p'.Saving? && !p'.Deleting?
    ensures Handles(sh, p, sh', p')
  {
  }

  lemma TransitionHandles(sh: Shared, req: Request, at: Flight, env: Env)
    ensures var sh' := TransitionStep(sh, req, at, env).0;
            sh'.archived == sh.archived && sh'.born == sh.born && sh'.items.Keys == sh.items.Keys
  {
  }

  lemma WorkerHandles(sh: Shared, p: Proc, env: Env)
    requires IsWorker(p)
    ensures var (sh', p') := WorkerStep(sh, p, env); Handles(sh, p, sh', p')
  {
    hide TransitionStep, Handles;
    var (sh', p') := WorkerStep(sh, p, env);
    if p.Closing? { TransitionHandles(sh, CloseRequest(p.item), p.at, env); }
    SameKeysHandled(sh, p, sh', p');
  }

  lemma BatchHandles(sh: Shared, pid: nat, p: Proc, env: Env)
    requires p.Batching?
    ensures var (sh', p') := BatchStep(sh, pid, p, env); Handles(sh, p, sh', p')
  {
    hide Updated, Handles;
    var (sh', p') := BatchStep(sh, pid, p, env);
    if p.point.InItem? && p.point.at.Writing? {
      UpdatedHandles(sh, p.point.at.copy, p.job.to, p.point.at.copy.revision, env, ByBatch(pid));
    }
    SameKeysHandled(sh, p, sh', p');
  }

  lemma CreateHandles(sh: Shared, p: Proc, env: Env)
    requires IsCreate(p)
    ensures var (sh', p') := CreateStep(sh, p, env); Handles(sh, p, sh', p')
  {
  }

  lemma ArchiveHandles(sh: Shared, p: Proc, env: Env)
    requires IsArchive(p)
    ensures var (sh', p') := ArchiveStep(sh, p, env); Handles(sh, p, sh', p')
  {
  }

  lemma StepHandles(sh: Shared, pid: nat, p: Proc, env: Env)
    ensures var (sh', p') := ProcStep(sh, pid, p, env); Handles(sh, p, sh', p')
  {
    hide CreateStep, WorkerStep, BatchStep, ArchiveStep, TransitionStep, Handles;
    if IsCreate(p) { CreateHandles(sh, p, env); }
    else if IsWorker(p) { WorkerHandles(sh, p, env); }
    else if p.Batching? { BatchHandles(sh, pid, p, env); }
    else if IsArchive(p) { ArchiveHandles(sh, p, env); }
    else {
      if p.Operating? { TransitionHandles(sh, p.request, p.at, env); }
      var (sh', p') := ProcStep(sh, pid, p, env);
      SameKeysHandled(sh, p, sh', p');
    }
  }

  lemma StepKeepsId(sh: Shared, p: Proc, sh': Shared, p': Proc, k: string)
    requires StoreOk(sh) && CopiesOk(sh, p) && Handles(sh, p, sh', p') && Evolves(sh, sh') && KeptId(sh, k)
    requires p.Deleting? ==> p.id in sh.archived
    ensures KeptId(sh', k)
  {
    hide Evolves, CopyOk, StoreOk;
    if k in sh'.archived {
      if p.Saving? && k == p.id { assert Holds(p, p.copy); }
      CopySurvives(sh, sh', sh'.archived[k]);
    }
  }

  lemma NextKeepsKept(s: State, turn: Turn)
    requires CopyInv(s) && Kept(s) && !Recreates(s, turn)
    ensures Kept(Next(s, turn))
  {
    hide ProcStep;
    NextKeepsCopies(s, turn);
    if turn.Step? && turn.pid in s.procs {
      var (sh', p') := ProcStep(s.shared, turn.pid, s.procs[turn.pid], turn.env);
      StepHandles(s.shared, turn.pid, s.procs[turn.pid], turn.env);
      assert CopiesOk(s.shared, s.procs[turn.pid]);
      forall k ensures KeptId(sh', k) {
        StepKeepsId(s.shared, s.procs[turn.pid], sh', p', k);
      }
    }
  }

  lemma {:induction false} RunKeepsKept(s: State, schedule: seq<Turn>)
    requires CopyInv(s) && Kept(s) && NoRecreation(s, schedule)
    ensures CopyInv(Run(s, schedule)) && Kept(Run(s, schedule))
    decreases |schedule|
  {
    if schedule != [] {
      NextKeepsCopies(s, schedule[0]);
      NextKeepsKept(s, schedule[0]);
      RunKeepsKept(Next(s, schedule[0]), schedule[1..]);
    }
  }

  /** Of the above, what needs no assumption on the run. */
  predicate SafeId(sh: Shared, k: string) {
    && (k in sh.born <==> k in sh.items || k in sh.archived)
    && (k in sh.archived ==> ClosedCopy(sh.archived[k], k))
  }

  predicate ClosedCopy(r: OpsRecord, k: string) {
    r.id == k && r.revision >= 1 && r.Terminal()
  }

  predicate ArchiverOk(sh: Shared, p: Proc) {
    (p.Saving? ==> p.id in sh.born && ClosedCopy(p.copy, p.id)) && (p.Deleting? ==> p.id in sh.archived)
  }

  ghost predicate Safe(s: State) {
    && StoreInv(s) && (forall k :: SafeId(s.shared, k))
    && (forall pid :: pid in s.procs ==> ArchiverOk(s.shared, s.procs[pid]))
  }

  lemma StepKeepsSafeId(sh: Shared, p: Proc, sh': Shared, p': Proc, k: string)
    requires Handles(sh, p, sh', p') && SafeId(sh, k) && ArchiverOk(sh, p)
    ensures SafeId(sh', k)
  {
  }

  lemma StepKeepsArchivers(sh: Shared, p: Proc, sh': Shared, p': Proc, q: Proc)
    requires Handles(sh, p, sh', p') && ArchiverOk(sh, q)
    ensures ArchiverOk(sh', q)
  {
  }

  lemma NextArchiver(sh: Shared, p: Proc, sh': Shared, p': Proc)
    requires Handles(sh, p, sh', p') && Keyed(sh.items) && forall k :: SafeId(sh, k)
    ensures ArchiverOk(sh', p')
  {
    if p'.Saving? { assert SafeId(sh, p'.id); }
  }

  lemma NextKeepsSafe(s: State, turn: Turn)
    requires Safe(s)
    ensures Safe(Next(s, turn))
  {
    hide ProcStep, Handles, SafeId, ArchiverOk, StoreInv;
    NextKeepsStore(s, turn);
    match turn
    case Spawn(pid, call) => FreshArchiver(s.shared, call);
    case Step(pid, env) =>
      if pid in s.procs {
        var p := s.procs[pid];
        var (sh', p') := ProcStep(s.shared, pid, p, env);
        StepHandles(s.shared, pid, p, env);
        forall k ensures SafeId(sh', k) { StepKeepsSafeId(s.shared, p, sh', p', k); }
        forall q | q in s.procs ensures ArchiverOk(sh', s.procs[q]) {
          StepKeepsArchivers(s.shared, p, sh', p', s.procs[q]);
        }
        StoredKeyed(s);
        NextArchiver(s.shared, p, sh', p');
      }
  }

  lemma FreshArchiver(sh: Shared, call: Call)
    ensures ArchiverOk(sh, Begin(call))
  {
  }

  lemma StoredKeyed(s: State)
    requires StoreInv(s)
    ensures Keyed(s.shared.items)
  {
  }

  lemma {:induction false} RunKeepsSafe(s: State, schedule: seq<Turn>)
    requires Safe(s)
    ensures Safe(Run(s, schedule))
    decreases |schedule|
  {
    hide Safe;
    if schedule != [] {
      NextKeepsSafe(s, schedule[0]);
      RunKeepsSafe(Next(s, schedule[0]), schedule[1..]);
    }
  }

  /** At every step of every run, with any number of Archives under way and ids created again or
      not, every id ever stored is in one of the two containers and whatever is archived is a
      closed record under its own id. Without re-creation it is the record born under it. */
  lemma NothingIsLost(seed: seq<OpsRecord>, unitLimit: nat, schedule: seq<Turn>, id: string)
    ensures var sh := Run(Boot(seed, unitLimit), schedule).shared;
            && (id in sh.born ==> id in sh.items || id in sh.archived)
            && (id in sh.archived ==> ClosedCopy(sh.archived[id], id))
            && (NoRecreation(Boot(seed, unitLimit), schedule) && id in sh.archived ==>
                  id in sh.born && SameIdentity(sh.archived[id], sh.born[id]))
  {
    RunKeepsSafe(Boot(seed, unitLimit), schedule);
    assert SafeId(Run(Boot(seed, unitLimit), schedule).shared, id);
    if NoRecreation(Boot(seed, unitLimit), schedule) {
      BootOk(seed, unitLimit);
      RunKeepsKept(Boot(seed, unitLimit), schedule);
      assert KeptId(Run(Boot(seed, unitLimit), schedule).shared, id);
    }
  }

  /** In every state of every run: a Create's write would put back a deleted id exactly when the
      id is in the archive and not in the store, which a caller can look up. */
  lemma RecreatesExactly(seed: seq<OpsRecord>, unitLimit: nat, schedule: seq<Turn>, pid: nat, env: Env)
    requires var s := Run(Boot(seed, unitLimit), schedule); pid in s.procs && s.procs[pid].Creating?
    ensures var s := Run(Boot(seed, unitLimit), schedule);
            var id := s.procs[pid].record.id;
            Recreates(s, Step(pid, env)) <==> !env.cancelled && id in s.shared.archived && id !in s.shared.items
  {
    RunKeepsSafe(Boot(seed, unitLimit), schedule);
    var s := Run(Boot(seed, unitLimit), schedule);
    assert SafeId(s.shared, s.procs[pid].record.id);
  }

  /** Once a closed version was taken to be archived, the live record is closed as well. */
  predicate ClosedIfLive(sh: Shared, k: string) {
    k in sh.items ==> sh.items[k].status == Closed
  }

  ghost predicate LiveClosed(s: State) {
    && (forall k :: k in s.shared.archived ==> ClosedIfLive(s.shared, k))
    && (forall pid :: pid in s.procs && s.procs[pid].Saving? ==> ClosedIfLive(s.shared, s.procs[pid].id))
  }

  lemma StaysClosed(sh: Shared, sh': Shared, k: string)
    requires Evolves(sh, sh') && OnTable(sh.items, sh'.items) && k in sh.born && ClosedIfLive(sh, k)
    ensures ClosedIfLive(sh', k)
  {
  }

  lemma SavedIsBorn(s: State, pid: nat)
    requires CopyInv(s) && pid in s.procs
    ensures s.procs[pid].Saving? ==> s.procs[pid].id in s.shared.born
  {
    assert CopiesOk(s.shared, s.procs[pid]);
    assert s.procs[pid].Saving? ==> Holds(s.procs[pid], s.procs[pid].copy);
  }

  /** What the step keeps, seen from one id. */
  lemma StepKeepsLiveClosed(s: State, sh': Shared, p: Proc, p': Proc)
    requires CopyInv(s) && Kept(s) && LiveClosed(s)
    requires Evolves(s.shared, sh') && OnTable(s.shared.items, sh'.items) && Handles(s.shared, p, sh', p')
    requires p.Saving? ==> p.id in s.shared.born && ClosedIfLive(s.shared, p.id)
    ensures forall k :: k in sh'.archived ==> ClosedIfLive(sh', k)
  {
    hide Evolves, OnTable, CopyInv, ClosedIfLive;
    forall k | k in sh'.archived ensures ClosedIfLive(sh', k) {
      assert KeptId(s.shared, k);
      StaysClosed(s.shared, sh', k);
    }
  }

  lemma NextKeepsLiveClosed(s: State, turn: Turn)
    requires StatusInv(s) && Kept(s) && LiveClosed(s) && !Recreates(s, turn) && SafeTurn(turn)
    ensures LiveClosed(Next(s, turn))
  {
    hide ProcStep, Evolves, OnTable, Kept, CopyInv, Handles, ProcSafe, ClosedIfLive, Begin, Recreates;
    NextKeepsStatus(s, turn);
    NextKeepsCopies(s, turn);
    match turn
    case Spawn(pid, call) => NotSavingYet(call);
    case Step(pid, env) =>
      if pid in s.procs {
        var (sh', p') := ProcStep(s.shared, pid, s.procs[pid], env);
        StepHandles(s.shared, pid, s.procs[pid], env);
        SavedIsBorn(s, pid);
        StepKeepsLiveClosed(s, sh', s.procs[pid], p');
        forall q | q in s.procs && s.procs[q].Saving? ensures ClosedIfLive(sh', s.procs[q].id) {
          SavedIsBorn(s, q);
          StaysClosed(s.shared, sh', s.procs[q].id);
        }
        SavedIsClosed(s.shared, s.procs[pid], sh', p');
      }
  }

  lemma SavedIsClosed(sh: Shared, p: Proc, sh': Shared, p': Proc)
    requires Handles(sh, p, sh', p')
    ensures p'.Saving? ==> ClosedIfLive(sh', p'.id)
  {
  }

  lemma NotSavingYet(call: Call)
    ensures !Begin(call).Saving?
  {
  }

  lemma {:induction false} RunKeepsLiveClosed(s: State, schedule: seq<Turn>)
    requires StatusInv(s) && Kept(s) && LiveClosed(s) && NoRecreation(s, schedule) && SafeSchedule(schedule)
    ensures var s' := Run(s, schedule); StatusInv(s') && Kept(s') && LiveClosed(s')
    decreases |schedule|
  {
    if schedule != [] {
      assert SafeTurn(schedule[0]);
      NextKeepsStatus(s, schedule[0]);
      NextKeepsKept(s, schedule[0]);
      NextKeepsLiveClosed(s, schedule[0]);
      RunKeepsLiveClosed(Next(s, schedule[0]), schedule[1..]);
    }
  }

  /** The archive holds the record stored under id, up to revision and update stamp, and no newer. */
  predicate KeptAs(sh: Shared, id: string)
    requires id in sh.items
  {
    && id in sh.archived
    && sh.archived[id].(revision := sh.items[id].revision, updatedAt := sh.items[id].updatedAt) == sh.items[id]
    && sh.archived[id].revision <= sh.items[id].revision
  }

  /** This step deletes the record stored under id. */
  predicate Deletes(s: State, pid: nat, env: Env, id: string) {
    id in s.shared.items && id !in Next(s, Step(pid, env)).shared.items
  }

  /** When Archive's Delete takes a record out of the store, the archive holds a copy that
      differs from it in revision and update stamp at most, and is no newer. */
  lemma ArchivedIsWhatWasDeleted(seed: seq<OpsRecord>, unitLimit: nat, schedule: seq<Turn>, pid: nat, env: Env,
                                 id: string)
    requires NoRecreation(Boot(seed, unitLimit), schedule) && SafeSchedule(schedule)
    requires Deletes(Run(Boot(seed, unitLimit), schedule), pid, env, id)
    ensures KeptAs(Run(Boot(seed, unitLimit), schedule).shared, id)
  {
    hide ProcStep;
    var s := Run(Boot(seed, unitLimit), schedule);
    BootStatusOk(seed, unitLimit);
    RunKeepsLiveClosed(Boot(seed, unitLimit), schedule);
    StepHandles(s.shared, pid, s.procs[pid], env);
    assert KeptId(s.shared, id);
  }
}
