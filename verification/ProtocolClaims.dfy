/** The claim registry under concurrent batches: no claim conflicts, every claim is released,
    and a batch's tally counts its own writes. */
module ProtocolClaims {
  import opened OpsModel
  import opened Decimal
  import opened Manifest
  import opened Protocol
  import opened ProtocolUnits

  predicate Owns(p: Proc, batchID: string) {
    HasClaim(p) && ClaimID(p) == batchID
  }

  ghost predicate NumbersOk(s: State) {
    && (forall pid :: pid in s.procs && Numbered(s.procs[pid]) ==> s.procs[pid].number <= s.shared.sequence)
    && (forall p, q :: p in s.procs && q in s.procs && p != q && Numbered(s.procs[p]) && Numbered(s.procs[q]) ==>
          s.procs[p].number != s.procs[q].number)
  }

  /** Progress inside a batch is always reported as 1. */
  predicate DoneIsFlag(claims: Claims) {
    forall b :: b in claims ==> claims[b].done == 0 || claims[b].done == 1
  }

  /** The registry holds exactly the claims of the batches between Claim and Release. */
  ghost predicate RegistryOk(s: State) {
    && ClaimsInOrder(s.shared.claims) && DoneIsFlag(s.shared.claims)
    && (forall pid :: pid in s.procs && HasClaim(s.procs[pid]) ==> ClaimID(s.procs[pid]) in s.shared.claims)
    && (forall b :: b in s.shared.claims ==> exists pid :: pid in s.procs && Owns(s.procs[pid], b))
  }

  ghost predicate ClaimInv(s: State) {
    NumbersOk(s) && RegistryOk(s)
  }

  /** How a step treats the registry: it touches at most the process's own claim. */
  datatype Handling = LeavesClaims | DrawsNumber | TakesClaim | KeepsClaim | DropsClaim

  predicate Handles(sh: Shared, p: Proc, sh': Shared, p': Proc, h: Handling) {
    match h
    case LeavesClaims => !HasClaim(p) && !Numbered(p') && sh'.claims == sh.claims && sh'.sequence == sh.sequence
    case DrawsNumber =>
      && !Numbered(p) && p'.Claiming? && sh'.claims == sh.claims
      && p'.number == sh'.sequence == sh.sequence + 1
    case TakesClaim =>
      && p.Claiming? && HasClaim(p') && p'.number == p.number && p'.job == p.job && sh'.sequence == sh.sequence + 1
      && ClaimID(p') !in sh.claims && ClaimID(p') in sh'.claims
      && sh'.claims == sh.claims[ClaimID(p') := sh'.claims[ClaimID(p')]]
      && sh'.claims[ClaimID(p')] == OpsManifest("mf-" + Pad6(sh'.sequence), ClaimID(p'), p.job.owner, |p.job.ids|, 0)
      && |p.job.ids| >= 1
    case KeepsClaim =>
      && HasClaim(p) && HasClaim(p') && p'.number == p.number && p'.job == p.job && sh'.sequence == sh.sequence
      && (sh'.claims == sh.claims ||
          (ClaimID(p) in sh.claims && 1 <= sh.claims[ClaimID(p)].scope
           && sh'.claims == sh.claims[ClaimID(p) := sh.claims[ClaimID(p)].(done := 1)]))
    case DropsClaim =>
      && p.Unclaiming? && p'.Finished? && sh'.claims == sh.claims - {ClaimID(p)} && sh'.sequence == sh.sequence
  }

  function HandlingOf(p: Proc, p': Proc): Handling {
    if p.Starting? then DrawsNumber
    else if p.Claiming? && p'.Batching? then TakesClaim
    else if p.Batching? then KeepsClaim
    else if p.Unclaiming? then DropsClaim
    else LeavesClaims
  }

  lemma BatchHandles(sh: Shared, pid: nat, p: Proc, env: Env)
    requires p.Batching?
    ensures var (sh', p') := BatchStep(sh, pid, p, env); Handles(sh, p, sh', p', KeepsClaim)
  {
  }

  lemma ClaimHandles(sh: Shared, p: Proc)
    requires IsClaim(p) && (p.Unclaiming? ==> ClaimID(p) in sh.claims)
    ensures var (sh', p') := ClaimStep(sh, p); Handles(sh, p, sh', p', HandlingOf(p, p'))
  {
  }

  lemma CreateLeavesClaims(sh: Shared, p: Proc, env: Env)
    requires IsCreate(p)
    ensures var (sh', p') := CreateStep(sh, p, env);
            sh'.claims == sh.claims && sh'.sequence == sh.sequence && (p'.CreateLogging? || p'.Finished?)
  {
  }

  lemma TransitionLeavesClaims(sh: Shared, req: Request, at: Flight, env: Env)
    ensures var sh' := TransitionStep(sh, req, at, env).0; sh'.claims == sh.claims && sh'.sequence == sh.sequence
  {
  }

  lemma ArchiveLeavesClaims(sh: Shared, p: Proc, env: Env)
    requires IsArchive(p)
    ensures var (sh', p') := ArchiveStep(sh, p, env);
            sh'.claims == sh.claims && sh'.sequence == sh.sequence && !IsBatch(p')
  {
  }

  lemma StepHandles(sh: Shared, pid: nat, p: Proc, env: Env)
    requires p.Unclaiming? ==> ClaimID(p) in sh.claims
    ensures var (sh', p') := ProcStep(sh, pid, p, env); Handles(sh, p, sh', p', HandlingOf(p, p'))
  {
    hide BatchStep, ClaimStep, CreateStep, TransitionStep, ArchiveStep, BatchID, Pad6;
    if IsCreate(p) { CreateLeavesClaims(sh, p, env); }
    else if p.Operating? { TransitionLeavesClaims(sh, p.request, p.at, env); }
    else if p.Closing? { TransitionLeavesClaims(sh, CloseRequest(p.item), p.at, env); }
    else if p.Batching? { BatchHandles(sh, pid, p, env); }
    else if IsClaim(p) { ClaimHandles(sh, p); }
    else if IsArchive(p) { ArchiveLeavesClaims(sh, p, env); }
  }

  lemma HandlingKeepsNumbers(s: State, pid: nat, sh': Shared, p': Proc, h: Handling)
    requires NumbersOk(s) && pid in s.procs && Handles(s.shared, s.procs[pid], sh', p', h)
    ensures NumbersOk(State(sh', s.procs[pid := p']))
  {
  }

  lemma EveryClaimIsOwned(s: State, pid: nat, sh': Shared, p': Proc, h: Handling, b: string)
    returns (q: nat)
    requires RegistryOk(s) && pid in s.procs && Handles(s.shared, s.procs[pid], sh', p', h) && b in sh'.claims
    ensures q in s.procs[pid := p'] && Owns(s.procs[pid := p'][q], b)
  {
    hide BatchID, Pad6;
    q := pid;
    if b in s.shared.claims {
      q :| q in s.procs && Owns(s.procs[q], b);
    }
  }

  lemma EveryOwnerIsFiled(s: State, pid: nat, sh': Shared, p': Proc, h: Handling, q: nat)
    requires ClaimInv(s) && pid in s.procs && Handles(s.shared, s.procs[pid], sh', p', h)
    requires q in s.procs[pid := p'] && HasClaim(s.procs[pid := p'][q])
    ensures ClaimID(s.procs[pid := p'][q]) in sh'.claims
  {
    if q != pid && h.DropsClaim? && ClaimID(s.procs[q]) == ClaimID(s.procs[pid]) {
      BatchIDInjective(s.procs[q].job.owner, s.procs[q].number, s.procs[pid].job.owner, s.procs[pid].number);
    }
  }

  lemma HandlingKeepsRegistry(s: State, pid: nat, sh': Shared, p': Proc, h: Handling)
    requires ClaimInv(s) && pid in s.procs && Handles(s.shared, s.procs[pid], sh', p', h)
    ensures RegistryOk(State(sh', s.procs[pid := p']))
  {
    var procs' := s.procs[pid := p'];
    forall b | b in sh'.claims ensures exists q :: q in procs' && Owns(procs'[q], b) {
      var q := EveryClaimIsOwned(s, pid, sh', p', h, b);
    }
    forall q | q in procs' && HasClaim(procs'[q]) ensures ClaimID(procs'[q]) in sh'.claims {
      EveryOwnerIsFiled(s, pid, sh', p', h, q);
    }
    HandlingKeepsOrder(s.shared, s.procs[pid], sh', p', h);
  }

  lemma HandlingKeepsOrder(sh: Shared, p: Proc, sh': Shared, p': Proc, h: Handling)
    requires ClaimsInOrder(sh.claims) && DoneIsFlag(sh.claims) && Handles(sh, p, sh', p', h)
    ensures ClaimsInOrder(sh'.claims) && DoneIsFlag(sh'.claims)
  {
  }

  lemma NextKeepsClaims(s: State, turn: Turn)
    requires ClaimInv(s)
    ensures ClaimInv(Next(s, turn))
  {
    hide ProcStep;
    match turn
    case Spawn(pid, call) =>
      if pid !in s.procs {
        SpawnKeepsRegistry(s, pid, call);
      }
    case Step(pid, env) =>
      if pid in s.procs {
        var p := s.procs[pid];
        StepHandles(s.shared, pid, p, env);
        var (sh', p') := ProcStep(s.shared, pid, p, env);
        HandlingKeepsNumbers(s, pid, sh', p', HandlingOf(p, p'));
        HandlingKeepsRegistry(s, pid, sh', p', HandlingOf(p, p'));
      }
  }

  lemma SpawnKeepsRegistry(s: State, pid: nat, call: Call)
    requires ClaimInv(s) && pid !in s.procs
    ensures ClaimInv(s.(procs := s.procs[pid := Begin(call)]))
  {
    hide NormalizeOpsRecord, BatchID;
    var procs' := s.procs[pid := Begin(call)];
    forall b | b in s.shared.claims ensures exists q :: q in procs' && Owns(procs'[q], b) {
      var q :| q in s.procs && Owns(s.procs[q], b);
      assert Owns(procs'[q], b);
    }
  }

  lemma {:induction false} RunKeepsClaims(s: State, schedule: seq<Turn>)
    requires ClaimInv(s)
    ensures ClaimInv(Run(s, schedule))
    decreases |schedule|
  {
    if schedule != [] {
      NextKeepsClaims(s, schedule[0]);
      RunKeepsClaims(Next(s, schedule[0]), schedule[1..]);
    }
  }

  /** On every run: a Claim is refused only for an empty owner or an empty id list, never as a
      conflict; Progress and Release inside Apply never fail; a finished batch has left no
      claim behind; and no manifest reports more done than its scope, or than 1. */
  lemma ClaimsNeverConflict(seed: seq<OpsRecord>, unitLimit: nat, schedule: seq<Turn>, pid: nat)
    ensures var s := Run(Boot(seed, unitLimit), schedule);
            && ClaimsInOrder(s.shared.claims) && DoneIsFlag(s.shared.claims)
            && (forall b :: b in s.shared.claims ==> exists q :: q in s.procs && Owns(s.procs[q], b))
            && (pid in s.procs && s.procs[pid].Claiming? ==>
                  var job, number := s.procs[pid].job, s.procs[pid].number;
                  (ClaimResult(s.shared.claims, s.shared.sequence, BatchID(job.owner, number), job.owner, |job.ids|).Ok?
                   <==> job.owner != "" && job.ids != []))
            && (pid in s.procs && HasClaim(s.procs[pid]) ==>
                  var id := ClaimID(s.procs[pid]);
                  ProgressResult(s.shared.claims, id, 1).Ok? && ReleaseResult(s.shared.claims, id).Ok?)
  {
    hide Run, Pad6;
    var s := Run(Boot(seed, unitLimit), schedule);
    assert ClaimInv(Boot(seed, unitLimit));
    RunKeepsClaims(Boot(seed, unitLimit), schedule);
    if pid in s.procs && s.procs[pid].Claiming? {
      var p := s.procs[pid];
      var id := BatchID(p.job.owner, p.number);
      if id in s.shared.claims {
        var q :| q in s.procs && Owns(s.procs[q], id);
        BatchIDInjective(p.job.owner, p.number, s.procs[q].job.owner, s.procs[q].number);
      }
    }
  }

  // ---- The tally ----

  /** The updates process pid made as a batch. */
  function WritesBy(writes: seq<Write>, pid: nat): nat {
    if writes == [] then 0 else
      WritesBy(writes[..|writes| - 1], pid) + (if writes[|writes| - 1].writer == ByBatch(pid) then 1 else 0)
  }

  /** Updates made so far by a batch process: those tallied, and one on its way to the tally. */
  function Made(p: Proc): nat {
    match p
    case Batching(_, _, tally, point) => tally.applied + PointMade(point)
    case Unclaiming(_, _, tally) => tally.applied
    case _ => 0
  }

  ghost predicate TallyInv(s: State) {
    && (forall pid :: pid in s.procs ==> TallyOk(s.procs[pid]))
    && (forall pid :: pid in s.procs && !s.procs[pid].Finished? ==>
          Made(s.procs[pid]) == WritesBy(s.shared.writes, pid))
    && (forall pid :: pid !in s.procs ==> WritesBy(s.shared.writes, pid) == 0)
  }

  lemma TransitionWritesBy(sh: Shared, req: Request, at: Flight, env: Env, q: nat)
    ensures WritesBy(TransitionStep(sh, req, at, env).0.writes, q) == WritesBy(sh.writes, q)
  {
  }

  function PointMade(point: BatchPoint): nat {
    match point
    case InItem(_, Logging(_)) => 1
    case Freeing(Moved) => 1
    case _ => 0
  }

  lemma ItemWritesBy(sh: Shared, pid: nat, job: Job, number: nat, id: string, at: Flight, env: Env, q: nat)
    ensures var (sh', point) := ItemStep(sh, pid, job, number, id, at, env);
            WritesBy(sh'.writes, q) ==
              WritesBy(sh.writes, q) + if q == pid then PointMade(point) - PointMade(InItem(id, at)) else 0
  {
  }

  lemma BatchWritesBy(sh: Shared, pid: nat, p: Proc, env: Env, q: nat)
    requires p.Batching?
    ensures var (sh', p') := BatchStep(sh, pid, p, env);
            && (q == pid ==> WritesBy(sh'.writes, q) - WritesBy(sh.writes, q) == Made(p') - Made(p))
            && (q != pid ==> WritesBy(sh'.writes, q) == WritesBy(sh.writes, q))
  {
    hide ItemStep;
    if p.point.InItem? {
      ItemWritesBy(sh, pid, p.job, p.number, p.point.id, p.point.at, env, q);
    }
  }

  lemma StepWritesBy(sh: Shared, pid: nat, p: Proc, env: Env, q: nat)
    ensures var (sh', p') := ProcStep(sh, pid, p, env);
            && (q == pid && !p'.Finished? ==> WritesBy(sh'.writes, q) - WritesBy(sh.writes, q) == Made(p') - Made(p))
            && (q != pid ==> WritesBy(sh'.writes, q) == WritesBy(sh.writes, q))
  {
    hide TransitionStep, BatchStep, NormalizeOpsRecord, BatchID;
    if p.Operating? { TransitionWritesBy(sh, p.request, p.at, env, q); }
    else if p.Closing? { TransitionWritesBy(sh, CloseRequest(p.item), p.at, env, q); }
    else if p.Batching? { BatchWritesBy(sh, pid, p, env, q); }
  }

  lemma FinishedStaysFinished(sh: Shared, pid: nat, p: Proc, env: Env)
    ensures p.Finished? ==> ProcStep(sh, pid, p, env) == (sh, p)
  {
  }

  lemma NextKeepsTally(s: State, turn: Turn)
    requires TallyInv(s)
    ensures TallyInv(Next(s, turn))
  {
    hide ProcStep;
    match turn
    case Spawn(pid, call) =>
    case Step(pid, env) =>
      if pid in s.procs {
        StepKeepsTally(s.shared, pid, s.procs[pid], env);
        FinishedStaysFinished(s.shared, pid, s.procs[pid], env);
        forall q: nat
          ensures var (sh', p') := ProcStep(s.shared, pid, s.procs[pid], env);
                  && (q == pid && !p'.Finished? ==>
                        WritesBy(sh'.writes, q) - WritesBy(s.shared.writes, q) == Made(p') - Made(s.procs[pid]))
                  && (q != pid ==> WritesBy(sh'.writes, q) == WritesBy(s.shared.writes, q))
        {
          StepWritesBy(s.shared, pid, s.procs[pid], env, q);
        }
      }
  }

  lemma {:induction false} RunKeepsTally(s: State, schedule: seq<Turn>)
    requires TallyInv(s)
    ensures TallyInv(Run(s, schedule))
    decreases |schedule|
  {
    if schedule != [] {
      NextKeepsTally(s, schedule[0]);
      RunKeepsTally(Next(s, schedule[0]), schedule[1..]);
    }
  }

  /** Under every interleaving, when a batch is about to return, Applied is the number of
      updates this batch made, and Applied and Skipped add up to the ids it got through. */
  lemma AppliedCountsOwnWrites(seed: seq<OpsRecord>, unitLimit: nat, schedule: seq<Turn>, pid: nat)
    requires var s := Run(Boot(seed, unitLimit), schedule); pid in s.procs && s.procs[pid].Unclaiming?
    ensures var s := Run(Boot(seed, unitLimit), schedule);
            var tally := s.procs[pid].tally;
            && tally.applied == WritesBy(s.shared.writes, pid)
            && tally.applied + tally.skipped == tally.next <= |s.procs[pid].job.ids|
  {
    RunKeepsTally(Boot(seed, unitLimit), schedule);
  }

  /** Whatever interleaving has led to a state, some continuation finishes every batch. */
  lemma NoBatchDeadlock(seed: seq<OpsRecord>, unitLimit: nat, schedule: seq<Turn>, env: Env) returns (rest: seq<Turn>)
    requires unitLimit >= 1
    ensures var s := Run(Run(Boot(seed, unitLimit), schedule), rest);
            forall q :: q in s.procs ==> !IsBatch(s.procs[q])
  {
    var s := Boot(seed, unitLimit);
    assert Holders(s.procs) == {};
    RunKeepsUnits(s, schedule, unitLimit);
    RunKeepsTally(s, schedule);
    rest := BatchesCanFinish(Run(s, schedule), unitLimit, env);
  }
}
