/** A batch of the machine whose steps nobody interrupts does what module Batch says of Apply. */
module ProtocolBatchAlone {
  import opened OpsModel
  import opened StateMachine
  import opened Store
  import opened Manifest
  import opened Decimal
  import opened Protocol
  import opened ProtocolAlone
  import Batch

  /** Where a batch goes after an item: on, or out of the loop. */
  function After(job: Job, number: nat, tally: Tally, r: Batch.ItemResult): Proc {
    if r.err.Some? then Unclaiming(job, number, tally)
    else if r.ok then Batching(job, number, Tally(tally.next + 1, tally.applied + 1, tally.skipped), AtHead)
    else Batching(job, number, Tally(tally.next + 1, tally.applied, tally.skipped + 1), AtHead)
  }

  function Outcome(r: Batch.ItemResult): ItemOutcome {
    if r.err.Some? then Failed else if r.ok then Moved else Skipped
  }

  /** The step that moves a copy: on to the write, or refused. */
  lemma MoveStep(sh: Shared, pid: nat, job: Job, number: nat, tally: Tally, copy: OpsRecord, env: Env)
    requires copy.status == job.from
    ensures var (sh', p') := ProcStep(sh, pid, Batching(job, number, tally, InItem(copy.id, Moving(copy))), env);
            && sh'.items == sh.items && sh'.units == sh.units && sh'.claims == sh.claims
            && p' == Batching(job, number, tally,
                              if CanMove(job.from, job.to) then InItem(copy.id, Writing(copy)) else Freeing(Failed))
  {
  }

  /** The step that writes it, the stored record being the copy. */
  lemma UpdateStep(sh: Shared, pid: nat, job: Job, number: nat, tally: Tally, copy: OpsRecord, env: Env)
    requires copy.id in sh.items && sh.items[copy.id] == copy && !env.cancelled
    ensures var (sh', p') := ProcStep(sh, pid, Batching(job, number, tally, InItem(copy.id, Writing(copy))), env);
            && p' == Batching(job, number, tally, InItem(copy.id, Logging(copy)))
            && sh'.items == sh.items[copy.id := Batch.Later(copy, job.to, 1, env.now)]
            && sh'.units == sh.units && sh'.claims == sh.claims
  {
  }

  /** The step that reports progress. */
  lemma ReportStep(sh: Shared, pid: nat, job: Job, number: nat, tally: Tally, copy: OpsRecord, env: Env)
    ensures var (sh', p') := ProcStep(sh, pid, Batching(job, number, tally, InItem(copy.id, Logging(copy))), env);
            && p' == Batching(job, number, tally, Freeing(Moved)) && sh'.items == sh.items && sh'.units == sh.units
            && (sh'.claims == sh.claims || Ok(sh'.claims) == ProgressResult(sh.claims, BatchID(job.owner, number), 1))
  {
  }

  /** Moving, updating and reporting one record. */
  lemma WriteItem(sh: Shared, pid: nat, job: Job, number: nat, tally: Tally, copy: OpsRecord, envs: seq<Env>)
    returns (n: nat, sh': Shared, r: Batch.ItemResult)
    requires copy.id in sh.items && sh.items[copy.id] == copy && copy.status == job.from
    requires |envs| >= 3 && Uncancelled(envs)
    ensures n <= 3 && Solo(sh, pid, Batching(job, number, tally, InItem(copy.id, Moving(copy))), envs)
                   == Solo(sh', pid, Batching(job, number, tally, Freeing(Outcome(r))), envs[n..])
    ensures Batch.ItemDone(sh.items, sh'.items, job.from, job.to, copy.id, r) && r.err != Some(Cancelled)
    ensures sh'.units == sh.units && (sh'.claims == sh.claims
         || Ok(sh'.claims) == ProgressResult(sh.claims, BatchID(job.owner, number), 1))
  {
    hide ProcStep, Solo, BatchID, ProgressResult, CanMove;
    var p := Batching(job, number, tally, InItem(copy.id, Moving(copy)));
    UnfoldOne(sh, pid, p, envs);
    MoveStep(sh, pid, job, number, tally, copy, envs[0]);
    var (sh1, p1) := ProcStep(sh, pid, p, envs[0]);
    if !CanMove(job.from, job.to) {
      return 1, sh1, Batch.ItemResult(false, Some(TransitionRefused));
    }
    UnfoldOne(sh1, pid, p1, envs[1..]);
    UpdateStep(sh1, pid, job, number, tally, copy, envs[1]);
    var (sh2, p2) := ProcStep(sh1, pid, p1, envs[1]);
    UnfoldOne(sh2, pid, p2, envs[2..]);
    ReportStep(sh2, pid, job, number, tally, copy, envs[2]);
    assert envs[1..][1..] == envs[2..] && envs[2..][1..] == envs[3..];
    return 3, ProcStep(sh2, pid, p2, envs[2]).0, Batch.ItemResult(true, None);
  }

  /** The unit in hand: reading the record, and writing it if it is a hit. */
  lemma ReadItem(sh: Shared, pid: nat, job: Job, number: nat, tally: Tally, id: string, envs: seq<Env>)
    returns (n: nat, sh': Shared, r: Batch.ItemResult)
    requires Keyed(sh.items) && |envs| >= 4 && Uncancelled(envs)
    ensures n <= 4 && Solo(sh, pid, Batching(job, number, tally, InItem(id, Reading)), envs)
                   == Solo(sh', pid, Batching(job, number, tally, Freeing(Outcome(r))), envs[n..])
    ensures Batch.ItemDone(sh.items, sh'.items, job.from, job.to, id, r) && r.err != Some(Cancelled)
    ensures sh'.units == sh.units && (sh'.claims == sh.claims
         || Ok(sh'.claims) == ProgressResult(sh.claims, BatchID(job.owner, number), 1))
  {
    hide CreateStep, OperatorStep, WorkerStep, ArchiveStep, ClaimStep, Solo, BatchID, ProgressResult, CanMove;
    UnfoldOne(sh, pid, Batching(job, number, tally, InItem(id, Reading)), envs);
    if !Batch.Hit(sh.items, job.from, id) {
      return 1, sh, Batch.ItemResult(false, None);
    }
    n, sh', r := WriteItem(sh, pid, job, number, tally, sh.items[id], envs[1..]);
    assert envs[1..][n..] == envs[n + 1..];
    n := n + 1;
  }

  /** One turn of the loop. */
  lemma ItemAlone(sh: Shared, pid: nat, job: Job, number: nat, tally: Tally, envs: seq<Env>)
    returns (n: nat, sh': Shared, r: Batch.ItemResult)
    requires Keyed(sh.items) && sh.units > 0 && tally.next < |job.ids| && |envs| >= 7 && Uncancelled(envs)
    ensures n <= 7 && Solo(sh, pid, Batching(job, number, tally, AtHead), envs)
                   == Solo(sh', pid, After(job, number, tally, r), envs[n..])
    ensures Batch.ItemDone(sh.items, sh'.items, job.from, job.to, job.ids[tally.next], r) && r.err != Some(Cancelled)
    ensures sh'.units == sh.units && (sh'.claims == sh.claims
         || Ok(sh'.claims) == ProgressResult(sh.claims, BatchID(job.owner, number), 1))
  {
    hide CreateStep, OperatorStep, WorkerStep, ArchiveStep, ClaimStep, ItemStep, Solo;
    hide BatchID, ProgressResult, Keyed, Batch.ItemDone;
    var id := job.ids[tally.next];
    UnfoldOne(sh, pid, Batching(job, number, tally, AtHead), envs);
    UnfoldOne(sh, pid, Batching(job, number, tally, AtUnits(id)), envs[1..]);
    assert envs[1..][1..] == envs[2..];
    var holding := sh.(units := sh.units - 1);
    n, sh', r := ReadItem(holding, pid, job, number, tally, id, envs[2..]);
    assert envs[2..][n..] == envs[n + 2..] && envs[n + 2..][1..] == envs[n + 3..];
    UnfoldOne(sh', pid, Batching(job, number, tally, Freeing(Outcome(r))), envs[n + 2..]);
    sh' := sh'.(units := sh'.units + 1);
    n := n + 3;
  }

  lemma ItemKeepsKeyed(items: Items, items': Items, from: OpsStatus, to: OpsStatus, id: string, r: Batch.ItemResult)
    requires Keyed(items) && Batch.ItemDone(items, items', from, to, id, r)
    ensures Keyed(items')
  {
  }

  function SoFar(job: Job, number: nat, tally: Tally): Batch.OpsBatchResult {
    Batch.OpsBatchResult(BatchID(job.owner, number), |job.ids|, tally.applied, tally.skipped)
  }

  /** The deferred Release, and the return. */
  lemma Leaving(sh: Shared, pid: nat, job: Job, number: nat, tally: Tally, envs: seq<Env>)
    requires BatchID(job.owner, number) in sh.claims && envs != []
    ensures Solo(sh, pid, Unclaiming(job, number, tally), envs) ==
            (sh.(claims := sh.claims - {BatchID(job.owner, number)}), Finished)
  {
    hide CreateStep, OperatorStep, WorkerStep, ArchiveStep, BatchStep, Solo, BatchID;
    UnfoldOne(sh, pid, Unclaiming(job, number, tally), envs);
    FinishedStays(sh.(claims := sh.claims - {BatchID(job.owner, number)}), pid, envs[1..]);
  }

  /** The loop from any head, and the way out. */
  lemma {:induction false} RestOfBatch(items: Items, sh: Shared, pid: nat, job: Job, number: nat, tally: Tally,
                                       envs: seq<Env>)
    returns (sh': Shared, err: Option<OpsError>, result: Batch.OpsBatchResult)
    requires Keyed(sh.items) && sh.units > 0 && BatchID(job.owner, number) in sh.claims
    requires tally.applied + tally.skipped == tally.next <= |job.ids|
    requires Batch.Through(items, sh.items, job.from, job.to, job.ids, SoFar(job, number, tally))
    requires |envs| >= 7 * (|job.ids| - tally.next) + 2 && Uncancelled(envs)
    ensures Solo(sh, pid, Batching(job, number, tally, AtHead), envs) == (sh', Finished)
    ensures sh'.units == sh.units && sh'.claims == sh.claims - {BatchID(job.owner, number)}
    ensures Batch.BatchDone(items, sh'.items, job.from, job.to, job.ids, result, err) && err != Some(Cancelled)
    decreases |job.ids| - tally.next
  {
    hide ProcStep, Solo, BatchID, Batch.Through, Keyed, Batch.ItemDone, ProgressResult;
    if tally.next == |job.ids| {
      NoMoreIds(sh, pid, job, number, tally, envs);
      return sh.(claims := sh.claims - {BatchID(job.owner, number)}), None, SoFar(job, number, tally);
    }
    var n, sh1, r := ItemAlone(sh, pid, job, number, tally, envs);
    ItemKeepsKeyed(sh.items, sh1.items, job.from, job.to, job.ids[tally.next], r);
    ProgressKeepsOthers(sh.claims, sh1.claims, BatchID(job.owner, number), 1);
    Batch.NextItem(items, sh.items, sh1.items, job.from, job.to, job.ids, SoFar(job, number, tally), r);
    if r.err.Some? {
      Leaving(sh1, pid, job, number, tally, envs[n..]);
      return sh1.(claims := sh1.claims - {BatchID(job.owner, number)}), r.err, SoFar(job, number, tally);
    }
    var next := After(job, number, tally, r).tally;
    sh', err, result := RestOfBatch(items, sh1, pid, job, number, next, envs[n..]);
  }

  lemma NoMoreIds(sh: Shared, pid: nat, job: Job, number: nat, tally: Tally, envs: seq<Env>)
    requires BatchID(job.owner, number) in sh.claims && tally.next == |job.ids| && |envs| >= 2
    ensures Solo(sh, pid, Batching(job, number, tally, AtHead), envs) ==
            (sh.(claims := sh.claims - {BatchID(job.owner, number)}), Finished)
  {
    hide CreateStep, OperatorStep, WorkerStep, ArchiveStep, ClaimStep, ItemStep, Solo, BatchID;
    UnfoldOne(sh, pid, Batching(job, number, tally, AtHead), envs);
    Leaving(sh, pid, job, number, tally, envs[1..]);
  }

  /** The whole of Apply: with everything as Batch.Apply asks, and nobody in between, the machine
      ends with the same records moved, and units and registry as before. */
  lemma BatchAlone(sh: Shared, pid: nat, job: Job, envs: seq<Env>)
    returns (sh': Shared, err: Option<OpsError>, result: Batch.OpsBatchResult)
    requires Keyed(sh.items) && sh.units > 0 && Batch.NumbersDrawn(sh.claims, sh.sequence)
    requires |envs| >= 7 * |job.ids| + 4 && Uncancelled(envs)
    ensures Solo(sh, pid, Begin(BatchCall(job)), envs) == (sh', Finished)
    ensures sh'.units == sh.units && sh'.claims == sh.claims
    ensures if job.owner == "" || job.ids == [] then sh'.items == sh.items
            else Batch.BatchDone(sh.items, sh'.items, job.from, job.to, job.ids, result, err) && err != Some(Cancelled)
  {
    hide CreateStep, OperatorStep, WorkerStep, ArchiveStep, BatchStep, Solo;
    hide BatchID, Keyed, Batch.Through, Batch.BatchDone, Batch.NumbersDrawn;
    var number := sh.sequence + 1;
    Batch.NextNumberIsFree(sh.claims, sh.sequence, job.owner);
    Batch.BatchIDNotEmpty(job.owner, number);
    UnfoldOne(sh, pid, Starting(job), envs);
    var sh1 := sh.(sequence := number);
    UnfoldOne(sh1, pid, Claiming(job, number), envs[1..]);
    assert envs[1..][1..] == envs[2..];
    result := SoFar(job, number, Tally(0, 0, 0));
    if job.owner == "" || job.ids == [] {
      FinishedStays(sh1, pid, envs[2..]);
      return sh1, Some(Invalid), result;
    }
    var sh2 := ProcStep(sh1, pid, Claiming(job, number), envs[1]).0;
    Batch.StartOfBatch(sh.items, job.from, job.to, job.ids, result);
    sh', err, result := RestOfBatch(sh.items, sh2, pid, job, number, Tally(0, 0, 0), envs[2..]);
    assert sh2.claims - {BatchID(job.owner, number)} == sh.claims;
  }
}
