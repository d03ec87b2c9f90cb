/** Work units, claims and tallies of any number of concurrent batches. */
module ProtocolUnits {
  import opened OpsModel
  import opened Decimal
  import opened Protocol

  /** Inside processOne, between taking a unit and the deferred release. */
  predicate HoldsUnit(p: Proc) {
    p.Batching? && (p.point.InItem? || p.point.Freeing?)
  }

  function Holders(procs: map<nat, Proc>): set<nat> {
    set pid | pid in procs && HoldsUnit(procs[pid])
  }

  /** Apply is between its claim and its deferred release. */
  predicate HasClaim(p: Proc) {
    p.Batching? || p.Unclaiming?
  }

  predicate Numbered(p: Proc) {
    p.Claiming? || HasClaim(p)
  }

  function ClaimID(p: Proc): string
    requires HasClaim(p)
  {
    BatchID(p.job.owner, p.number)
  }

  // ---- Units ----

  predicate UnitsAddUp(s: State, limit: nat) {
    s.shared.units + |Holders(s.procs)| == limit
  }

  function UnitsOf(p: Proc): nat {
    if HoldsUnit(p) then 1 else 0
  }

  lemma HoldersChange(procs: map<nat, Proc>, pid: nat, p': Proc)
    ensures |Holders(procs[pid := p'])| ==
            |Holders(procs)| + UnitsOf(p') - (if pid in procs then UnitsOf(procs[pid]) else 0)
  {
    var a, b := Holders(procs), Holders(procs[pid := p']);
    if HoldsUnit(p') {
      assert b == a + {pid};
    } else {
      assert b == a - {pid};
    }
  }

  lemma BatchUnits(sh: Shared, pid: nat, p: Proc, env: Env)
    requires p.Batching?
    ensures var (sh', p') := BatchStep(sh, pid, p, env); sh'.units + UnitsOf(p') == sh.units + UnitsOf(p)
  {
  }

  lemma StepUnits(sh: Shared, pid: nat, p: Proc, env: Env)
    ensures var (sh', p') := ProcStep(sh, pid, p, env); sh'.units + UnitsOf(p') == sh.units + UnitsOf(p)
  {
    hide BatchStep, NormalizeOpsRecord;
    if p.Batching? { BatchUnits(sh, pid, p, env); }
  }

  lemma NextKeepsUnits(s: State, turn: Turn, limit: nat)
    requires UnitsAddUp(s, limit)
    ensures UnitsAddUp(Next(s, turn), limit)
  {
    hide ProcStep;
    match turn
    case Spawn(pid, call) =>
      HoldersChange(s.procs, pid, Begin(call));
    case Step(pid, env) =>
      if pid in s.procs {
        StepUnits(s.shared, pid, s.procs[pid], env);
        HoldersChange(s.procs, pid, ProcStep(s.shared, pid, s.procs[pid], env).1);
      }
  }

  lemma {:induction false} RunKeepsUnits(s: State, schedule: seq<Turn>, limit: nat)
    requires UnitsAddUp(s, limit)
    ensures UnitsAddUp(Run(s, schedule), limit)
    decreases |schedule|
  {
    if schedule != [] {
      NextKeepsUnits(s, schedule[0], limit);
      RunKeepsUnits(Next(s, schedule[0]), schedule[1..], limit);
    }
  }

  /** On every run, on every path through processOne, units free plus units held are the
      limit; so no more than limit items are processed at once, and whoever releases a unit
      finds room in the channel. */
  lemma UnitsConserved(seed: seq<OpsRecord>, unitLimit: nat, schedule: seq<Turn>, pid: nat)
    ensures var s := Run(Boot(seed, unitLimit), schedule);
            && s.shared.units + |Holders(s.procs)| == unitLimit
            && (pid in s.procs && HoldsUnit(s.procs[pid]) ==> s.shared.units < unitLimit)
  {
    var s := Run(Boot(seed, unitLimit), schedule);
    assert Holders(Boot(seed, unitLimit).procs) == {};
    RunKeepsUnits(Boot(seed, unitLimit), schedule, unitLimit);
    if pid in s.procs && HoldsUnit(s.procs[pid]) {
      assert pid in Holders(s.procs);
    }
  }

  // ---- Progress ----

  predicate IsBatch(p: Proc) {
    p.Starting? || Numbered(p)
  }

  /** Waiting for a unit when there is none is the only way to be stuck. */
  predicate Stuck(sh: Shared, p: Proc) {
    p.Batching? && p.point.AtUnits? && sh.units == 0
  }

  /** The tally adds up and an id being worked on is a listed one. */
  predicate TallyOk(p: Proc) {
    && (p.Unclaiming? ==> p.tally.applied + p.tally.skipped == p.tally.next <= |p.job.ids|)
    && (p.Batching? ==>
      && p.tally.applied + p.tally.skipped == p.tally.next <= |p.job.ids|
      && (!p.point.AtHead? ==> p.tally.next < |p.job.ids|))
  }

  /** An upper bound on the steps a batch has left. */
  function StepsLeft(p: Proc): int {
    match p
    case Starting(job) => 8 * |job.ids| + 4
    case Claiming(job, _) => 8 * |job.ids| + 3
    case Batching(job, _, tally, point) =>
      8 * (|job.ids| - tally.next) +
      (match point
       case AtHead => 2
       case AtUnits(_) => 1
       case InItem(_, Reading) => 0
       case InItem(_, Moving(_)) => -1
       case InItem(_, Writing(_)) => -2
       case InItem(_, Logging(_)) => -3
       case Freeing(_) => -4)
    case Unclaiming(_, _, _) => 1
    case _ => 0
  }

  lemma BatchShortens(sh: Shared, pid: nat, p: Proc, env: Env)
    requires IsBatch(p) && TallyOk(p) && (Stuck(sh, p) ==> env.cancelled)
    ensures var (sh', p') := ProcStep(sh, pid, p, env);
            TallyOk(p') && (IsBatch(p') || p'.Finished?) && 0 <= StepsLeft(p') < StepsLeft(p)
  {
  }

  lemma StepKeepsTally(sh: Shared, pid: nat, p: Proc, env: Env)
    requires TallyOk(p)
    ensures TallyOk(ProcStep(sh, pid, p, env).1)
  {
  }

  /** Unless every batch has finished, some batch process can make a step, and that step leaves
      it with strictly fewer to go. */
  lemma SomeBatchCanStep(s: State, limit: nat, waiting: nat, env: Env) returns (pid: nat)
    requires UnitsAddUp(s, limit) && limit >= 1
    requires forall q :: q in s.procs ==> TallyOk(s.procs[q])
    requires waiting in s.procs && IsBatch(s.procs[waiting])
    ensures pid in s.procs && IsBatch(s.procs[pid]) && !Stuck(s.shared, s.procs[pid])
    ensures var p' := Next(s, Step(pid, env)).procs[pid];
            (IsBatch(p') || p'.Finished?) && 0 <= StepsLeft(p') < StepsLeft(s.procs[pid])
  {
    pid := waiting;
    if Stuck(s.shared, s.procs[waiting]) {
      assert Holders(s.procs) != {} by {
        assert |Holders(s.procs)| >= 1;
      }
      pid :| pid in Holders(s.procs);
    }
    BatchShortens(s.shared, pid, s.procs[pid], env);
  }

  ghost function TotalLeft(procs: map<nat, Proc>, pids: set<nat>): int
    requires pids <= procs.Keys
  {
    if pids == {} then 0 else
      var pid :| pid in pids;
      StepsLeft(procs[pid]) + TotalLeft(procs, pids - {pid})
  }

  lemma {:induction false} TotalWithout(procs: map<nat, Proc>, pids: set<nat>, pid: nat)
    requires pids <= procs.Keys && pid in pids
    ensures TotalLeft(procs, pids) == StepsLeft(procs[pid]) + TotalLeft(procs, pids - {pid})
  {
    var first :| first in pids && TotalLeft(procs, pids) == StepsLeft(procs[first]) + TotalLeft(procs, pids - {first});
    if first != pid {
      TotalWithout(procs, pids - {first}, pid);
      TotalWithout(procs, pids - {pid}, first);
      assert pids - {first} - {pid} == pids - {pid} - {first};
    }
  }

  lemma {:induction false} TotalElsewhere(procs: map<nat, Proc>, procs': map<nat, Proc>, pids: set<nat>)
    requires pids <= procs.Keys && pids <= procs'.Keys && forall q :: q in pids ==> procs[q] == procs'[q]
    ensures TotalLeft(procs, pids) == TotalLeft(procs', pids)
  {
    if pids != {} {
      var pid :| pid in pids;
      TotalWithout(procs, pids, pid);
      TotalWithout(procs', pids, pid);
      TotalElsewhere(procs, procs', pids - {pid});
    }
  }

  lemma {:induction false} TotalIsNatural(procs: map<nat, Proc>, pids: set<nat>)
    requires pids <= procs.Keys && forall q :: q in pids ==> TallyOk(procs[q])
    ensures TotalLeft(procs, pids) >= 0
  {
    if pids != {} {
      var pid :| pid in pids;
      TotalWithout(procs, pids, pid);
      TotalIsNatural(procs, pids - {pid});
    }
  }

  lemma StepLowersTotal(procs: map<nat, Proc>, pid: nat, p': Proc)
    requires pid in procs && StepsLeft(p') < StepsLeft(procs[pid])
    ensures TotalLeft(procs[pid := p'], procs[pid := p'].Keys) < TotalLeft(procs, procs.Keys)
  {
    var procs' := procs[pid := p'];
    assert procs'.Keys == procs.Keys;
    TotalWithout(procs, procs.Keys, pid);
    TotalWithout(procs', procs.Keys, pid);
    TotalElsewhere(procs, procs', procs.Keys - {pid});
  }

  /** No state a run can reach is a dead end: with at least one unit, letting whichever batch is
      not waiting for one make its step finishes all of them. */
  lemma {:induction false} BatchesCanFinish(s: State, limit: nat, env: Env) returns (schedule: seq<Turn>)
    requires UnitsAddUp(s, limit) && limit >= 1 && forall q :: q in s.procs ==> TallyOk(s.procs[q])
    ensures forall q :: q in Run(s, schedule).procs ==> !IsBatch(Run(s, schedule).procs[q])
    decreases TotalLeft(s.procs, s.procs.Keys)
  {
    hide ProcStep;
    if waiting :| waiting in s.procs && IsBatch(s.procs[waiting]) {
      var pid := SomeBatchCanStep(s, limit, waiting, env);
      var turn := Step(pid, env);
      var s' := Next(s, turn);
      NextKeepsUnits(s, turn, limit);
      StepKeepsTally(s.shared, pid, s.procs[pid], env);
      StepLowersTotal(s.procs, pid, s'.procs[pid]);
      TotalIsNatural(s'.procs, s'.procs.Keys);
      var rest := BatchesCanFinish(s', limit, env);
      schedule := [turn] + rest;
      assert schedule[1..] == rest;
    } else {
      schedule := [];
    }
  }
}
