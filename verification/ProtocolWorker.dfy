/** The worker's sweep in a race with everybody else. */
module ProtocolWorker {
  import opened OpsModel
  import opened Store
  import opened Protocol
  import opened ProtocolCopies
  import opened ProtocolWrites
  import opened ProtocolPeaks

  /** The worker's process p is about to write, and the store still holds the listed version. */
  predicate Undisturbed(sh: Shared, p: Proc, env: Env) {
    && p.Closing? && p.at.Writing? && !env.cancelled
    && p.item.id in sh.items && sh.items[p.item.id] == p.item
  }

  function ClosedVersion(item: OpsRecord, now: string): OpsRecord {
    item.(status := Closed, revision := item.revision + 1, updatedAt := now)
  }

  /** A worker's step leaves the store alone, except one: the Update of a listed record that was
      active and stale when the sweep picked it, and that step writes if and only if the store
      still holds exactly the listed version. A record touched since the List stays as it is. */
  predicate SweepStep(sh: Shared, p: Proc, env: Env, items': Items) {
    if Undisturbed(sh, p, env) then
      && p.item.status == Active && p.asOf(p.item.updatedAt)
      && items' == sh.items[p.item.id := ClosedVersion(p.item, env.now)]
    else items' == sh.items
  }

  lemma WorkerClosesListedVersionOnly(seed: seq<OpsRecord>, unitLimit: nat, schedule: seq<Turn>, pid: nat, env: Env)
    requires FreshRevisions(Boot(seed, unitLimit), FirstPeaks(Boot(seed, unitLimit)), schedule)
    requires var s := Run(Boot(seed, unitLimit), schedule); pid in s.procs && IsWorker(s.procs[pid])
    ensures var s := Run(Boot(seed, unitLimit), schedule);
            SweepStep(s.shared, s.procs[pid], env, Next(s, Step(pid, env)).shared.items)
  {
    hide WorkerStep, PeakInv, FreshRevisions, SweepStep;
    var s0 := Boot(seed, unitLimit);
    BootPeaks(seed, unitLimit);
    RunKeepsPeaks(s0, FirstPeaks(s0), schedule);
    WorkerSweeps(Run(s0, schedule), PeaksAfter(s0, FirstPeaks(s0), schedule), pid, env);
  }

  lemma WorkerSweeps(s: State, peak: Peaks, pid: nat, env: Env)
    requires PeakInv(s, peak) && pid in s.procs && IsWorker(s.procs[pid])
    ensures SweepStep(s.shared, s.procs[pid], env, WorkerStep(s.shared, s.procs[pid], env).0.items)
  {
    hide TransitionStep, PeaksOk, Recorded;
    var p := s.procs[pid];
    assert WriteOk(s.shared, p) && CopiesBelow(s.shared.items, peak, p);
    if p.Closing? {
      assert Holds(p, p.item);
      if p.at.Writing? {
        assert Holds(p, p.at.copy);
        FlightWritesExactly(s.shared, CloseRequest(p.item), p.at, env);
        CheckedFindsCopy(s, peak, pid);
        ListedIsRead(s, peak, p.item, p.at.copy);
      } else {
        UpdatedOrSame(s.shared, CloseRequest(p.item), p.at, env);
      }
    }
  }

  /** The listed record and the copy read later carry the same revision: both are the stored record
      or neither is. */
  lemma ListedIsRead(s: State, peak: Peaks, item: OpsRecord, copy: OpsRecord)
    requires PeakInv(s, peak) && item.id == copy.id && item.revision == copy.revision
    requires BelowPeak(s.shared.items, peak, item) && BelowPeak(s.shared.items, peak, copy)
    ensures item.id in s.shared.items ==> (s.shared.items[item.id] == item <==> s.shared.items[item.id] == copy)
  {
  }
}
