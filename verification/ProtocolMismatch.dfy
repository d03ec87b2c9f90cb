/** When the archive does not hold what was deleted. Archive saves the copy it read and deletes
    whatever is stored by then: exactly which requests, and which rules for creating ids again, let
    the two differ. */
module ProtocolMismatch {
  import opened OpsModel
  import opened Store
  import opened Protocol
  import opened ProtocolStatus
  import opened ProtocolStore
  import opened ProtocolArchive
  import opened ProtocolAlone
  import opened ProtocolPeaks
  import opened ProtocolRecreation

  /** This step deletes a record the archive does not hold. */
  predicate DeletesOther(s: State, pid: nat, env: Env, id: string) {
    Deletes(s, pid, env, id) && !KeptAs(s.shared, id)
  }

  // ---- An archiver between its two steps ----

  lemma SavesSolo(sh: Shared, pid: nat, id: string)
    requires id in sh.items && sh.items[id].Terminal()
    ensures Solo(sh, pid, Archiving(id), [PLAIN] + ([PLAIN] + [])) ==
            (sh.(archived := sh.archived[id := sh.items[id]]), Deleting(id))
  {
    hide CreateStep, WorkerStep, BatchStep, OperatorStep, ClaimStep, Solo;
    Unfold(sh, pid, Archiving(id), PLAIN, [PLAIN] + []);
    Unfold(sh, pid, Saving(id, sh.items[id]), PLAIN, []);
    var (sh', p) := ProcStep(sh, pid, Saving(id, sh.items[id]), PLAIN);
    NoSteps(sh', pid, p);
  }

  /** An archiver reads a closed record and saves it. */
  lemma Saves(s: State, pid: nat, id: string)
    requires pid !in s.procs && id in s.shared.items && s.shared.items[id].Terminal()
    ensures Run(s, Calls(pid, ArchiveCall(id), 2)) ==
            State(s.shared.(archived := s.shared.archived[id := s.shared.items[id]]), s.procs[pid := Deleting(id)])
  {
    hide ProcStep, Solo, Run;
    AloneIsSolo(s, pid, ArchiveCall(id), seq(2, i => PLAIN));
    assert seq(2, i => PLAIN) == [PLAIN] + ([PLAIN] + []);
    SavesSolo(s.shared, pid, id);
  }

  // ---- Requests ----

  /** Two requests arrive, both read and move. */
  function BothMoved(expected: int, target: OpsStatus): seq<Turn> {
    TwoRequests(expected, target) + (TwoSteps(0, 0) + TwoSteps(1, 1))
  }

  /** The closing one writes, the closed record is archived up to its deletion, and then the other
      one writes. */
  function SavedThenWritten(): seq<Turn> {
    [Step(1, PLAIN)] + (Calls(2, ArchiveCall("r"), 2) + [LAST])
  }

  lemma RunOne(s: State, turn: Turn)
    ensures Run(s, [turn]) == Next(s, turn)
  {
    assert [turn][1..] == [];
  }

  lemma RunTwo(s: State, two: seq<Turn>)
    requires |two| == 2
    ensures Run(s, two) == AfterTwo(s, two)
  {
    hide Next;
    RunOne(Next(s, two[0]), two[1]);
    assert two[1..] == [two[1]];
  }

  lemma BothRead(s: State, expected: int, target: OpsStatus, first: OpsRecord)
    requires !SafeRequest(expected, target) && first == SomeRecord(OpeningStatus(target))
    requires s.shared.items == map["r" := first] && s.procs == map[]
    ensures var t := Run(s, BothMoved(expected, target));
            && t.shared.items == s.shared.items
            && t.procs == map[0 := Operating(Request("r", expected, target, "a"), Writing(first)),
                              1 := Operating(Request("r", 1, Closed, "b"), Writing(first))]
  {
    hide Next, Run, Recreations, PeaksAfter, StaysOnTable, Raise;
    var a, b := Request("r", expected, target, "a"), Request("r", 1, Closed, "b");
    RequestsArrive(s, expected, target);
    RunTwo(s, TwoRequests(expected, target));
    var s1 := AfterTwo(s, TwoRequests(expected, target));
    ReadsAndMoves(s1, 0, a, first);
    RunTwo(s1, TwoSteps(0, 0));
    var s2 := AfterTwo(s1, TwoSteps(0, 0));
    ReadsAndMoves(s2, 1, b, first);
    RunTwo(s2, TwoSteps(1, 1));
    RunConcat(s1, map[], TwoSteps(0, 0), TwoSteps(1, 1));
    RunConcat(s, map[], TwoRequests(expected, target), TwoSteps(0, 0) + TwoSteps(1, 1));
  }

  /** An operator's write of a record. */
  lemma OperatorOverwrites(s: State, pid: nat, req: Request, copy: OpsRecord)
    requires pid in s.procs && s.procs[pid] == Operating(req, Writing(copy)) && copy.id in s.shared.items
    requires req.expected <= 0 || req.expected == s.shared.items[copy.id].revision
    ensures var t := Next(s, Step(pid, PLAIN));
            && t.procs == s.procs[pid := Operating(req, Logging(copy))] && t.shared.archived == s.shared.archived
            && t.shared.items.Keys == s.shared.items.Keys && t.shared.items[copy.id].status == req.target
  {
    hide NormalizeOpsRecord, BatchStep, WorkerStep, CreateStep, ArchiveStep, ClaimStep;
  }

  lemma WrittenAfterSaving(s: State, a: Request, b: Request, record: OpsRecord)
    requires s.shared.items == map["r" := record] && record.id == "r"
    requires s.procs == map[0 := Operating(a, Writing(record)), 1 := Operating(b, Writing(record))]
    requires a.expected <= 0 && b.expected == record.revision && b.target == Closed && a.target != Closed
    ensures DeletesOther(Run(s, SavedThenWritten()), 2, PLAIN, "r")
  {
    hide Next, Run, Recreations, PeaksAfter, StaysOnTable, Raise, Calls;
    OperatorOverwrites(s, 1, b, record);
    RunOne(s, Step(1, PLAIN));
    var s1 := Next(s, Step(1, PLAIN));
    Saves(s1, 2, "r");
    var s2 := Run(s1, Calls(2, ArchiveCall("r"), 2));
    OperatorOverwrites(s2, 0, a, record);
    RunOne(s2, LAST);
    RunConcat(s1, map[], Calls(2, ArchiveCall("r"), 2), [LAST]);
    RunConcat(s, map[], [Step(1, PLAIN)], Calls(2, ArchiveCall("r"), 2) + [LAST]);
    DeletesNow(Next(s2, LAST), 2, "r");
  }

  lemma DeletesNow(s: State, pid: nat, id: string)
    requires pid in s.procs && s.procs[pid] == Deleting(id) && id in s.shared.items
    ensures Deletes(s, pid, PLAIN, id)
  {
  }

  function MismatchSchedule(expected: int, target: OpsStatus): seq<Turn> {
    BothMoved(expected, target) + SavedThenWritten()
  }

  lemma MismatchTurns(expected: int, target: OpsStatus)
    ensures AsksOnly(MismatchSchedule(expected, target), expected, target)
    ensures CreatesNothing(MismatchSchedule(expected, target))
  {
    var envs := seq(2, i => PLAIN);
    StepsAreSteps(2, envs);
  }

  /** For every unsafe request: the unchecked operator writes after the closed record was saved. */
  lemma MismatchRun(expected: int, target: OpsStatus)
    requires !SafeRequest(expected, target)
    ensures var start := Boot([SomeRecord(OpeningStatus(target))], 1);
            var schedule := MismatchSchedule(expected, target);
            && AsksOnly(schedule, expected, target) && NoRecreation(start, schedule)
            && DeletesOther(Run(start, schedule), 2, PLAIN, "r")
  {
    hide Next, Run, Recreations, PeaksAfter, StaysOnTable, Raise, CreatesNothing, BothMoved, SavedThenWritten, AsksOnly;
    hide Seeded, DeletesOther;
    var first := SomeRecord(OpeningStatus(target));
    var start := Boot([first], 1);
    SomeRecordIsNormal(first.status);
    MismatchTurns(expected, target);
    CreatesNothingPutsNothingBack(start, map[], MismatchSchedule(expected, target));
    NonePutBack(start, map[], MismatchSchedule(expected, target));
    BothRead(start, expected, target, first);
    var a, b := Request("r", expected, target, "a"), Request("r", 1, Closed, "b");
    WrittenAfterSaving(Run(start, BothMoved(expected, target)), a, b, first);
    RunConcat(start, map[], BothMoved(expected, target), SavedThenWritten());
  }

  ghost predicate Mismatch(seed: seq<OpsRecord>, unitLimit: nat, schedule: seq<Turn>, pid: nat, env: Env, id: string) {
    var start := Boot(seed, unitLimit);
    NoRecreation(start, schedule) && DeletesOther(Run(start, schedule), pid, env, id)
  }

  /** A Transition request can make the archive hold another record than the one deleted, in company
      with checked requests only and no id created again, exactly when it is not a safe request. */
  lemma SafeArchivingExactly(expected: int, target: OpsStatus)
    ensures SafeRequest(expected, target) <==>
            !exists seed, unitLimit, schedule, pid, env, id ::
              AsksOnly(schedule, expected, target) && Mismatch(seed, unitLimit, schedule, pid, env, id)
  {
    hide DeletesOther, NoRecreation, Run;
    if SafeRequest(expected, target) {
      forall seed, unitLimit, schedule, pid, env, id | AsksOnly(schedule, expected, target)
        ensures !Mismatch(seed, unitLimit, schedule, pid, env, id)
      {
        assert SafeSchedule(schedule);
        if Mismatch(seed, unitLimit, schedule, pid, env, id) { NotMismatched(seed, unitLimit, schedule, pid, env, id); }
      }
    } else {
      MismatchRun(expected, target);
      var seed, schedule := [SomeRecord(OpeningStatus(target))], MismatchSchedule(expected, target);
      assert Mismatch(seed, 1, schedule, 2, PLAIN, "r");
    }
  }

  lemma NotMismatched(seed: seq<OpsRecord>, unitLimit: nat, schedule: seq<Turn>, pid: nat, env: Env, id: string)
    requires SafeSchedule(schedule) && NoRecreation(Boot(seed, unitLimit), schedule)
    ensures !DeletesOther(Run(Boot(seed, unitLimit), schedule), pid, env, id)
  {
    hide Next, Run, NoRecreation, KeptAs;
    if Deletes(Run(Boot(seed, unitLimit), schedule), pid, env, id) {
      ArchivedIsWhatWasDeleted(seed, unitLimit, schedule, pid, env, id);
    }
  }

  // ---- Ids created again ----

  /** A closed record under r's id, unlike r, stored with revision peak. */
  function Unlike(r: OpsRecord, peak: int): OpsRecord {
    r.(status := Closed, revision := peak, createdAt := r.createdAt + "+")
  }

  lemma UnlikeIsStored(r: OpsRecord, peak: int)
    requires InNormalForm(r) && peak >= 1
    ensures Seeded([Unlike(r, peak)]) == map[r.id := Unlike(r, peak)]
  {
    UnlikeIsNormal(r, peak);
    NormalForm(Unlike(r, peak));
    assert Seeded([Unlike(r, peak)][..0]) == map[];
  }

  lemma UnlikeIsNormal(r: OpsRecord, peak: int)
    requires InNormalForm(r) && peak >= 1
    ensures InNormalForm(Unlike(r, peak))
  {
  }

  /** A slow archiver saves the closed record, a quick one archives it. */
  function Vacated(id: string): seq<Turn> {
    Calls(0, ArchiveCall(id), 2) + Calls(1, ArchiveCall(id), 3)
  }

  /** r takes the id; the slow one's Delete is still to come. */
  function SlowArchiver(id: string, record: OpsRecord, stamp: string): seq<Turn> {
    Vacated(id) + Calls(2, CreateCall(record, stamp), 2)
  }

  lemma VacatedTurns(id: string, record: OpsRecord, stamp: string)
    ensures Ordinary(Vacated(id)) && Checked(SlowArchiver(id, record, stamp))
  {
    hide Ordinary, Calls, Checked;
    CallsAreChecked(0, ArchiveCall(id), 2);
    CallsAreChecked(1, ArchiveCall(id), 3);
    CallsAreChecked(2, CreateCall(record, stamp), 2);
    Concat(Calls(0, ArchiveCall(id), 2), Calls(1, ArchiveCall(id), 3));
    Concat(Vacated(id), Calls(2, CreateCall(record, stamp), 2));
  }

  lemma Vacates(s: State, item: OpsRecord)
    requires s.shared.items == map[item.id := item] && item.revision >= 1 && item.status == Closed && s.procs == map[]
    ensures var peak, turns := map[item.id := item.revision], Vacated(item.id);
            var t := Run(s, turns);
            && t.shared.items == map[] && t.shared.archived == s.shared.archived[item.id := item]
            && (forall q :: q in t.procs ==> q < 2) && 0 in t.procs && t.procs[0] == Deleting(item.id)
            && PeaksAfter(s, peak, turns) == peak
  {
    hide Run, Calls, PeaksAfter, Recreations, StaysOnTable, Raise;
    var peak, id := map[item.id := item.revision], item.id;
    Saves(s, 0, id);
    ArchiveCallKeepsPeaks(s, peak, 0, id, 2);
    var s1 := Run(s, Calls(0, ArchiveCall(id), 2));
    ProtocolRecreation.Archived(s1, id, 1, item.revision);
    ArchiveCallKeepsPeaks(s1, peak, 1, id, 3);
    RunConcat(s, peak, Calls(0, ArchiveCall(id), 2), Calls(1, ArchiveCall(id), 3));
  }

  lemma FirstPeakOf(s: State, item: OpsRecord)
    requires s.shared.items == map[item.id := item]
    ensures FirstPeaks(s) == map[item.id := item.revision]
  {
  }

  lemma ArchivedWasBorn(seed: seq<OpsRecord>, unitLimit: nat, schedule: seq<Turn>, id: string)
    ensures var sh := Run(Boot(seed, unitLimit), schedule).shared; id in sh.archived ==> id in sh.born
  {
    hide Next, Run;
    RunKeepsSafe(Boot(seed, unitLimit), schedule);
    assert SafeId(Run(Boot(seed, unitLimit), schedule).shared, id);
  }

  /** For every creatable record and every peak: r is put back, and deleted by an archiver that
      saved the record before it. */
  lemma SlowArchiverDeletes(r: OpsRecord, peak: int, record: OpsRecord, stamp: string)
    requires Begin(CreateCall(record, stamp)) == Creating(r) && peak >= 1
    ensures var start, schedule := Boot([Unlike(r, peak)], 1), SlowArchiver(r.id, record, stamp);
            && Checked(schedule) && Recreations(start, FirstPeaks(start), schedule) == [Returned(r, peak)]
            && DeletesOther(Run(start, schedule), 0, PLAIN, r.id)
  {
    hide Calls, Next, Run, Checked, Ordinary, Begin, Seeded, Recreations, StaysOnTable, PeaksAfter, Raise, Vacated;
    hide FirstPeaks, InNormalForm;
    var start, item := Boot([Unlike(r, peak)], 1), Unlike(r, peak);
    var first, turns, last := FirstPeaks(start), Vacated(r.id), Calls(2, CreateCall(record, stamp), 2);
    IsCreatable(r, record, stamp);
    CreatableIsNormal(r);
    UnlikeIsStored(r, peak);
    FirstPeakOf(start, item);
    VacatedTurns(r.id, record, stamp);
    OrdinaryPutsNothingBack(start, first, turns);
    Vacates(start, item);
    ArchivedWasBorn([item], 1, turns, r.id);
    PutBack(Run(start, turns), first, 2, r, record, stamp);
    RunConcat(start, first, turns, last);
    DeletesNow(Run(start, turns + last), 0, r.id);
  }

  /** A run in which every request names a revision, everything put back is allowed, and a record
      the archive does not hold is deleted. */
  ghost predicate Mistaken(seed: seq<OpsRecord>, unitLimit: nat, schedule: seq<Turn>, pid: nat, env: Env, id: string,
                           allowed: (OpsRecord, int) -> bool)
  {
    var start := Boot(seed, unitLimit);
    && Checked(schedule) && DeletesOther(Run(start, schedule), pid, env, id)
    && forall x :: x in Recreations(start, FirstPeaks(start), schedule) ==> allowed(x.record, x.peak)
  }

  lemma AllowedMistake(r: OpsRecord, peak: int, allowed: (OpsRecord, int) -> bool)
    requires Creatable(r) && peak >= 1 && allowed(r, peak)
    ensures exists seed, unitLimit, schedule, pid, env, id ::
              Mistaken(seed, unitLimit, schedule, pid, env, id, allowed)
  {
    hide Begin, Boot, Recreations, DeletesOther, Checked, SlowArchiver;
    var record, stamp :| Begin(CreateCall(record, stamp)) == Creating(r);
    SlowArchiverDeletes(r, peak, record, stamp);
    assert Mistaken([Unlike(r, peak)], 1, SlowArchiver(r.id, record, stamp), 0, PLAIN, r.id, allowed);
  }

  /** What is put back returns to an id with a peak of at least 1. */
  ghost predicate PeaksPositive(s: State, peak: Peaks) {
    StoreInv(s) && forall k :: k in s.shared.born ==> PeakOf(peak, k) >= 1
  }

  lemma NextKeepsPositive(s: State, peak: Peaks, turn: Turn)
    requires PeaksPositive(s, peak)
    ensures PeaksPositive(Next(s, turn), Raise(peak, Next(s, turn).shared.items))
  {
    hide ProcStep, Begin, StoreInv;
    var s' := Next(s, turn);
    NextKeepsStore(s, turn);
    StoredKeyed(s');
    if turn.Step? && turn.pid in s.procs {
      StepHandles(s.shared, turn.pid, s.procs[turn.pid], turn.env);
    }
    forall k | k in s'.shared.born ensures PeakOf(Raise(peak, s'.shared.items), k) >= 1 {
      assert k in s.shared.born || k in s'.shared.items;
    }
  }

  lemma {:induction false} PutBackAbove(s: State, peak: Peaks, schedule: seq<Turn>)
    requires PeaksPositive(s, peak)
    ensures forall x :: x in Recreations(s, peak, schedule) ==> x.peak >= 1
    decreases |schedule|
  {
    if schedule != [] {
      NextKeepsPositive(s, peak, schedule[0]);
      hide Next, Raise, StoreInv;
      var s' := Next(s, schedule[0]);
      PutBackAbove(s', Raise(peak, s'.shared.items), schedule[1..]);
    }
  }

  lemma CheckedIsSafe(schedule: seq<Turn>)
    requires Checked(schedule)
    ensures SafeSchedule(schedule)
  {
    forall i | 0 <= i < |schedule| ensures SafeTurn(schedule[i]) { assert CheckedTurn(schedule[i]); }
  }

  lemma BootPositive(seed: seq<OpsRecord>, unitLimit: nat)
    ensures PeaksPositive(Boot(seed, unitLimit), FirstPeaks(Boot(seed, unitLimit)))
  {
  }

  lemma MistakeNeedsRecreation(seed: seq<OpsRecord>, unitLimit: nat, schedule: seq<Turn>, pid: nat, env: Env,
                               id: string, allowed: (OpsRecord, int) -> bool)
    returns (r: OpsRecord, peak: int)
    requires Mistaken(seed, unitLimit, schedule, pid, env, id, allowed)
    ensures Creatable(r) && peak >= 1 && allowed(r, peak)
  {
    hide Next, Run, Seeded, Recreates, Recreations, Creatable, DeletesOther, Raise, PeaksPositive, Checked;
    hide SafeSchedule;
    var start := Boot(seed, unitLimit);
    var back := Recreations(start, FirstPeaks(start), schedule);
    PutBackIsCreatable(start, FirstPeaks(start), schedule);
    BootPositive(seed, unitLimit);
    PutBackAbove(start, FirstPeaks(start), schedule);
    if back == [] {
      NonePutBack(start, FirstPeaks(start), schedule);
      CheckedIsSafe(schedule);
      NotMismatched(seed, unitLimit, schedule, pid, env, id);
      assert false;
    }
    assert back[0] in back;
    return back[0].record, back[0].peak;
  }

  /** Any rule on the record put back and the highest revision stored under its id so far makes the
      archive hold what was deleted, on all runs of checked requests, exactly when it lets nothing
      through: new revision numbers do not help here. */
  lemma ArchiveRuleExactly(allowed: (OpsRecord, int) -> bool)
    ensures (exists r, peak :: Creatable(r) && peak >= 1 && allowed(r, peak)) <==>
            exists seed, unitLimit, schedule, pid, env, id ::
              Mistaken(seed, unitLimit, schedule, pid, env, id, allowed)
  {
    hide Creatable, Mistaken;
    if r, peak :| Creatable(r) && peak >= 1 && allowed(r, peak) {
      AllowedMistake(r, peak, allowed);
    }
    if seed, unitLimit, schedule, pid, env, id :| Mistaken(seed, unitLimit, schedule, pid, env, id, allowed) {
      var r, peak := MistakeNeedsRecreation(seed, unitLimit, schedule, pid, env, id, allowed);
    }
  }
}
