/** Which rules for creating ids again are safe. A record put back with a revision number already
    used under its id can be taken off the table by a late write, even if every request names a
    revision; module ProtocolPeaks shows that new numbers are safe. */
module ProtocolRecreation {
  import opened Text
  import opened OpsModel
  import opened StateMachine
  import opened Store
  import opened Policy
  import opened Service
  import opened Protocol
  import opened ProtocolStatus
  import opened ProtocolPeaks
  import opened ProtocolAlone

  /** A record some Create call gets through normalisation and policy. */
  ghost predicate Creatable(r: OpsRecord) {
    exists record, stamp :: Begin(CreateCall(record, stamp)) == Creating(r)
  }

  // ---- What is put back came through Create ----

  ghost predicate AllCreatable(s: State) {
    forall pid :: pid in s.procs && s.procs[pid].Creating? ==> Creatable(s.procs[pid].record)
  }

  lemma NoStepBeginsCreate(sh: Shared, pid: nat, p: Proc, env: Env)
    ensures !ProcStep(sh, pid, p, env).1.Creating?
  {
  }

  lemma {:induction false} PutBackIsCreatable(s: State, peak: Peaks, schedule: seq<Turn>)
    requires AllCreatable(s)
    ensures forall x :: x in Recreations(s, peak, schedule) ==> Creatable(x.record)
    decreases |schedule|
  {
    hide ProcStep, Begin, Raise;
    if schedule != [] {
      match schedule[0] {
        case Spawn(pid, call) => FreshIsCreatable(call);
        case Step(pid, env) => if pid in s.procs { NoStepBeginsCreate(s.shared, pid, s.procs[pid], env); }
      }
      var s' := Next(s, schedule[0]);
      PutBackIsCreatable(s', Raise(peak, s'.shared.items), schedule[1..]);
    }
  }

  lemma FreshIsCreatable(call: Call)
    ensures Begin(call).Creating? ==> Creatable(Begin(call).record)
  {
  }

  lemma CreatableIsNormal(r: OpsRecord)
    requires Creatable(r)
    ensures InNormalForm(r)
  {
    hide InNormalForm;
    var record, stamp :| Begin(CreateCall(record, stamp)) == Creating(r);
    NormalForm(record);
    AdmitExactly(record);
    StampsKeepForm(Admit(record).value, stamp);
  }

  lemma StampsKeepForm(r: OpsRecord, stamp: string)
    requires InNormalForm(r)
    ensures InNormalForm(r.(createdAt := stamp, updatedAt := stamp))
  {
  }

  // ---- The run that fools a reader ----

  /** Putting r back when revisions up to peak have been stored under its id: some copy in flight
      may carry r's number. The copy with the highest number is of a closed record, and closed goes
      nowhere but over a status outside the table. */
  predicate Foolable(r: OpsRecord, peak: int) {
    1 <= r.revision < peak || (1 <= r.revision == peak && r.status.OtherStatus?)
  }

  /** The status the late operator read, and the target it moves to: legal from there, not from
      r's status. */
  function StatusRead(r: OpsRecord, peak: int): OpsStatus {
    if r.revision == peak then Closed else if r.status == Active || r.status == Paused then Queued else Active
  }

  function LateTarget(r: OpsRecord, peak: int): OpsStatus {
    if r.revision == peak then Closed else if r.status == Active || r.status == Paused then Queued else Paused
  }

  lemma LateTargetIsOffTable(r: OpsRecord, peak: int)
    requires Foolable(r, peak)
    ensures CanMove(StatusRead(r, peak), LateTarget(r, peak)) && !CanMove(r.status, LateTarget(r, peak))
    ensures CanMove(StatusRead(r, peak), Closed) && (r.revision == peak ==> StatusRead(r, peak) == Closed)
  {
  }

  /** The record as it was before, under the same id and revision. */
  function Earlier(r: OpsRecord, peak: int): OpsRecord {
    r.(status := StatusRead(r, peak))
  }

  function Late(r: OpsRecord, peak: int): Request {
    Request(r.id, r.revision, LateTarget(r, peak), "a")
  }

  /** One call, its steps one after the other. */
  function Calls(pid: nat, call: Call, steps: nat): seq<Turn> {
    [Spawn(pid, call)] + Steps(pid, seq(steps, i => PLAIN))
  }

  /** Transitions to closed, each by a new operator, from one revision up to another. */
  function Closings(id: string, pid: nat, low: int, high: int): seq<Turn>
    decreases high - low
  {
    if low >= high then [] else
      Calls(pid, TransitionCall(Request(id, low, Closed, "b")), 4) + Closings(id, pid + 1, low + 1, high)
  }

  /** An operator reads the earlier record and moves; it is closed, raised to the peak, and
      archived. */
  function Before(r: OpsRecord, peak: int): seq<Turn>
    requires Foolable(r, peak)
  {
    Calls(0, TransitionCall(Late(r, peak)), 2) + Closings(r.id, 1, r.revision, peak)
  }

  /** The number of the process that archives; the next one creates. */
  function Archiver(r: OpsRecord, peak: int): nat
    requires Foolable(r, peak)
  {
    1 + peak - r.revision
  }

  /** Then r is created from record. */
  function Schedule(r: OpsRecord, peak: int, record: OpsRecord, stamp: string): seq<Turn>
    requires Foolable(r, peak)
  {
    (Before(r, peak) + Calls(Archiver(r, peak), ArchiveCall(r.id), 3))
    + Calls(Archiver(r, peak) + 1, CreateCall(record, stamp), 2)
  }

  /** The late operator's turn. */
  const LAST := Step(0, PLAIN)

  /** The earlier record is a seed that is stored as it is. */
  lemma EarlierIsStored(r: OpsRecord, peak: int)
    requires InNormalForm(r)
    ensures Seeded([Earlier(r, peak)]) == map[r.id := Earlier(r, peak)] && r.revision >= 1
  {
    EarlierIsNormal(r, peak);
    NormalForm(Earlier(r, peak));
    assert Seeded([Earlier(r, peak)][..0]) == map[];
  }

  lemma EarlierIsNormal(r: OpsRecord, peak: int)
    requires InNormalForm(r)
    ensures InNormalForm(Earlier(r, peak)) && r.revision >= 1
  {
  }

  // ---- Its turns: checked, and nothing created before the end ----

  predicate Ordinary(schedule: seq<Turn>) {
    Checked(schedule) && CreatesNothing(schedule)
  }

  predicate CreatesNothing(schedule: seq<Turn>) {
    forall i :: 0 <= i < |schedule| ==> !CreatesIn(schedule[i])
  }

  predicate CreatesIn(turn: Turn) {
    turn.Spawn? && turn.call.CreateCall?
  }

  lemma {:induction false} StepsAreSteps(pid: nat, envs: seq<Env>)
    ensures forall i :: 0 <= i < |Steps(pid, envs)| ==> Steps(pid, envs)[i].Step?
    decreases |envs|
  {
    if envs != [] { StepsAreSteps(pid, envs[1..]); }
  }

  lemma CallsAreChecked(pid: nat, call: Call, steps: nat)
    requires call.TransitionCall? ==> call.request.expected > 0
    ensures Checked(Calls(pid, call, steps)) && (!call.CreateCall? ==> Ordinary(Calls(pid, call, steps)))
  {
    StepsAreSteps(pid, seq(steps, i => PLAIN));
  }

  lemma Concat(a: seq<Turn>, b: seq<Turn>)
    ensures Checked(a) && Checked(b) ==> Checked(a + b)
    ensures Ordinary(a) && Ordinary(b) ==> Ordinary(a + b)
  {
    hide CheckedTurn, CreatesIn;
  }

  lemma {:induction false} ClosingsAreOrdinary(id: string, pid: nat, low: int, high: int)
    requires low >= 1
    ensures Ordinary(Closings(id, pid, low, high))
    decreases high - low
  {
    if low < high {
      hide Ordinary, Calls;
      var call := TransitionCall(Request(id, low, Closed, "b"));
      CallsAreChecked(pid, call, 4);
      ClosingsAreOrdinary(id, pid + 1, low + 1, high);
      Concat(Calls(pid, call, 4), Closings(id, pid + 1, low + 1, high));
    }
  }

  lemma BeforeIsOrdinary(r: OpsRecord, peak: int)
    requires Foolable(r, peak)
    ensures Ordinary(Before(r, peak)) && Ordinary(Calls(Archiver(r, peak), ArchiveCall(r.id), 3))
  {
    hide Ordinary, Calls;
    CallsAreChecked(0, TransitionCall(Late(r, peak)), 2);
    ClosingsAreOrdinary(r.id, 1, r.revision, peak);
    Concat(Calls(0, TransitionCall(Late(r, peak)), 2), Closings(r.id, 1, r.revision, peak));
    CallsAreChecked(Archiver(r, peak), ArchiveCall(r.id), 3);
  }

  lemma ScheduleIsChecked(r: OpsRecord, peak: int, record: OpsRecord, stamp: string)
    requires Foolable(r, peak)
    ensures Checked(Schedule(r, peak, record, stamp) + [LAST])
  {
    BeforeIsOrdinary(r, peak);
    hide Calls, Checked, Before;
    var c := Calls(Archiver(r, peak), ArchiveCall(r.id), 3);
    var d := Calls(Archiver(r, peak) + 1, CreateCall(record, stamp), 2);
    CallsAreChecked(Archiver(r, peak) + 1, CreateCall(record, stamp), 2);
    Concat(Before(r, peak), c);
    Concat(Before(r, peak) + c, d);
    LastIsChecked();
    Concat(Schedule(r, peak, record, stamp), [LAST]);
  }

  lemma LastIsChecked()
    ensures Checked([LAST])
  {
  }

  /** Who creates nothing puts nothing back. */
  ghost predicate NoneCreating(s: State) {
    forall pid :: pid in s.procs ==> !s.procs[pid].Creating?
  }

  lemma NextCreatesNothing(s: State, turn: Turn)
    requires NoneCreating(s) && !CreatesIn(turn)
    ensures NoneCreating(Next(s, turn))
  {
    hide ProcStep;
    if turn.Step? && turn.pid in s.procs { NoStepBeginsCreate(s.shared, turn.pid, s.procs[turn.pid], turn.env); }
  }

  lemma {:induction false} CreatesNothingPutsNothingBack(s: State, peak: Peaks, schedule: seq<Turn>)
    requires NoneCreating(s) && CreatesNothing(schedule)
    ensures Recreations(s, peak, schedule) == [] && NoneCreating(Run(s, schedule))
    decreases |schedule|
  {
    hide Next, Raise, CreatesIn;
    if schedule != [] {
      NextCreatesNothing(s, schedule[0]);
      var s' := Next(s, schedule[0]);
      assert CreatesNothing(schedule[1..]);
      CreatesNothingPutsNothingBack(s', Raise(peak, s'.shared.items), schedule[1..]);
    }
  }

  lemma OrdinaryPutsNothingBack(s: State, peak: Peaks, schedule: seq<Turn>)
    requires NoneCreating(s) && Ordinary(schedule)
    ensures Recreations(s, peak, schedule) == []
  {
    CreatesNothingPutsNothingBack(s, peak, schedule);
  }

  lemma {:induction false} RunConcat(s: State, peak: Peaks, a: seq<Turn>, b: seq<Turn>)
    ensures Run(s, a + b) == Run(Run(s, a), b)
    ensures PeaksAfter(s, peak, a + b) == PeaksAfter(Run(s, a), PeaksAfter(s, peak, a), b)
    ensures Recreations(s, peak, a + b) ==
            Recreations(s, peak, a) + Recreations(Run(s, a), PeaksAfter(s, peak, a), b)
    ensures StaysOnTable(s, a + b) ==> StaysOnTable(Run(s, a), b)
    decreases |a|
  {
    hide Next, Recreates, OnTable, Raise;
    if a == [] {
      assert a + b == b;
    } else {
      var s' := Next(s, a[0]);
      RunConcat(s', Raise(peak, s'.shared.items), a[1..], b);
      assert (a + b)[1..] == a[1..] + b;
    }
  }

  // ---- Its steps ----

  lemma NoSteps(sh: Shared, pid: nat, p: Proc)
    ensures Solo(sh, pid, p, []) == (sh, p)
  {
  }

  lemma ReadsAndMovesSolo(sh: Shared, req: Request, copy: OpsRecord)
    requires sh.items == map[req.id := copy] && req.expected == copy.revision && CanMove(copy.status, req.target)
    ensures var (sh', p) := Solo(sh, 0, Operating(req, Reading), [PLAIN] + ([PLAIN] + []));
            p == Operating(req, Writing(copy)) && sh'.items == sh.items
  {
    hide CreateStep, WorkerStep, BatchStep, ArchiveStep, ClaimStep, Solo, Edge;
    Unfold(sh, 0, Operating(req, Reading), PLAIN, [PLAIN] + []);
    Unfold(sh, 0, Operating(req, Moving(copy)), PLAIN, []);
    var (sh', p) := ProcStep(sh, 0, Operating(req, Moving(copy)), PLAIN);
    NoSteps(sh', 0, p);
  }

  /** The late operator reads and moves. */
  lemma LateReads(s: State, req: Request, copy: OpsRecord)
    requires s.procs == map[] && s.shared.items == map[req.id := copy]
    requires req.expected == copy.revision && CanMove(copy.status, req.target)
    ensures var t := Run(s, Calls(0, TransitionCall(req), 2));
            t.procs == map[0 := Operating(req, Writing(copy))] && t.shared.items == s.shared.items
  {
    hide ProcStep, Solo, Run, CanMove;
    AloneIsSolo(s, 0, TransitionCall(req), seq(2, i => PLAIN));
    assert seq(2, i => PLAIN) == [PLAIN] + ([PLAIN] + []);
    ReadsAndMovesSolo(s.shared, req, copy);
  }

  /** One record in the store, processes below pid only. */
  ghost predicate OneRecord(s: State, id: string, pid: nat, revision: int) {
    && s.shared.items.Keys == {id} && s.shared.items[id].id == id && s.shared.items[id].revision == revision >= 1
    && CanMove(s.shared.items[id].status, Closed)
    && forall q :: q in s.procs ==> q < pid
  }

  /** The processes that were there have not moved. */
  ghost predicate KeepsProcs(s: State, t: State) {
    forall q :: q in s.procs ==> q in t.procs && t.procs[q] == s.procs[q]
  }

  lemma OneClosing(s: State, id: string, pid: nat, revision: int)
    requires OneRecord(s, id, pid, revision)
    ensures var t := Run(s, Calls(pid, TransitionCall(Request(id, revision, Closed, "b")), 4));
            && OneRecord(t, id, pid + 1, revision + 1)
            && id in t.shared.items && t.shared.items[id].status == Closed
            && KeepsProcs(s, t)
  {
    hide ProcStep, Solo, Run, Edge;
    var req := Request(id, revision, Closed, "b");
    AloneIsSolo(s, pid, TransitionCall(req), seq(4, i => PLAIN));
    assert seq(4, i => PLAIN) == [PLAIN] + ([PLAIN] + ([PLAIN] + [PLAIN]));
    TransitionAlone(s.shared, pid, req, PLAIN, PLAIN, PLAIN, PLAIN);
    assert TransitionVerdict(s.shared.items, id, revision, Closed) == None;
  }

  /** Raised by a closing, or as it was. */
  predicate Raised(s: State, t: State, id: string, low: int, high: int) {
    if low < high then id in t.shared.items && t.shared.items[id].status == Closed else t.shared.items == s.shared.items
  }

  lemma {:induction false} ClosedUpTo(s: State, id: string, pid: nat, low: int, high: int)
    requires OneRecord(s, id, pid, low) && low <= high
    ensures var t := Run(s, Closings(id, pid, low, high));
            OneRecord(t, id, pid + high - low, high) && KeepsProcs(s, t) && Raised(s, t, id, low, high)
    decreases high - low
  {
    hide Run, Calls, Closings, KeepsProcs, OneRecord, Recreates;
    ClosingsUnfold(s, id, pid, low, high);
    if low < high {
      var s' := Run(s, Calls(pid, TransitionCall(Request(id, low, Closed, "b")), 4));
      OneClosing(s, id, pid, low);
      ClosedUpTo(s', id, pid + 1, low + 1, high);
      KeepsTransitive(s, s', Run(s, Closings(id, pid, low, high)));
    } else {
      KeepsTransitive(s, s, s);
    }
  }

  lemma ClosingsUnfold(s: State, id: string, pid: nat, low: int, high: int)
    ensures var first := Calls(pid, TransitionCall(Request(id, low, Closed, "b")), 4);
            Run(s, Closings(id, pid, low, high)) ==
              if low >= high then s else Run(Run(s, first), Closings(id, pid + 1, low + 1, high))
  {
    hide Calls, Recreations, PeaksAfter, StaysOnTable;
    if low < high {
      hide Run;
      var first := Calls(pid, TransitionCall(Request(id, low, Closed, "b")), 4);
      RunConcat(s, map[], first, Closings(id, pid + 1, low + 1, high));
    }
  }

  lemma KeepsTransitive(s: State, t: State, u: State)
    ensures KeepsProcs(s, t) && KeepsProcs(t, u) ==> KeepsProcs(s, u)
    ensures KeepsProcs(s, s)
  {
  }

  /** It is archived: the id is free. */
  lemma Archived(s: State, id: string, pid: nat, revision: int)
    requires OneRecord(s, id, pid, revision) && s.shared.items[id].status == Closed
    ensures var t := Run(s, Calls(pid, ArchiveCall(id), 3));
            && t.shared.items == map[] && t.shared.archived == s.shared.archived[id := s.shared.items[id]]
            && (forall q :: q in t.procs ==> q < pid + 1)
            && KeepsProcs(s, t)
  {
    hide ProcStep, Solo, Run;
    AloneIsSolo(s, pid, ArchiveCall(id), seq(3, i => PLAIN));
    assert seq(3, i => PLAIN) == [PLAIN] + ([PLAIN] + [PLAIN]);
    ArchiveAlone(s.shared, pid, id, PLAIN, PLAIN, PLAIN);
  }

  /** What an archiver does to the store is at most to take out a record. */
  lemma ArchiverShrinks(sh: Shared, pid: nat, p: Proc, env: Env)
    requires IsArchive(p) || p.Finished?
    ensures var (sh', p') := ProcStep(sh, pid, p, env);
            && (IsArchive(p') || p'.Finished?)
            && forall k :: k in sh'.items ==> k in sh.items && sh'.items[k] == sh.items[k]
  {
  }

  /** So the peaks stay. */
  lemma {:induction false} ArchiverKeepsPeaks(s: State, peak: Peaks, pid: nat, envs: seq<Env>)
    requires pid in s.procs && (IsArchive(s.procs[pid]) || s.procs[pid].Finished?)
    requires forall k :: k in s.shared.items ==> k in peak && peak[k] == s.shared.items[k].revision
    ensures PeaksAfter(s, peak, Steps(pid, envs)) == peak
    decreases |envs|
  {
    hide ProcStep, IsArchive;
    if envs != [] {
      var s' := Next(s, Step(pid, envs[0]));
      assert Steps(pid, envs)[1..] == Steps(pid, envs[1..]);
      ArchiverShrinks(s.shared, pid, s.procs[pid], envs[0]);
      StoredPeaksStay(peak, s'.shared.items);
      hide Raise;
      ArchiverKeepsPeaks(s', peak, pid, envs[1..]);
    }
  }

  lemma StoredPeaksStay(peak: Peaks, items: Items)
    requires forall k :: k in items ==> k in peak && peak[k] == items[k].revision
    ensures Raise(peak, items) == peak
  {
  }

  lemma ArchiveCallKeepsPeaks(s: State, peak: Peaks, pid: nat, id: string, steps: nat)
    requires pid !in s.procs
    requires forall k :: k in s.shared.items ==> k in peak && peak[k] == s.shared.items[k].revision
    ensures PeaksAfter(s, peak, Calls(pid, ArchiveCall(id), steps)) == peak
  {
    var turns, envs := Calls(pid, ArchiveCall(id), steps), seq(steps, i => PLAIN);
    var s' := Next(s, turns[0]);
    assert turns[1..] == Steps(pid, envs);
    StoredPeaksStay(peak, s'.shared.items);
    hide Raise, Steps;
    ArchiverKeepsPeaks(s', peak, pid, envs);
  }

  /** r takes the id. */
  lemma PutBack(s: State, peak: Peaks, pid: nat, r: OpsRecord, record: OpsRecord, stamp: string)
    requires (forall q :: q in s.procs ==> q < pid) && s.shared.items == map[] && r.id in s.shared.born
    requires Begin(CreateCall(record, stamp)) == Creating(r)
    ensures var turns := Calls(pid, CreateCall(record, stamp), 2);
            var t := Run(s, turns);
            && t.shared.items == map[r.id := r] && t.shared.archived == s.shared.archived
            && Recreations(s, peak, turns) == [Returned(r, PeakOf(peak, r.id))]
            && KeepsProcs(s, t)
  {
    hide ProcStep, Solo, Run, Recreations, NormalizeOpsRecord;
    var call := CreateCall(record, stamp);
    AloneIsSolo(s, pid, call, seq(2, i => PLAIN));
    assert seq(2, i => PLAIN) == [PLAIN] + [PLAIN];
    CreateAlone(s.shared, pid, record, stamp, PLAIN, PLAIN);
    OnePutBack(s, peak, pid, r, call);
  }

  lemma OnePutBack(s: State, peak: Peaks, pid: nat, r: OpsRecord, call: Call)
    requires pid !in s.procs && s.shared.items == map[] && r.id in s.shared.born && Begin(call) == Creating(r)
    ensures Recreations(s, peak, Calls(pid, call, 2)) == [Returned(r, PeakOf(peak, r.id))]
  {
    hide ProcStep, Begin;
    var turns, s1, envs := Calls(pid, call, 2), Next(s, Spawn(pid, call)), seq(2, i => PLAIN);
    assert turns[1..] == Steps(pid, envs) && Steps(pid, envs)[1..] == Steps(pid, envs[1..]);
    assert Steps(pid, envs[1..])[1..] == [];
    StoredPeaksStay(peak, map[]);
    hide Raise;
    var s2 := Next(s1, Step(pid, PLAIN));
    NoStepBeginsCreate(s1.shared, pid, s1.procs[pid], PLAIN);
    assert Recreates(s1, Step(pid, PLAIN)) && !Recreates(s2, Step(pid, PLAIN));
    var last := Steps(pid, envs[1..]);
    assert Recreations(s2, Raise(peak, s2.shared.items), last) == [];
    assert Recreations(s1, peak, Steps(pid, envs)) == [Returned(r, PeakOf(peak, r.id))];
  }

  /** The late write finds the revision it expects. */
  lemma Overwritten(s: State, peak: Peaks, req: Request, copy: OpsRecord, r: OpsRecord)
    requires 0 in s.procs && s.procs[0] == Operating(req, Writing(copy)) && s.shared.items == map[r.id := r]
    requires copy.id == r.id && req.expected == r.revision && !CanMove(r.status, req.target)
    ensures Recreations(s, peak, [LAST]) == [] && !StaysOnTable(s, [LAST])
    ensures r.id in Next(s, LAST).shared.items && !CanMove(r.status, Next(s, LAST).shared.items[r.id].status)
  {
    hide CreateStep, WorkerStep, BatchStep, ArchiveStep, ClaimStep, CanMove;
    var t := Next(s, LAST);
    assert t.shared.items[r.id].status == req.target;
    assert [LAST][1..] == [];
  }

  /** The state in which the id is free and the peak reached. */
  lemma Prepared(r: OpsRecord, peak: int)
    requires Creatable(r) && Foolable(r, peak)
    ensures var start, pid := Boot([Earlier(r, peak)], 1), Archiver(r, peak) + 1;
            var turns := Before(r, peak) + Calls(pid - 1, ArchiveCall(r.id), 3);
            var s, peaks := Run(start, turns), PeaksAfter(start, FirstPeaks(start), turns);
            && Recreations(start, FirstPeaks(start), turns) == []
            && s.shared.items == map[] && r.id in s.shared.born && PeakOf(peaks, r.id) == peak
            && (forall q :: q in s.procs ==> q < pid)
            && 0 in s.procs && s.procs[0] == Operating(Late(r, peak), Writing(Earlier(r, peak)))
  {
    hide Calls, Next, Run, Recreations, InNormalForm, Seeded, Raise, PeaksAfter, OneRecord, CanMove;
    hide Creatable, FirstPeaks, StaysOnTable, Closings;
    var start := Boot([Earlier(r, peak)], 1);
    var a, b := Calls(0, TransitionCall(Late(r, peak)), 2), Closings(r.id, 1, r.revision, peak);
    var c := Calls(Archiver(r, peak), ArchiveCall(r.id), 3);
    LateTargetIsOffTable(r, peak);
    CreatableIsNormal(r);
    EarlierIsStored(r, peak);
    LateReads(start, Late(r, peak), Earlier(r, peak));
    var s1, s2 := Run(start, a), Run(Run(start, a), b);
    OnlyLate(s1, r, peak);
    ClosedUpTo(s1, r.id, 1, r.revision, peak);
    ClosedThen(s1, s2, r, peak);
    Archived(s2, r.id, Archiver(r, peak), peak);
    RunConcat(start, FirstPeaks(start), a, b);
    RunConcat(start, FirstPeaks(start), a + b, c);
    BeforeIsOrdinary(r, peak);
    PeakReached([Earlier(r, peak)], a + b, r.id, Archiver(r, peak), peak);
  }

  lemma OnlyLate(s: State, r: OpsRecord, peak: int)
    requires Foolable(r, peak) && s.shared.items == map[r.id := Earlier(r, peak)] && s.procs.Keys == {0}
    ensures OneRecord(s, r.id, 1, r.revision)
  {
    LateTargetIsOffTable(r, peak);
  }

  lemma ClosedThen(s1: State, s2: State, r: OpsRecord, peak: int)
    requires Foolable(r, peak) && s1.shared.items == map[r.id := Earlier(r, peak)]
    requires OneRecord(s2, r.id, Archiver(r, peak), peak)
    requires Raised(s1, s2, r.id, r.revision, peak)
    ensures r.id in s2.shared.items && s2.shared.items[r.id].status == Closed
  {
  }

  /** The peak is the revision archived last. */
  lemma PeakReached(seed: seq<OpsRecord>, before: seq<Turn>, id: string, pid: nat, peak: int)
    requires Ordinary(before) && OneRecord(Run(Boot(seed, 1), before), id, pid, peak)
    requires Ordinary(Calls(pid, ArchiveCall(id), 3))
    ensures var start, turns := Boot(seed, 1), before + Calls(pid, ArchiveCall(id), 3);
            && Recreations(start, FirstPeaks(start), turns) == []
            && PeakOf(PeaksAfter(start, FirstPeaks(start), turns), id) == peak && id in Run(start, turns).shared.born
  {
    hide Calls, Next, Run, Recreations, Ordinary, Raise, PeaksAfter, StaysOnTable, FirstPeaks, Seeded;
    hide CopiesBelow;
    var start, c := Boot(seed, 1), Calls(pid, ArchiveCall(id), 3);
    var first := FirstPeaks(start);
    Concat(before, c);
    OrdinaryPutsNothingBack(start, first, before);
    OrdinaryPutsNothingBack(start, first, before + c);
    BootPeaks(seed, 1);
    RunKeepsPeaks(start, first, before);
    RunKeepsPeaks(start, first, before + c);
    ArchiveCallKeepsPeaks(Run(start, before), PeaksAfter(start, first, before), pid, id, 3);
    RunConcat(start, first, before, c);
  }

  /** Every record that can be created can be put back with a number used before, and then taken off
      the table (a closed one, say, to paused), in a run in which every request names a revision and
      nothing else is put back. */
  lemma RecreationFoolsReader(r: OpsRecord, peak: int, record: OpsRecord, stamp: string)
    requires Begin(CreateCall(record, stamp)) == Creating(r) && Foolable(r, peak)
    ensures var start, schedule := Boot([Earlier(r, peak)], 1), Schedule(r, peak, record, stamp);
            var s, all := Run(start, schedule), schedule + [LAST];
            && Checked(all) && Recreations(start, FirstPeaks(start), all) == [Returned(r, peak)]
            && !StaysOnTable(start, all)
            && s.shared.items == map[r.id := r]
            && r.id in Next(s, LAST).shared.items && !CanMove(r.status, Next(s, LAST).shared.items[r.id].status)
  {
    hide Calls, Next, Run, Checked, Begin, Seeded, Recreations, StaysOnTable, PeaksAfter, Raise, Before, CanMove;
    ScheduleIsChecked(r, peak, record, stamp);
    IsCreatable(r, record, stamp);
    Prepared(r, peak);
    LateTargetIsOffTable(r, peak);
    var start := Boot([Earlier(r, peak)], 1);
    var first, pid := FirstPeaks(start), Archiver(r, peak) + 1;
    var turns, d := Before(r, peak) + Calls(pid - 1, ArchiveCall(r.id), 3), Calls(pid, CreateCall(record, stamp), 2);
    var s, peaks := Run(start, turns), PeaksAfter(start, first, turns);
    PutBack(s, peaks, pid, r, record, stamp);
    Overwritten(Run(s, d), PeaksAfter(s, peaks, d), Late(r, peak), Earlier(r, peak), r);
    RunConcat(start, first, turns, d);
    RunConcat(start, first, turns + d, [LAST]);
  }

  lemma IsCreatable(r: OpsRecord, record: OpsRecord, stamp: string)
    requires Begin(CreateCall(record, stamp)) == Creating(r)
    ensures Creatable(r)
  {
  }

  // ---- The conditions ----

  /** A run in which every request names a revision and everything put back is allowed by the
      rule, given the record and the highest revision stored under its id before, and which still
      takes some stored record off the table. */
  ghost predicate Fooled(seed: seq<OpsRecord>, unitLimit: nat, schedule: seq<Turn>, allowed: (OpsRecord, int) -> bool) {
    var start := Boot(seed, unitLimit);
    && Checked(schedule) && !StaysOnTable(start, schedule)
    && forall x :: x in Recreations(start, FirstPeaks(start), schedule) ==> allowed(x.record, x.peak)
  }

  /** A rule is unsafe if it allows a record some run can fool a reader with; and only if it allows
      some record with a number used before. */
  lemma AllowedFools(r: OpsRecord, peak: int, allowed: (OpsRecord, int) -> bool)
    requires Creatable(r) && Foolable(r, peak) && allowed(r, peak)
    ensures exists seed, unitLimit, schedule :: Fooled(seed, unitLimit, schedule, allowed)
  {
    hide Begin, Boot, Recreations, StaysOnTable, Checked, Schedule, Foolable;
    var record, stamp :| Begin(CreateCall(record, stamp)) == Creating(r);
    RecreationFoolsReader(r, peak, record, stamp);
    assert Fooled([Earlier(r, peak)], 1, Schedule(r, peak, record, stamp) + [LAST], allowed);
  }

  lemma FooledByOldNumber(seed: seq<OpsRecord>, unitLimit: nat, schedule: seq<Turn>, allowed: (OpsRecord, int) -> bool)
    returns (r: OpsRecord, peak: int)
    requires Fooled(seed, unitLimit, schedule, allowed)
    ensures Creatable(r) && 1 <= r.revision <= peak && allowed(r, peak)
  {
    hide Next, Seeded, Recreates, Creatable, StaysOnTable, Raise, InNormalForm;
    var start := Boot(seed, unitLimit);
    PutBackIsCreatable(start, FirstPeaks(start), schedule);
    if FreshRevisions(start, FirstPeaks(start), schedule) {
      NewNumbersKeepTable(seed, unitLimit, schedule);
      assert false;
    }
    var x :| x in Recreations(start, FirstPeaks(start), schedule) && x.record.revision <= x.peak;
    CreatableIsNormal(x.record);
    NormalRevision(x.record);
    return x.record, x.peak;
  }

  lemma NormalRevision(r: OpsRecord)
    requires InNormalForm(r)
    ensures r.revision >= 1
  {
  }

  function ByNumbers(allowed: (int, int) -> bool): (OpsRecord, int) -> bool {
    (r: OpsRecord, peak: int) => allowed(r.revision, peak)
  }

  function ByRecord(allowed: OpsRecord -> bool): (OpsRecord, int) -> bool {
    (r: OpsRecord, peak: int) => allowed(r)
  }

  /** A rule on numbers, the revision of the record put back and the highest one stored under its id
      so far, keeps all runs of checked requests on the table exactly when it allows no number
      already used up. */
  lemma RevisionRuleExactly(allowed: (int, int) -> bool)
    ensures (exists n, peak :: 1 <= n <= peak && allowed(n, peak)) <==>
            exists seed, unitLimit, schedule :: Fooled(seed, unitLimit, schedule, ByNumbers(allowed))
  {
    hide Creatable, Fooled;
    if n, peak :| 1 <= n <= peak && allowed(n, peak) {
      var r := OddRecord(n);
      AllowedFools(r, peak, ByNumbers(allowed));
    }
    if seed, unitLimit, schedule :| Fooled(seed, unitLimit, schedule, ByNumbers(allowed)) {
      var r, peak := FooledByOldNumber(seed, unitLimit, schedule, ByNumbers(allowed));
      assert allowed(r.revision, peak);
    }
  }

  /** A creatable record of any revision, in a status outside the table. */
  lemma OddRecord(n: int) returns (r: OpsRecord)
    requires n >= 1
    ensures Creatable(r) && r.revision == n && r.status.OtherStatus?
  {
    var record := OpsRecord("r", "", "o", OtherStatus("odd"), Normal, n, map["site" := "s"], "", "");
    AdmitExactly(record);
    assert !IsSpace(record.owner[0]);
    r := Admit(record).value.(createdAt := "", updatedAt := "");
    assert Begin(CreateCall(record, "")) == Creating(r);
  }

  /** A rule on the record alone does so exactly when it lets nothing through. */
  lemma RecreationExactly(allowed: OpsRecord -> bool)
    ensures (exists r :: Creatable(r) && allowed(r)) <==>
            exists seed, unitLimit, schedule :: Fooled(seed, unitLimit, schedule, ByRecord(allowed))
  {
    hide Creatable, Fooled;
    if r :| Creatable(r) && allowed(r) {
      CreatableIsNormal(r);
      NormalRevision(r);
      AllowedFools(r, r.revision + 1, ByRecord(allowed));
    }
    if seed, unitLimit, schedule :| Fooled(seed, unitLimit, schedule, ByRecord(allowed)) {
      var r, peak := FooledByOldNumber(seed, unitLimit, schedule, ByRecord(allowed));
      assert allowed(r);
    }
  }
}
