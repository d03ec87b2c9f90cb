/** Ids created again after their deletion, and the revision numbers used up by then. The revision
    check is sound, and statuses stay on the table, in every run in which a record put back under a
    deleted id carries a revision above every revision ever stored under it. */
module ProtocolPeaks {
  import opened OpsModel
  import opened StateMachine
  import opened Store
  import opened Protocol
  import opened ProtocolCopies
  import opened ProtocolStatus
  import opened ProtocolStore
  import opened ProtocolArchive
  import opened ProtocolWrites

  /** The highest revision stored under each id so far. */
  type Peaks = map<string, int>

  function Raise(peak: Peaks, items: Items): Peaks {
    map k | k in peak.Keys + items.Keys ::
      if k in items && (k !in peak || peak[k] < items[k].revision) then items[k].revision else peak[k]
  }

  function FirstPeaks(s: State): Peaks {
    Raise(map[], s.shared.items)
  }

  function PeakOf(peak: Peaks, id: string): int {
    if id in peak then peak[id] else 0
  }

  /** A record put back under a deleted id, and the highest revision stored under it before. */
  datatype Returned = Returned(record: OpsRecord, peak: int)

  function Recreations(s: State, peak: Peaks, schedule: seq<Turn>): seq<Returned>
    decreases |schedule|
  {
    if schedule == [] then [] else
      var s' := Next(s, schedule[0]);
      (if Recreates(s, schedule[0]) then [ReturnedBy(s, peak, schedule[0])] else [])
      + Recreations(s', Raise(peak, s'.shared.items), schedule[1..])
  }

  function ReturnedBy(s: State, peak: Peaks, turn: Turn): Returned
    requires Recreates(s, turn)
  {
    var record := s.procs[turn.pid].record;
    Returned(record, PeakOf(peak, record.id))
  }

  /** If this turn puts a record back, it carries a new number. */
  predicate NewNumber(s: State, peak: Peaks, turn: Turn) {
    Recreates(s, turn) ==> ReturnedBy(s, peak, turn).record.revision > ReturnedBy(s, peak, turn).peak
  }

  /** What is put back carries new numbers. */
  predicate FreshRevisions(s: State, peak: Peaks, schedule: seq<Turn>) {
    forall x :: x in Recreations(s, peak, schedule) ==> x.record.revision > x.peak
  }

  /** Every Transition request names the revision it expects. */
  predicate Checked(schedule: seq<Turn>) {
    forall i :: 0 <= i < |schedule| ==> CheckedTurn(schedule[i])
  }

  predicate CheckedTurn(turn: Turn) {
    turn.Spawn? && turn.call.TransitionCall? ==> turn.call.request.expected > 0
  }

  /** Each turn leaves each stored record's status or moves it along an edge. */
  predicate StaysOnTable(s: State, schedule: seq<Turn>)
    decreases |schedule|
  {
    schedule == []
    || (OnTable(s.shared.items, Next(s, schedule[0]).shared.items) && StaysOnTable(Next(s, schedule[0]), schedule[1..]))
  }

  lemma {:induction false} NonePutBack(s: State, peak: Peaks, schedule: seq<Turn>)
    ensures Recreations(s, peak, schedule) == [] <==> NoRecreation(s, schedule)
    decreases |schedule|
  {
    hide Next, Recreates, Raise;
    if schedule != [] {
      var s' := Next(s, schedule[0]);
      NonePutBack(s', Raise(peak, s'.shared.items), schedule[1..]);
    }
  }

  /** A copy is of a revision stored before; if of the newest, it is the stored record. */
  predicate BelowPeak(items: Items, peak: Peaks, c: OpsRecord) {
    && c.id in peak && 1 <= c.revision <= peak[c.id]
    && (c.id in items && c.revision == peak[c.id] ==> items[c.id] == c)
  }

  ghost predicate PeaksOk(sh: Shared, peak: Peaks) {
    && peak.Keys == sh.born.Keys
    && forall k :: k in sh.items ==> k in peak && peak[k] == sh.items[k].revision
  }

  ghost predicate CopiesBelow(items: Items, peak: Peaks, p: Proc) {
    forall c :: Holds(p, c) ==> BelowPeak(items, peak, c)
  }

  ghost predicate PeakInv(s: State, peak: Peaks) {
    && WritesInv(s) && PeaksOk(s.shared, peak)
    && forall pid :: pid in s.procs ==> CopiesBelow(s.shared.items, peak, s.procs[pid])
  }

  /** What a step may do under one id: nothing, one revision more, or a record with a new number. */
  predicate Advances(sh: Shared, peak: Peaks, sh': Shared, k: string) {
    k in sh'.items ==>
      if k in sh.items then sh'.items[k] == sh.items[k] || sh'.items[k].revision == sh.items[k].revision + 1
      else k in sh.born ==> k in peak && sh'.items[k].revision > peak[k]
  }

  lemma UpdatedOrSame(sh: Shared, req: Request, at: Flight, env: Env)
    requires !at.Writing?
    ensures TransitionStep(sh, req, at, env).0.items == sh.items
  {
  }

  /** A step that is no write adds at most the record being created. */
  lemma OtherChanges(sh: Shared, pid: nat, p: Proc, env: Env)
    requires PendingOf(p) == None && Normalised(p)
    ensures var items' := ProcStep(sh, pid, p, env).0.items;
            forall k :: k in items' ==>
              if k in sh.items then items'[k] == sh.items[k]
              else p.Creating? && k == p.record.id && items'[k] == p.record && !env.cancelled
  {
    hide TransitionStep, NormalizeOpsRecord;
    match p
    case Operating(req, at) => UpdatedOrSame(sh, req, at, env);
    case Closing(item, _, at, _) => UpdatedOrSame(sh, CloseRequest(item), at, env);
    case _ =>
  }

  lemma StepAdvances(s: State, peak: Peaks, pid: nat, env: Env, k: string)
    requires PeakInv(s, peak) && pid in s.procs
    requires NewNumber(s, peak, Step(pid, env))
    ensures Advances(s.shared, peak, ProcStep(s.shared, pid, s.procs[pid], env).0, k)
  {
    hide ProcStep, LocalOk, Recorded, OnlyEdges;
    var p := s.procs[pid];
    assert WriteOk(s.shared, p);
    if PendingOf(p).Some? {
      hide PendingOf;
      StepWritesExactly(s.shared, pid, p, env);
    } else {
      hide PendingOf;
      OtherChanges(s.shared, pid, p, env);
    }
  }

  lemma PeaksAdvance(sh: Shared, peak: Peaks, p: Proc, sh': Shared, p': Proc)
    requires PeaksOk(sh, peak) && Handles(sh, p, sh', p') && forall k :: Advances(sh, peak, sh', k)
    requires forall k :: k in sh'.items ==> k in sh'.born
    ensures PeaksOk(sh', Raise(peak, sh'.items))
  {
    forall k | k in sh'.items ensures Raise(peak, sh'.items)[k] == sh'.items[k].revision {
      assert Advances(sh, peak, sh', k);
    }
  }

  lemma CopyStaysBelow(sh: Shared, peak: Peaks, sh': Shared, c: OpsRecord)
    requires PeaksOk(sh, peak) && Advances(sh, peak, sh', c.id) && BelowPeak(sh.items, peak, c)
    ensures BelowPeak(sh'.items, Raise(peak, sh'.items), c)
  {
  }

  lemma ReadIsBelow(sh: Shared, peak: Peaks, sh': Shared, c: OpsRecord)
    requires PeaksOk(sh, peak) && Keyed(sh.items) && c.id in sh.items && sh.items[c.id] == c && sh'.items == sh.items
    ensures BelowPeak(sh'.items, Raise(peak, sh'.items), c)
  {
  }

  lemma StepKeepsPeaks(s: State, peak: Peaks, pid: nat, env: Env)
    requires PeakInv(s, peak) && pid in s.procs
    requires NewNumber(s, peak, Step(pid, env))
    ensures var s' := Next(s, Step(pid, env)); PeakInv(s', Raise(peak, s'.shared.items))
  {
    hide ProcStep, BelowPeak, Advances, Raise, WritesInv, Handles, PeaksOk, Holds;
    var p := s.procs[pid];
    var (sh', p') := ProcStep(s.shared, pid, p, env);
    var s', peak' := Next(s, Step(pid, env)), Raise(peak, sh'.items);
    NextKeepsWrites(s, Step(pid, env));
    forall k ensures Advances(s.shared, peak, sh', k) { StepAdvances(s, peak, pid, env, k); }
    StepHandles(s.shared, pid, p, env);
    StoredWereBorn(s, peak, sh', p, p');
    PeaksAdvance(s.shared, peak, p, sh', p');
    forall q | q in s'.procs ensures CopiesBelow(sh'.items, peak', s'.procs[q]) {
      forall c | Holds(s'.procs[q], c) ensures BelowPeak(sh'.items, peak', c) {
        if q == pid && !Holds(p, c) {
          StoreOfInv(s, peak);
          WhereCopiesComeFrom(s.shared, pid, p, env, c);
          ReadIsBelow(s.shared, peak, sh', c);
        } else {
          assert CopiesBelow(s.shared.items, peak, s.procs[q]);
          CopyStaysBelow(s.shared, peak, sh', c);
        }
      }
    }
  }

  lemma StoreOfInv(s: State, peak: Peaks)
    requires PeakInv(s, peak)
    ensures Keyed(s.shared.items) && forall k :: k in s.shared.items ==> k in s.shared.born
  {
  }

  lemma StoredWereBorn(s: State, peak: Peaks, sh': Shared, p: Proc, p': Proc)
    requires PeakInv(s, peak) && Handles(s.shared, p, sh', p')
    ensures forall k :: k in sh'.items ==> k in sh'.born
  {
    StoreOfInv(s, peak);
  }

  lemma NothingHeldYet(call: Call)
    ensures forall c :: !Holds(Begin(call), c)
  {
  }

  lemma SamePeaks(peak: Peaks, sh: Shared)
    requires PeaksOk(sh, peak)
    ensures Raise(peak, sh.items) == peak
  {
  }

  lemma NextKeepsPeaks(s: State, peak: Peaks, turn: Turn)
    requires PeakInv(s, peak)
    requires NewNumber(s, peak, turn)
    ensures PeakInv(Next(s, turn), Raise(peak, Next(s, turn).shared.items))
  {
    match turn
    case Spawn(pid, call) =>
      hide Begin, Holds, BelowPeak, PeaksOk, WritesInv, Raise;
      NextKeepsWrites(s, turn);
      NothingHeldYet(call);
      SamePeaks(peak, s.shared);
    case Step(pid, env) =>
      hide PeakInv, ProcStep, Raise;
      if pid in s.procs { StepKeepsPeaks(s, peak, pid, env); } else { IdleKeepsPeaks(s, peak); }
  }

  lemma IdleKeepsPeaks(s: State, peak: Peaks)
    requires PeakInv(s, peak)
    ensures PeakInv(s, Raise(peak, s.shared.items))
  {
    SamePeaks(peak, s.shared);
  }

  lemma FreshHead(s: State, peak: Peaks, schedule: seq<Turn>)
    requires schedule != [] && FreshRevisions(s, peak, schedule)
    ensures NewNumber(s, peak, schedule[0])
    ensures var s' := Next(s, schedule[0]); FreshRevisions(s', Raise(peak, s'.shared.items), schedule[1..])
  {
    hide Next, Raise, Recreates;
    if Recreates(s, schedule[0]) {
      assert Recreations(s, peak, schedule)[0] == ReturnedBy(s, peak, schedule[0]);
    }
  }

  /** The peaks at the end of a run. */
  function PeaksAfter(s: State, peak: Peaks, schedule: seq<Turn>): Peaks
    decreases |schedule|
  {
    if schedule == [] then peak else
      var s' := Next(s, schedule[0]);
      PeaksAfter(s', Raise(peak, s'.shared.items), schedule[1..])
  }

  lemma {:induction false} RunKeepsPeaks(s: State, peak: Peaks, schedule: seq<Turn>)
    requires PeakInv(s, peak) && FreshRevisions(s, peak, schedule)
    ensures PeakInv(Run(s, schedule), PeaksAfter(s, peak, schedule))
    decreases |schedule|
  {
    hide PeakInv, Next, Raise, FreshRevisions, Recreates;
    if schedule != [] {
      var s' := Next(s, schedule[0]);
      FreshHead(s, peak, schedule);
      NextKeepsPeaks(s, peak, schedule[0]);
      RunKeepsPeaks(s', Raise(peak, s'.shared.items), schedule[1..]);
    }
  }

  lemma BootPeaks(seed: seq<OpsRecord>, unitLimit: nat)
    ensures PeakInv(Boot(seed, unitLimit), FirstPeaks(Boot(seed, unitLimit)))
  {
    BootWrites(seed, unitLimit);
  }

  /** A pending write that is checked finds its revision exactly if the record is as it was read. */
  lemma CheckedFindsCopy(s: State, peak: Peaks, pid: nat)
    requires PeakInv(s, peak) && pid in s.procs && PendingOf(s.procs[pid]).Some?
    ensures var w := PendingOf(s.procs[pid]).value;
            w.copy.id in s.shared.items ==>
              (s.shared.items[w.copy.id].revision == w.copy.revision <==> s.shared.items[w.copy.id] == w.copy)
  {
    var w := PendingOf(s.procs[pid]).value;
    assert CopiesBelow(s.shared.items, peak, s.procs[pid]);
    assert Holds(s.procs[pid], w.copy);
  }

  /** No lost update: as long as what is put back carries new numbers, a write that checks the
      revision changes the store exactly if its context lasts and the store still holds the record
      as it was read. */
  lemma NoLostUpdate(seed: seq<OpsRecord>, unitLimit: nat, schedule: seq<Turn>, pid: nat, env: Env)
    requires FreshRevisions(Boot(seed, unitLimit), FirstPeaks(Boot(seed, unitLimit)), schedule)
    requires var s := Run(Boot(seed, unitLimit), schedule);
             pid in s.procs && PendingOf(s.procs[pid]).Some? && PendingOf(s.procs[pid]).value.checked
    ensures var s := Run(Boot(seed, unitLimit), schedule);
            var w := PendingOf(s.procs[pid]).value;
            Next(s, Step(pid, env)).shared.items != s.shared.items <==>
              !env.cancelled && w.copy.id in s.shared.items && s.shared.items[w.copy.id] == w.copy
  {
    hide ProcStep, LocalOk, Boot, OnlyEdges, PeakInv, FreshRevisions, PendingOf;
    var s0 := Boot(seed, unitLimit);
    MovesTakeEffectExactly(seed, unitLimit, schedule, pid, env);
    BootPeaks(seed, unitLimit);
    RunKeepsPeaks(s0, FirstPeaks(s0), schedule);
    CheckedFindsCopy(Run(s0, schedule), PeaksAfter(s0, FirstPeaks(s0), schedule), pid);
  }

  // ---- Checked requests stay on the table ----

  ghost predicate AllChecked(s: State) {
    forall pid :: pid in s.procs && s.procs[pid].Operating? ==> s.procs[pid].request.expected > 0
  }

  lemma NextKeepsChecked(s: State, turn: Turn)
    requires AllChecked(s) && CheckedTurn(turn)
    ensures AllChecked(Next(s, turn))
  {
    hide ProcStep;
    if turn.Step? && turn.pid in s.procs { StepKeepsRequest(s.shared, turn.pid, s.procs[turn.pid], turn.env); }
  }

  lemma PendingIsChecked(s: State, peak: Peaks, pid: nat)
    requires PeakInv(s, peak) && AllChecked(s) && pid in s.procs && PendingOf(s.procs[pid]).Some?
    ensures PendingOf(s.procs[pid]).value.checked
    ensures CanMove(PendingOf(s.procs[pid]).value.copy.status, PendingOf(s.procs[pid]).value.target)
  {
    var p := s.procs[pid];
    assert WriteOk(s.shared, p) && CopiesBelow(s.shared.items, peak, p);
    if p.Closing? { assert Holds(p, p.item); }
  }

  lemma NextOnTable(s: State, peak: Peaks, turn: Turn)
    requires PeakInv(s, peak) && AllChecked(s)
    ensures OnTable(s.shared.items, Next(s, turn).shared.items)
  {
    if turn.Step? && turn.pid in s.procs {
      hide ProcStep, LocalOk, Recorded, OnlyEdges, PeaksOk, CopiesBelow, Edge;
      var p := s.procs[turn.pid];
      assert WriteOk(s.shared, p);
      if PendingOf(p).Some? {
        PendingIsChecked(s, peak, turn.pid);
        CheckedFindsCopy(s, peak, turn.pid);
        hide PendingOf;
        StepWritesExactly(s.shared, turn.pid, p, turn.env);
      } else {
        hide PendingOf;
        OtherChanges(s.shared, turn.pid, p, turn.env);
      }
    }
  }

  lemma {:induction false} FreshStaysOnTable(s: State, peak: Peaks, schedule: seq<Turn>)
    requires PeakInv(s, peak) && AllChecked(s) && Checked(schedule) && FreshRevisions(s, peak, schedule)
    ensures StaysOnTable(s, schedule)
    decreases |schedule|
  {
    hide PeakInv, AllChecked, Next, Raise, FreshRevisions, OnTable, Recreates, CheckedTurn;
    if schedule != [] {
      var s' := Next(s, schedule[0]);
      assert CheckedTurn(schedule[0]);
      FreshHead(s, peak, schedule);
      NextKeepsPeaks(s, peak, schedule[0]);
      NextKeepsChecked(s, schedule[0]);
      NextOnTable(s, peak, schedule[0]);
      FreshStaysOnTable(s', Raise(peak, s'.shared.items), schedule[1..]);
    }
  }

  /** If every request names a revision and every record put back under a deleted id carries a
      revision above all those stored under it before, statuses stay on the table. */
  lemma NewNumbersKeepTable(seed: seq<OpsRecord>, unitLimit: nat, schedule: seq<Turn>)
    requires Checked(schedule) && FreshRevisions(Boot(seed, unitLimit), FirstPeaks(Boot(seed, unitLimit)), schedule)
    ensures StaysOnTable(Boot(seed, unitLimit), schedule)
  {
    hide FreshRevisions, StaysOnTable;
    BootPeaks(seed, unitLimit);
    FreshStaysOnTable(Boot(seed, unitLimit), FirstPeaks(Boot(seed, unitLimit)), schedule);
  }

  /** Not putting anything back is one way to carry new numbers only. */
  lemma NoRecreationIsFresh(seed: seq<OpsRecord>, unitLimit: nat, schedule: seq<Turn>)
    requires NoRecreation(Boot(seed, unitLimit), schedule)
    ensures FreshRevisions(Boot(seed, unitLimit), FirstPeaks(Boot(seed, unitLimit)), schedule)
  {
    NonePutBack(Boot(seed, unitLimit), FirstPeaks(Boot(seed, unitLimit)), schedule);
  }
}
