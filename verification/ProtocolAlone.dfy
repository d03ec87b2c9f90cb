/** The machine agrees with the operations run from start to end: an operation whose steps nobody
    interrupts has the outcome its method promises (modules Service and Archive). */
module ProtocolAlone {
  import opened OpsModel
  import opened StateMachine
  import opened Store
  import opened Policy
  import opened Audit
  import opened Service
  import opened Archive
  import opened Protocol

  /** The turns of process pid, each with its own environment. */
  function Steps(pid: nat, envs: seq<Env>): seq<Turn>
    decreases |envs|
  {
    if envs == [] then [] else [Step(pid, envs[0])] + Steps(pid, envs[1..])
  }

  /** One process run on its own. */
  function Solo(sh: Shared, pid: nat, p: Proc, envs: seq<Env>): (Shared, Proc)
    decreases |envs|
  {
    if envs == [] then (sh, p) else
      var (sh', p') := ProcStep(sh, pid, p, envs[0]);
      Solo(sh', pid, p', envs[1..])
  }

  lemma {:induction false} StepsAreSolo(s: State, pid: nat, envs: seq<Env>)
    requires pid in s.procs
    ensures var (sh, p) := Solo(s.shared, pid, s.procs[pid], envs);
            Run(s, Steps(pid, envs)) == State(sh, s.procs[pid := p])
    decreases |envs|
  {
    hide ProcStep;
    if envs != [] {
      var s' := Next(s, Step(pid, envs[0]));
      StepsAreSolo(s', pid, envs[1..]);
      assert Steps(pid, envs)[1..] == Steps(pid, envs[1..]);
    } else {
      assert s.procs[pid := s.procs[pid]] == s.procs;
    }
  }

  /** One call with nobody in between is one solo run of its process. */
  lemma AloneIsSolo(s: State, pid: nat, call: Call, envs: seq<Env>)
    requires pid !in s.procs
    ensures var (sh, p) := Solo(s.shared, pid, Begin(call), envs);
            Run(s, [Spawn(pid, call)] + Steps(pid, envs)) == State(sh, s.procs[pid := p])
  {
    hide ProcStep, Begin;
    var turns := [Spawn(pid, call)] + Steps(pid, envs);
    assert turns[1..] == Steps(pid, envs);
    StepsAreSolo(Next(s, Spawn(pid, call)), pid, envs);
  }

  predicate Uncancelled(envs: seq<Env>) {
    forall i :: 0 <= i < |envs| ==> !envs[i].cancelled
  }

  lemma UnfoldOne(sh: Shared, pid: nat, p: Proc, envs: seq<Env>)
    requires envs != []
    ensures var (sh', p') := ProcStep(sh, pid, p, envs[0]); Solo(sh, pid, p, envs) == Solo(sh', pid, p', envs[1..])
  {
  }

  lemma Unfold(sh: Shared, pid: nat, p: Proc, e: Env, rest: seq<Env>)
    ensures var (sh', p') := ProcStep(sh, pid, p, e); Solo(sh, pid, p, [e] + rest) == Solo(sh', pid, p', rest)
  {
  }

  lemma FinishedStays(sh: Shared, pid: nat, envs: seq<Env>)
    ensures Solo(sh, pid, Finished, envs) == (sh, Finished)
    decreases |envs|
  {
  }

  function MovedHistory(history: seq<OpsTransition>, from: OpsStatus, to: OpsStatus): seq<OpsTransition> {
    if from == to then history else history + [OpsTransition(from, to, "operator update")]
  }

  /** What a Transition does by itself, as one step; at is the stamp of its Update. */
  predicate TransitionOutcome(sh: Shared, sh': Shared, req: Request, at: string) {
    && sh'.archived == sh.archived && sh'.claims == sh.claims && sh'.units == sh.units && sh'.dropped == sh.dropped
    && sh'.eventSequence == sh.eventSequence + |sh'.events| - |sh.events|
    && match TransitionVerdict(sh.items, req.id, req.expected, req.target)
       case Some(_) => sh'.items == sh.items && sh'.events == sh.events && sh'.history == sh.history
       case None =>
         && sh'.history == MovedHistory(sh.history, sh.items[req.id].status, req.target)
         && Transitioned(sh.items, sh'.items, req.id, req.target) && sh'.items[req.id].updatedAt == at
         && sh'.events == sh.events + [OpsEvent(sh.eventSequence + 1, req.id, StatusChanged, req.actor)]
  }

  lemma TransitionAlone(sh: Shared, pid: nat, req: Request, e0: Env, e1: Env, e2: Env, e3: Env)
    requires Keyed(sh.items) && !e0.cancelled && !e2.cancelled
    ensures var (sh', p) := Solo(sh, pid, Begin(TransitionCall(req)), [e0] + ([e1] + ([e2] + [e3])));
            p == Finished && TransitionOutcome(sh, sh', req, e2.now)
  {
    hide CreateStep, WorkerStep, BatchStep, ArchiveStep, ClaimStep, Solo;
    Unfold(sh, pid, Operating(req, Reading), e0, [e1] + ([e2] + [e3]));
    if req.id !in sh.items || (req.expected > 0 && req.expected != sh.items[req.id].revision) {
      FinishedStays(sh, pid, [e1] + ([e2] + [e3]));
    } else {
      var copy := sh.items[req.id];
      Unfold(sh, pid, Operating(req, Moving(copy)), e1, [e2] + [e3]);
      if !CanMove(copy.status, req.target) {
        FinishedStays(sh, pid, [e2] + [e3]);
      } else {
        WriteAlone(ProcStep(sh, pid, Operating(req, Moving(copy)), e1).0, pid, req, copy, e2, e3);
      }
    }
  }

  lemma WriteAlone(sh: Shared, pid: nat, req: Request, copy: OpsRecord, e2: Env, e3: Env)
    requires copy.id in sh.items && sh.items[copy.id] == copy && copy.id == req.id && !e2.cancelled
    requires req.expected > 0 ==> req.expected == copy.revision
    ensures var (sh', p) := Solo(sh, pid, Operating(req, Writing(copy)), [e2] + [e3]);
            && p == Finished && sh'.archived == sh.archived && sh'.claims == sh.claims && sh'.units == sh.units
            && sh'.history == sh.history && sh'.dropped == sh.dropped && sh'.eventSequence == sh.eventSequence + 1
            && Transitioned(sh.items, sh'.items, req.id, req.target) && sh'.items[req.id].updatedAt == e2.now
            && sh'.events == sh.events + [OpsEvent(sh.eventSequence + 1, req.id, StatusChanged, req.actor)]
  {
    hide CreateStep, WorkerStep, BatchStep, ArchiveStep, ClaimStep, Solo;
    Unfold(sh, pid, Operating(req, Writing(copy)), e2, [e3]);
    var sh1 := ProcStep(sh, pid, Operating(req, Writing(copy)), e2).0;
    assert [e3] == [e3] + [];
    Unfold(sh1, pid, Operating(req, Logging(copy)), e3, []);
    FinishedStays(ProcStep(sh1, pid, Operating(req, Logging(copy)), e3).0, pid, []);
  }

  /** What an Archive does by itself. */
  predicate ArchiveOutcome(sh: Shared, sh': Shared, id: string) {
    if id in sh.items && sh.items[id].Terminal() then
      sh'.items == sh.items - {id} && sh'.archived == sh.archived[id := sh.items[id]]
    else sh' == sh
  }

  lemma ArchiveAlone(sh: Shared, pid: nat, id: string, e0: Env, e1: Env, e2: Env)
    requires !e0.cancelled && !e2.cancelled
    ensures var (sh', p) := Solo(sh, pid, Begin(ArchiveCall(id)), [e0] + ([e1] + [e2]));
            && p == Finished && ArchiveOutcome(sh, sh', id)
            && forall other :: id !in sh.archived ==>
                 LookupResult(sh'.archived, sh'.items, other) == LookupResult(sh.archived, sh.items, other)
  {
    hide CreateStep, WorkerStep, BatchStep, OperatorStep, ClaimStep, Solo;
    Unfold(sh, pid, Archiving(id), e0, [e1] + [e2]);
    if id !in sh.items || !sh.items[id].Terminal() {
      FinishedStays(sh, pid, [e1] + [e2]);
    } else {
      var copy := sh.items[id];
      Unfold(sh, pid, Saving(id, copy), e1, [e2]);
      var sh1 := ProcStep(sh, pid, Saving(id, copy), e1).0;
      assert [e2] == [e2] + [];
      Unfold(sh1, pid, Deleting(id), e2, []);
      FinishedStays(ProcStep(sh1, pid, Deleting(id), e2).0, pid, []);
    }
  }

  /** What a Create of an admitted record does by itself. */
  predicate CreateOutcome(sh: Shared, sh': Shared, made: OpsRecord) {
    if made.id in sh.items then sh' == sh
    else
      && sh'.items == sh.items[made.id := made] && sh'.archived == sh.archived
      && sh'.events == sh.events + [OpsEvent(sh.eventSequence + 1, made.id, Created, made.owner)]
  }

  lemma CreateAlone(sh: Shared, pid: nat, record: OpsRecord, stamp: string, e0: Env, e1: Env)
    requires !e0.cancelled
    ensures var (sh', p) := Solo(sh, pid, Begin(CreateCall(record, stamp)), [e0] + [e1]);
            && p == Finished
            && if Admit(record).Err? then sh' == sh
               else CreateOutcome(sh, sh', Admit(record).value.(createdAt := stamp, updatedAt := stamp))
  {
    hide OperatorStep, WorkerStep, BatchStep, ArchiveStep, ClaimStep, Solo, NormalizeOpsRecord;
    NormalForm(record);
    if Admit(record).Err? {
      FinishedStays(sh, pid, [e0] + [e1]);
    } else {
      var made := Admit(record).value.(createdAt := stamp, updatedAt := stamp);
      StampsStayNormal(record, stamp);
      Unfold(sh, pid, Creating(made), e0, [e1]);
      if made.id in sh.items {
        FinishedStays(sh, pid, [e1]);
      } else {
        var sh1 := ProcStep(sh, pid, Creating(made), e0).0;
        assert [e1] == [e1] + [];
        Unfold(sh1, pid, CreateLogging(made), e1, []);
        FinishedStays(ProcStep(sh1, pid, CreateLogging(made), e1).0, pid, []);
      }
    }
  }

  /** The record the sweep turns to is active and, at that moment, stale. */
  predicate PickIsDue(e: Env) {
    e.pick.status == Active && e.stale(e.pick.updatedAt)
  }

  function StepsFor(e: Env): nat {
    if PickIsDue(e) then 5 else 1
  }

  /** One turn of the worker's sweep with nobody in between: a listed record that is active and
      stale is closed like any transition, every other one is passed over. */
  lemma SweepTurnAlone(sh: Shared, pid: nat, todo: set<OpsRecord>, e: seq<Env>) returns (sh': Shared)
    requires Keyed(sh.items) && e != [] && Uncancelled(e) && |e| >= StepsFor(e[0])
    requires var item := e[0].pick; item in todo && item.id in sh.items && sh.items[item.id] == item
    ensures var item := e[0].pick;
            && Solo(sh, pid, Sweeping(todo), e) == Solo(sh', pid, Sweeping(todo - {item}), e[StepsFor(e[0])..])
            && if PickIsDue(e[0]) then
                 && TransitionOutcome(sh, sh', CloseRequest(item), e[3].now)
                 && Transitioned(sh.items, sh'.items, item.id, Closed)
               else sh' == sh
  {
    hide CreateStep, OperatorStep, BatchStep, ArchiveStep, ClaimStep, TransitionStep, Solo;
    var item := e[0].pick;
    UnfoldOne(sh, pid, Sweeping(todo), e);
    if !PickIsDue(e[0]) {
      return sh;
    }
    sh' := CloseAlone(sh, pid, item, todo - {item}, e[0].stale, e[1..]);
    assert e[1..][4..] == e[5..];
  }

  lemma CloseAlone(sh: Shared, pid: nat, item: OpsRecord, todo: set<OpsRecord>, asOf: string -> bool, e: seq<Env>)
    returns (sh': Shared)
    requires Keyed(sh.items) && |e| >= 4 && Uncancelled(e)
    requires item.id in sh.items && sh.items[item.id] == item && item.status == Active
    ensures Solo(sh, pid, Closing(item, todo, Reading, asOf), e) == Solo(sh', pid, Sweeping(todo), e[4..])
    ensures TransitionOutcome(sh, sh', CloseRequest(item), e[2].now)
    ensures Transitioned(sh.items, sh'.items, item.id, Closed)
  {
    hide CreateStep, OperatorStep, BatchStep, ArchiveStep, ClaimStep, Solo, Keyed;
    UnfoldOne(sh, pid, Closing(item, todo, Reading, asOf), e);
    UnfoldOne(sh, pid, Closing(item, todo, Moving(item), asOf), e[1..]);
    var sh1 := ProcStep(sh, pid, Closing(item, todo, Moving(item), asOf), e[1]).0;
    UnfoldOne(sh1, pid, Closing(item, todo, Writing(item), asOf), e[2..]);
    var sh2 := ProcStep(sh1, pid, Closing(item, todo, Writing(item), asOf), e[2]).0;
    UnfoldOne(sh2, pid, Closing(item, todo, Logging(item), asOf), e[3..]);
    sh' := ProcStep(sh2, pid, Closing(item, todo, Logging(item), asOf), e[3]).0;
    assert e[1..][1..] == e[2..] && e[2..][1..] == e[3..] && e[3..][1..] == e[4..];
  }

  /** A tick starts from all stored records, and ends by keeping the newest 2000 events. */
  lemma TickEnds(sh: Shared, pid: nat, e: seq<Env>)
    requires |e| >= 2 && Uncancelled(e)
    ensures Solo(sh, pid, Listing, e) == Solo(sh, pid, Sweeping(sh.items.Values), e[1..])
    ensures var (sh', p) := Solo(sh, pid, Sweeping({}), e);
            && p == Finished && sh'.items == sh.items && sh'.events == Newest(sh.events, 2000)
            && sh'.dropped + sh'.events == sh.dropped + sh.events
  {
    hide CreateStep, OperatorStep, BatchStep, ArchiveStep, ClaimStep, Solo;
    UnfoldOne(sh, pid, Listing, e);
    UnfoldOne(sh, pid, Sweeping({}), e);
    UnfoldOne(sh, pid, Pruning, e[1..]);
    var sh' := ProcStep(sh, pid, Pruning, e[1]).0;
    FinishedStays(sh', pid, e[1..][1..]);
  }

  /** Once its context has ended, no step of an operation changes the store, and every step that
      checks the context is the operation's way out: Finished, or for a batch and a tick the part
      that is still owed. */
  lemma EndedContext(sh: Shared, pid: nat, p: Proc, env: Env)
    requires env.cancelled
    ensures var (sh', p') := ProcStep(sh, pid, p, env);
            && sh'.items == sh.items
            && (p.Creating? || p.Archiving? || p.Deleting? ==> p' == Finished && sh' == sh)
            && (p.Operating? && (p.at.Reading? || p.at.Writing?) ==> p' == Finished && sh' == sh)
            && (p.Listing? || p.Sweeping? ==> p' == Pruning && sh' == sh)
            && (p.Closing? && (p.at.Reading? || p.at.Writing?) ==> p' == Sweeping(p.todo) && sh' == sh)
            && (p.Batching? && (p.point.AtHead? || p.point.AtUnits?) ==>
                  p' == Unclaiming(p.job, p.number, p.tally) && sh' == sh)
            && (p.Batching? && p.point.InItem? && (p.point.at.Reading? || p.point.at.Writing?) ==>
                  p' == p.(point := Freeing(Failed)) && sh' == sh)
  {
    hide TransitionStep, ItemStep;
    match p
    case Operating(req, at) => EndedFlight(sh, req, at, env);
    case Closing(item, _, at, _) => EndedFlight(sh, CloseRequest(item), at, env);
    case Batching(job, number, _, InItem(id, at)) => EndedItem(sh, pid, job, number, id, at, env);
    case _ =>
  }

  lemma EndedFlight(sh: Shared, req: Request, at: Flight, env: Env)
    requires env.cancelled
    ensures var (sh', at') := TransitionStep(sh, req, at, env);
            sh'.items == sh.items && (at.Reading? || at.Writing? ==> at' == None && sh' == sh)
  {
  }

  lemma EndedItem(sh: Shared, pid: nat, job: Job, number: nat, id: string, at: Flight, env: Env)
    requires env.cancelled
    ensures var (sh', point) := ItemStep(sh, pid, job, number, id, at, env);
            sh'.items == sh.items && (at.Reading? || at.Writing? ==> point == Freeing(Failed) && sh' == sh)
  {
  }
}
