/** On-site sessions (ops_sessions.go): two linked maps under one mutex. */
module Sessions {
  import opened OpsModel
  import opened Decimal

  datatype SessionStatus = Open | Completed | Aborted

  /** The stamps are any text; ClosedAt is empty while the session is open. */
  datatype OpsSession = OpsSession(
    id: string, recordID: string, owner: string, status: SessionStatus, openedAt: string, closedAt: string)

  datatype Desk = Desk(capacity: int, sessions: map<string, OpsSession>, byRecord: map<string, string>, sequence: nat)

  function SessionID(n: nat): string {
    "sess-" + Pad6(n)
  }

  lemma SessionIDInjective(m: nat, n: nat)
    ensures SessionID(m) == SessionID(n) ==> m == n
  {
    if SessionID(m) == SessionID(n) {
      assert Pad6(m) == SessionID(m)[5..] == SessionID(n)[5..] == Pad6(n);
      PrintInjective(m, n);
    }
  }

  function OpenResult(d: Desk, recordID: string, owner: string, now: string): Reply<Desk> {
    if recordID == "" || owner == "" then Err(Invalid)
    else if |d.sessions| >= d.capacity then Err(PolicyRefused)
    else if recordID in d.byRecord then Err(Conflict)
    else
      Ok(Opened(d, OpsSession(SessionID(d.sequence + 1), recordID, owner, Open, now, "")))
  }

  /** The desk with one more open session, its id drawn from the counter. */
  function Opened(d: Desk, session: OpsSession): Desk {
    d.(sessions := d.sessions[session.id := session], byRecord := d.byRecord[session.recordID := session.id],
       sequence := d.sequence + 1)
  }

  /** Complete and Abort differ in the final status only. */
  function CloseResult(d: Desk, id: string, final: SessionStatus, now: string): Reply<Desk> {
    if id !in d.sessions then Err(NotFound)
    else if d.sessions[id].status != Open then Err(TransitionRefused)
    else
      var session := d.sessions[id].(status := final, closedAt := now);
      Ok(d.(sessions := d.sessions[id := session], byRecord := d.byRecord - {session.recordID}))
  }

  predicate IsOpen(d: Desk, id: string) {
    id in d.sessions && d.sessions[id].status == Open
  }

  /** byRecord is exactly the one-to-one index of the open sessions, sessions are filed under
      their ids, and every id was drawn from the counter. */
  ghost predicate DeskOk(d: Desk) {
    && (forall id :: id in d.sessions ==> d.sessions[id].id == id && Drawn(id, d.sequence))
    && IndexExact(d)
  }

  ghost predicate Drawn(id: string, sequence: nat) {
    exists n: nat :: n <= sequence && id == SessionID(n)
  }

  predicate IndexExact(d: Desk) {
    && (forall r :: r in d.byRecord ==> IsOpen(d, d.byRecord[r]) && d.sessions[d.byRecord[r]].recordID == r)
    && (forall id :: id in d.sessions && IsOpen(d, id) ==>
          d.sessions[id].recordID in d.byRecord && d.byRecord[d.sessions[id].recordID] == id)
  }

  datatype DeskCall =
    | OpenCall(recordID: string, owner: string, now: string)
    | CompleteCall(id: string, now: string)
    | AbortCall(id: string, now: string)

  function Called(d: Desk, call: DeskCall): Reply<Desk> {
    match call
    case OpenCall(recordID, owner, now) => OpenResult(d, recordID, owner, now)
    case CompleteCall(id, now) => CloseResult(d, id, Completed, now)
    case AbortCall(id, now) => CloseResult(d, id, Aborted, now)
  }

  function After(d: Desk, call: DeskCall): Desk {
    match Called(d, call)
    case Ok(d') => d'
    case Err(_) => d
  }

  function AfterAll(d: Desk, calls: seq<DeskCall>): Desk
    decreases |calls|
  {
    if calls == [] then d else AfterAll(After(d, calls[0]), calls[1..])
  }

  function OpensGranted(d: Desk, calls: seq<DeskCall>): nat
    decreases |calls|
  {
    if calls == [] then 0 else
      (if calls[0].OpenCall? && Called(d, calls[0]).Ok? then 1 else 0) + OpensGranted(After(d, calls[0]), calls[1..])
  }

  /** A finished session is final, an open one keeps all but its end. */
  predicate SessionsPersist(d: Desk, d': Desk) {
    forall id :: id in d.sessions ==>
      && id in d'.sessions
      && (d.sessions[id].status != Open ==> d'.sessions[id] == d.sessions[id])
      && d'.sessions[id].(status := Open, closedAt := "") == d.sessions[id].(status := Open, closedAt := "")
  }

  lemma FreshSessionID(d: Desk)
    requires DeskOk(d)
    ensures SessionID(d.sequence + 1) !in d.sessions
  {
    var id := SessionID(d.sequence + 1);
    if id in d.sessions {
      var n: nat :| n <= d.sequence && id == SessionID(n);
      SessionIDInjective(n, d.sequence + 1);
    }
  }

  lemma StillDrawn(id: string, sequence: nat)
    ensures Drawn(id, sequence) ==> Drawn(id, sequence + 1)
    ensures Drawn(SessionID(sequence + 1), sequence + 1)
  {
  }

  lemma OneMoreIndexed(d: Desk, session: OpsSession)
    requires IndexExact(d) && session.id !in d.sessions && session.recordID !in d.byRecord && session.status == Open
    ensures IndexExact(Opened(d, session))
  {
  }

  lemma OpenedKeepsDesk(d: Desk, session: OpsSession)
    requires DeskOk(d) && session.id !in d.sessions && session.recordID !in d.byRecord && session.status == Open
    requires Drawn(session.id, d.sequence + 1)
    ensures DeskOk(Opened(d, session))
  {
    hide Drawn, IndexExact;
    OneMoreIndexed(d, session);
    forall id | id in d.sessions ensures Drawn(id, d.sequence + 1) {
      StillDrawn(id, d.sequence);
    }
  }

  lemma OpenedPersists(d: Desk, session: OpsSession)
    requires session.id !in d.sessions
    ensures |Opened(d, session).sessions| == |d.sessions| + 1 && SessionsPersist(d, Opened(d, session))
  {
  }

  lemma OpenKeepsDesk(d: Desk, recordID: string, owner: string, now: string)
    requires DeskOk(d) && OpenResult(d, recordID, owner, now).Ok?
    ensures var d' := OpenResult(d, recordID, owner, now).value;
            DeskOk(d') && |d'.sessions| == |d.sessions| + 1 <= d.capacity && SessionsPersist(d, d')
  {
    hide SessionID, Drawn, DeskOk;
    var session := OpsSession(SessionID(d.sequence + 1), recordID, owner, Open, now, "");
    FreshSessionID(d);
    StillDrawn("", d.sequence);
    OpenedKeepsDesk(d, session);
    OpenedPersists(d, session);
    assert OpenResult(d, recordID, owner, now).value == Opened(d, session);
  }

  lemma CloseKeepsDesk(d: Desk, id: string, final: SessionStatus, now: string)
    requires DeskOk(d) && final != Open && CloseResult(d, id, final, now).Ok?
    ensures var d' := CloseResult(d, id, final, now).value;
            DeskOk(d') && |d'.sessions| == |d.sessions| && SessionsPersist(d, d')
  {
    hide SessionID, Drawn;
    var d' := CloseResult(d, id, final, now).value;
    assert d'.sessions.Keys == d.sessions.Keys;
    forall r | r in d'.byRecord ensures IsOpen(d', d'.byRecord[r]) && d'.sessions[d'.byRecord[r]].recordID == r {
      assert d.byRecord[r] != id;
    }
  }

  lemma CallKeepsDesk(d: Desk, call: DeskCall)
    requires DeskOk(d)
    ensures var d' := After(d, call);
            && DeskOk(d') && d'.capacity == d.capacity && SessionsPersist(d, d')
            && |d'.sessions| == |d.sessions| + (if call.OpenCall? && Called(d, call).Ok? then 1 else 0)
            && (call.OpenCall? && Called(d, call).Ok? ==> |d'.sessions| <= d.capacity)
  {
    hide DeskOk;
    if Called(d, call).Ok? {
      match call
      case OpenCall(recordID, owner, now) => OpenKeepsDesk(d, recordID, owner, now);
      case CompleteCall(id, now) => CloseKeepsDesk(d, id, Completed, now);
      case AbortCall(id, now) => CloseKeepsDesk(d, id, Aborted, now);
    }
  }

  lemma PersistTransitive(a: Desk, b: Desk, c: Desk)
    requires SessionsPersist(a, b) && SessionsPersist(b, c)
    ensures SessionsPersist(a, c)
  {
  }

  lemma {:induction false} CallsKeepDesk(d: Desk, calls: seq<DeskCall>)
    requires DeskOk(d)
    ensures var d' := AfterAll(d, calls);
            && DeskOk(d') && d'.capacity == d.capacity && SessionsPersist(d, d')
            && |d'.sessions| == |d.sessions| + OpensGranted(d, calls)
            && (OpensGranted(d, calls) > 0 ==> |d'.sessions| <= d.capacity)
    decreases |calls|
  {
    hide DeskOk;
    if calls != [] {
      var d1 := After(d, calls[0]);
      CallKeepsDesk(d, calls[0]);
      CallsKeepDesk(d1, calls[1..]);
      PersistTransitive(d, d1, AfterAll(d1, calls[1..]));
    }
  }

  /** Over any run on a new desk of non-negative capacity: the index is exact, a finished
      session never changes and no id is ever reused; sessions are never removed, so all the
      successful Opens together never exceed the capacity. */
  lemma CapacityIsForLife(capacity: nat, before: seq<DeskCall>, later: seq<DeskCall>)
    ensures var d := AfterAll(Desk(capacity, map[], map[], 0), before);
            var d' := AfterAll(d, later);
            && DeskOk(d) && DeskOk(d') && SessionsPersist(d, d')
            && OpensGranted(Desk(capacity, map[], map[], 0), before) == |d.sessions| <= capacity
  {
    CallsKeepDesk(Desk(capacity, map[], map[], 0), before);
    CallsKeepDesk(AfterAll(Desk(capacity, map[], map[], 0), before), later);
  }

  class OpsSessionManager {
    var capacity: int
    var sessions: map<string, OpsSession>
    var byRecord: map<string, string>
    /** The global session counter. */
    var sequence: nat

    ghost function State(): Desk
      reads this
    {
      Desk(capacity, sessions, byRecord, sequence)
    }

    constructor (capacity: int)
      ensures State() == Desk(capacity, map[], map[], 0) && DeskOk(State())
    {
      this.capacity := capacity;
      sessions := map[];
      byRecord := map[];
      sequence := 0;
    }

    // Each method makes the step of module function After, which keeps DeskOk (CallKeepsDesk).

    method OpenSession(recordID: string, owner: string, now: string) returns (r: Reply<OpsSession>)
      modifies this
      ensures State() == After(old(State()), OpenCall(recordID, owner, now))
      ensures r.Err? ==> OpenResult(old(State()), recordID, owner, now) == Err(r.error)
      ensures r.Ok? ==> OpenResult(old(State()), recordID, owner, now) == Ok(Opened(old(State()), r.value))
      ensures if recordID == "" || owner == "" then r == Err(Invalid)
              else if |old(sessions)| >= capacity then r == Err(PolicyRefused)
              else if recordID in old(byRecord) then r == Err(Conflict)
              else r.Ok?
      ensures r.Ok? ==>
        && r.value == OpsSession("sess-" + Pad6(old(sequence) + 1), recordID, owner, Open, now, "")
        && sessions == old(sessions)[r.value.id := r.value] && byRecord == old(byRecord)[recordID := r.value.id]
      ensures r.Err? ==> sessions == old(sessions) && byRecord == old(byRecord)
    {
      if recordID == "" || owner == "" {
        return Err(Invalid);
      }
      if |sessions| >= capacity {
        return Err(PolicyRefused);
      }
      if recordID in byRecord {
        return Err(Conflict);
      }
      sequence := sequence + 1;
      var session := OpsSession(SessionID(sequence), recordID, owner, Open, now, "");
      sessions := sessions[session.id := session];
      byRecord := byRecord[recordID := session.id];
      return Ok(session);
    }

    method Complete(id: string, now: string) returns (r: Reply<OpsSession>)
      modifies this
      ensures State() == After(old(State()), CompleteCall(id, now))
      ensures r.Ok? <==> IsOpen(old(State()), id)
      ensures r.Ok? ==>
        && r.value == old(sessions)[id].(status := Completed, closedAt := now)
        && sessions == old(sessions)[id := r.value] && byRecord == old(byRecord) - {r.value.recordID}
      ensures r.Err? ==> r.error == if id in old(sessions) then TransitionRefused else NotFound
    {
      if id !in sessions {
        return Err(NotFound);
      }
      if sessions[id].status != Open {
        return Err(TransitionRefused);
      }
      var session := sessions[id].(status := Completed, closedAt := now);
      sessions := sessions[id := session];
      byRecord := byRecord - {session.recordID};
      return Ok(session);
    }

    method Abort(id: string, now: string) returns (r: Reply<OpsSession>)
      modifies this
      ensures State() == After(old(State()), AbortCall(id, now))
      ensures r.Ok? <==> IsOpen(old(State()), id)
      ensures r.Ok? ==>
        && r.value == old(sessions)[id].(status := Aborted, closedAt := now)
        && sessions == old(sessions)[id := r.value] && byRecord == old(byRecord) - {r.value.recordID}
      ensures r.Err? ==> r.error == if id in old(sessions) then TransitionRefused else NotFound
    {
      if id !in sessions {
        return Err(NotFound);
      }
      if sessions[id].status != Open {
        return Err(TransitionRefused);
      }
      var session := sessions[id].(status := Aborted, closedAt := now);
      sessions := sessions[id := session];
      byRecord := byRecord - {session.recordID};
      return Ok(session);
    }

    /** All sessions ever opened, not only the open ones. */
    method Active() returns (n: nat)
      requires DeskOk(State())
      ensures n == |State().byRecord| + |FinishedIds(State())|
    {
      ActiveCountsFinished(State());
      n := |sessions|;
    }
  }

  function FinishedIds(d: Desk): set<string> {
    set id | id in d.sessions && !IsOpen(d, id)
  }

  function OpenIds(d: Desk): set<string> {
    set id | id in d.sessions && IsOpen(d, id)
  }

  lemma ActiveCountsFinished(d: Desk)
    requires DeskOk(d)
    ensures |d.sessions| == |d.byRecord| + |FinishedIds(d)|
  {
    hide Drawn;
    IndexSize(d.byRecord, d.byRecord.Keys);
    IndexedAreOpen(d);
    assert d.sessions.Keys == OpenIds(d) + FinishedIds(d);
  }

  lemma IndexedAreOpen(d: Desk)
    requires IndexExact(d)
    ensures (set r | r in d.byRecord.Keys :: d.byRecord[r]) == OpenIds(d)
  {
  }

  /** A one-to-one index has as many values as keys. */
  lemma {:induction false} IndexSize(index: map<string, string>, keys: set<string>)
    requires keys <= index.Keys && forall r, t :: r in index && t in index && r != t ==> index[r] != index[t]
    ensures |set r | r in keys :: index[r]| == |keys|
  {
    if keys != {} {
      var r :| r in keys;
      IndexSize(index, keys - {r});
      assert (set t | t in keys :: index[t]) == (set t | t in keys - {r} :: index[t]) + {index[r]};
    }
  }
}
