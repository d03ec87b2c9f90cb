/** BulkComplete (ops_sessions.go): one goroutine per listed id, a cancellation that may strike
    at any moment, other callers in between, results arriving in any order. */
module BulkComplete {
  import opened OpsModel
  import opened Sessions

  /** What a goroutine sends: None is the nil error. */
  type Verdict = Option<OpsError>

  /** Sent remembers what was sent. */
  datatype Point = Ready | Completing | Sending(verdict: Verdict) | Sent(verdict: Verdict)

  /** won is a history variable: the ids this call took from open to completed. */
  datatype Bulk = Bulk(desk: Desk, ids: seq<string>, points: seq<Point>, results: seq<Verdict>,
                       cancelled: bool, won: set<string>)

  datatype Turn = Go(i: nat, now: string) | Cancel | Elsewhere(call: DeskCall)

  function Start(desk: Desk, ids: seq<string>): Bulk {
    Bulk(desk, ids, seq(|ids|, _ => Ready), [], false, {})
  }

  /** The next atomic step of goroutine i; the channel holds at most |ids| results. */
  function GoStep(b: Bulk, i: nat, now: string): Bulk
    requires i < |b.points| == |b.ids|
  {
    match b.points[i]
    case Ready => b.(points := b.points[i := if b.cancelled then Sending(Some(Cancelled)) else Completing])
    case Completing =>
      (match CloseResult(b.desk, b.ids[i], Completed, now)
       case Err(e) => b.(points := b.points[i := Sending(Some(e))])
       case Ok(desk) => b.(desk := desk, points := b.points[i := Sending(None)], won := b.won + {b.ids[i]}))
    case Sending(v) =>
      if |b.results| >= |b.ids| then b
      else b.(points := b.points[i := Sent(v)], results := b.results + [v])
    case Sent(_) => b
  }

  function Next(b: Bulk, turn: Turn): Bulk {
    match turn
    case Go(i, now) => if i < |b.points| == |b.ids| then GoStep(b, i, now) else b
    case Cancel => b.(cancelled := true)
    case Elsewhere(call) => b.(desk := After(b.desk, call))
  }

  function Run(b: Bulk, schedule: seq<Turn>): Bulk
    decreases |schedule|
  {
    if schedule == [] then b else Run(Next(b, schedule[0]), schedule[1..])
  }

  /** wg.Wait returns. */
  predicate AllSent(b: Bulk) {
    forall i :: 0 <= i < |b.points| ==> b.points[i].Sent?
  }

  // ---- Counting goroutines ----

  function Count(points: seq<Point>, f: Point -> bool): nat {
    if points == [] then 0 else Count(points[..|points| - 1], f) + (if f(points[|points| - 1]) then 1 else 0)
  }

  lemma {:induction false} CountUpdate(points: seq<Point>, i: nat, p: Point, f: Point -> bool)
    requires i < |points|
    ensures Count(points[i := p], f) == Count(points, f) + (if f(p) then 1 else 0) - (if f(points[i]) then 1 else 0)
  {
    var last := |points| - 1;
    if i == last {
      assert points[i := p][..last] == points[..last];
    } else {
      assert points[i := p][..last] == points[..last][i := p];
      CountUpdate(points[..last], i, p, f);
    }
  }

  lemma {:induction false} CountBounds(points: seq<Point>, f: Point -> bool)
    ensures Count(points, f) <= |points|
    ensures Count(points, f) == |points| <==> forall i :: 0 <= i < |points| ==> f(points[i])
    ensures Count(points, f) == 0 <==> forall i :: 0 <= i < |points| ==> !f(points[i])
  {
    if points != [] {
      var rest := points[..|points| - 1];
      CountBounds(rest, f);
      assert forall i :: 0 <= i < |points| - 1 ==> points[i] == rest[i];
    }
  }

  lemma {:induction false} CountSame(points: seq<Point>, f: Point -> bool, g: Point -> bool)
    requires forall i :: 0 <= i < |points| ==> f(points[i]) == g(points[i])
    ensures Count(points, f) == Count(points, g)
  {
    if points != [] {
      CountSame(points[..|points| - 1], f, g);
    }
  }

  function HasSent(v: Verdict): Point -> bool {
    (p: Point) => p == Sent(v)
  }

  function Finished(): Point -> bool {
    (p: Point) => p.Sent?
  }

  function Won(): Point -> bool {
    (p: Point) => p == Sent(None) || p == Sending(None)
  }

  // ---- Under every schedule ----

  /** The channel holds exactly what was sent. */
  ghost predicate ChannelOk(points: seq<Point>, results: seq<Verdict>) {
    && |results| == Count(points, Finished())
    && (forall v :: multiset(results)[v] == Count(points, HasSent(v)))
  }

  /** The successes are the sessions won, each of them finished. */
  ghost predicate WonOk(b: Bulk) {
    && |b.won| == Count(b.points, Won())
    && (forall id :: id in b.won ==> id in b.desk.sessions && b.desk.sessions[id].status != Open)
  }

  ghost predicate BulkOk(b: Bulk) {
    |b.points| == |b.ids| && DeskOk(b.desk) && ChannelOk(b.points, b.results) && WonOk(b)
  }

  lemma SendKeeps(b: Bulk, i: nat, v: Verdict)
    requires BulkOk(b) && i < |b.points| && b.points[i] == Sending(v)
    ensures |b.results| < |b.ids|
    ensures BulkOk(b.(points := b.points[i := Sent(v)], results := b.results + [v]))
  {
    hide DeskOk;
    CountBounds(b.points, Finished());
    CountUpdate(b.points, i, Sent(v), Finished());
    CountUpdate(b.points, i, Sent(v), Won());
    forall w ensures multiset(b.results + [v])[w] == Count(b.points[i := Sent(v)], HasSent(w)) {
      CountUpdate(b.points, i, Sent(v), HasSent(w));
    }
  }

  /** A goroutine that sends nothing leaves the channel alone. */
  lemma UnsentKeepsChannel(points: seq<Point>, results: seq<Verdict>, i: nat, p: Point)
    requires ChannelOk(points, results) && i < |points| && !points[i].Sent? && !p.Sent?
    ensures ChannelOk(points[i := p], results)
  {
    CountUpdate(points, i, p, Finished());
    forall v ensures Count(points[i := p], HasSent(v)) == Count(points, HasSent(v)) {
      CountUpdate(points, i, p, HasSent(v));
    }
  }

  /** A change of one goroutine that neither sends nor wins. */
  lemma QuietKeeps(b: Bulk, i: nat, p: Point)
    requires BulkOk(b) && i < |b.points| && !b.points[i].Sending? && !b.points[i].Sent?
    requires !p.Sent? && p != Sending(None)
    ensures BulkOk(b.(points := b.points[i := p]))
  {
    UnsentKeepsChannel(b.points, b.results, i, p);
    hide DeskOk, ChannelOk;
    CountUpdate(b.points, i, p, Won());
  }

  lemma OneMoreWon(b: Bulk, i: nat, desk: Desk)
    requires WonOk(b) && i < |b.points| == |b.ids| && b.points[i] == Completing
    requires IsOpen(b.desk, b.ids[i]) && SessionsPersist(b.desk, desk)
    requires b.ids[i] in desk.sessions && !IsOpen(desk, b.ids[i])
    ensures b.ids[i] !in b.won
    ensures WonOk(b.(desk := desk, points := b.points[i := Sending(None)], won := b.won + {b.ids[i]}))
  {
    hide Count;
    CountUpdate(b.points, i, Sending(None), Won());
    assert |b.won + {b.ids[i]}| == |b.won| + 1;
  }

  lemma WinKeeps(b: Bulk, i: nat, now: string)
    requires BulkOk(b) && i < |b.points| && b.points[i] == Completing
    requires CloseResult(b.desk, b.ids[i], Completed, now).Ok?
    ensures b.ids[i] !in b.won && BulkOk(GoStep(b, i, now))
  {
    hide DeskOk, ChannelOk, WonOk, SessionsPersist;
    UnsentKeepsChannel(b.points, b.results, i, Sending(None));
    CallKeepsDesk(b.desk, CompleteCall(b.ids[i], now));
    OneMoreWon(b, i, CloseResult(b.desk, b.ids[i], Completed, now).value);
  }

  lemma GoKeeps(b: Bulk, i: nat, now: string)
    requires BulkOk(b) && i < |b.points| == |b.ids|
    ensures BulkOk(GoStep(b, i, now)) && GoStep(b, i, now).ids == b.ids
  {
    hide BulkOk;
    match b.points[i]
    case Ready => QuietKeeps(b, i, if b.cancelled then Sending(Some(Cancelled)) else Completing);
    case Completing =>
      if CloseResult(b.desk, b.ids[i], Completed, now).Ok? {
        WinKeeps(b, i, now);
      } else {
        QuietKeeps(b, i, Sending(Some(CloseResult(b.desk, b.ids[i], Completed, now).error)));
      }
    case Sending(v) => SendKeeps(b, i, v);
    case Sent(_) =>
  }

  lemma ElsewhereKeeps(b: Bulk, call: DeskCall)
    requires BulkOk(b)
    ensures BulkOk(b.(desk := After(b.desk, call)))
  {
    CallKeepsDesk(b.desk, call);
    hide DeskOk, After;
  }

  lemma NextKeeps(b: Bulk, turn: Turn)
    requires BulkOk(b)
    ensures BulkOk(Next(b, turn)) && Next(b, turn).ids == b.ids
  {
    hide DeskOk, GoStep, After;
    match turn
    case Go(i, now) => if i < |b.points| { GoKeeps(b, i, now); }
    case Cancel =>
    case Elsewhere(call) => ElsewhereKeeps(b, call);
  }

  lemma {:induction false} RunKeeps(b: Bulk, schedule: seq<Turn>)
    requires BulkOk(b)
    ensures BulkOk(Run(b, schedule)) && Run(b, schedule).ids == b.ids
    decreases |schedule|
  {
    hide BulkOk;
    if schedule != [] {
      NextKeeps(b, schedule[0]);
      RunKeeps(Next(b, schedule[0]), schedule[1..]);
    }
  }

  lemma StartOk(desk: Desk, ids: seq<string>)
    requires DeskOk(desk)
    ensures BulkOk(Start(desk, ids))
  {
    hide DeskOk;
    var points := Start(desk, ids).points;
    CountBounds(points, Finished());
    CountBounds(points, Won());
    forall v ensures Count(points, HasSent(v)) == 0 {
      CountBounds(points, HasSent(v));
    }
  }

  // ---- Reading the results ----

  /** The closing loop: how many nils it counts, and the error it stops at. */
  function Read(results: seq<Verdict>): (nat, Verdict) {
    if results == [] then (0, None)
    else if results[0] == None then
      var (n, err) := Read(results[1..]);
      (n + 1, err)
    else if results[0] == Some(NotFound) then Read(results[1..])
    else (0, results[0])
  }

  /** Neither nil nor not-found. */
  predicate Hard(v: Verdict) {
    v.Some? && v != Some(NotFound)
  }

  /** The reading got to result k: the results before it are nil or not-found, the nils among them
      are counted; result k, if there is one, is the error that ended it. */
  predicate StopsAt(results: seq<Verdict>, k: nat, completed: nat, err: Verdict) {
    && k <= |results| && (forall j :: 0 <= j < k ==> results[j] == None || results[j] == Some(NotFound))
    && completed == multiset(results[..k])[None]
    && if k == |results| then err == None
       else err == results[k] && err != None && err != Some(NotFound)
  }

  method Collect(results: seq<Verdict>) returns (completed: nat, err: Verdict)
    ensures (completed, err) == Read(results)
    ensures exists k: nat :: StopsAt(results, k, completed, err)
  {
    completed := 0;
    var i := 0;
    while i < |results|
      invariant 0 <= i <= |results|
      invariant forall j :: 0 <= j < i ==> results[j] == None || results[j] == Some(NotFound)
      invariant completed == multiset(results[..i])[None]
      invariant Read(results) == (completed + Read(results[i..]).0, Read(results[i..]).1)
    {
      var verdict := results[i];
      assert results[i..][1..] == results[i + 1..] && results[..i + 1] == results[..i] + [verdict];
      if verdict == None {
        completed := completed + 1;
      } else if verdict != Some(NotFound) {
        assert StopsAt(results, i, completed, verdict);
        return completed, verdict;
      }
      i := i + 1;
    }
    assert StopsAt(results, |results|, completed, None);
    err := None;
  }

  lemma {:induction false} ReadSound(results: seq<Verdict>)
    ensures var (completed, err) := Read(results);
            && completed <= multiset(results)[None]
            && (err == None <==> forall v :: v in results ==> !Hard(v))
            && (err == None ==> completed == multiset(results)[None])
            && (err != None ==> Hard(err) && err in results)
  {
    if results != [] {
      ReadSound(results[1..]);
      assert results == [results[0]] + results[1..];
      assert forall v :: v in results <==> v == results[0] || v in results[1..];
      assert results[0] in results;
    }
  }

  // ---- What a nil error says, under every schedule ----

  /** Each known id on the list is that of an open session, and is listed once. */
  predicate CleanList(desk: Desk, ids: seq<string>) {
    forall i :: 0 <= i < |ids| && ids[i] in desk.sessions ==>
      IsOpen(desk, ids[i]) && forall j :: 0 <= j < |ids| && j != i ==> ids[j] != ids[i]
  }

  predicate Decided(p: Point) {
    p.Sending? || p.Sent?
  }

  /** The winners so far have different ids, and those known at the start were open then; no
      known id has been reported missing. */
  ghost predicate NilOk(desk0: Desk, b: Bulk) {
    && |b.points| == |b.ids| && SessionsPersist(desk0, b.desk)
    && (forall i :: 0 <= i < |b.points| ==> PointOk(desk0, b, i))
    && (forall i, j :: 0 <= i < j < |b.points| && Won()(b.points[i]) && Won()(b.points[j]) ==> b.ids[i] != b.ids[j])
  }

  predicate PointOk(desk0: Desk, b: Bulk, i: nat)
    requires i < |b.points| == |b.ids|
  {
    && (Won()(b.points[i]) ==> b.ids[i] in b.won && (b.ids[i] in desk0.sessions ==> IsOpen(desk0, b.ids[i])))
    && (Decided(b.points[i]) && b.ids[i] in desk0.sessions ==> b.points[i].verdict != Some(NotFound))
  }

  /** A session about to be won has not been won before. */
  lemma NewToWin(desk0: Desk, b: Bulk, i: nat)
    requires WonOk(b) && NilOk(desk0, b) && i < |b.points| && IsOpen(b.desk, b.ids[i])
    ensures forall k :: 0 <= k < |b.points| && Won()(b.points[k]) ==> b.ids[k] != b.ids[i]
  {
    hide SessionsPersist, Count;
    forall k | 0 <= k < |b.points| && Won()(b.points[k]) ensures b.ids[k] != b.ids[i] {
      assert PointOk(desk0, b, k);
    }
  }

  lemma WinKeepsNil(desk0: Desk, b: Bulk, i: nat, desk: Desk)
    requires NilOk(desk0, b) && i < |b.points| && b.points[i] == Completing && IsOpen(b.desk, b.ids[i])
    requires SessionsPersist(desk0, desk)
    requires forall k :: 0 <= k < |b.points| && Won()(b.points[k]) ==> b.ids[k] != b.ids[i]
    ensures NilOk(desk0, b.(desk := desk, points := b.points[i := Sending(None)], won := b.won + {b.ids[i]}))
  {
    var b' := b.(desk := desk, points := b.points[i := Sending(None)], won := b.won + {b.ids[i]});
    if b.ids[i] in desk0.sessions { OpenFromTheStart(desk0, b.desk, b.ids[i]); }
    hide SessionsPersist;
    forall k | 0 <= k < |b.points| ensures PointOk(desk0, b', k) {
      assert PointOk(desk0, b, k);
    }
  }

  lemma CompletingKeepsNil(desk0: Desk, b: Bulk, i: nat, now: string)
    requires BulkOk(b) && NilOk(desk0, b) && i < |b.points| && b.points[i] == Completing
    requires CloseResult(b.desk, b.ids[i], Completed, now).Ok?
    ensures NilOk(desk0, GoStep(b, i, now))
  {
    hide DeskOk, ChannelOk, WonOk, SessionsPersist;
    var desk := CloseResult(b.desk, b.ids[i], Completed, now).value;
    CallKeepsDesk(b.desk, CompleteCall(b.ids[i], now));
    PersistTransitive(desk0, b.desk, desk);
    NewToWin(desk0, b, i);
    WinKeepsNil(desk0, b, i, desk);
  }

  /** Finished sessions stay finished, so what is open now was open before. */
  lemma OpenFromTheStart(desk0: Desk, desk: Desk, id: string)
    requires SessionsPersist(desk0, desk) && id in desk0.sessions && IsOpen(desk, id)
    ensures IsOpen(desk0, id)
  {
  }

  /** A step of one goroutine that wins nothing. */
  lemma QuietKeepsNil(desk0: Desk, b: Bulk, i: nat, b': Bulk)
    requires NilOk(desk0, b) && i < |b.points| == |b'.points|
    requires b' == b.(points := b.points[i := b'.points[i]], results := b'.results)
    requires Won()(b'.points[i]) == Won()(b.points[i]) && PointOk(desk0, b', i)
    ensures NilOk(desk0, b')
  {
    hide SessionsPersist;
    forall k | 0 <= k < |b'.points| ensures PointOk(desk0, b', k) {
      assert PointOk(desk0, b, k);
    }
  }

  lemma GoKeepsNil(desk0: Desk, b: Bulk, i: nat, now: string)
    requires BulkOk(b) && NilOk(desk0, b) && i < |b.points|
    ensures NilOk(desk0, GoStep(b, i, now))
  {
    hide BulkOk;
    var b' := GoStep(b, i, now);
    assert PointOk(desk0, b, i);
    match b.points[i]
    case Ready => QuietKeepsNil(desk0, b, i, b');
    case Completing =>
      if CloseResult(b.desk, b.ids[i], Completed, now).Ok? {
        CompletingKeepsNil(desk0, b, i, now);
      } else {
        QuietKeepsNil(desk0, b, i, b');
      }
    case Sending(v) => QuietKeepsNil(desk0, b, i, b');
    case Sent(_) =>
  }

  /** Nothing but the desk and the flag has changed. */
  lemma DeskMovesOn(desk0: Desk, b: Bulk, b': Bulk)
    requires NilOk(desk0, b) && SessionsPersist(desk0, b'.desk)
    requires b' == b.(desk := b'.desk, cancelled := b'.cancelled)
    ensures NilOk(desk0, b')
  {
    hide SessionsPersist;
    forall k | 0 <= k < |b'.points| ensures PointOk(desk0, b', k) {
      assert PointOk(desk0, b, k);
    }
  }

  lemma NextKeepsNil(desk0: Desk, b: Bulk, turn: Turn)
    requires BulkOk(b) && NilOk(desk0, b)
    ensures NilOk(desk0, Next(b, turn))
  {
    hide DeskOk, ChannelOk, WonOk, SessionsPersist, GoStep, After, PointOk;
    match turn
    case Go(i, now) => if i < |b.points| { GoKeepsNil(desk0, b, i, now); }
    case Cancel => DeskMovesOn(desk0, b, Next(b, turn));
    case Elsewhere(call) =>
      CallKeepsDesk(b.desk, call);
      PersistTransitive(desk0, b.desk, After(b.desk, call));
      DeskMovesOn(desk0, b, Next(b, turn));
  }

  lemma {:induction false} RunKeepsNil(desk0: Desk, b: Bulk, schedule: seq<Turn>)
    requires BulkOk(b) && NilOk(desk0, b)
    ensures NilOk(desk0, Run(b, schedule))
    decreases |schedule|
  {
    hide BulkOk, NilOk;
    if schedule != [] {
      NextKeeps(b, schedule[0]);
      NextKeepsNil(desk0, b, schedule[0]);
      RunKeepsNil(desk0, Next(b, schedule[0]), schedule[1..]);
    }
  }

  lemma SentIsReceived(b: Bulk, i: nat)
    requires BulkOk(b) && i < |b.points| && b.points[i].Sent?
    ensures b.points[i].verdict in b.results
  {
    hide DeskOk;
    var v := b.points[i].verdict;
    CountBounds(b.points, HasSent(v));
    assert multiset(b.results)[v] > 0;
  }

  lemma SoftMeansListedOnce(desk0: Desk, b: Bulk, i: nat, j: nat)
    requires BulkOk(b) && NilOk(desk0, b) && AllSent(b) && (forall v :: v in b.results ==> !Hard(v))
    requires i < |b.ids| && j < |b.ids| && b.ids[i] in desk0.sessions && b.ids[j] == b.ids[i]
    ensures IsOpen(desk0, b.ids[i]) && b.ids[i] in b.won && i == j
  {
    SentIsReceived(b, i);
    SentIsReceived(b, j);
    assert PointOk(desk0, b, i) && PointOk(desk0, b, j);
    hide DeskOk, SessionsPersist, BulkOk;
  }

  lemma SoftMeansClean(desk0: Desk, b: Bulk)
    requires BulkOk(b) && NilOk(desk0, b) && AllSent(b) && (forall v :: v in b.results ==> !Hard(v))
    ensures CleanList(desk0, b.ids) && forall id :: id in b.ids && id in desk0.sessions ==> id in b.won
  {
    forall i, j | 0 <= i < |b.ids| && 0 <= j < |b.ids| && b.ids[i] in desk0.sessions && b.ids[j] == b.ids[i]
      ensures IsOpen(desk0, b.ids[i]) && b.ids[i] in b.won && i == j
    {
      SoftMeansListedOnce(desk0, b, i, j);
    }
  }

  /** Under every schedule, with other callers about and cancellation at any point: a send
      always finds room; when all goroutines are done there is exactly one result per id and as
      many nils as sessions this call took from open to completed; the returned count never
      exceeds that number. No error means that the count is that number, that each id known at
      the start was then open and is listed once, and that this call completed it. */
  lemma CountIsSessionsWon(desk: Desk, ids: seq<string>, schedule: seq<Turn>)
    requires DeskOk(desk)
    ensures var b := Run(Start(desk, ids), schedule);
            && |b.results| <= |ids|
            && (forall i :: 0 <= i < |b.points| && b.points[i].Sending? ==> |b.results| < |ids|)
            && (AllSent(b) ==>
                  var (completed, err) := Read(b.results);
                  && |b.results| == |ids| && multiset(b.results)[None] == |b.won| && completed <= |b.won|
                  && (err == None ==>
                        && completed == |b.won| && CleanList(desk, ids)
                        && forall id :: id in ids && id in desk.sessions ==> id in b.won))
  {
    var b := Run(Start(desk, ids), schedule);
    StartOk(desk, ids);
    StartNil(desk, ids);
    RunKeeps(Start(desk, ids), schedule);
    RunKeepsNil(desk, Start(desk, ids), schedule);
    hide Run, DeskOk, NilOk, BulkOk;
    CountOfAll(b);
    if AllSent(b) {
      ReadSound(b.results);
      if Read(b.results).1 == None { SoftMeansClean(desk, b); }
    }
  }

  lemma CountOfAll(b: Bulk)
    requires BulkOk(b)
    ensures |b.results| <= |b.ids|
    ensures forall i :: 0 <= i < |b.points| && b.points[i].Sending? ==> |b.results| < |b.ids|
    ensures AllSent(b) ==> |b.results| == |b.ids| && multiset(b.results)[None] == |b.won|
  {
    hide DeskOk;
    CountBounds(b.points, Finished());
    if AllSent(b) { CountSame(b.points, Won(), HasSent(None)); }
  }

  lemma StartNil(desk: Desk, ids: seq<string>)
    ensures NilOk(desk, Start(desk, ids))
  {
  }

  // ---- Alone and uncancelled ----

  /** Only this call's goroutines move. */
  predicate Alone(schedule: seq<Turn>) {
    forall t :: t in schedule ==> t.Go?
  }

  /** The desk is the one the call found, with the sessions in won completed and out of the
      index; only their closing stamps are open. */
  ghost predicate Settled(desk0: Desk, won: set<string>, desk: Desk) {
    && desk.capacity == desk0.capacity && desk.sequence == desk0.sequence
    && desk.sessions.Keys == desk0.sessions.Keys
    && (forall id :: id in desk0.sessions ==>
          if id in won then
            IsOpen(desk0, id)
            && desk.sessions[id] == desk0.sessions[id].(status := Completed, closedAt := desk.sessions[id].closedAt)
          else desk.sessions[id] == desk0.sessions[id])
    && won <= desk0.sessions.Keys
    && (forall r :: r in desk.byRecord <==> r in desk0.byRecord && desk0.byRecord[r] !in won)
    && (forall r :: r in desk.byRecord ==> desk.byRecord[r] == desk0.byRecord[r])
  }

  /** What goroutine i's verdict says about its id. */
  ghost predicate VerdictOk(desk0: Desk, b: Bulk, i: nat)
    requires i < |b.points| == |b.ids|
  {
    Decided(b.points[i]) ==>
      match b.points[i].verdict
      case None => b.ids[i] in b.won
      case Some(e) =>
        if b.ids[i] in desk0.sessions then
          e == TransitionRefused && (IsOpen(desk0, b.ids[i]) ==> b.ids[i] in b.won)
        else e == NotFound
  }

  ghost predicate AloneOk(desk0: Desk, b: Bulk) {
    && |b.points| == |b.ids| && !b.cancelled
    && Settled(desk0, b.won, b.desk)
    && (forall i :: 0 <= i < |b.points| ==> VerdictOk(desk0, b, i))
    && (forall i, j :: 0 <= i < j < |b.points| && Won()(b.points[i]) && Won()(b.points[j]) ==> b.ids[i] != b.ids[j])
    && (forall id :: id in b.won ==> exists i :: Winner(b, i, id))
  }

  predicate Winner(b: Bulk, i: nat, id: string) {
    i < |b.points| == |b.ids| && b.ids[i] == id && Won()(b.points[i])
  }

  lemma CompleteSettles(desk0: Desk, won: set<string>, desk: Desk, id: string, now: string)
    requires DeskOk(desk0) && DeskOk(desk) && Settled(desk0, won, desk) && CloseResult(desk, id, Completed, now).Ok?
    ensures Settled(desk0, won + {id}, CloseResult(desk, id, Completed, now).value)
  {
    hide SessionID;
    var r := desk.sessions[id].recordID;
    assert IsOpen(desk, id) && IsOpen(desk0, id);
    assert desk0.byRecord[r] == id;
    assert forall k :: k in desk0.byRecord && desk0.byRecord[k] == id ==> k == r;
  }

  lemma AloneWin(desk0: Desk, b: Bulk, i: nat, now: string)
    requires DeskOk(desk0) && DeskOk(b.desk) && AloneOk(desk0, b)
    requires i < |b.points| && b.points[i] == Completing && CloseResult(b.desk, b.ids[i], Completed, now).Ok?
    ensures AloneOk(desk0, GoStep(b, i, now))
  {
    CompleteSettles(desk0, b.won, b.desk, b.ids[i], now);
    OpenIsNotWon(desk0, b, i);
    hide DeskOk, Settled, AloneOk;
    var desk := CloseResult(b.desk, b.ids[i], Completed, now).value;
    NewWinner(desk0, b, b.(desk := desk, points := b.points[i := Sending(None)], won := b.won + {b.ids[i]}), i);
  }

  lemma NewWinner(desk0: Desk, b: Bulk, b': Bulk, i: nat)
    requires AloneOk(desk0, b) && i < |b.points| && b.points[i] == Completing
    requires b' == b.(desk := b'.desk, points := b.points[i := Sending(None)], won := b.won + {b.ids[i]})
    requires Settled(desk0, b'.won, b'.desk)
    requires forall k :: 0 <= k < |b.points| && Won()(b.points[k]) ==> b.ids[k] != b.ids[i]
    ensures AloneOk(desk0, b')
  {
    hide Settled;
    WinnersGrow(desk0, b, b', i);
    forall k | 0 <= k < |b'.points| ensures VerdictOk(desk0, b', k) {
      WinKeepsVerdict(desk0, b, b', i, k);
    }
  }

  lemma WinKeepsVerdict(desk0: Desk, b: Bulk, b': Bulk, i: nat, k: nat)
    requires k < |b.points| == |b.ids| && i < |b.points| && VerdictOk(desk0, b, k)
    requires b'.points == b.points[i := Sending(None)] && b'.ids == b.ids && b'.won == b.won + {b.ids[i]}
    ensures VerdictOk(desk0, b', k)
  {
  }

  lemma WinnersGrow(desk0: Desk, b: Bulk, b': Bulk, i: nat)
    requires AloneOk(desk0, b) && i < |b.points| && b.points[i] == Completing
    requires b'.points == b.points[i := Sending(None)] && b'.ids == b.ids && b'.won == b.won + {b.ids[i]}
    ensures forall id :: id in b'.won ==> exists k :: Winner(b', k, id)
  {
    forall id | id in b'.won ensures exists k :: Winner(b', k, id) {
      if id == b.ids[i] {
        assert Winner(b', i, id);
      } else {
        var k :| Winner(b, k, id);
        assert Winner(b', k, id);
      }
    }
  }

  lemma OpenIsNotWon(desk0: Desk, b: Bulk, i: nat)
    requires AloneOk(desk0, b) && i < |b.points| && IsOpen(b.desk, b.ids[i])
    ensures b.ids[i] !in b.won
    ensures forall k :: 0 <= k < |b.points| && Won()(b.points[k]) ==> b.ids[k] != b.ids[i]
  {
    forall k | 0 <= k < |b.points| && Won()(b.points[k]) ensures b.ids[k] != b.ids[i] {
      assert VerdictOk(desk0, b, k);
    }
  }

  lemma AloneRefusal(desk0: Desk, b: Bulk, i: nat, now: string)
    requires AloneOk(desk0, b)
    requires i < |b.points| && b.points[i] == Completing && CloseResult(b.desk, b.ids[i], Completed, now).Err?
    ensures AloneOk(desk0, GoStep(b, i, now))
  {
    var b' := GoStep(b, i, now);
    SameButOnePoint(desk0, b, b', i);
  }

  /** Changing an undecided goroutine, to a point that is not a win, keeps the rest. */
  lemma SameButOnePoint(desk0: Desk, b: Bulk, b': Bulk, i: nat)
    requires AloneOk(desk0, b) && i < |b.points| == |b'.points|
    requires b' == b.(points := b.points[i := b'.points[i]], results := b'.results)
    requires Won()(b'.points[i]) == Won()(b.points[i]) && VerdictOk(desk0, b', i)
    ensures AloneOk(desk0, b')
  {
    hide Settled;
    forall id | id in b'.won ensures exists k :: Winner(b', k, id) {
      var k :| Winner(b, k, id);
      assert Winner(b', k, id);
    }
    forall k | 0 <= k < |b'.points| ensures VerdictOk(desk0, b', k) {
      assert VerdictOk(desk0, b, k);
    }
  }

  lemma AloneStep(desk0: Desk, b: Bulk, i: nat, now: string)
    requires DeskOk(desk0) && DeskOk(b.desk) && AloneOk(desk0, b) && i < |b.points|
    ensures AloneOk(desk0, GoStep(b, i, now))
  {
    hide DeskOk;
    var b' := GoStep(b, i, now);
    match b.points[i]
    case Ready => SameButOnePoint(desk0, b, b', i);
    case Completing =>
      if CloseResult(b.desk, b.ids[i], Completed, now).Ok? { AloneWin(desk0, b, i, now); }
      else { AloneRefusal(desk0, b, i, now); }
    case Sending(v) =>
      assert VerdictOk(desk0, b, i);
      SameButOnePoint(desk0, b, b', i);
    case Sent(_) =>
  }

  lemma {:induction false} AloneRun(desk0: Desk, b: Bulk, schedule: seq<Turn>)
    requires DeskOk(desk0) && BulkOk(b) && AloneOk(desk0, b) && Alone(schedule)
    ensures BulkOk(Run(b, schedule)) && AloneOk(desk0, Run(b, schedule))
    decreases |schedule|
  {
    if schedule != [] {
      var turn := schedule[0];
      NextKeeps(b, turn);
      assert turn.Go?;
      if turn.i < |b.points| { AloneStep(desk0, b, turn.i, turn.now); }
      hide BulkOk, AloneOk, DeskOk;
      AloneRun(desk0, Next(b, turn), schedule[1..]);
    }
  }

  /** The open sessions on the list. */
  function OpenListed(desk: Desk, ids: seq<string>): set<string> {
    set id | id in ids && IsOpen(desk, id)
  }

  lemma CleanMeansSoft(desk0: Desk, b: Bulk, v: Verdict)
    requires BulkOk(b) && AloneOk(desk0, b) && AllSent(b) && CleanList(desk0, b.ids) && v in b.results
    ensures !Hard(v)
  {
    var i := ReceivedWasSent(b, v);
    assert VerdictOk(desk0, b, i);
    hide DeskOk, BulkOk;
    if b.ids[i] in b.won {
      var k :| Winner(b, k, b.ids[i]);
      assert k == i;
    }
  }

  lemma ReceivedWasSent(b: Bulk, v: Verdict) returns (i: nat)
    requires BulkOk(b) && v in b.results
    ensures i < |b.points| && b.points[i] == Sent(v)
  {
    hide DeskOk;
    CountBounds(b.points, HasSent(v));
    assert multiset(b.results)[v] > 0;
    i :| 0 <= i < |b.points| && HasSent(v)(b.points[i]);
  }

  lemma WonAreTheOpenListed(desk0: Desk, b: Bulk)
    requires AloneOk(desk0, b) && AllSent(b)
    ensures b.won == OpenListed(desk0, b.ids)
  {
    forall id | id in b.won ensures id in OpenListed(desk0, b.ids) {
      var i :| Winner(b, i, id);
    }
    forall id | id in OpenListed(desk0, b.ids) ensures id in b.won {
      var i :| 0 <= i < |b.ids| && b.ids[i] == id;
      assert VerdictOk(desk0, b, i);
    }
  }

  /** Alone and uncancelled, every schedule ends in the same desk up to the closing stamps:
      exactly the open sessions on the list are completed and leave the index, whatever the
      order, the duplicates and the unknown ids. No error is returned exactly when every known
      id on the list is that of an open session and is listed once, and then the count is the
      number of those sessions. */
  lemma SameOutcomeOnEverySchedule(desk: Desk, ids: seq<string>, schedule: seq<Turn>)
    requires DeskOk(desk) && Alone(schedule) && AllSent(Run(Start(desk, ids), schedule))
    ensures var b := Run(Start(desk, ids), schedule);
            var (completed, err) := Read(b.results);
            && Settled(desk, OpenListed(desk, ids), b.desk)
            && (err == None <==> CleanList(desk, ids))
            && (err == None ==> completed == |OpenListed(desk, ids)|)
            && completed <= |OpenListed(desk, ids)|
  {
    var b := Run(Start(desk, ids), schedule);
    CountIsSessionsWon(desk, ids, schedule);
    StartOk(desk, ids);
    StartIsAlone(desk, ids);
    RunKeeps(Start(desk, ids), schedule);
    AloneRun(desk, Start(desk, ids), schedule);
    hide DeskOk, BulkOk, Run, Settled;
    ReadSound(b.results);
    if CleanList(desk, ids) {
      forall v | v in b.results ensures !Hard(v) { CleanMeansSoft(desk, b, v); }
    }
    WonAreTheOpenListed(desk, b);
  }

  lemma StartIsAlone(desk: Desk, ids: seq<string>)
    ensures AloneOk(desk, Start(desk, ids))
  {
  }
}
