/** The record operations of ops_service.go, each run on its own from start to end. Module
    Protocol has the same operations step by step, interleaved. */
module Service {
  import opened Text
  import opened OpsModel
  import opened StateMachine
  import opened Store
  import opened Policy
  import opened Audit
  import opened Sorting
  import opened Ranking
  import opened Query
  import opened Counts

  datatype OpsPage = OpsPage(items: seq<OpsRecord>, page: int, pageSize: int, total: nat, hasNext: bool)

  /** Whether Transition is allowed, and if not why, as of one state of the store. */
  function TransitionVerdict(items: Items, id: string, expected: int, target: OpsStatus): Option<OpsError> {
    if id !in items then Some(NotFound)
    else if expected > 0 && expected != items[id].revision then Some(Conflict)
    else if !CanMove(items[id].status, target) then Some(TransitionRefused)
    else None
  }

  /** items' differs from items in one transition of record id; the stamp is whatever it is. */
  predicate Transitioned(items: Items, items': Items, id: string, target: OpsStatus) {
    && id in items && id in items'
    && items' == items[id := items[id].(status := target, revision := items[id].revision + 1,
                                        updatedAt := items'[id].updatedAt)]
  }

  function Matching(q: OpsQuery): OpsRecord -> bool {
    (r: OpsRecord) => OpsMatch(r, q)
  }

  /** A page number below 1 is 1; a size below 1 is 25 and one above 200 is 200; from the computed
      offset on, that many of the ranked records are shown. */
  predicate ShowsPage(p: OpsPage, ranked: seq<OpsRecord>, query: OpsQuery) {
    && p.page == (if query.page < 1 then 1 else query.page)
    && p.pageSize == (if query.pageSize < 1 then 25 else if query.pageSize > 200 then 200 else query.pageSize)
    && p.total == |ranked|
    && var at := Wrap((p.page - 1) * p.pageSize);
    && at >= 0
    && p.items == ranked[Least(at, |ranked|)..Least(at + p.pageSize, |ranked|)]
    && p.hasNext == (at + p.pageSize < |ranked|)
  }

  /** The page a query asks for. */
  function SearchPage(ranked: seq<OpsRecord>, query: OpsQuery): OpsPage {
    var q := QueryDefaults(query);
    OpsPage(Page(ranked, q.page, q.pageSize), q.page, q.pageSize, |ranked|, HasNext(ranked, q.page, q.pageSize))
  }

  /** The filter loop of Search. */
  method Select(items: seq<OpsRecord>, query: OpsQuery) returns (filtered: seq<OpsRecord>)
    ensures filtered == Filter(Matching(query), items)
  {
    filtered := [];
    for i := 0 to |items|
      invariant filtered == Filter(Matching(query), items[..i])
    {
      assert items[..i + 1][..i] == items[..i];
      if OpsMatch(items[i], query) {
        filtered := filtered + [items[i]];
      }
    }
    assert items[..|items|] == items;
  }

  /** sortOpsRecords. */
  method SortOpsRecords(items: array<OpsRecord>) returns (ghost p: seq<nat>)
    modifies items
    ensures StablySorted(Outranks, old(items[..]), items[..], p)
  {
    OutranksIsWeakOrder(items[..]);
    p := StableSort(items, Outranks);
  }

  /** The slice expression of Search. */
  method Cut(ranked: seq<OpsRecord>, query: OpsQuery) returns (r: Reply<OpsPage>)
    requires |ranked| <= MAX_INT - 200 && IsInt(query.page) && IsInt(query.pageSize)
    ensures r.Ok? <==> CodeOffset(query.page, query.pageSize) >= 0
    ensures r.Err? ==> r.error == SlicePanic
    ensures r.Ok? ==> ShowsPage(r.value, ranked, query)
    ensures OffsetFits(query.page, query.pageSize) ==> r == Ok(SearchPage(ranked, query))
  {
    var q := QueryDefaults(query);
    var (start, end) := Bounds(|ranked|, q.page, q.pageSize);
    BoundsExactly(|ranked|, q.page, q.pageSize);
    BoundsFromOffset(|ranked|, query);
    hide Bounds, TrueBounds, CodeOffset;
    if !(0 <= start <= end <= |ranked|) {
      return Err(SlicePanic);
    }
    return Ok(OpsPage(ranked[start..end], q.page, q.pageSize, |ranked|, end < |ranked|));
  }

  class OpsService {
    const store: OpsStore
    const audit: OpsAudit
    const state: OpsStateMachine

    constructor (store: OpsStore, audit: OpsAudit, state: OpsStateMachine)
      ensures this.store == store && this.audit == audit && this.state == state
    {
      this.store := store;
      this.audit := audit;
      this.state := state;
    }

    method Create(ctx: OpsContext, record: OpsRecord, stamp: string) returns (r: Reply<OpsRecord>)
      requires Keyed(store.items) && audit.Valid()
      modifies ctx, store, audit, audit.buffer
      ensures Keyed(store.items) && audit.Valid() && (audit.buffer == old(audit.buffer) || fresh(audit.buffer))
      ensures Admit(record).Err? ==> r == Admit(record)
      ensures Admit(record).Ok? && old(ctx.checks) > 0 ==>
        var made := Admit(record).value.(createdAt := stamp, updatedAt := stamp);
        if made.id in old(store.items) then r == Err(Conflict) else r == Ok(made)
      ensures r == Err(PolicyRefused) <==>
        !(!AllSpace(record.owner) && record.priority != OtherPriority("")
          && "site" in record.labels && record.labels["site"] != "")
      ensures r.Ok? ==>
        && TidiedUp(record, r.value) && r.value.createdAt == r.value.updatedAt == stamp
        && r.value.status == (if StatusText(record.status) == "" then Queued else record.status)
        && r.value.revision == (if record.revision >= 1 then record.revision else 1)
        && r.value.id !in old(store.items)
      ensures r.Ok? ==>
        && store.items == old(store.items)[r.value.id := r.value]
        && audit.Events() == old(audit.Events()) +
             [OpsEvent(old(audit.sequence) + 1, r.value.id, Created, r.value.owner)]
      ensures r.Err? ==> store.items == old(store.items) && audit.Events() == old(audit.Events())
    {
      hide OpsAudit.Valid, OpsAudit.Events;
      hide TrimmedTo, TrimmedAndLowered, Respaced;
      hide NormalizeOpsRecord, InNormalForm, Increasing;
      StampsStayNormal(record, stamp);
      NormalizedFields(record);
      AdmitExactly(record);
      var normal := NormalizeOpsRecord(record);
      match SERVICE_POLICY.Check(normal)
      case Some(e) => return Err(e);
      case None =>
      var stamped := normal.(createdAt := stamp, updatedAt := stamp);
      var err := store.Put(ctx, stamped);
      if err.Some? {
        return Err(err.value);
      }
      var _ := audit.Add(stamped.id, Created, stamped.owner);
      return Ok(stamped);
    }

    /** On its own: the outcome is the verdict, unless the context ends first. The returned
        record is the copy that was written, one revision behind the stored one. */
    method Transition(ctx: OpsContext, id: string, expected: int, target: OpsStatus, actor: string)
      returns (r: Reply<OpsRecord>)
      requires Keyed(store.items) && audit.Valid()
      modifies ctx, store, state, audit, audit.buffer
      ensures Keyed(store.items) && audit.Valid() && (audit.buffer == old(audit.buffer) || fresh(audit.buffer))
      ensures old(ctx.checks) >= 2 ==>
        match TransitionVerdict(old(store.items), id, expected, target)
        case Some(e) => r == Err(e)
        case None => r.Ok?
      ensures old(ctx.checks) >= 2 ==>
        if id !in old(store.items) then r == Err(NotFound)
        else if expected > 0 && expected != old(store.items)[id].revision then r == Err(Conflict)
        else if !CanMove(old(store.items)[id].status, target) then r == Err(TransitionRefused)
        else r.Ok?
      ensures ctx.checks <= old(ctx.checks) <= ctx.checks + 2
      ensures r.Err? && r.error != Cancelled ==>
        TransitionVerdict(old(store.items), id, expected, target) == Some(r.error)
      ensures r.Ok? ==>
        && TransitionVerdict(old(store.items), id, expected, target) == None
        && Transitioned(old(store.items), store.items, id, target)
        && r.value == old(store.items)[id].(status := target)
        && r.value.revision == store.items[id].revision - 1
        && audit.Events() == old(audit.Events()) + [OpsEvent(old(audit.sequence) + 1, id, StatusChanged, actor)]
      ensures r.Err? ==> store.items == old(store.items) && audit.Events() == old(audit.Events())
      ensures audit.sequence == old(audit.sequence) + if r.Ok? then 1 else 0
      ensures state.history == old(state.history) || (id in old(store.items) &&
        state.history == old(state.history) + [OpsTransition(old(store.items)[id].status, target, "operator update")])
      ensures r.Ok? ==> (state.history != old(state.history) <==> old(store.items)[id].status != target)
      ensures r.Err? && r.error != Cancelled ==> state.history == old(state.history)
    {
      hide OpsAudit.Valid, OpsAudit.Events, Edge, OnlyEdges;
      var got := store.Get(ctx, id);
      if got.Err? {
        return Err(got.error);
      }
      var record := got.value;
      if expected > 0 && expected != record.revision {
        return Err(Conflict);
      }
      var refused := state.Move(record.status, target, "operator update");
      if refused.Some? {
        return Err(refused.value);
      }
      record := record.(status := target);
      var err := store.Update(ctx, record, expected);
      if err.Some? {
        return Err(err.value);
      }
      var _ := audit.Add(record.id, StatusChanged, actor);
      return Ok(record);
    }

    /** The page is cut out of the one ranked list of all matching records; a page number whose
        offset overflows to a negative one panics. */
    method Search(ctx: OpsContext, query: OpsQuery) returns (r: Reply<OpsPage>, ghost ranked: seq<OpsRecord>)
      requires Keyed(store.items) && |store.items| <= MAX_INT - 200
      requires IsInt(query.page) && IsInt(query.pageSize)
      modifies ctx
      ensures old(ctx.checks) == 0 ==> r == Err(Cancelled)
      ensures old(ctx.checks) > 0 ==>
        && IsRankingOf(store.items, Matching(query), ranked) && InRankOrder(ranked)
        && (r.Ok? ==> ShowsPage(r.value, ranked, query))
        && (r.Ok? <==> CodeOffset(query.page, query.pageSize) >= 0)
        && (OffsetFits(query.page, query.pageSize) ==> r == Ok(SearchPage(ranked, query)))
    {
      ranked := [];
      var listed := store.List(ctx);
      if listed.Err? {
        return Err(listed.error), ranked;
      }
      var filtered := Select(listed.value, query);
      var sorted := new OpsRecord[|filtered|](i requires 0 <= i < |filtered| => filtered[i]);
      assert sorted[..] == filtered;
      ghost var p := SortOpsRecords(sorted);
      ranked := sorted[..];
      SearchRanks(store.items, Matching(query), listed.value, ranked, p);
      RankingIsShort(store.items, ranked);
      r := Cut(sorted[..], query);
    }

    method Snapshot(stamp: string) returns (s: OpsSnapshot, ghost items: seq<OpsRecord>)
      requires Keyed(store.items)
      ensures IsListing(store.items, items) && SnapshotOf(s, items) && s.generatedAt == stamp
      ensures CountsRecords(s, items)
    {
      hide CountsRecords;
      var background := new OpsContext(1);
      var listed := store.List(background);
      items := listed.value;
      s := OpsSnapshot(stamp, 0, 0, map[], map[]);
      for i := 0 to |listed.value|
        invariant SnapshotOf(s, items[..i]) && s.generatedAt == stamp
      {
        var item := listed.value[i];
        OneMoreCounted(s, items[..i], item);
        assert items[..i + 1] == items[..i] + [item];
        s := s.(records := s.records + 1, byStatus := Bump(s.byStatus, item.status),
                byPriority := Bump(s.byPriority, item.priority));
        if item.status == Active {
          s := s.(active := s.active + 1);
        }
      }
      assert items[..|items|] == items;
      SnapshotCounts(s, items);
    }
  }

  /** Sorting the filtered listing ranks the matching records of the store. */
  lemma SearchRanks(items: Items, keep: OpsRecord -> bool, listing: seq<OpsRecord>, sorted: seq<OpsRecord>, p: seq<nat>)
    requires IsListing(items, listing) && StablySorted(Outranks, Filter(keep, listing), sorted, p)
    ensures IsRankingOf(items, keep, sorted) && InRankOrder(sorted)
  {
    FilterSortedById(keep, listing);
    FilterMembers(keep, listing);
    StableSortRanks(Filter(keep, listing), sorted, p);
  }

  lemma RankingIsShort(items: Items, ranked: seq<OpsRecord>)
    requires Keyed(items) && Ranked(ranked) && forall r :: r in ranked ==> r in items.Values
    ensures |ranked| <= |items|
  {
    forall i, j | 0 <= i < j < |ranked| ensures ranked[i].id != ranked[j].id {
      assert ranked[i] in items.Values && ranked[j] in items.Values;
      BeforeIsTotal(ranked[i], ranked[j]);
    }
    forall i | 0 <= i < |ranked| ensures ranked[i].id in items {
      assert ranked[i] in items.Values;
    }
    IdsFit(items, ranked);
  }

  lemma {:induction false} IdsFit(items: Items, xs: seq<OpsRecord>)
    requires DistinctIds(xs) && forall i :: 0 <= i < |xs| ==> xs[i].id in items
    ensures |xs| <= |items|
  {
    if xs != [] {
      var last := xs[|xs| - 1];
      var rest := items - {last.id};
      assert rest.Keys == items.Keys - {last.id};
      IdsFit(rest, xs[..|xs| - 1]);
    }
  }
}
