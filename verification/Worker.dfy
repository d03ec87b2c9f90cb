/** One maintenance pass of the background worker (ops_worker.go), run undisturbed. Module
    ProtocolWorker has the sweep interleaved with operators. */
module Worker {
  import opened Text
  import opened OpsModel
  import opened Store
  import opened Audit
  import opened Sorting
  import opened Ranking
  import opened Counts
  import opened Service
  import opened Cache
  import opened Agreement

  /** A clock that does not go back. */
  class WallClock {
    var now: int

    constructor (now: int)
      ensures this.now == now
    {
      this.now := now;
    }

    method Read() returns (t: int)
      modifies this
      ensures t == now >= old(now)
    {
      t :| t >= now;
      now := t;
    }
  }

  /** The stamp parses and is at least maxAge old; parse is opsParseStamp. */
  predicate Stale(parse: string -> Option<int>, stamp: string, now: int, maxAge: int) {
    parse(stamp).Some? && now - parse(stamp).value >= maxAge
  }

  /** What the sweep is after, as of one moment. */
  predicate Due(items: Items, id: string, parse: string -> Option<int>, now: int, maxAge: int) {
    id in items && items[id].status == Active && Stale(parse, items[id].updatedAt, now, maxAge)
  }

  /** items' is items with these records closed, one revision up, and nothing else changed. */
  predicate Closures(items: Items, items': Items, closed: seq<string>) {
    && items'.Keys == items.Keys
    && forall id :: id in items ==>
         items'[id] == if id !in closed then items[id] else
           items[id].(status := Closed, revision := items[id].revision + 1, updatedAt := items'[id].updatedAt)
  }

  /** The events the sweep leaves, one for each closed record. */
  function Closings(sequence: nat, closed: seq<string>): seq<OpsEvent> {
    seq(|closed|, i requires 0 <= i < |closed| => OpsEvent(sequence + 1 + i, closed[i], StatusChanged, "worker"))
  }

  predicate Distinct(ids: seq<string>) {
    forall i, j :: 0 <= i < j < |ids| ==> ids[i] != ids[j]
  }

  /** The sweep has looked at xs, in order, and closed those in closed. */
  predicate Through(items: Items, now: Items, xs: seq<OpsRecord>, closed: seq<string>) {
    && Distinct(closed) && Closures(items, now, closed)
    && forall id :: id in closed ==> Names(xs, id)
  }

  predicate Names(xs: seq<OpsRecord>, id: string) {
    exists i :: 0 <= i < |xs| && xs[i].id == id
  }

  /** A listing has each record of the store once. */
  lemma ListingFits(items: Items, xs: seq<OpsRecord>)
    requires Keyed(items) && IsListing(items, xs)
    ensures DistinctIds(xs) && |xs| <= |items|
    ensures forall i :: 0 <= i < |xs| ==> xs[i].id in items && items[xs[i].id] == xs[i]
    ensures forall id :: id in items ==> Names(xs, id)
  {
    forall i, j | 0 <= i < j < |xs| ensures xs[i].id != xs[j].id {
      LessTrichotomy(xs[i].id, xs[j].id);
    }
    forall i | 0 <= i < |xs| ensures xs[i].id in items && items[xs[i].id] == xs[i] {
      assert xs[i] in items.Values;
    }
    forall id | id in items ensures Names(xs, id) {
      assert items[id] in xs;
    }
    IdsFit(items, xs);
  }

  lemma NotYetClosed(items: Items, now: Items, xs: seq<OpsRecord>, k: nat, closed: seq<string>)
    requires k < |xs| && DistinctIds(xs) && Through(items, now, xs[..k], closed)
    requires xs[k].id in items && items[xs[k].id] == xs[k]
    ensures xs[k].id !in closed && xs[k].id in now && now[xs[k].id] == xs[k]
  {
  }

  lemma SweepStep(items: Items, now: Items, then_: Items, xs: seq<OpsRecord>, k: nat, closed: seq<string>, done: bool)
    requires k < |xs| && DistinctIds(xs) && Through(items, now, xs[..k], closed)
    requires xs[k].id in items && items[xs[k].id] == xs[k]
    requires if done then Transitioned(now, then_, xs[k].id, Closed) else then_ == now
    ensures Through(items, then_, xs[..k + 1], if done then closed + [xs[k].id] else closed)
  {
  }

  /** What is due stays due, also in the store as the sweep finds it later. */
  lemma DueLater(items: Items, now: Items, id: string, parse: string -> Option<int>, t: int, t': int, maxAge: int)
    requires id in items && id in now && items[id] == now[id] && t <= t'
    ensures Due(items, id, parse, t, maxAge) ==> Due(now, id, parse, t', maxAge)
    ensures Due(now, id, parse, t, maxAge) ==> Due(items, id, parse, t', maxAge)
  {
  }

  lemma DueStays(items: Items, id: string, parse: string -> Option<int>, t: int, t': int, maxAge: int)
    requires Due(items, id, parse, t, maxAge) && t <= t'
    ensures Due(items, id, parse, t', maxAge)
  {
  }

  lemma OneMoreClosing(log: seq<OpsEvent>, sequence: nat, closed: seq<string>, id: string)
    ensures log + Closings(sequence, closed + [id]) ==
            log + Closings(sequence, closed) + [OpsEvent(sequence + |closed| + 1, id, StatusChanged, "worker")]
  {
  }

  lemma DueIsListed(items: Items, id: string, parse: string -> Option<int>, t: int, maxAge: int)
    requires Due(items, id, parse, t, maxAge)
    ensures id in items
  {
  }

  class OpsWorker {
    const service: OpsService
    const cache: OpsSnapshotCache
    const audit: OpsAudit
    const clock: WallClock
    const parse: string -> Option<int>
    const staleActiveTTL: int

    constructor (service: OpsService, cache: OpsSnapshotCache, clock: WallClock, parse: string -> Option<int>)
      ensures this.service == service && this.cache == cache && this.audit == service.audit
      ensures this.clock == clock && this.parse == parse && staleActiveTTL == 604_800_000_000_000
    {
      this.service := service;
      this.cache := cache;
      this.audit := service.audit;
      this.clock := clock;
      this.parse := parse;
      staleActiveTTL := 604_800_000_000_000;
    }

    /** The body of the sweep's loop after the context check. */
    method CloseIfStale(ctx: OpsContext, item: OpsRecord, maxAge: int) returns (closed: bool)
      requires Keyed(service.store.items) && service.audit.Valid()
      requires item.id in service.store.items && service.store.items[item.id] == item
      modifies ctx, clock, service.store, service.state, service.audit, service.audit.buffer
      ensures Keyed(service.store.items) && service.audit.Valid()
      ensures service.audit.buffer == old(service.audit.buffer) || fresh(service.audit.buffer)
      ensures clock.now >= old(clock.now) && ctx.checks <= old(ctx.checks) <= ctx.checks + 2
      ensures closed ==> Due(old(service.store.items), item.id, parse, clock.now, maxAge)
      ensures closed ==>
        && item.status == Active && parse(item.updatedAt).Some?
        && clock.now - parse(item.updatedAt).value >= maxAge
      ensures !closed && old(ctx.checks) >= 2 ==>
        !(item.status == Active && parse(item.updatedAt).Some?
          && old(clock.now) - parse(item.updatedAt).value >= maxAge)
      ensures closed ==> Transitioned(old(service.store.items), service.store.items, item.id, Closed)
      ensures !closed ==> service.store.items == old(service.store.items)
      ensures service.audit.sequence == old(service.audit.sequence) + if closed then 1 else 0
      ensures service.audit.Events() == old(service.audit.Events()) +
        (if closed then [OpsEvent(old(service.audit.sequence) + 1, item.id, StatusChanged, "worker")] else [])
      ensures !closed && old(ctx.checks) >= 2 ==> !Due(old(service.store.items), item.id, parse, old(clock.now), maxAge)
    {
      hide Increasing, Issued, OpsAudit.Events;
      if item.status != Active {
        return false;
      }
      var updated := parse(item.updatedAt);
      if updated == None {
        return false;
      }
      var now := clock.Read();
      if now - updated.value < maxAge {
        return false;
      }
      var r := service.Transition(ctx, item.id, item.revision, Closed, "worker");
      closed := r.Ok?;
    }

    /** The sweep so far: it has looked at xs and closed those in closed, leaving an event for
        each. */
    ghost predicate Swept(items: Items, log: seq<OpsEvent>, sequence: nat, xs: seq<OpsRecord>, closed: seq<string>,
                          maxAge: int)
      reads clock, service.store, service.audit, service.audit.buffer
    {
      && Keyed(service.store.items) && service.audit.Valid()
      && Through(items, service.store.items, xs, closed)
      && service.audit.sequence == sequence + |closed|
      && service.audit.Events() == log + Closings(sequence, closed)
      && forall id :: id in closed ==> Due(items, id, parse, clock.now, maxAge)
    }

    lemma SweepBegins(maxAge: int)
      requires Keyed(service.store.items) && service.audit.Valid()
      ensures Swept(service.store.items, service.audit.Events(), service.audit.sequence, [], [], maxAge)
    {
    }

    lemma SweepEnds(items: Items, log: seq<OpsEvent>, sequence: nat, xs: seq<OpsRecord>, closed: seq<string>,
                    maxAge: int)
      requires Swept(items, log, sequence, xs, closed, maxAge)
      ensures Keyed(service.store.items) && service.audit.Valid()
      ensures Distinct(closed) && Closures(items, service.store.items, closed)
      ensures service.audit.sequence == sequence + |closed|
      ensures service.audit.Events() == log + Closings(sequence, closed)
      ensures forall id :: id in closed ==> Due(items, id, parse, clock.now, maxAge)
    {
    }

    /** One turn of the sweep's loop. */
    method Visit(ctx: OpsContext, maxAge: int, xs: seq<OpsRecord>, k: nat, ghost items: Items, ghost log: seq<OpsEvent>,
                 ghost sequence: nat, ghost closed: seq<string>)
      returns (ghost closed': seq<string>)
      requires k < |xs| && DistinctIds(xs) && xs[k].id in items && items[xs[k].id] == xs[k]
      requires Swept(items, log, sequence, xs[..k], closed, maxAge)
      modifies ctx, clock, service.store, service.state, service.audit, service.audit.buffer
      ensures Swept(items, log, sequence, xs[..k + 1], closed', maxAge)
      ensures service.audit.buffer == old(service.audit.buffer) || fresh(service.audit.buffer)
      ensures clock.now >= old(clock.now) && ctx.checks <= old(ctx.checks) <= ctx.checks + 2
      ensures closed <= closed'
      ensures old(ctx.checks) >= 2 && Due(items, xs[k].id, parse, old(clock.now), maxAge) ==> xs[k].id in closed'
    {
      hide Increasing, Issued, OpsAudit.Events, Due, Closures, Through, Transitioned, Keyed, Closings;
      ghost var now, moment := service.store.items, clock.now;
      NotYetClosed(items, now, xs, k, closed);
      DueLater(items, now, xs[k].id, parse, moment, moment, maxAge);
      var done := CloseIfStale(ctx, xs[k], maxAge);
      SweepStep(items, now, service.store.items, xs, k, closed, done);
      DueLater(items, now, xs[k].id, parse, clock.now, clock.now, maxAge);
      forall id | id in closed ensures Due(items, id, parse, clock.now, maxAge) {
        DueStays(items, id, parse, moment, clock.now, maxAge);
      }
      OneMoreClosing(log, sequence, closed, xs[k].id);
      closed' := if done then closed + [xs[k].id] else closed;
    }

    /** The sweep's loop; through is how far it got. */
    method Sweep(ctx: OpsContext, maxAge: int, xs: seq<OpsRecord>, ghost items: Items, ghost log: seq<OpsEvent>,
                 ghost sequence: nat)
      returns (ghost closed: seq<string>, ghost through: nat)
      requires DistinctIds(xs) && forall i :: 0 <= i < |xs| ==> xs[i].id in items && items[xs[i].id] == xs[i]
      requires Swept(items, log, sequence, [], [], maxAge)
      modifies ctx, clock, service.store, service.state, service.audit, service.audit.buffer
      ensures service.audit.buffer == old(service.audit.buffer) || fresh(service.audit.buffer)
      ensures clock.now >= old(clock.now) && ctx.checks >= old(ctx.checks) - 3 * |xs|
      ensures through <= |xs| && Swept(items, log, sequence, xs[..through], closed, maxAge)
      ensures old(ctx.checks) >= 3 * |xs| ==>
        forall i :: 0 <= i < |xs| && Due(items, xs[i].id, parse, old(clock.now), maxAge) ==> xs[i].id in closed
    {
      hide OpsAudit.Valid, OpsAudit.Events, Due, Keyed, DistinctIds, Swept;
      closed, through := [], 0;
      assert xs[..0] == [];
      for k := 0 to |xs|
        invariant through == k && Swept(items, log, sequence, xs[..k], closed, maxAge)
        invariant service.audit.buffer == old(service.audit.buffer) || fresh(service.audit.buffer)
        invariant clock.now >= old(clock.now) && ctx.checks >= old(ctx.checks) - 3 * k
        invariant old(ctx.checks) >= 3 * |xs| ==>
          forall i :: 0 <= i < k && Due(items, xs[i].id, parse, old(clock.now), maxAge) ==> xs[i].id in closed
      {
        var expired := ctx.Expired();
        if expired {
          return;
        }
        if Due(items, xs[k].id, parse, old(clock.now), maxAge) {
          DueStays(items, xs[k].id, parse, old(clock.now), clock.now, maxAge);
        }
        closed := Visit(ctx, maxAge, xs, k, items, log, sequence, closed);
        through := k + 1;
      }
    }

    /** The stale active records are closed, as far as the context lets the sweep get: closed
        lists them, each due when it was closed; with three context checks for each record and
        one for the list, none that was due at the start is left out. */
    method CloseStaleActive(ctx: OpsContext, maxAge: int) returns (ghost closed: seq<string>)
      requires Keyed(service.store.items) && service.audit.Valid()
      modifies ctx, clock, service.store, service.state, service.audit, service.audit.buffer
      ensures Keyed(service.store.items) && service.audit.Valid()
      ensures service.audit.buffer == old(service.audit.buffer) || fresh(service.audit.buffer)
      ensures clock.now >= old(clock.now)
      ensures ctx.checks >= old(ctx.checks) - 1 - 3 * |old(service.store.items)|
      ensures Distinct(closed) && Closures(old(service.store.items), service.store.items, closed)
      ensures service.audit.sequence == old(service.audit.sequence) + |closed|
      ensures service.audit.Events() == old(service.audit.Events()) + Closings(old(service.audit.sequence), closed)
      ensures forall id :: id in closed ==> Due(old(service.store.items), id, parse, clock.now, maxAge)
      ensures old(ctx.checks) > 3 * |old(service.store.items)| ==>
        forall id :: Due(old(service.store.items), id, parse, old(clock.now), maxAge) ==> id in closed
      ensures ClosedByAge(old(service.store.items), service.store.items, old(clock.now), clock.now, maxAge,
                          old(ctx.checks) > 3 * |old(service.store.items)|)
    {
      hide OpsAudit.Valid, OpsAudit.Events, Due, Closures, Keyed, Closings, Distinct, DistinctIds, IsListing, Swept;
      closed := [];
      ghost var items, start := service.store.items, clock.now;
      ghost var log, sequence := service.audit.Events(), service.audit.sequence;
      SweepBegins(maxAge);
      SweepEnds(items, log, sequence, [], [], maxAge);
      var listed := service.store.List(ctx);
      if listed.Err? {
        return;
      }
      var xs := listed.value;
      ListingFits(items, xs);
      ghost var through;
      closed, through := Sweep(ctx, maxAge, xs, items, log, sequence);
      SweepEnds(items, log, sequence, xs[..through], closed, maxAge);
      forall id | Due(items, id, parse, start, maxAge) && old(ctx.checks) > 3 * |items| ensures id in closed {
        DueIsListed(items, id, parse, start, maxAge);
      }
      DueMeansAge(items, service.store.items, closed, start, clock.now, maxAge, old(ctx.checks) > 3 * |items|);
    }

    /** Every record that is not active, whose stamp does not parse, or that is less than maxAge old
        at the end is as it was; and after a whole sweep every record that was active and at least
        that old at the start is closed. */
    predicate ClosedByAge(items: Items, items': Items, start: int, end: int, maxAge: int, whole: bool) {
      && items'.Keys == items.Keys
      && (forall id :: id in items ==>
            || items'[id] == items[id]
            || (items[id].status == Active && parse(items[id].updatedAt) != None
                && end - parse(items[id].updatedAt).value >= maxAge))
      && (whole ==> forall id :: id in items ==>
            || items[id].status != Active || parse(items[id].updatedAt) == None
            || start - parse(items[id].updatedAt).value < maxAge
            || items'[id].status == Closed)
    }

    lemma DueMeansAge(items: Items, items': Items, closed: seq<string>, start: int, end: int, maxAge: int, whole: bool)
      requires Closures(items, items', closed)
      requires forall id :: id in closed ==> Due(items, id, parse, end, maxAge)
      requires whole ==> forall id :: Due(items, id, parse, start, maxAge) ==> id in closed
      ensures ClosedByAge(items, items', start, end, maxAge, whole)
    {
    }

    /** The cache ranks and counts exactly the records of the store, whose listing is given. */
    ghost predicate Shown(listing: seq<OpsRecord>)
      reads service.store, cache, cache.top, cache.byStatus, cache.byPriority, set x | x in cache.top[..] :: x.labels
    {
      && IsListing(service.store.items, listing)
      && IsRankingOf(service.store.items, Every(), cache.Cached()) && InRankOrder(cache.Cached())
      && SnapshotOf(cache.Counters(), listing)
    }

    /** The cache afterwards ranks and counts exactly the records of the store; when the context
        has ended it is left alone. */
    method RefreshCache(ctx: OpsContext) returns (ghost listing: seq<OpsRecord>)
      requires Keyed(service.store.items)
      modifies ctx, clock, cache
      ensures clock.now >= old(clock.now)
      ensures old(ctx.checks) == 0 ==>
        cache.Cached() == old(cache.Cached()) && cache.Counters() == old(cache.Counters())
      ensures old(ctx.checks) > 0 ==> Shown(listing)
    {
      hide Values, StablySorted, LiveOutranks, SnapshotOf, IsListing, IsRankingOf, InRankOrder, UrgentFirst;
      listing := [];
      var listed := service.store.List(ctx);
      if listed.Err? {
        return;
      }
      listing := listed.value;
      var live := Live(listed.value);
      var at := clock.Read();
      ghost var copies, p := cache.Refresh(live, at);
      ValuesSorted(copies, cache.top[..], p);
      RefreshRanksStore(service.store.items, listing, cache.Cached(), p);
    }

    /** The second half of a pass. */
    method RefreshAndPrune(ctx: OpsContext) returns (ghost listing: seq<OpsRecord>)
      requires Keyed(service.store.items) && service.audit.Valid() && audit == service.audit
      modifies ctx, clock, cache, service.audit, service.audit.buffer
      ensures service.audit.Valid() && clock.now >= old(clock.now)
      ensures service.audit.Events() == Newest(old(service.audit.Events()), 2000) && |service.audit.Events()| <= 2000
      ensures old(ctx.checks) > 0 ==> Shown(listing)
    {
      hide OpsAudit.Valid, OpsAudit.Events, Newest, Keyed, IsListing, IsRankingOf, SnapshotOf, Values;
      listing := RefreshCache(ctx);
      audit.Prune(2000);
    }

    /** One pass, undisturbed; budget is how many context checks pass before the five seconds are
        over. With enough of them, exactly the due records are closed (those due at the start,
        and possibly some that became due meanwhile), and the cache shows the resulting store. */
    method Tick(budget: nat) returns (ghost closed: seq<string>, ghost listing: seq<OpsRecord>)
      requires Keyed(service.store.items) && service.audit.Valid() && audit == service.audit
      modifies clock, cache, service.store, service.state, service.audit, service.audit.buffer
      ensures Keyed(service.store.items) && service.audit.Valid()
      ensures Distinct(closed) && Closures(old(service.store.items), service.store.items, closed)
      ensures forall id :: id in closed ==> Due(old(service.store.items), id, parse, clock.now, staleActiveTTL)
      ensures ClosedByAge(old(service.store.items), service.store.items, old(clock.now), clock.now, staleActiveTTL,
                          budget > 3 * |old(service.store.items)| + 1)
      ensures service.audit.Events() ==
        Newest(old(service.audit.Events()) + Closings(old(service.audit.sequence), closed), 2000)
      ensures |service.audit.Events()| <= 2000
      ensures budget > 3 * |old(service.store.items)| + 1 ==>
        && (forall id :: Due(old(service.store.items), id, parse, old(clock.now), staleActiveTTL) ==> id in closed)
        && Shown(listing)
    {
      hide OpsAudit.Valid, OpsAudit.Events, Newest, Due, Closures, Keyed, Closings, Distinct, Shown;
      var ctx := new OpsContext(budget);
      closed := CloseStaleActive(ctx, staleActiveTTL);
      ghost var items, moment := service.store.items, clock.now;
      listing := RefreshAndPrune(ctx);
      forall id | id in closed ensures Due(old(service.store.items), id, parse, clock.now, staleActiveTTL) {
        DueStays(old(service.store.items), id, parse, moment, clock.now, staleActiveTTL);
      }
      DueMeansAge(old(service.store.items), items, closed, old(clock.now), clock.now, staleActiveTTL,
                  budget > 3 * |old(service.store.items)| + 1);
    }
  }

  /** What List hands out: copies with label maps of their own. */
  method Live(records: seq<OpsRecord>) returns (live: seq<LiveRecord>)
    ensures Values(live) == records && forall i :: 0 <= i < |live| ==> fresh(live[i].labels)
  {
    live := [];
    for n := 0 to |records|
      invariant |live| == n && forall i :: 0 <= i < n ==> fresh(live[i].labels)
      invariant forall i :: 0 <= i < n ==> live[i].Value() == records[i]
    {
      var labels := new LabelMap();
      labels.entries := records[n].labels;
      live := live + [LiveRecord(records[n], labels)];
    }
  }
}
