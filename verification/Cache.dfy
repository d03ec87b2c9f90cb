/** The snapshot cache (ops_cache.go). Label maps and counter maps are Go maps, hence references;
    here they are objects, so that what is shared and what is copied can be stated. */
module Cache {
  import opened OpsModel
  import opened Sorting
  import opened Ranking
  import opened Counts

  class LabelMap {
    var entries: map<string, string>

    constructor ()
      ensures entries == map[]
    {
      entries := map[];
    }
  }

  /** A record in memory: its labels are in the map it points to, not in fields.labels. */
  datatype LiveRecord = LiveRecord(fields: OpsRecord, labels: LabelMap)
  {
    ghost function Value(): OpsRecord
      reads labels
    {
      fields.(labels := labels.entries)
    }
  }

  ghost function Values(xs: seq<LiveRecord>): (vs: seq<OpsRecord>)
    reads set x | x in xs :: x.labels
    ensures |vs| == |xs| && forall i :: 0 <= i < |xs| ==> vs[i] == xs[i].Value()
  {
    if xs == [] then [] else Values(xs[..|xs| - 1]) + [xs[|xs| - 1].Value()]
  }

  /** OpsRecord.Clone: the labels are copied entry by entry into a new map. */
  method Clone(r: LiveRecord) returns (c: LiveRecord)
    ensures fresh(c.labels) && c.fields == r.fields && c.labels.entries == r.labels.entries
  {
    var labels := new LabelMap();
    var rest := r.labels.entries.Keys;
    while rest != {}
      invariant rest <= r.labels.entries.Keys
      invariant labels.entries == map k | k in r.labels.entries.Keys - rest :: r.labels.entries[k]
      invariant fresh(labels) && r.labels.entries == old(r.labels.entries)
    {
      var key :| key in rest;
      rest := rest - {key};
      labels.entries := labels.entries[key := r.labels.entries[key]];
    }
    c := LiveRecord(r.fields, labels);
  }

  class CountMap<T(==)> {
    var counts: map<T, nat>

    constructor ()
      ensures counts == map[]
    {
      counts := map[];
    }

    /** counts[v]++ */
    method Add(v: T)
      modifies this
      ensures counts == Bump(old(counts), v)
    {
      counts := counts[v := (if v in counts then counts[v] else 0) + 1];
    }
  }

  /** A counter map copied entry by entry into a new one. */
  method CopyCounts<T(==)>(m: CountMap<T>) returns (c: CountMap<T>)
    ensures fresh(c) && c.counts == m.counts
  {
    c := new CountMap<T>();
    var rest := m.counts.Keys;
    while rest != {}
      invariant rest <= m.counts.Keys && fresh(c) && m.counts == old(m.counts)
      invariant c.counts == map k | k in m.counts.Keys - rest :: m.counts[k]
    {
      var key :| key in rest;
      rest := rest - {key};
      c.counts := c.counts[key := m.counts[key]];
    }
  }

  /** A snapshot in memory: its counters are in the maps it points to. */
  datatype LiveSnapshot = LiveSnapshot(
    records: nat, active: nat, byStatus: CountMap<OpsStatus>, byPriority: CountMap<OpsPriority>)
  {
    ghost function Value(): OpsSnapshot
      reads byStatus, byPriority
    {
      OpsSnapshot("", records, active, byStatus.counts, byPriority.counts)
    }
  }

  lemma SameValues(xs: seq<LiveRecord>, ys: seq<LiveRecord>)
    requires |xs| == |ys| && forall i :: 0 <= i < |xs| ==> xs[i].Value() == ys[i].Value()
    ensures Values(xs) == Values(ys)
  {
  }

  method CloneAll(xs: seq<LiveRecord>) returns (copies: seq<LiveRecord>)
    ensures |copies| == |xs| && forall i :: 0 <= i < |xs| ==> fresh(copies[i].labels)
    ensures Values(copies) == Values(xs)
  {
    copies := [];
    for n := 0 to |xs|
      invariant |copies| == n && forall i :: 0 <= i < n ==> fresh(copies[i].labels)
      invariant forall i :: 0 <= i < n ==> copies[i].Value() == xs[i].Value()
    {
      var c := Clone(xs[n]);
      copies := copies + [c];
    }
    SameValues(copies, xs);
  }

  /** The same into a new slice. */
  method CloneList(xs: seq<LiveRecord>) returns (view: array<LiveRecord>)
    ensures fresh(view) && forall i :: 0 <= i < view.Length ==> fresh(view[i].labels)
    ensures Values(view[..]) == Values(xs)
  {
    hide Values;
    var copies := CloneAll(xs);
    view := new LiveRecord[|copies|](i requires 0 <= i < |copies| => copies[i]);
    assert view[..] == copies;
  }

  function LiveOutranks(): (LiveRecord, LiveRecord) -> bool {
    (a: LiveRecord, b: LiveRecord) => Outranks(a.fields, b.fields)
  }

  lemma LiveOutranksIsWeakOrder(xs: seq<LiveRecord>)
    ensures StrictWeakOrder(LiveOutranks(), xs)
  {
    hide Outranks;
    forall a, b | a in xs && b in xs && LiveOutranks()(a, b) ensures !LiveOutranks()(b, a) {
      RankCases(a.fields, b.fields);
    }
    forall a, b, c | a in xs && b in xs && c in xs && !LiveOutranks()(a, b) && !LiveOutranks()(b, c)
      ensures !LiveOutranks()(a, c)
    {
      OutranksTransitive(a.fields, b.fields, c.fields);
    }
  }

  lemma ValuesSorted(xs: seq<LiveRecord>, ys: seq<LiveRecord>, p: seq<nat>)
    requires StablySorted(LiveOutranks(), xs, ys, p)
    ensures StablySorted(Outranks, Values(xs), Values(ys), p)
  {
  }

  /** No record comes before a more urgent one, nor, urgency being equal, before one updated later. */
  predicate UrgentFirst(xs: seq<OpsRecord>) {
    forall i, j :: 0 <= i < j < |xs| ==> !Precedes(xs[j], xs[i])
  }

  lemma SortedUrgentFirst(xs: seq<LiveRecord>, ys: seq<LiveRecord>, p: seq<nat>)
    requires StablySorted(LiveOutranks(), xs, ys, p)
    ensures UrgentFirst(Values(ys))
  {
    hide Precedes;
    forall i, j | 0 <= i < j < |ys| ensures !Precedes(Values(ys)[j], Values(ys)[i]) {
      OutranksExactly(Values(ys)[j], Values(ys)[i]);
      assert !LiveOutranks()(ys[j], ys[i]);
    }
  }

  class OpsSnapshotCache {
    var ttl: int
    /** Zero is the zero time: never refreshed. */
    var generated: int
    var total: nat
    var active: nat
    var byStatus: CountMap<OpsStatus>
    var byPriority: CountMap<OpsPriority>
    var top: array<LiveRecord>

    /** Everything the cached list and counters are stored in. */
    ghost function Storage(): set<object>
      reads this, top
    {
      {top as object, byStatus as object, byPriority as object} + set x | x in top[..] :: x.labels as object
    }

    ghost function Cached(): seq<OpsRecord>
      reads this, top, set x | x in top[..] :: x.labels
    {
      Values(top[..])
    }

    ghost function Counters(): OpsSnapshot
      reads this, byStatus, byPriority
    {
      OpsSnapshot("", total, active, byStatus.counts, byPriority.counts)
    }

    constructor (ttl: int)
      ensures this.ttl == (if ttl <= 0 then 5_000_000_000 else ttl) && generated == 0
      ensures fresh(Storage()) && Cached() == [] && Counters() == OpsSnapshot("", 0, 0, map[], map[])
    {
      this.ttl := if ttl <= 0 then 5_000_000_000 else ttl;
      generated := 0;
      total := 0;
      active := 0;
      byStatus := new CountMap<OpsStatus>();
      byPriority := new CountMap<OpsPriority>();
      top := new LiveRecord[] [];
    }

    /** All new storage, nothing shared with the items or with any view handed out before. The
        cached list is a stable sort of copies of the items (lemma ValuesSorted reads it as a
        stable sort of the records themselves). */
    method Refresh(items: seq<LiveRecord>, at: int) returns (ghost copies: seq<LiveRecord>, ghost p: seq<nat>)
      modifies this
      ensures fresh(Storage()) && ttl == old(ttl) && generated == at
      ensures Values(items) == old(Values(items)) == Values(copies)
      ensures StablySorted(LiveOutranks(), copies, top[..], p)
      ensures UrgentFirst(Cached())
      ensures SnapshotOf(Counters(), Values(items)) && CountsRecords(Counters(), Values(items))
    {
      hide StablySorted, LiveOutranks, Values, SnapshotOf, Outranks, UrgentFirst, CountsRecords;
      var s := CountLive(items);
      var sorted;
      sorted, copies, p := SortedCopies(items);
      ghost var values := Values(items);
      Install(s, sorted, at, copies, items);
      SortedUrgentFirst(copies, top[..], p);
      assert SnapshotOf(s.Value(), values);
      SnapshotCounts(s.Value(), values);
    }

    /** The assignments at the end of Refresh. */
    method Install(s: LiveSnapshot, sorted: array<LiveRecord>, at: int, ghost copies: seq<LiveRecord>,
                   ghost items: seq<LiveRecord>)
      modifies this
      ensures ttl == old(ttl) && generated == at && top == sorted && sorted[..] == old(sorted[..])
      ensures byStatus == s.byStatus && byPriority == s.byPriority && Counters() == s.Value() == old(s.Value())
      ensures Values(copies) == old(Values(copies)) && Values(items) == old(Values(items))
    {
      hide Values;
      generated, total, active, byStatus, byPriority := at, s.records, s.active, s.byStatus, s.byPriority;
      top := sorted;
    }

    /** A deep copy while the cache is fresh. */
    method Get(now: int) returns (s: LiveSnapshot, view: array<LiveRecord>, ok: bool)
      ensures ok <==> generated != 0 && now - generated <= ttl
      ensures fresh(view) && fresh(s.byStatus) && fresh(s.byPriority)
      ensures forall i :: 0 <= i < view.Length ==> fresh(view[i].labels)
      ensures ok ==> s.Value() == Counters() && Values(view[..]) == Cached()
    {
      hide Values;
      if generated == 0 || now - generated > ttl {
        view := new LiveRecord[] [];
        var noStatus := new CountMap<OpsStatus>();
        var noPriority := new CountMap<OpsPriority>();
        return LiveSnapshot(0, 0, noStatus, noPriority), view, false;
      }
      var statuses := CopyCounts(byStatus);
      var priorities := CopyCounts(byPriority);
      view := CloneList(top[..]);
      s := LiveSnapshot(total, active, statuses, priorities);
      ok := true;
    }
  }

  lemma ElementsStay(before: seq<LiveRecord>, after: seq<LiveRecord>, p: seq<nat>)
    requires StablySorted(LiveOutranks(), before, after, p)
    ensures forall i :: 0 <= i < |after| ==> after[i] in before
  {
  }

  /** The copying part of Refresh: cloned, then sorted in place. */
  method SortedCopies(items: seq<LiveRecord>)
    returns (sorted: array<LiveRecord>, ghost copies: seq<LiveRecord>, ghost p: seq<nat>)
    ensures fresh(sorted) && forall x :: x in sorted[..] ==> fresh(x.labels)
    ensures Values(copies) == Values(items) && StablySorted(LiveOutranks(), copies, sorted[..], p)
  {
    hide StablySorted, LiveOutranks, Values;
    var clones := CloneAll(items);
    copies := clones;
    sorted := new LiveRecord[|clones|](i requires 0 <= i < |clones| => clones[i]);
    assert sorted[..] == clones;
    LiveOutranksIsWeakOrder(clones);
    p := StableSort(sorted, LiveOutranks());
    ElementsStay(clones, sorted[..], p);
  }

  /** The counting part of Refresh's loop. */
  method CountLive(items: seq<LiveRecord>) returns (s: LiveSnapshot)
    ensures fresh(s.byStatus) && fresh(s.byPriority) && SnapshotOf(s.Value(), Values(items))
  {
    hide SnapshotOf;
    ghost var values := Values(items);
    NothingCounted();
    var byStatus := new CountMap<OpsStatus>();
    var byPriority := new CountMap<OpsPriority>();
    var active := 0;
    for i := 0 to |items|
      invariant fresh(byStatus) && fresh(byPriority)
      invariant SnapshotOf(OpsSnapshot("", i, active, byStatus.counts, byPriority.counts), values[..i])
    {
      var item := items[i].fields;
      OneMoreCounted(OpsSnapshot("", i, active, byStatus.counts, byPriority.counts), values[..i], values[i]);
      assert values[..i + 1] == values[..i] + [values[i]];
      byStatus.Add(item.status);
      byPriority.Add(item.priority);
      if item.status == Active {
        active := active + 1;
      }
    }
    assert values[..|items|] == values;
    s := LiveSnapshot(|items|, active, byStatus, byPriority);
  }

  lemma NothingCounted()
    ensures SnapshotOf(OpsSnapshot("", 0, 0, map[], map[]), [])
  {
  }

  /** A later Refresh does not reach a view handed out earlier. */
  method RefreshLeavesViews(cache: OpsSnapshotCache, items: seq<LiveRecord>, now: int)
    returns (snapshot: LiveSnapshot, view: array<LiveRecord>)
    modifies cache
    ensures old(cache.generated) != 0 && now - old(cache.generated) <= old(cache.ttl) ==>
      Values(view[..]) == old(cache.Cached()) && snapshot.Value() == old(cache.Counters())
  {
    hide StablySorted, LiveOutranks, Values, SnapshotOf, CountsRecords, UrgentFirst;
    var found;
    snapshot, view, found := cache.Get(now);
    ghost var seen, counted := Values(view[..]), snapshot.Value();
    ghost var copies, p := cache.Refresh(items, now);
    assert Values(view[..]) == seen && snapshot.Value() == counted;
  }

  /** What the holder of a view can write: a record's fields, its label map's entries, a slot from
      another slot, a counter map's entries. */
  datatype Scribble =
    | Fields(slot: nat, fields: OpsRecord)
    | Labels(slot: nat, entries: map<string, string>)
    | Slot(slot: nat, from: nat)
    | StatusCounts(statuses: map<OpsStatus, nat>)
    | PriorityCounts(priorities: map<OpsPriority, nat>)

  /** Whatever the holder of a view writes to it, and however often, reaches nothing that existed
      before: the empty frame allows the writes because everything in the view is new. */
  method ScribbleOnView(cache: OpsSnapshotCache, now: int, scribbles: seq<Scribble>)
    ensures cache.Cached() == old(cache.Cached()) && cache.Counters() == old(cache.Counters())
  {
    hide Values;
    var snapshot, view, found := cache.Get(now);
    for n := 0 to |scribbles|
      invariant forall i :: 0 <= i < view.Length ==> fresh(view[i].labels)
      invariant cache.Cached() == old(cache.Cached()) && cache.Counters() == old(cache.Counters())
    {
      match scribbles[n]
      case Fields(slot, fields) => if slot < view.Length { view[slot] := view[slot].(fields := fields); }
      case Labels(slot, entries) => if slot < view.Length { view[slot].labels.entries := entries; }
      case Slot(slot, from) => if slot < view.Length && from < view.Length { view[slot] := view[from]; }
      case StatusCounts(statuses) => snapshot.byStatus.counts := statuses;
      case PriorityCounts(priorities) => snapshot.byPriority.counts := priorities;
    }
  }
}
