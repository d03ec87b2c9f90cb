/** The counters of a snapshot, as both Snapshot (ops_service.go) and Refresh (ops_cache.go)
    build them in their own loops. */
module Counts {
  import opened OpsModel

  /** How many of the values are v. */
  function Occurrences<T(==)>(values: seq<T>, v: T): nat {
    if values == [] then 0 else
      Occurrences(values[..|values| - 1], v) + (if values[|values| - 1] == v then 1 else 0)
  }

  /** The places that hold v. */
  function Holding<T(==)>(values: seq<T>, v: T): set<nat> {
    set i: nat | i < |values| && values[i] == v
  }

  /** So many are there. */
  lemma {:induction false} OccurrencesExactly<T>(values: seq<T>, v: T)
    ensures Occurrences(values, v) == |Holding(values, v)|
  {
    if values == [] {
      assert Holding(values, v) == {};
    } else {
      var front := values[..|values| - 1];
      OccurrencesExactly(front, v);
      assert Holding(values, v) == Holding(front, v) + if values[|front|] == v then {|front|} else {};
    }
  }

  function Statuses(xs: seq<OpsRecord>): seq<OpsStatus> {
    seq(|xs|, i requires 0 <= i < |xs| => xs[i].status)
  }

  function Priorities(xs: seq<OpsRecord>): seq<OpsPriority> {
    seq(|xs|, i requires 0 <= i < |xs| => xs[i].priority)
  }

  /** counter[v] is the number of occurrences of v; values that do not occur have no entry. */
  ghost predicate Tallies<T(!new)>(counter: map<T, nat>, values: seq<T>) {
    forall v ::
      && (v in counter <==> Occurrences(values, v) > 0)
      && (v in counter ==> counter[v] == Occurrences(values, v))
  }

  /** counter[v]++ */
  function Bump<T(==)>(counter: map<T, nat>, v: T): map<T, nat> {
    counter[v := (if v in counter then counter[v] else 0) + 1]
  }

  lemma BumpTallies<T(!new)>(counter: map<T, nat>, values: seq<T>, v: T)
    requires Tallies(counter, values)
    ensures Tallies(Bump(counter, v), values + [v])
  {
  }

  /** There is only one tally of a list. */
  lemma TallyIsUnique<T(!new)>(a: map<T, nat>, b: map<T, nat>, values: seq<T>)
    requires Tallies(a, values) && Tallies(b, values)
    ensures a == b
  {
  }

  ghost function Sum<T>(counter: map<T, nat>, keys: set<T>): nat
    requires keys <= counter.Keys
  {
    if keys == {} then 0 else
      var k :| k in keys;
      counter[k] + Sum(counter, keys - {k})
  }

  lemma {:induction false} SumWithout<T>(counter: map<T, nat>, keys: set<T>, k: T)
    requires keys <= counter.Keys && k in keys
    ensures Sum(counter, keys) == counter[k] + Sum(counter, keys - {k})
  {
    var first :| first in keys && Sum(counter, keys) == counter[first] + Sum(counter, keys - {first});
    if first != k {
      SumWithout(counter, keys - {first}, k);
      SumWithout(counter, keys - {k}, first);
      assert keys - {first} - {k} == keys - {k} - {first};
    }
  }

  lemma {:induction false} SumSame<T>(a: map<T, nat>, b: map<T, nat>, keys: set<T>)
    requires keys <= a.Keys && keys <= b.Keys && forall k :: k in keys ==> a[k] == b[k]
    ensures Sum(a, keys) == Sum(b, keys)
  {
    if keys != {} {
      var k :| k in keys;
      SumWithout(a, keys, k);
      SumWithout(b, keys, k);
      SumSame(a, b, keys - {k});
    }
  }

  /** A tally taken one element shorter. */
  lemma SumBump<T>(counter: map<T, nat>, v: T)
    ensures Sum(Bump(counter, v), Bump(counter, v).Keys) == Sum(counter, counter.Keys) + 1
  {
    var bumped := Bump(counter, v);
    SumWithout(bumped, bumped.Keys, v);
    SumSame(counter, bumped, counter.Keys - {v});
    assert bumped.Keys - {v} == counter.Keys - {v};
    if v in counter {
      SumWithout(counter, counter.Keys, v);
    } else {
      assert counter.Keys - {v} == counter.Keys;
    }
  }

  function TallyOf<T(==)>(values: seq<T>): map<T, nat> {
    if values == [] then map[] else Bump(TallyOf(values[..|values| - 1]), values[|values| - 1])
  }

  lemma {:induction false} TallyOfIsTally<T(!new)>(values: seq<T>)
    ensures Tallies(TallyOf(values), values) && Sum(TallyOf(values), TallyOf(values).Keys) == |values|
  {
    if values != [] {
      var front, last := values[..|values| - 1], values[|values| - 1];
      TallyOfIsTally(front);
      BumpTallies(TallyOf(front), front, last);
      SumBump(TallyOf(front), last);
      assert front + [last] == values;
    }
  }

  /** The counts of a tally add up to the number of values. */
  lemma TallySums<T(!new)>(counter: map<T, nat>, values: seq<T>)
    requires Tallies(counter, values)
    ensures Sum(counter, counter.Keys) == |values|
  {
    TallyOfIsTally(values);
    TallyIsUnique(counter, TallyOf(values), values);
  }

  datatype OpsSnapshot = OpsSnapshot(
    generatedAt: string, records: nat, active: nat, byStatus: map<OpsStatus, nat>, byPriority: map<OpsPriority, nat>)

  /** The snapshot counts the records of xs. */
  ghost predicate SnapshotOf(s: OpsSnapshot, xs: seq<OpsRecord>) {
    && s.records == |xs| && s.active == Occurrences(Statuses(xs), Active)
    && Tallies(s.byStatus, Statuses(xs)) && Tallies(s.byPriority, Priorities(xs))
  }

  function WithStatus(xs: seq<OpsRecord>, v: OpsStatus): set<nat> {
    set i: nat | i < |xs| && xs[i].status == v
  }

  function WithPriority(xs: seq<OpsRecord>, v: OpsPriority): set<nat> {
    set i: nat | i < |xs| && xs[i].priority == v
  }

  /** Each counter is the number of records with that status or priority, and there is one for those
      that occur. */
  ghost predicate CountsRecords(s: OpsSnapshot, xs: seq<OpsRecord>) {
    && s.records == |xs| && s.active == |WithStatus(xs, Active)|
    && (forall v :: if v in s.byStatus then s.byStatus[v] == |WithStatus(xs, v)| > 0 else WithStatus(xs, v) == {})
    && (forall v ::
          if v in s.byPriority then s.byPriority[v] == |WithPriority(xs, v)| > 0 else WithPriority(xs, v) == {})
  }

  lemma SnapshotCounts(s: OpsSnapshot, xs: seq<OpsRecord>)
    requires SnapshotOf(s, xs)
    ensures CountsRecords(s, xs)
  {
    forall v ensures Occurrences(Statuses(xs), v) == |WithStatus(xs, v)| {
      OccurrencesExactly(Statuses(xs), v);
      assert WithStatus(xs, v) == Holding(Statuses(xs), v);
    }
    forall v ensures Occurrences(Priorities(xs), v) == |WithPriority(xs, v)| {
      OccurrencesExactly(Priorities(xs), v);
      assert WithPriority(xs, v) == Holding(Priorities(xs), v);
    }
    hide Occurrences, Statuses, Priorities, WithStatus, WithPriority;
    forall v | v !in s.byStatus ensures WithStatus(xs, v) == {} { EmptyIfNone(WithStatus(xs, v)); }
    forall v | v !in s.byPriority ensures WithPriority(xs, v) == {} { EmptyIfNone(WithPriority(xs, v)); }
  }

  lemma EmptyIfNone(places: set<nat>)
    requires |places| == 0
    ensures places == {}
  {
  }

  /** Two loops that count the same records agree, and both maps sum to the total. */
  lemma SnapshotsAgree(a: OpsSnapshot, b: OpsSnapshot, xs: seq<OpsRecord>)
    requires SnapshotOf(a, xs) && SnapshotOf(b, xs)
    ensures b == a.(generatedAt := b.generatedAt)
    ensures Sum(a.byStatus, a.byStatus.Keys) == a.records && Sum(a.byPriority, a.byPriority.Keys) == a.records
    ensures a.active == if Active in a.byStatus then a.byStatus[Active] else 0
  {
    TallyIsUnique(a.byStatus, b.byStatus, Statuses(xs));
    TallyIsUnique(a.byPriority, b.byPriority, Priorities(xs));
    TallySums(a.byStatus, Statuses(xs));
    TallySums(a.byPriority, Priorities(xs));
  }

  lemma OneMoreCounted(s: OpsSnapshot, xs: seq<OpsRecord>, x: OpsRecord)
    requires SnapshotOf(s, xs)
    ensures SnapshotOf(s.(records := s.records + 1, active := s.active + (if x.status == Active then 1 else 0),
                          byStatus := Bump(s.byStatus, x.status), byPriority := Bump(s.byPriority, x.priority)),
                       xs + [x])
  {
    assert Statuses(xs + [x]) == Statuses(xs) + [x.status];
    assert Priorities(xs + [x]) == Priorities(xs) + [x.priority];
    assert (Statuses(xs) + [x.status])[..|xs|] == Statuses(xs);
    BumpTallies(s.byStatus, Statuses(xs), x.status);
    BumpTallies(s.byPriority, Priorities(xs), x.priority);
  }
}
