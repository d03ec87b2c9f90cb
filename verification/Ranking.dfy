/** The order of result lists (sortOpsRecords, and the same comparison in the cache): weight
    descending, then update stamp descending; on a list that was sorted by id, a stable sort
    makes this a strict total order with the id as last key. */
module Ranking {
  import opened Text
  import opened OpsModel
  import opened Sorting

  /** The less function both sorts use. */
  predicate Outranks(a: OpsRecord, b: OpsRecord) {
    a.priority.Weight() > b.priority.Weight()
    || (a.priority.Weight() == b.priority.Weight() && Less(b.updatedAt, a.updatedAt))
  }

  /** Critical comes before high, high before normal, and normal before everything else. */
  predicate MoreUrgent(p: OpsPriority, q: OpsPriority) {
    || (p == Critical && q != Critical)
    || (p == High && q != Critical && q != High)
    || (p == Normal && q != Critical && q != High && q != Normal)
  }

  /** Of two records that urgency does not separate, the one updated later comes first. */
  predicate Precedes(a: OpsRecord, b: OpsRecord) {
    MoreUrgent(a.priority, b.priority) || (!MoreUrgent(b.priority, a.priority) && Less(b.updatedAt, a.updatedAt))
  }

  lemma OutranksExactly(a: OpsRecord, b: OpsRecord)
    ensures Outranks(a, b) <==> Precedes(a, b)
  {
  }

  /** Most urgent first, then updated last, then the smallest id. */
  predicate InRankOrder(xs: seq<OpsRecord>) {
    forall i, j :: 0 <= i < j < |xs| ==>
      Precedes(xs[i], xs[j]) || (!Precedes(xs[j], xs[i]) && Less(xs[i].id, xs[j].id))
  }

  lemma RankedMeans(xs: seq<OpsRecord>)
    ensures Ranked(xs) <==> InRankOrder(xs)
  {
    hide Outranks, Precedes;
    forall i, j | 0 <= i < |xs| && 0 <= j < |xs|
      ensures Before(xs[i], xs[j]) <==> Precedes(xs[i], xs[j]) || (!Precedes(xs[j], xs[i]) && Less(xs[i].id, xs[j].id))
    {
      OutranksExactly(xs[i], xs[j]);
      OutranksExactly(xs[j], xs[i]);
    }
  }

  /** With the id as tie breaker. */
  predicate Before(a: OpsRecord, b: OpsRecord) {
    Outranks(a, b) || (!Outranks(b, a) && Less(a.id, b.id))
  }

  predicate SameRank(a: OpsRecord, b: OpsRecord) {
    a.priority.Weight() == b.priority.Weight() && a.updatedAt == b.updatedAt
  }

  lemma RankCases(a: OpsRecord, b: OpsRecord)
    ensures !(Outranks(a, b) && Outranks(b, a))
    ensures !Outranks(a, b) && !Outranks(b, a) <==> SameRank(a, b)
  {
    LessTrichotomy(a.updatedAt, b.updatedAt);
  }

  lemma OutranksTransitive(a: OpsRecord, b: OpsRecord, c: OpsRecord)
    requires !Outranks(a, b) && !Outranks(b, c)
    ensures !Outranks(a, c)
  {
    LessTrichotomy(a.updatedAt, b.updatedAt);
    LessTrichotomy(b.updatedAt, c.updatedAt);
    if Less(a.updatedAt, b.updatedAt) && Less(b.updatedAt, c.updatedAt) {
      LessTransitive(a.updatedAt, b.updatedAt, c.updatedAt);
    }
    LessTrichotomy(a.updatedAt, c.updatedAt);
  }

  lemma OutranksIsWeakOrder(xs: seq<OpsRecord>)
    ensures StrictWeakOrder(Outranks, xs)
  {
    hide Outranks;
    forall a, b | Outranks(a, b) ensures !Outranks(b, a) { RankCases(a, b); }
    forall a, b, c | !Outranks(a, b) && !Outranks(b, c) ensures !Outranks(a, c) { OutranksTransitive(a, b, c); }
  }

  predicate IdLess(a: OpsRecord, b: OpsRecord) {
    Less(a.id, b.id)
  }

  lemma IdLessIsWeakOrder(xs: seq<OpsRecord>)
    ensures StrictWeakOrder(IdLess, xs)
  {
    forall a, b | IdLess(a, b) ensures !IdLess(b, a) { LessTrichotomy(a.id, b.id); }
    forall a, b, c | !IdLess(a, b) && !IdLess(b, c) ensures !IdLess(a, c) {
      LessTrichotomy(a.id, b.id);
      LessTrichotomy(b.id, c.id);
      if IdLess(a, c) && b.id != c.id && a.id != b.id { LessTransitive(c.id, b.id, a.id); LessTrichotomy(a.id, c.id); }
    }
  }

  /** Before is a strict total order on records with different ids. */
  lemma BeforeIsTotal(a: OpsRecord, b: OpsRecord)
    ensures !(Before(a, b) && Before(b, a))
    ensures a.id != b.id ==> Before(a, b) || Before(b, a)
    ensures !Before(a, a)
  {
    RankCases(a, b);
    LessTrichotomy(a.id, b.id);
    RankCases(a, a);
    LessTrichotomy(a.id, a.id);
  }

  ghost predicate SortedById(xs: seq<OpsRecord>) {
    Ordered(IdLess, xs)
  }

  ghost predicate Ranked(xs: seq<OpsRecord>) {
    Ordered(Before, xs)
  }

  /** A ranked list is determined by its elements. */
  lemma RankingIsUnique(xs: seq<OpsRecord>, ys: seq<OpsRecord>)
    requires Ranked(xs) && Ranked(ys) && SameMembers(xs, ys)
    ensures xs == ys
  {
    forall a, b | a in xs && b in xs ensures !(Before(a, b) && Before(b, a)) { BeforeIsTotal(a, b); }
    OrderedIsUnique(Before, xs, ys);
  }

  /** A list in strict id order is determined by its elements. */
  lemma IdOrderIsUnique(xs: seq<OpsRecord>, ys: seq<OpsRecord>)
    requires SortedById(xs) && SortedById(ys) && SameMembers(xs, ys)
    ensures xs == ys
  {
    forall a, b | a in xs && b in xs ensures !(IdLess(a, b) && IdLess(b, a)) { LessTrichotomy(a.id, b.id); }
    OrderedIsUnique(IdLess, xs, ys);
  }

  /** Stably sorting a list that was sorted by id ranks it. */
  lemma StableSortRanks(xs: seq<OpsRecord>, ys: seq<OpsRecord>, p: seq<nat>)
    requires SortedById(xs) && StablySorted(Outranks, xs, ys, p)
    ensures Ranked(ys) && InRankOrder(ys) && SameMembers(xs, ys)
  {
    RankedMeans(ys);
    hide Outranks, InRankOrder;
    SameElements(Outranks, xs, ys, p);
    forall i, j | 0 <= i < j < |ys| ensures Before(ys[i], ys[j]) {
      if !Outranks(ys[i], ys[j]) {
        assert p[i] < p[j];
      }
    }
  }

  /** The records of the store, in id order. */
  ghost predicate IsListing(items: map<string, OpsRecord>, xs: seq<OpsRecord>) {
    SortedById(xs) && forall r :: r in xs <==> r in items.Values
  }

  /** The records with a property, ranked. */
  ghost predicate IsRankingOf(items: map<string, OpsRecord>, keep: OpsRecord -> bool, xs: seq<OpsRecord>) {
    Ranked(xs) && forall r :: r in xs <==> r in items.Values && keep(r)
  }

  /** Picking from a ranked list what a property keeps. */
  function Filter(keep: OpsRecord -> bool, xs: seq<OpsRecord>): seq<OpsRecord> {
    if xs == [] then [] else Filter(keep, xs[..|xs| - 1]) + (if keep(xs[|xs| - 1]) then [xs[|xs| - 1]] else [])
  }

  lemma {:induction false} FilterMembers(keep: OpsRecord -> bool, xs: seq<OpsRecord>)
    ensures forall r :: r in Filter(keep, xs) <==> r in xs && keep(r)
  {
    if xs != [] {
      FilterMembers(keep, xs[..|xs| - 1]);
      assert xs == xs[..|xs| - 1] + [xs[|xs| - 1]];
    }
  }

  lemma {:induction false} FilterSortedById(keep: OpsRecord -> bool, xs: seq<OpsRecord>)
    requires SortedById(xs)
    ensures SortedById(Filter(keep, xs))
  {
    if xs != [] {
      var front := xs[..|xs| - 1];
      FilterSortedById(keep, front);
      FilterMembers(keep, front);
      forall i | 0 <= i < |Filter(keep, front)| ensures Less(Filter(keep, front)[i].id, xs[|xs| - 1].id) {
        assert Filter(keep, front)[i] in front;
      }
    }
  }

  lemma {:induction false} FilterRanked(keep: OpsRecord -> bool, xs: seq<OpsRecord>)
    requires Ranked(xs)
    ensures Ranked(Filter(keep, xs))
  {
    hide Before;
    if xs != [] {
      var front := xs[..|xs| - 1];
      FilterRanked(keep, front);
      FilterMembers(keep, front);
      forall i | 0 <= i < |Filter(keep, front)| ensures Before(Filter(keep, front)[i], xs[|xs| - 1]) {
        assert Filter(keep, front)[i] in front;
      }
    }
  }

  /** Filtering and then ranking gives what ranking everything and then filtering gives: the
      stable sort commutes with the filter. */
  lemma FilterCommutesWithRanking(items: map<string, OpsRecord>, keep: OpsRecord -> bool,
                                  all: seq<OpsRecord>, some: seq<OpsRecord>)
    requires IsRankingOf(items, r => true, all) && IsRankingOf(items, keep, some)
    ensures some == Filter(keep, all)
  {
    FilterRanked(keep, all);
    FilterMembers(keep, all);
    RankingIsUnique(some, Filter(keep, all));
  }
}
