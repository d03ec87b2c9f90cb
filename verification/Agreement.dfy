/** Two ways to the same answer: reading the cache, and going to the store. */
module Agreement {
  import opened OpsModel
  import opened Store
  import opened Sorting
  import opened Ranking
  import opened Counts
  import opened Service

  /** No filter. */
  function Every(): OpsRecord -> bool {
    (r: OpsRecord) => true
  }

  /** The list a refresh from the store leaves in the cache ranks the whole store: whatever order
      the map was walked in, there is one such list. */
  lemma RefreshRanksStore(items: Items, listing: seq<OpsRecord>, cached: seq<OpsRecord>, p: seq<nat>)
    requires IsListing(items, listing) && StablySorted(Outranks, listing, cached, p)
    ensures IsRankingOf(items, Every(), cached) && InRankOrder(cached)
  {
    hide Outranks, InRankOrder;
    StableSortRanks(listing, cached, p);
  }

  /** While the store stays as it was at the refresh, what Search ranks is what the cached list
      holds once filtered, and what Snapshot counts is what the cache counted. */
  lemma CacheAgreesWithStore(items: Items, query: OpsQuery, cached: seq<OpsRecord>, ranked: seq<OpsRecord>,
                             counted: OpsSnapshot, listed: seq<OpsRecord>,
                             snapshot: OpsSnapshot, relisted: seq<OpsRecord>)
    requires IsRankingOf(items, Every(), cached) && IsRankingOf(items, Matching(query), ranked)
    requires IsListing(items, listed) && SnapshotOf(counted, listed)
    requires IsListing(items, relisted) && SnapshotOf(snapshot, relisted)
    ensures ranked == Filter(Matching(query), cached)
    ensures snapshot == counted.(generatedAt := snapshot.generatedAt)
  {
    hide SnapshotOf, Filter, Ranked;
    RankingIsFiltered(items, query, cached, ranked);
    ListingIsUnique(items, listed, relisted);
    SnapshotsAgree(counted, snapshot, listed);
  }

  lemma RankingIsFiltered(items: Items, query: OpsQuery, cached: seq<OpsRecord>, ranked: seq<OpsRecord>)
    requires IsRankingOf(items, Every(), cached) && IsRankingOf(items, Matching(query), ranked)
    ensures ranked == Filter(Matching(query), cached)
  {
    hide Ranked;
    FilterCommutesWithRanking(items, Matching(query), cached, ranked);
  }
}
