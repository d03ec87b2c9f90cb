/** The archive of closed records (ops_archive.go), each operation run on its own. Module
    ProtocolArchive has concurrent archivers. */
module Archive {
  import opened Text
  import opened OpsModel
  import opened Store

  /** Lookup: the archived copy if there is one, else the live record. */
  function LookupResult(closed: Items, items: Items, id: string): Reply<OpsRecord> {
    if id in closed then Ok(closed[id]) else GetResult(items, id)
  }

  /** The archived records whose stamp is not before the limit. */
  function Recent(closed: Items, limit: string): Items {
    map id | id in closed && !Less(closed[id].updatedAt, limit) :: closed[id]
  }

  predicate AllTerminal(closed: Items) {
    forall id :: id in closed ==> closed[id].Terminal()
  }

  /** Archiving shows through Lookup exactly when another version was archived under that id
      before: then, and for that id only, Lookup changes. */
  lemma ArchiveKeepsLookup(closed: Items, items: Items, id: string, other: string)
    requires id in items
    ensures LookupResult(closed[id := items[id]], items - {id}, other) ==
            if other == id then Ok(items[id]) else LookupResult(closed, items, other)
    ensures LookupResult(closed[id := items[id]], items - {id}, other) == LookupResult(closed, items, other)
       <==> !(other == id && id in closed && closed[id] != items[id])
  {
  }

  class OpsArchive {
    const store: OpsStore
    var closed: Items

    constructor (store: OpsStore)
      ensures this.store == store && closed == map[]
    {
      this.store := store;
      closed := map[];
    }

    /** Copy first, then delete: a context that ends in between leaves the record in both. */
    method Archive(ctx: OpsContext, id: string) returns (err: Option<OpsError>)
      modifies ctx, store, this
      ensures old(ctx.checks) >= 2 ==>
        err == if id !in old(store.items) then Some(NotFound)
               else if old(store.items)[id].status != Closed then Some(TransitionRefused) else None
      ensures err == None ==>
        && id in old(store.items) && old(store.items)[id].status == Closed
        && store.items == old(store.items) - {id} && closed == old(closed)[id := old(store.items)[id]]
      ensures err != None ==> store.items == old(store.items)
      ensures err != None && closed != old(closed) ==>
        && err == Some(Cancelled) && id in old(store.items) && old(store.items)[id].Terminal()
        && closed == old(closed)[id := old(store.items)[id]]
      ensures old(AllTerminal(closed)) ==> AllTerminal(closed)
      ensures err == None && id !in old(closed) ==>
        forall other :: LookupResult(closed, store.items, other) == LookupResult(old(closed), old(store.items), other)
    {
      var got := store.Get(ctx, id);
      if got.Err? {
        return Some(got.error);
      }
      if !got.value.Terminal() {
        return Some(TransitionRefused);
      }
      closed := closed[id := got.value];
      err := store.Delete(ctx, id);
    }

    method Lookup(ctx: OpsContext, id: string) returns (r: Reply<OpsRecord>)
      modifies ctx
      ensures old(ctx.checks) > 0 || id in closed ==> r == LookupResult(closed, store.items, id)
      ensures id in closed ==> r == Ok(closed[id])
      ensures old(ctx.checks) > 0 && id !in closed ==>
        r == if id in store.items then Ok(store.items[id]) else Err(NotFound)
      ensures old(ctx.checks) == 0 && id !in closed ==> r == Err(Cancelled)
    {
      if id in closed {
        return Ok(closed[id]);
      }
      r := store.Get(ctx, id);
    }

    method Count() returns (n: nat)
      ensures n == |closed.Keys|
    {
      n := |closed|;
    }

    /** The map shrinks while it is walked, in any order. */
    method Prune(limit: string) returns (removed: nat)
      modifies this
      ensures closed == Recent(old(closed), limit)
      ensures forall id :: id in closed <==> id in old(closed) && !Less(old(closed)[id].updatedAt, limit)
      ensures forall id :: id in closed ==> closed[id] == old(closed)[id]
      ensures removed + |closed.Keys| == old(|closed.Keys|)
    {
      hide Less;
      removed := 0;
      var rest := closed.Keys;
      ghost var was := closed;
      while rest != {}
        invariant rest <= was.Keys
        invariant forall id :: id in closed <==> id in was && (id in rest || !Less(was[id].updatedAt, limit))
        invariant forall id :: id in closed ==> closed[id] == was[id]
        invariant removed + |closed.Keys| == |was.Keys|
      {
        var id :| id in rest;
        rest := rest - {id};
        if Less(closed[id].updatedAt, limit) {
          assert (closed - {id}).Keys == closed.Keys - {id};
          closed := closed - {id};
          removed := removed + 1;
        }
      }
    }
  }
}
