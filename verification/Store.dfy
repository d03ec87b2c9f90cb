/** The live store (ops_store.go): each method is one locked section. The functions are those
    sections as steps on the map; the class methods are proved against them, and the
    interleaved model of module Protocol is built from them. */
module Store {
  import opened Text
  import opened OpsModel
  import opened Sorting
  import opened Ranking

  type Items = map<string, OpsRecord>

  /** Every key is its record's id, and revisions start at one. */
  predicate Keyed(items: Items) {
    forall k :: k in items ==> items[k].id == k && items[k].revision >= 1
  }

  function Seeded(seed: seq<OpsRecord>): (items: Items)
    ensures Keyed(items)
  {
    if seed == [] then map[] else
      var item := NormalizeOpsRecord(seed[|seed| - 1]);
      Seeded(seed[..|seed| - 1])[item.id := item]
  }

  /** No later seed record has the id of record i. */
  predicate LastOfItsId(seed: seq<OpsRecord>, i: nat)
    requires i < |seed|
  {
    forall j :: i < j < |seed| ==> NormalizeOpsRecord(seed[j]).id != NormalizeOpsRecord(seed[i]).id
  }

  predicate SeedHas(seed: seq<OpsRecord>, id: string) {
    exists i :: 0 <= i < |seed| && NormalizeOpsRecord(seed[i]).id == id
  }

  /** Of the seed records with one id the last one is stored, and nothing else is. */
  lemma SeededExactly(seed: seq<OpsRecord>)
    ensures forall id :: id in Seeded(seed) <==> SeedHas(seed, id)
    ensures forall i :: 0 <= i < |seed| && LastOfItsId(seed, i) ==>
      var item := NormalizeOpsRecord(seed[i]); item.id in Seeded(seed) && Seeded(seed)[item.id] == item
  {
    forall id ensures id in Seeded(seed) <==> SeedHas(seed, id) { SeededHas(seed, id); }
    forall i | 0 <= i < |seed| && LastOfItsId(seed, i)
      ensures var item := NormalizeOpsRecord(seed[i]); item.id in Seeded(seed) && Seeded(seed)[item.id] == item
    {
      LastIsSeeded(seed, i);
    }
  }

  lemma {:induction false} SeededHas(seed: seq<OpsRecord>, id: string)
    ensures id in Seeded(seed) <==> SeedHas(seed, id)
  {
    hide NormalizeOpsRecord;
    if seed != [] {
      var front := seed[..|seed| - 1];
      SeededHas(front, id);
      if SeedHas(front, id) {
        var i :| 0 <= i < |front| && NormalizeOpsRecord(front[i]).id == id;
        assert seed[i] == front[i];
      }
    }
  }

  lemma {:induction false} LastIsSeeded(seed: seq<OpsRecord>, i: nat)
    requires i < |seed| && LastOfItsId(seed, i)
    ensures var item := NormalizeOpsRecord(seed[i]); item.id in Seeded(seed) && Seeded(seed)[item.id] == item
  {
    hide NormalizeOpsRecord;
    if i < |seed| - 1 {
      LastIsSeeded(seed[..|seed| - 1], i);
      assert NormalizeOpsRecord(seed[|seed| - 1]).id != NormalizeOpsRecord(seed[i]).id;
    }
  }

  function GetResult(items: Items, id: string): Reply<OpsRecord> {
    if id in items then Ok(items[id]) else Err(NotFound)
  }

  /** Put looks up, and stores under, the id it was given, not the normalised one. */
  function PutResult(items: Items, item: OpsRecord): Reply<Items> {
    if item.id in items then Err(Conflict) else Ok(items[item.id := NormalizeOpsRecord(item)])
  }

  function UpdateResult(items: Items, item: OpsRecord, expected: int, now: string): Reply<Items> {
    if item.id !in items then Err(NotFound)
    else if expected > 0 && items[item.id].revision != expected then Err(Conflict)
    else Ok(items[item.id := item.(revision := items[item.id].revision + 1, updatedAt := now)])
  }

  function DeleteResult(items: Items, id: string): Reply<Items> {
    if id !in items then Err(NotFound) else Ok(items - {id})
  }

  /** Although Put checks the un-normalised id, putting a normalised record keeps the store
      keyed. */
  lemma PutKeepsKeyed(items: Items, item: OpsRecord)
    requires Keyed(items)
    ensures var put := PutResult(items, NormalizeOpsRecord(item));
            put.Ok? ==> Keyed(put.value) && put.value == items[NormalizeOpsRecord(item).id := NormalizeOpsRecord(item)]
  {
    NormalForm(item);
  }

  /** A raw Put keeps the store keyed exactly when its id was already normal. */
  lemma PutKeepsKeyedIff(items: Items, item: OpsRecord)
    requires Keyed(items) && PutResult(items, item).Ok?
    ensures Keyed(PutResult(items, item).value) <==> NormalizeOpsRecord(item).id == item.id
  {
    var put := PutResult(items, item).value;
    assert put[item.id] == NormalizeOpsRecord(item);
  }

  predicate DistinctIds(xs: seq<OpsRecord>) {
    forall i, j :: 0 <= i < j < |xs| ==> xs[i].id != xs[j].id
  }

  /** However the map was walked, sorting by id gives the one listing. */
  lemma SortedIsListing(items: Items, copies: seq<OpsRecord>, out: seq<OpsRecord>, p: seq<nat>)
    requires DistinctIds(copies) && (forall r :: r in copies <==> r in items.Values)
    requires StablySorted(IdLess, copies, out, p)
    ensures IsListing(items, out)
  {
    SameElements(IdLess, copies, out, p);
    forall i, j | 0 <= i < j < |out| ensures Less(out[i].id, out[j].id) {
      assert out[i].id != out[j].id by {
        assert out[i] == copies[p[i]] && out[j] == copies[p[j]];
      }
      LessTrichotomy(out[i].id, out[j].id);
    }
  }

  /** There is only one listing. */
  lemma ListingIsUnique(items: Items, xs: seq<OpsRecord>, ys: seq<OpsRecord>)
    requires IsListing(items, xs) && IsListing(items, ys)
    ensures xs == ys
  {
    IdOrderIsUnique(xs, ys);
  }

  /** A context that may expire before any check and stays expired: it passes that many more
      checks. */
  class OpsContext {
    var checks: nat

    constructor (checks: nat)
      ensures this.checks == checks
    {
      this.checks := checks;
    }

    /** ctx.Err() or the poll of ctx.Done(). */
    method Expired() returns (expired: bool)
      modifies this
      ensures expired <==> old(checks) == 0
      ensures checks == if expired then 0 else old(checks) - 1
    {
      expired := checks == 0;
      if !expired {
        checks := checks - 1;
      }
    }

    /** A wait that nothing but the end of the context can end. */
    method AwaitEnd()
      modifies this
      ensures checks == 0
    {
      checks := 0;
    }
  }

  /** time.Now() rendered: any text. */
  method TimeNowOps() returns (stamp: string)
  {
    stamp := *;
  }

  class OpsStore {
    var items: Items

    constructor (seed: seq<OpsRecord>)
      ensures items == Seeded(seed) && Keyed(items)
      ensures forall id :: id in items <==> SeedHas(seed, id)
      ensures forall i :: 0 <= i < |seed| && LastOfItsId(seed, i) ==>
        NormalizeOpsRecord(seed[i]).id in items && items[NormalizeOpsRecord(seed[i]).id] == NormalizeOpsRecord(seed[i])
    {
      hide NormalizeOpsRecord;
      items := map[];
      new;
      for i := 0 to |seed|
        invariant items == Seeded(seed[..i])
      {
        var item := NormalizeOpsRecord(seed[i]);
        items := items[item.id := item];
        assert seed[..i + 1][..i] == seed[..i];
      }
      assert seed[..|seed|] == seed;
      SeededExactly(seed);
    }

    method Get(ctx: OpsContext, id: string) returns (r: Reply<OpsRecord>)
      modifies ctx
      ensures old(ctx.checks) == 0 ==> ctx.checks == 0 && r == Err(Cancelled)
      ensures old(ctx.checks) > 0 ==> ctx.checks == old(ctx.checks) - 1 && r == GetResult(items, id)
      ensures old(ctx.checks) > 0 ==> if id in items then r == Ok(items[id]) else r == Err(NotFound)
    {
      var expired := ctx.Expired();
      if expired {
        return Err(Cancelled);
      }
      if id !in items {
        return Err(NotFound);
      }
      return Ok(items[id]);
    }

    /** The map is walked in any order; the copies are then sorted by id. */
    method List(ctx: OpsContext) returns (r: Reply<seq<OpsRecord>>)
      requires Keyed(items)
      modifies ctx
      ensures ctx.checks == if old(ctx.checks) == 0 then 0 else old(ctx.checks) - 1
      ensures old(ctx.checks) == 0 ==> r == Err(Cancelled)
      ensures old(ctx.checks) > 0 ==> r.Ok? && IsListing(items, r.value)
      ensures r.Ok? ==> forall i, j :: 0 <= i < j < |r.value| ==> Less(r.value[i].id, r.value[j].id)
    {
      var expired := ctx.Expired();
      if expired {
        return Err(Cancelled);
      }
      var copies := Walk();
      var out := new OpsRecord[|copies|](i requires 0 <= i < |copies| => copies[i]);
      assert out[..] == copies;
      IdLessIsWeakOrder(copies);
      ghost var p := StableSort(out, IdLess);
      SortedIsListing(items, copies, out[..], p);
      return Ok(out[..]);
    }

    method Walk() returns (copies: seq<OpsRecord>)
      requires Keyed(items)
      ensures DistinctIds(copies) && forall r :: r in copies <==> r in items.Values
    {
      copies := [];
      var rest := items.Keys;
      while rest != {}
        invariant rest <= items.Keys && DistinctIds(copies)
        invariant forall r :: r in copies <==> r.id in items.Keys - rest && items[r.id] == r
      {
        var id :| id in rest;
        rest := rest - {id};
        copies := copies + [items[id]];
      }
      forall r | r in items.Values ensures r in copies {
        var k :| k in items && items[k] == r;
      }
    }

    method Put(ctx: OpsContext, item: OpsRecord) returns (err: Option<OpsError>)
      modifies ctx, this
      ensures old(ctx.checks) == 0 ==> err == Some(Cancelled)
      ensures old(ctx.checks) > 0 && item.id in old(items) ==> err == Some(Conflict)
      ensures old(ctx.checks) > 0 && item.id !in old(items) ==>
        err == None && items == old(items)[item.id := NormalizeOpsRecord(item)]
      ensures err != None ==> items == old(items)
    {
      var expired := ctx.Expired();
      if expired {
        return Some(Cancelled);
      }
      if item.id in items {
        return Some(Conflict);
      }
      items := items[item.id := NormalizeOpsRecord(item)];
      return None;
    }

    method Update(ctx: OpsContext, item: OpsRecord, expected: int) returns (err: Option<OpsError>)
      modifies ctx, this
      ensures ctx.checks == if old(ctx.checks) == 0 then 0 else old(ctx.checks) - 1
      ensures old(ctx.checks) == 0 ==> err == Some(Cancelled)
      ensures old(ctx.checks) > 0 ==>
        if item.id !in old(items) then err == Some(NotFound)
        else if expected > 0 && old(items)[item.id].revision != expected then err == Some(Conflict)
        else
          && err == None && item.id in items
          && items == old(items)[item.id := item.(revision := old(items)[item.id].revision + 1,
                                                  updatedAt := items[item.id].updatedAt)]
      ensures err != None ==> items == old(items)
    {
      var expired := ctx.Expired();
      if expired {
        return Some(Cancelled);
      }
      if item.id !in items {
        return Some(NotFound);
      }
      var current := items[item.id];
      if expected > 0 && current.revision != expected {
        return Some(Conflict);
      }
      var now := TimeNowOps();
      items := items[item.id := item.(revision := current.revision + 1, updatedAt := now)];
      return None;
    }

    method Delete(ctx: OpsContext, id: string) returns (err: Option<OpsError>)
      modifies ctx, this
      ensures old(ctx.checks) == 0 ==> err == Some(Cancelled)
      ensures old(ctx.checks) > 0 ==>
        if id in old(items) then err == None && items == old(items) - {id} else err == Some(NotFound)
      ensures err != None ==> items == old(items)
    {
      var expired := ctx.Expired();
      if expired {
        return Some(Cancelled);
      }
      if id !in items {
        return Some(NotFound);
      }
      items := items - {id};
      return None;
    }
  }
}
