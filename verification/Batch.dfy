/** Batch status changes (ops_batch.go), run on their own; modules Protocol, ProtocolUnits and
    ProtocolClaims have them interleaved. */
module Batch {
  import opened OpsModel
  import opened StateMachine
  import opened Store
  import opened Decimal
  import opened Manifest
  import opened Counts

  datatype OpsBatchResult = OpsBatchResult(batchID: string, requested: nat, applied: nat, skipped: nat)

  /** The record id names is there and in the status the batch starts from. */
  predicate Hit(items: Items, from: OpsStatus, id: string) {
    id in items && items[id].status == from
  }

  /** The distinct listed ids the batch is about. */
  function HitIds(items: Items, from: OpsStatus, ids: seq<string>): set<string> {
    set id | id in ids && Hit(items, from, id)
  }

  /** How often a batch moves record id: a real move happens once, a move onto the same status
      at every mention. */
  function Moves(items: Items, from: OpsStatus, to: OpsStatus, ids: seq<string>, id: string): nat {
    if !Hit(items, from, id) then 0
    else if from == to then Occurrences(ids, id)
    else if id in ids then 1 else 0
  }

  /** The record some moves later. */
  function Later(record: OpsRecord, to: OpsStatus, moves: nat, stamp: string): OpsRecord {
    record.(status := to, revision := record.revision + moves, updatedAt := stamp)
  }

  /** items' is items after the moves for ids; only the stamps are open. */
  predicate Moved(items: Items, items': Items, from: OpsStatus, to: OpsStatus, ids: seq<string>) {
    && items'.Keys == items.Keys
    && forall id :: id in items ==>
         var moves := Moves(items, from, to, ids, id);
         items'[id] == if moves == 0 then items[id]
                       else Later(items[id], to, moves, items'[id].updatedAt)
  }

  /** Whether a mention after the mentions in front is a move. */
  predicate IsMove(items: Items, from: OpsStatus, to: OpsStatus, front: seq<string>, id: string) {
    Hit(items, from, id) && (from == to || id !in front)
  }

  /** All the moves together. */
  function TotalMoves(items: Items, from: OpsStatus, to: OpsStatus, ids: seq<string>): nat {
    if |ids| == 0 then 0 else
      TotalMoves(items, from, to, ids[..|ids| - 1])
      + (if IsMove(items, from, to, ids[..|ids| - 1], ids[|ids| - 1]) then 1 else 0)
  }

  lemma OneMoreId(items: Items, from: OpsStatus, to: OpsStatus, ids: seq<string>, next: string, id: string)
    ensures Moves(items, from, to, ids + [next], id) ==
            Moves(items, from, to, ids, id) + if id == next && IsMove(items, from, to, ids, id) then 1 else 0
    ensures TotalMoves(items, from, to, ids + [next]) ==
            TotalMoves(items, from, to, ids) + if IsMove(items, from, to, ids, next) then 1 else 0
  {
  }

  lemma OneMoreHit(items: Items, from: OpsStatus, ids: seq<string>, next: string)
    ensures HitIds(items, from, ids + [next]) ==
            HitIds(items, from, ids) + if Hit(items, from, next) then {next} else {}
    ensures next in HitIds(items, from, ids) <==> next in ids && Hit(items, from, next)
  {
  }

  /** A real move applies to each distinct hit once, whatever duplicates and unknown ids are
      listed. */
  lemma {:induction false} TotalIsDistinctHits(items: Items, from: OpsStatus, to: OpsStatus, ids: seq<string>)
    requires from != to
    ensures TotalMoves(items, from, to, ids) == |HitIds(items, from, ids)|
  {
    hide Hit;
    if |ids| == 0 {
      assert HitIds(items, from, ids) == {};
    } else {
      hide TotalMoves, HitIds;
      var front, last := ids[..|ids| - 1], ids[|ids| - 1];
      assert ids == front + [last];
      TotalIsDistinctHits(items, from, to, front);
      OneMoreId(items, from, to, front, last, last);
      OneMoreHit(items, from, front, last);
    }
  }

  /** Mid-batch, the next id is still to be moved exactly if it is a hit not yet moved. */
  lemma StillToMove(items: Items, now: Items, from: OpsStatus, to: OpsStatus, done: seq<string>, next: string)
    requires Moved(items, now, from, to, done)
    ensures Hit(now, from, next) <==> IsMove(items, from, to, done, next)
  {
  }

  lemma MoveNext(items: Items, now: Items, then_: Items, from: OpsStatus, to: OpsStatus, done: seq<string>,
                 next: string)
    requires Moved(items, now, from, to, done) && Hit(now, from, next)
    requires next in then_ && then_ == now[next := Later(now[next], to, 1, then_[next].updatedAt)]
    ensures Moved(items, then_, from, to, done + [next])
  {
    StillToMove(items, now, from, to, done, next);
    forall id | id in items
      ensures var moves := Moves(items, from, to, done + [next], id);
              then_[id] == if moves == 0 then items[id]
                else Later(items[id], to, moves, then_[id].updatedAt)
    {
      OneMoreId(items, from, to, done, next, id);
    }
  }

  lemma SkipNext(items: Items, now: Items, from: OpsStatus, to: OpsStatus, done: seq<string>, next: string)
    requires Moved(items, now, from, to, done) && !Hit(now, from, next)
    ensures Moved(items, now, from, to, done + [next])
  {
  }

  /** Every batch id in the registry was built from a number already drawn. */
  ghost predicate NumbersDrawn(claims: Claims, sequence: nat) {
    forall b :: b in claims ==> exists owner, n: nat :: n <= sequence && b == BatchID(owner, n)
  }

  lemma NextNumberIsFree(claims: Claims, sequence: nat, owner: string)
    requires NumbersDrawn(claims, sequence)
    ensures BatchID(owner, sequence + 1) !in claims
  {
    var b := BatchID(owner, sequence + 1);
    if b in claims {
      var o, n: nat :| n <= sequence && b == BatchID(o, n);
      BatchIDInjective(o, n, owner, sequence + 1);
    }
  }

  lemma NumbersStayDrawn(claims: Claims, sequence: nat, later: nat)
    requires NumbersDrawn(claims, sequence) && sequence <= later
    ensures NumbersDrawn(claims, later)
  {
  }

  datatype ItemResult = ItemResult(ok: bool, err: Option<OpsError>)

  /** What processing one id does to the records. */
  predicate ItemDone(items: Items, items': Items, from: OpsStatus, to: OpsStatus, id: string, r: ItemResult) {
    if r.ok then
      && r.err == None && Hit(items, from, id) && CanMove(from, to) && id in items'
      && items' == items[id := Later(items[id], to, 1, items'[id].updatedAt)]
    else
      && items' == items
      && match r.err
         case None => !Hit(items, from, id)
         case Some(e) => e == Cancelled || (e == TransitionRefused && Hit(items, from, id) && !CanMove(from, to))
  }

  /** How far a batch has come: Applied and Skipped together are the ids it got through, exactly
      those are moved, and Applied counts the moves. A move outside the table moves nothing. */
  ghost predicate Through(items: Items, now: Items, from: OpsStatus, to: OpsStatus, ids: seq<string>,
                          result: OpsBatchResult) {
    var k := result.applied + result.skipped;
    && result.requested == |ids| && k <= |ids|
    && Moved(items, now, from, to, ids[..k])
    && result.applied == TotalMoves(items, from, to, ids[..k])
    && (!CanMove(from, to) ==> now == items && result.applied == 0)
    && (!CanMove(from, to) ==> forall i :: 0 <= i < result.skipped && i < |ids| ==> !Hit(items, from, ids[i]))
  }

  /** What a claimed batch does, on every exit: it got through, or was cancelled, or a refused
      move ended it at the first hit. */
  ghost predicate BatchDone(items: Items, items': Items, from: OpsStatus, to: OpsStatus, ids: seq<string>,
                            result: OpsBatchResult, err: Option<OpsError>) {
    var k := result.applied + result.skipped;
    && Through(items, items', from, to, ids, result)
    && (err == None ==> k == |ids|)
    && (err.Some? ==> err.value == Cancelled || err.value == TransitionRefused)
    && (err == Some(TransitionRefused) ==> !CanMove(from, to) && k < |ids| && Hit(items, from, ids[k]))
  }

  /** How the loop carries on after one item. */
  lemma NextItem(items: Items, now: Items, then_: Items, from: OpsStatus, to: OpsStatus, ids: seq<string>,
                 result: OpsBatchResult, r: ItemResult)
    requires Through(items, now, from, to, ids, result) && result.applied + result.skipped < |ids|
    requires ItemDone(now, then_, from, to, ids[result.applied + result.skipped], r)
    ensures r.err.Some? ==> BatchDone(items, then_, from, to, ids, result, r.err)
    ensures r.err == None ==> Through(items, then_, from, to, ids,
      if r.ok then result.(applied := result.applied + 1) else result.(skipped := result.skipped + 1))
  {
    hide Moved, TotalMoves, CanMove;
    var k := result.applied + result.skipped;
    if r.err == None {
      assert ids[..k + 1] == ids[..k] + [ids[k]];
      StillToMove(items, now, from, to, ids[..k], ids[k]);
      OneMoreId(items, from, to, ids[..k], ids[k], ids[k]);
      if r.ok {
        MoveNext(items, now, then_, from, to, ids[..k], ids[k]);
      } else {
        SkipNext(items, now, from, to, ids[..k], ids[k]);
      }
    }
  }

  /** The uncancelled batch along an edge: it moves exactly the distinct listed records that
      were in status from, once each, and counts them as Applied and every other mention as
      Skipped. */
  lemma BatchMovesDistinctHits(items: Items, items': Items, from: OpsStatus, to: OpsStatus, ids: seq<string>,
                               result: OpsBatchResult)
    requires BatchDone(items, items', from, to, ids, result, None) && from != to
    ensures result.applied == |HitIds(items, from, ids)| && result.applied + result.skipped == |ids|
    ensures items'.Keys == items.Keys
    ensures forall id :: id in items && id in HitIds(items, from, ids) ==>
      items'[id] == Later(items[id], to, 1, items'[id].updatedAt)
    ensures forall id :: id in items && id !in HitIds(items, from, ids) ==> items'[id] == items[id]
  {
    assert ids[..|ids|] == ids;
    TotalIsDistinctHits(items, from, to, ids);
  }

  /** A batch whose move is not in the table stops at the first record it could apply to, with
      nothing applied and the store as before; it ends well only if there is none. */
  lemma RefusedBatchChangesNothing(items: Items, items': Items, from: OpsStatus, to: OpsStatus, ids: seq<string>,
                                   result: OpsBatchResult, err: Option<OpsError>)
    requires BatchDone(items, items', from, to, ids, result, err) && !CanMove(from, to) && err != Some(Cancelled)
    ensures items' == items && result.applied == 0
    ensures forall i :: 0 <= i < result.skipped ==> !Hit(items, from, ids[i])
    ensures err == Some(TransitionRefused) <==> result.skipped < |ids| && Hit(items, from, ids[result.skipped])
    ensures err == None <==> forall i :: 0 <= i < |ids| ==> !Hit(items, from, ids[i])
  {
  }

  class OpsBatchProcessor {
    const store: OpsStore
    const state: OpsStateMachine
    const manifest: OpsManifestRegistry
    /** Tokens in the units channel. */
    var units: nat

    constructor (store: OpsStore, state: OpsStateMachine, manifest: OpsManifestRegistry, unitLimit: int)
      ensures this.store == store && this.state == state && this.manifest == manifest
      ensures units == (if unitLimit < 1 then 8 else unitLimit)
    {
      this.store := store;
      this.state := state;
      this.manifest := manifest;
      units := 0;
      new;
      var limit := if unitLimit < 1 then 8 else unitLimit;
      for i := 0 to limit
        invariant units == i && this.store == store && this.state == state && this.manifest == manifest
      {
        units := units + 1;
      }
    }

    /** The write of one item: move, update, report progress. */
    method Write(ctx: OpsContext, claim: OpsManifest, record: OpsRecord, to: OpsStatus) returns (r: ItemResult)
      requires Keyed(store.items) && record.id in store.items && store.items[record.id] == record
      modifies ctx, store, state, manifest
      ensures Keyed(store.items) && ItemDone(old(store.items), store.items, record.status, to, record.id, r)
      ensures ctx.checks <= old(ctx.checks) <= ctx.checks + 1 && (old(ctx.checks) >= 1 ==> r.err != Some(Cancelled))
      ensures manifest.sequence == old(manifest.sequence)
      ensures manifest.manifests == old(manifest.manifests)
           || (r.ok && ProgressResult(old(manifest.manifests), claim.batchID, claim.done + 1) == Ok(manifest.manifests))
    {
      hide Edge, OnlyEdges, ClaimsInOrder;
      var refused := state.Move(record.status, to, "batch");
      if refused.Some? {
        return ItemResult(false, refused);
      }
      var moved := record.(status := to);
      var err := store.Update(ctx, moved, moved.revision);
      if err.Some? {
        return ItemResult(false, err);
      }
      var _ := manifest.Progress(claim.batchID, claim.done + 1);
      return ItemResult(true, None);
    }

    /** What processOne does between taking a unit and the deferred release. */
    method Process(ctx: OpsContext, claim: OpsManifest, from: OpsStatus, to: OpsStatus, id: string)
      returns (r: ItemResult)
      requires Keyed(store.items)
      modifies ctx, store, state, manifest
      ensures Keyed(store.items) && ItemDone(old(store.items), store.items, from, to, id, r)
      ensures ctx.checks <= old(ctx.checks) <= ctx.checks + 2 && (old(ctx.checks) >= 2 ==> r.err != Some(Cancelled))
      ensures manifest.sequence == old(manifest.sequence)
      ensures manifest.manifests == old(manifest.manifests)
           || (r.ok && ProgressResult(old(manifest.manifests), claim.batchID, claim.done + 1) == Ok(manifest.manifests))
    {
      hide CanMove, Edge, ProgressResult;
      var got := store.Get(ctx, id);
      if got.Err? {
        if got.error == NotFound {
          return ItemResult(false, None);
        }
        return ItemResult(false, Some(got.error));
      }
      var record := got.value;
      if record.status != from {
        return ItemResult(false, None);
      }
      r := Write(ctx, claim, record, to);
    }

    /** The unit taken is back on every exit. With no unit free the select waits; alone, only the
        end of the context gets it out. */
    method ProcessOne(ctx: OpsContext, claim: OpsManifest, from: OpsStatus, to: OpsStatus, id: string)
      returns (r: ItemResult)
      requires Keyed(store.items)
      modifies ctx, store, state, manifest, this
      ensures Keyed(store.items) && units == old(units)
      ensures ItemDone(old(store.items), store.items, from, to, id, r)
      ensures old(units) == 0 ==> r == ItemResult(false, Some(Cancelled)) && ctx.checks == 0
      ensures old(units) > 0 ==>
        ctx.checks <= old(ctx.checks) <= ctx.checks + 3 && (old(ctx.checks) >= 3 ==> r.err != Some(Cancelled))
      ensures manifest.sequence == old(manifest.sequence)
      ensures manifest.manifests == old(manifest.manifests)
           || (r.ok && ProgressResult(old(manifest.manifests), claim.batchID, claim.done + 1) == Ok(manifest.manifests))
    {
      hide CanMove, Edge;
      var expired := ctx.Expired();
      if expired {
        return ItemResult(false, Some(Cancelled));
      }
      if units == 0 {
        ctx.AwaitEnd();
        return ItemResult(false, Some(Cancelled));
      }
      units := units - 1;
      r := Process(ctx, claim, from, to, id);
      units := units + 1;
    }

    /** Four checks of the context an id: with that many left the batch is not cancelled. */
    method Loop(ctx: OpsContext, claim: OpsManifest, from: OpsStatus, to: OpsStatus, ids: seq<string>,
                start: OpsBatchResult)
      returns (result: OpsBatchResult, err: Option<OpsError>)
      requires Keyed(store.items) && start.applied == start.skipped == 0 && start.requested == |ids|
      requires claim.batchID in manifest.manifests
      modifies ctx, store, state, manifest, this
      ensures Keyed(store.items) && units == old(units)
      ensures manifest.sequence == old(manifest.sequence)
      ensures claim.batchID in manifest.manifests
      ensures manifest.manifests - {claim.batchID} == old(manifest.manifests) - {claim.batchID}
      ensures result.batchID == start.batchID
      ensures BatchDone(old(store.items), store.items, from, to, ids, result, err)
      ensures old(units) > 0 && old(ctx.checks) >= 4 * |ids| ==> err != Some(Cancelled)
    {
      hide Through, ItemDone, Hit, CanMove, BatchDone, ProgressResult, Keyed;
      ghost var items := store.items;
      result := start;
      StartOfBatch(items, from, to, ids, start);
      for k := 0 to |ids|
        invariant Keyed(store.items) && units == old(units)
        invariant manifest.sequence == old(manifest.sequence) && claim.batchID in manifest.manifests
        invariant manifest.manifests - {claim.batchID} == old(manifest.manifests) - {claim.batchID}
        invariant result.batchID == start.batchID && result.applied + result.skipped == k
        invariant Through(items, store.items, from, to, ids, result)
        invariant units > 0 ==> ctx.checks >= old(ctx.checks) - 4 * k
      {
        var expired := ctx.Expired();
        if expired {
          ThroughIsDone(items, store.items, from, to, ids, result);
          return result, Some(Cancelled);
        }
        ghost var now, claims := store.items, manifest.manifests;
        var r := ProcessOne(ctx, claim, from, to, ids[k]);
        ProgressKeepsOthers(claims, manifest.manifests, claim.batchID, claim.done + 1);
        NextItem(items, now, store.items, from, to, ids, result, r);
        if r.err.Some? {
          return result, r.err;
        }
        result := if r.ok then result.(applied := result.applied + 1) else result.(skipped := result.skipped + 1);
      }
      ThroughIsDone(items, store.items, from, to, ids, result);
      err := None;
    }

    /** On its own. Whatever the exit, the registry and the units are as before; the claim never
        conflicts. */
    method Apply(ctx: OpsContext, owner: string, from: OpsStatus, to: OpsStatus, ids: seq<string>)
      returns (result: OpsBatchResult, err: Option<OpsError>)
      requires Keyed(store.items) && NumbersDrawn(manifest.manifests, manifest.sequence)
      modifies ctx, store, state, manifest, this
      ensures Keyed(store.items) && units == old(units)
      ensures manifest.manifests == old(manifest.manifests) && NumbersDrawn(manifest.manifests, manifest.sequence)
      ensures owner == "" || ids == [] ==>
        err == Some(Invalid) && result == OpsBatchResult("", 0, 0, 0) && store.items == old(store.items)
      ensures owner != "" && ids != [] ==>
        && BatchDone(old(store.items), store.items, from, to, ids, result, err)
        && result.batchID == BatchID(owner, old(manifest.sequence) + 1)
        && (old(units) > 0 && old(ctx.checks) >= 4 * |ids| ==> err != Some(Cancelled))
    {
      hide BatchDone, NumbersDrawn, BatchID, ClaimsInOrder;
      ghost var claims, sequence := manifest.manifests, manifest.sequence;
      NextNumberIsFree(claims, sequence, owner);
      NumbersStayDrawn(claims, sequence, sequence + 1);
      NumbersStayDrawn(claims, sequence, sequence + 2);
      var number := manifest.NextNumber();
      var batchID := BatchID(owner, number);
      BatchIDNotEmpty(owner, number);
      var claimed := manifest.Claim(batchID, owner, |ids|);
      if claimed.Err? {
        return OpsBatchResult("", 0, 0, 0), Some(claimed.error);
      }
      result, err := Loop(ctx, claimed.value, from, to, ids, OpsBatchResult(batchID, |ids|, 0, 0));
      var _ := manifest.Release(batchID);
      assert claims[batchID := claimed.value] - {batchID} == claims;
    }
  }

  lemma StartOfBatch(items: Items, from: OpsStatus, to: OpsStatus, ids: seq<string>, start: OpsBatchResult)
    requires start.applied == start.skipped == 0 && start.requested == |ids|
    ensures Through(items, items, from, to, ids, start)
  {
    var none := ids[..0];
    assert none == [];
  }

  lemma ThroughIsDone(items: Items, now: Items, from: OpsStatus, to: OpsStatus, ids: seq<string>,
                      result: OpsBatchResult)
    requires Through(items, now, from, to, ids, result)
    ensures BatchDone(items, now, from, to, ids, result, Some(Cancelled))
    ensures result.applied + result.skipped == |ids| ==> BatchDone(items, now, from, to, ids, result, None)
  {
  }

  lemma BatchIDNotEmpty(owner: string, n: nat)
    ensures BatchID(owner, n) != ""
  {
  }
}
