/** The claim registry of running batches (ops_manifest.go). */
module Manifest {
  import opened OpsModel
  import opened Decimal

  datatype OpsManifest = OpsManifest(id: string, batchID: string, owner: string, scope: int, done: int)

  type Claims = map<string, OpsManifest>

  /** sequence is the counter before the claim draws its own number from it. */
  function ClaimResult(claims: Claims, sequence: nat, batchID: string, owner: string, scope: int): Reply<Claims> {
    if batchID == "" || owner == "" then Err(Invalid)
    else if scope < 1 then Err(Invalid)
    else if batchID in claims then Err(Conflict)
    else Ok(claims[batchID := OpsManifest("mf-" + Pad6(sequence + 1), batchID, owner, scope, 0)])
  }

  function ProgressResult(claims: Claims, batchID: string, done: int): Reply<Claims> {
    if batchID !in claims then Err(NotFound)
    else if done > claims[batchID].scope then Err(Invalid)
    else Ok(claims[batchID := claims[batchID].(done := done)])
  }

  function ReleaseResult(claims: Claims, batchID: string): Reply<Claims> {
    if batchID !in claims then Err(NotFound) else Ok(claims - {batchID})
  }

  /** Claims are filed under their batch id, and no batch reports more than its scope. */
  predicate ClaimsInOrder(claims: Claims) {
    forall b :: b in claims ==> claims[b].batchID == b && claims[b].scope >= 1 && claims[b].done <= claims[b].scope
  }

  /** Releasing right after a claim and any progress restores the registry. */
  lemma ReleaseUndoesClaim(claims: Claims, sequence: nat, batchID: string, owner: string, scope: int, done: int)
    requires ClaimResult(claims, sequence, batchID, owner, scope).Ok?
    ensures var claimed := ClaimResult(claims, sequence, batchID, owner, scope).value;
            var moved := ProgressResult(claimed, batchID, done);
            && ReleaseResult(claimed, batchID) == Ok(claims)
            && (moved.Ok? <==> done <= scope)
            && (moved.Ok? ==> ReleaseResult(moved.value, batchID) == Ok(claims))
  {
    var claimed := ClaimResult(claims, sequence, batchID, owner, scope).value;
    assert claimed - {batchID} == claims;
    if done <= scope {
      assert ProgressResult(claimed, batchID, done).value - {batchID} == claims;
    }
  }

  /** Progress of one claim, made or refused, leaves the others alone. */
  lemma ProgressKeepsOthers(claims: Claims, claims': Claims, b: string, done: int)
    requires b in claims && (claims' == claims || Ok(claims') == ProgressResult(claims, b, done))
    ensures b in claims' && claims' - {b} == claims - {b}
  {
  }

  class OpsManifestRegistry {
    var manifests: Claims
    /** opsManifestSequence, which batch ids are drawn from too. */
    var sequence: nat

    constructor ()
      ensures manifests == map[] && sequence == 0
    {
      manifests := map[];
      sequence := 0;
    }

    /** atomic.AddUint64 on the shared counter. */
    method NextNumber() returns (n: nat)
      modifies this
      ensures n == sequence == old(sequence) + 1 && manifests == old(manifests)
    {
      sequence := sequence + 1;
      n := sequence;
    }

    method Claim(batchID: string, owner: string, scope: int) returns (r: Reply<OpsManifest>)
      modifies this
      ensures match ClaimResult(old(manifests), old(sequence), batchID, owner, scope)
              case Err(e) => r == Err(e) && manifests == old(manifests) && sequence == old(sequence)
              case Ok(claims) => manifests == claims && batchID in claims && r == Ok(claims[batchID]) &&
                                 sequence == old(sequence) + 1
      ensures if batchID == "" || owner == "" || scope < 1 then r == Err(Invalid)
              else if batchID in old(manifests) then r == Err(Conflict)
              else r == Ok(OpsManifest("mf-" + Pad6(sequence), batchID, owner, scope, 0)) &&
                   manifests == old(manifests)[batchID := r.value]
      ensures old(ClaimsInOrder(manifests)) ==> ClaimsInOrder(manifests)
    {
      if batchID == "" || owner == "" {
        return Err(Invalid);
      }
      if scope < 1 {
        return Err(Invalid);
      }
      if batchID in manifests {
        return Err(Conflict);
      }
      sequence := sequence + 1;
      var manifest := OpsManifest("mf-" + Pad6(sequence), batchID, owner, scope, 0);
      manifests := manifests[batchID := manifest];
      return Ok(manifest);
    }

    method Progress(batchID: string, done: int) returns (err: Option<OpsError>)
      modifies this
      ensures sequence == old(sequence)
      ensures match ProgressResult(old(manifests), batchID, done)
              case Err(e) => err == Some(e) && manifests == old(manifests)
              case Ok(claims) => err == None && manifests == claims
      ensures if batchID !in old(manifests) then err == Some(NotFound)
              else if done > old(manifests)[batchID].scope then err == Some(Invalid)
              else err == None && manifests == old(manifests)[batchID := old(manifests)[batchID].(done := done)]
      ensures old(ClaimsInOrder(manifests)) ==> ClaimsInOrder(manifests)
    {
      if batchID !in manifests {
        return Some(NotFound);
      }
      if done > manifests[batchID].scope {
        return Some(Invalid);
      }
      manifests := manifests[batchID := manifests[batchID].(done := done)];
      return None;
    }

    method Release(batchID: string) returns (err: Option<OpsError>)
      modifies this
      ensures sequence == old(sequence)
      ensures match ReleaseResult(old(manifests), batchID)
              case Err(e) => err == Some(e) && manifests == old(manifests)
              case Ok(claims) => err == None && manifests == claims
      ensures if batchID in old(manifests) then err == None && manifests == old(manifests) - {batchID}
              else err == Some(NotFound)
    {
      if batchID !in manifests {
        return Some(NotFound);
      }
      manifests := manifests - {batchID};
      return None;
    }
  }
}
