/**
 * The proof-of-existence pallet as the runtime holds it: an object whose
 * `Proofs` map and event log the dispatchables update in place once their
 * guards have passed. Each method is proved to leave the storage `Poe`
 * describes and to keep every recorded claim within the length bound.
 */
module PoePallet {
  import opened Wrappers
  import opened Poe

  /** What a dispatchable returns: success, or the error it fails with. */
  function Status(outcome: Result<State, Error>): Result<(), Error> {
    if outcome.Ok? then Ok(()) else Err(outcome.error)
  }

  class Pallet {
    /** `Config::Length`, the longest claim that may be recorded. */
    const length: Length
    /** `Proofs`. */
    var proofs: map<Claim, Proof>
    /** The events deposited so far. */
    var events: seq<Event>

    function Storage(): State
      reads this
    {
      State(proofs, events)
    }

    ghost predicate Valid()
      reads this
    {
      ClaimsBounded(Storage(), length)
    }

    /** An empty registry. */
    constructor (length: Length)
      ensures this.length == length
      ensures Storage() == State(map[], [])
      ensures Valid()
    {
      this.length := length;
      proofs := map[];
      events := [];
    }

    /** `create_claim`. */
    method CreateClaim(who: AccountId, claim: Claim, block: BlockNumber) returns (r: Result<(), Error>)
      requires Valid()
      modifies this
      ensures Valid()
      ensures Storage() == Committed(old(Storage()), Poe.CreateClaim(old(Storage()), length, who, claim, block))
      ensures r == Status(Poe.CreateClaim(old(Storage()), length, who, claim, block))
    {
      DispatchKeepsClaimsBounded(Storage(), length, CreateClaimCall(who, claim, block));
      if |claim| > length {
        return Err(ClaimOverLength);
      }
      if claim in proofs {
        return Err(ProofAlreadyExist);
      }
      proofs := proofs[claim := Proof(who, block)];
      events := events + [ClaimCreate(who, claim)];
      return Ok(());
    }

    /** `trans_claim`. */
    method TransClaim(who: AccountId, claim: Claim, dest: AccountId, block: BlockNumber) returns (r: Result<(), Error>)
      requires Valid()
      modifies this
      ensures Valid()
      ensures Storage() == Committed(old(Storage()), Poe.TransClaim(old(Storage()), who, claim, dest, block))
      ensures r == Status(Poe.TransClaim(old(Storage()), who, claim, dest, block))
    {
      DispatchKeepsClaimsBounded(Storage(), length, TransClaimCall(who, claim, dest, block));
      if claim !in proofs {
        return Err(ClaimNotExist);
      }
      var owner := proofs[claim].owner;
      if who != owner {
        return Err(NotClaimOwner);
      }
      proofs := proofs[claim := Proof(dest, block)];
      events := events + [ClaimTrans(who, dest, claim)];
      return Ok(());
    }

    /** `revoked_claim`. */
    method RevokedClaim(who: AccountId, claim: Claim) returns (r: Result<(), Error>)
      requires Valid()
      modifies this
      ensures Valid()
      ensures Storage() == Committed(old(Storage()), Poe.RevokedClaim(old(Storage()), who, claim))
      ensures r == Status(Poe.RevokedClaim(old(Storage()), who, claim))
    {
      DispatchKeepsClaimsBounded(Storage(), length, RevokedClaimCall(who, claim));
      if claim !in proofs {
        return Err(ClaimNotExist);
      }
      var owner := proofs[claim].owner;
      if who != owner {
        return Err(NotClaimOwner);
      }
      proofs := proofs - {claim};
      return Ok(());
    }
  }
}
