/**
 * The proof-of-existence registry as a state machine: the map `Proofs` from a
 * claim (a byte string) to its owner and the block it was recorded in, and the
 * event log. The signed caller and the current block number are parameters.
 * A dispatchable either fails with an error and changes nothing, or returns
 * the state after it.
 */
module Poe {
  import opened Wrappers

  type AccountId = nat
  type BlockNumber = nat
  type Claim = seq<bv8>

  /** `Config::Length` is a `u32`. */
  type Length = n: nat | n <= 0xFFFF_FFFF

  /** A stored entry: who holds the claim and since which block. */
  datatype Proof = Proof(owner: AccountId, block: BlockNumber)

  /** `ClaimRevoked` is declared but no call deposits it. */
  datatype Event =
    | ClaimCreate(who: AccountId, claim: Claim)
    | ClaimTrans(who: AccountId, dest: AccountId, claim: Claim)
    | ClaimRevoked(who: AccountId, claim: Claim)

  datatype Error = ProofAlreadyExist | ClaimNotExist | NotClaimOwner | ClaimOverLength

  datatype State = State(proofs: map<Claim, Proof>, events: seq<Event>)

  /** The state a call leaves behind: its new state on success, the old one
      on failure. */
  function Committed(s: State, outcome: Result<State, Error>): State {
    if outcome.Ok? then outcome.value else s
  }

  /** Every entry of `proofs` other than `claim`'s is the same in `t` as in `s`. */
  ghost predicate OthersUnchanged(s: map<Claim, Proof>, t: map<Claim, Proof>, claim: Claim) {
    forall c :: c != claim ==> (c in t <==> c in s) && (c in s ==> t[c] == s[c])
  }

  /** `create_claim`: a claim longer than `length` is refused before anything
      else; a claim already recorded is refused; otherwise the caller holds it
      from `block` on. */
  function CreateClaim(s: State, length: Length, who: AccountId, claim: Claim, block: BlockNumber): (r: Result<State, Error>)
    ensures |claim| > length ==> r == Err(ClaimOverLength)
    ensures |claim| <= length && claim in s.proofs ==> r == Err(ProofAlreadyExist)
    ensures r.Ok? <==> |claim| <= length && claim !in s.proofs
    ensures r.Ok? ==>
              && r.value.proofs.Keys == s.proofs.Keys + {claim}
              && claim in r.value.proofs && r.value.proofs[claim] == Proof(who, block)
              && OthersUnchanged(s.proofs, r.value.proofs, claim)
              && r.value.events == s.events + [ClaimCreate(who, claim)]
  {
    if |claim| > length then Err(ClaimOverLength)
    else if claim in s.proofs then Err(ProofAlreadyExist)
    else Ok(State(s.proofs[claim := Proof(who, block)], s.events + [ClaimCreate(who, claim)]))
  }

  /** `trans_claim`: the holder hands the claim to `dest`, which holds it from
      `block` on. No length check. */
  function TransClaim(s: State, who: AccountId, claim: Claim, dest: AccountId, block: BlockNumber): (r: Result<State, Error>)
    ensures claim !in s.proofs ==> r == Err(ClaimNotExist)
    ensures claim in s.proofs && s.proofs[claim].owner != who ==> r == Err(NotClaimOwner)
    ensures r.Ok? <==> claim in s.proofs && s.proofs[claim].owner == who
    ensures r.Ok? ==>
              && r.value.proofs.Keys == s.proofs.Keys
              && r.value.proofs[claim] == Proof(dest, block)
              && OthersUnchanged(s.proofs, r.value.proofs, claim)
              && r.value.events == s.events + [ClaimTrans(who, dest, claim)]
  {
    if claim !in s.proofs then Err(ClaimNotExist)
    else if s.proofs[claim].owner != who then Err(NotClaimOwner)
    else Ok(State(s.proofs[claim := Proof(dest, block)], s.events + [ClaimTrans(who, dest, claim)]))
  }

  /** `revoked_claim`: the holder removes the claim. No event is deposited. */
  function RevokedClaim(s: State, who: AccountId, claim: Claim): (r: Result<State, Error>)
    ensures claim !in s.proofs ==> r == Err(ClaimNotExist)
    ensures claim in s.proofs && s.proofs[claim].owner != who ==> r == Err(NotClaimOwner)
    ensures r.Ok? <==> claim in s.proofs && s.proofs[claim].owner == who
    ensures r.Ok? ==>
              && r.value.proofs.Keys == s.proofs.Keys - {claim}
              && OthersUnchanged(s.proofs, r.value.proofs, claim)
              && r.value.events == s.events
  {
    if claim !in s.proofs then Err(ClaimNotExist)
    else if s.proofs[claim].owner != who then Err(NotClaimOwner)
    else Ok(State(s.proofs - {claim}, s.events))
  }

  // ---------------------------------------------------------------------------
  // Calls and runs

  /** The pallet's dispatchable calls, each with its signed caller and the
      block it is included in. */
  datatype Call =
    | CreateClaimCall(who: AccountId, claim: Claim, block: BlockNumber)
    | TransClaimCall(who: AccountId, claim: Claim, dest: AccountId, block: BlockNumber)
    | RevokedClaimCall(who: AccountId, claim: Claim)

  function Dispatch(s: State, length: Length, call: Call): Result<State, Error> {
    match call
    case CreateClaimCall(who, claim, block) => CreateClaim(s, length, who, claim, block)
    case TransClaimCall(who, claim, dest, block) => TransClaim(s, who, claim, dest, block)
    case RevokedClaimCall(who, claim) => RevokedClaim(s, who, claim)
  }

  /** The state after dispatching `calls` in order, each failure leaving the
      state as it was. */
  function Run(s: State, length: Length, calls: seq<Call>): State
    decreases |calls|
  {
    if calls == [] then s
    else Run(Committed(s, Dispatch(s, length, calls[0])), length, calls[1..])
  }

  // ---------------------------------------------------------------------------
  // Properties

  /** No recorded claim is longer than `length`. */
  ghost predicate ClaimsBounded(s: State, length: Length) {
    forall c :: c in s.proofs ==> |c| <= length
  }

  /** Only `create_claim` adds keys, and it checks the length first;
      `trans_claim` rewrites an existing key and `revoked_claim` removes one. */
  lemma DispatchKeepsClaimsBounded(s: State, length: Length, call: Call)
    requires ClaimsBounded(s, length)
    ensures ClaimsBounded(Committed(s, Dispatch(s, length, call)), length)
  {
  }

  /** Every run of calls keeps every recorded claim within the length bound. */
  lemma {:induction false} RunKeepsClaimsBounded(s: State, length: Length, calls: seq<Call>)
    requires ClaimsBounded(s, length)
    ensures ClaimsBounded(Run(s, length, calls), length)
    decreases |calls|
  {
    if calls != [] {
      DispatchKeepsClaimsBounded(s, length, calls[0]);
      RunKeepsClaimsBounded(Committed(s, Dispatch(s, length, calls[0])), length, calls[1..]);
    }
  }

  /** A claim created and then revoked by the same caller leaves `Proofs` as
      it was before. */
  lemma CreateThenRevoke(s: State, length: Length, who: AccountId, claim: Claim, block: BlockNumber)
    requires CreateClaim(s, length, who, claim, block).Ok?
    ensures var t := CreateClaim(s, length, who, claim, block).value;
            && RevokedClaim(t, who, claim).Ok?
            && RevokedClaim(t, who, claim).value.proofs == s.proofs
  {
  }

  /** After a transfer to someone else, the former holder can neither
      transfer nor revoke the claim, and the new holder can revoke it. */
  lemma TransferHandsOver(s: State, who: AccountId, claim: Claim, dest: AccountId, block: BlockNumber,
                          other: AccountId, block2: BlockNumber)
    requires TransClaim(s, who, claim, dest, block).Ok? && dest != who
    ensures var t := TransClaim(s, who, claim, dest, block).value;
            && RevokedClaim(t, who, claim) == Err(NotClaimOwner)
            && TransClaim(t, who, claim, other, block2) == Err(NotClaimOwner)
            && RevokedClaim(t, dest, claim).Ok?
  {
  }

  /** A revoked claim can be recorded again, by anyone. */
  lemma RevokeFreesClaim(s: State, length: Length, who: AccountId, claim: Claim,
                         other: AccountId, block: BlockNumber)
    requires RevokedClaim(s, who, claim).Ok? && ClaimsBounded(s, length)
    ensures CreateClaim(RevokedClaim(s, who, claim).value, length, other, claim, block).Ok?
  {
  }
}
