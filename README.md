# Kitty and proof-of-existence pallets, modelled in Dafny

This project models two runtime pallets of a Substrate node.

The **kitty registry** (`pallets/kitties/src/lib.rs`) keeps a counter `KittyCnt`, a map `Kitties` from index to kitty (16 bytes of DNA, an optional asking price, a gender, an owner and a deposit), and an owner index `KittiesOwned`. Each kitty's deposit, the configured `Pledge`, is reserved on its owner's balance. The dispatchables are:

- `create_kitty` mints a kitty from host randomness.
- `sell_kitty` sets or clears the asking price.
- `buy_kitty` buys a listed kitty for a bid at least the ask; the buyer pays the bid and takes over the deposit.
- `transfer` hands a kitty to another account together with its deposit.
- `breed_kitty` mints a child whose DNA mixes two parents bit by bit, steered by a per-block seed.

All of them go through `mint` and `exchange`. The genesis build mints a configured list of kitties.

The **proof-of-existence registry** (`pallets/poe/src/lib.rs`) maps a claim, a byte string no longer than `Length`, to its holder and the block it was recorded in. Its dispatchables are `create_claim`, `trans_claim` and `revoked_claim`.

Layout:

- `wrappers.dfy` — `Option` and `Result`.
- `balances.dfy` — the part of the balances ledger the kitty pallet uses: free and reserved balance per account, with `reserve`, `repatriate_reserved` (into reserved), `free_balance` and `transfer`.
- `kitties.dfy` — the kitty registry's storage as a `State` value. Every dispatchable and helper is a function from the state before to the state after (or to the error), with contracts giving each error case in the order the code checks it and the full effect of success.
- `kitty_invariants.dfy` — the invariant the registry keeps between calls, and proofs that every dispatchable, any run of calls and the genesis build keep it:
  - indices below the counter;
  - the owner index agrees with the kitties;
  - each account's reserved balance is what other modules reserved plus one pledge per kitty it owns.
- `kitty_pallet.dfy` — the pallet as a class whose fields are the storage items. Its methods run the Rust statements in order and are proved to produce the state the functions describe and to keep the invariant. A `#[transactional]` call is modelled by restoring a snapshot on failure. `breed_kitty` carries no `#[transactional]`, but it is rolled back in the same way here, on the assumption stated under "## Findings" that the host rolls back a failed dispatch; the as-written behaviour is kept as `Kitties.BreedKittySteps`.
- `poe.dfy` and `poe_pallet.dfy` — the same two layers for the proof-of-existence registry.

Host inputs are parameters:

- the signed caller;
- the current block number;
- the randomness: the first byte of `random("gender")`, and the 16-byte `blake2_128` hash `gen_dna` derives from `random("dna")` and the block number.

A dispatch calls `gen_dna` at most once: `breed_dna` calls it for its seed (`lib.rs:285`), and `mint` calls it for a default DNA (`lib.rs:302`). So one hash per call is enough.

`KittyIndex` is `u64` as in the tests' runtime, so the counter's maximum is 2^64 − 1. `Length` is a `u32`. Balances are unbounded naturals.

`transfer` rejects a transfer to oneself (`lib.rs:233`) before `exchange` looks the kitty up (`lib.rs:343`). So `transfer(A → A)` of a kitty that does not exist fails with `TransferToSelf`, not `KittyNotExist`.

## Model

| member | source | states |
|---|---|---|
| Balances.Ledger.Free | pallets/kitties/src/lib.rs:397 | The free balance an account may spend, zero for an account the ledger never credited. Reserve, RepatriateReserved and Transfer each state their effect on it; repatriation leaves it unchanged, so the purchase check reads the buyer's balance from before the call. |
| Balances.Ledger.Reserve | pallets/kitties/src/lib.rs:299 | Fails exactly when the free balance is below the amount. On success it moves the amount from free to reserved on that account. Every account's total is unchanged, and every other account is untouched. |
| Balances.Ledger.RepatriateReserved | pallets/kitties/src/lib.rs:350-355 | No free balance changes and no third account changes. Between an account and itself nothing moves. With enough reserved, exactly the amount moves from one reserved balance to the other. When `from` holds less, its reserved balance is emptied. The two parties' reserved sum is always kept. |
| Balances.Ledger.Transfer | pallets/kitties/src/lib.rs:403-408 | Fails exactly when the accounts differ and the sender's free balance is short. On success no reserved balance changes, third parties are untouched, a self-transfer is a no-op, and otherwise exactly the amount moves from the sender's free balance to the recipient's. |
| Kitties.GenGender | pallets/kitties/src/lib.rs:265-271 | The gender is `Male` exactly when bit 0 of the entropy byte is clear, i.e. the byte is even. |
| Kitties.Mix | pallets/kitties/src/lib.rs:287 | One child byte agrees with parent 1 on the seed's set bits and with parent 2 on its clear bits. |
| Kitties.BreedDna | pallets/kitties/src/lib.rs:281-290 | Fails with `KittyNotExist` exactly when either parent is missing. Otherwise each of the 16 child bytes inherits from the parents' bytes as the seed byte says. |
| Kitties.InheritsBitwise | pallets/kitties/src/lib.rs:287 | At every single bit, an inheriting child byte carries parent 1's bit where the seed bit is 1 and parent 2's where it is 0. |
| Kitties.InheritsUnique | pallets/kitties/src/lib.rs:287 | Inheriting as the seed says determines the child byte: it equals the mixed byte. |
| Kitties.IsKittyOwner | pallets/kitties/src/lib.rs:324-332 | Fails with `KittyNotExist` exactly when the kitty is missing. Otherwise it answers whether the account is the kitty's owner. |
| Kitties.MintSteps | pallets/kitties/src/lib.rs:293-322 | `mint` as its statements run. A short free balance fails with `InsufficientBalance` and changes nothing. At the counter's maximum it fails with `KittyCntOverflow`: the counter, maps and events are unchanged, the pledge has still moved from the owner's free balance to their reserved balance, and every other account is untouched. On success the result is the old counter, and the counter goes up by one. |
| Kitties.Mint | pallets/kitties/src/lib.rs:293-322 | Gives the errors in order: reservation first, then overflow. It succeeds exactly when both checks pass. On success it returns the old counter and increments it, stores the kitty unpriced with deposit `Pledge` and the given owner, sets the owner index, moves the pledge from the owner's free to reserved balance, and leaves other accounts and events unchanged. |
| Kitties.Exchange | pallets/kitties/src/lib.rs:334-425 | Covers each branch of the one mutator. A missing kitty gives `KittyNotExist`. An owner transferring to themself gets `TransferToSelf`. An owner transferring to another account changes owner, clears the price, rewrites the index, moves the deposit reserved to reserved and emits `Transferred`. An owner with no recipient only changes the price and emits `PriceSet`. A non-owner gets, in order, `NotKittyOwner` (no bid), `KittyNotForSale`, `KittyBidPriceTooLow`, then `NotEnoughBalance`. Otherwise the buyer gets the kitty unpriced, the bid moves from buyer to seller, the deposit follows the kitty (every reserved balance is that of repatriating it from seller to buyer), bystanders' free and reserved balances are unchanged, and `Bought` is emitted. |
| Kitties.CreateKitty | pallets/kitties/src/lib.rs:180-192 | Gives the `InsufficientBalance` and `KittyCntOverflow` errors, each leaving the state unchanged, and succeeds exactly when neither applies. The new kitty takes the old counter with the entropy's DNA and gender. The pledge moves from the caller's free balance to their reserved balance, every other account is untouched, and `Created(caller, index)` is emitted. |
| Kitties.SellKitty | pallets/kitties/src/lib.rs:195-204 | A missing kitty gives `KittyNotExist` and a non-owner gets `NotKittyOwner`. It succeeds exactly for the owner. Only the price changes, and `PriceSet` is emitted. |
| Kitties.BuyKitty | pallets/kitties/src/lib.rs:208-218 | Errors in order: `KittyNotExist`, `BuyerIsKittyOwner`, `KittyNotForSale`, `KittyBidPriceTooLow`, `NotEnoughBalance`. It succeeds exactly when none applies. Then the buyer becomes owner with no price and the index follows. The bid (not the ask) moves from the buyer's free balance to the seller's, every reserved balance is that of repatriating the deposit from seller to buyer, every other account is untouched, the counter is unchanged, and `Bought(buyer, seller, id, bid)` is emitted. |
| Kitties.Transfer | pallets/kitties/src/lib.rs:225-235 | A transfer to oneself gives `TransferToSelf` before any lookup. Then `KittyNotExist` and `NotKittyOwner`. It succeeds exactly for the owner sending to someone else. Owner and index change, the price is cleared, the ledger is the deposit's reserved-to-reserved repatriation from sender to recipient, the counter is unchanged, and `Transferred` is emitted. |
| Kitties.BreedKittySteps | pallets/kitties/src/lib.rs:242-259 | `breed_kitty` as its statements run. It checks parent 1 (exists, then owned), then parent 2 in the same way, each failure leaving the state unchanged. Below the counter's maximum it agrees with `Kitties.Breed` (see `KittyInvariants.BreedStepsBelowMax`). |
| Kitties.Breed | pallets/kitties/src/lib.rs:242-259 | The same error ladder. With both parents owned, a short free balance fails with `InsufficientBalance`, and otherwise a full counter fails with `KittyCntOverflow`. It succeeds exactly when the caller owns both parents, can pay the pledge and the counter has room. The child goes to the caller under the old counter, unpriced, with deposit `Pledge`, the entropy's gender and DNA inheriting bitwise from the parents by the seed. The pledge moves from the caller's free balance to their reserved balance and every other account is untouched. The index is updated and `BreedKitty(caller, kid1, kid2, child)` is emitted. |
| Kitties.Genesis | pallets/kitties/src/lib.rs:157-166 | Folding `mint` over the configuration never lowers the counter and deposits no event. What it stores is stated by the two genesis lemmas below. |
| KittyInvariants.OwnerHoldsDeposit | pallets/kitties/src/lib.rs:298-307 | Under the invariant, a kitty's deposit is covered by its owner's reserved balance. |
| KittyInvariants.MintPreservesInv | pallets/kitties/src/lib.rs:310-319 | A successful mint keeps the invariant, and the index it takes was free. |
| KittyInvariants.ExchangePreservesInv | pallets/kitties/src/lib.rs:341-424 | Every successful branch of `exchange` keeps the invariant: the index agrees with the owners and the deposits sit on the current owners. |
| KittyInvariants.CreateKittyPreservesInv | pallets/kitties/src/lib.rs:180-192 | `create_kitty`, committed or rolled back, keeps the invariant. |
| KittyInvariants.SellKittyPreservesInv | pallets/kitties/src/lib.rs:195-204 | `sell_kitty` keeps the invariant. |
| KittyInvariants.BuyKittyPreservesInv | pallets/kitties/src/lib.rs:208-218 | `buy_kitty` keeps the invariant. |
| KittyInvariants.TransferPreservesInv | pallets/kitties/src/lib.rs:225-235 | `transfer` keeps the invariant. |
| KittyInvariants.BreedPreservesInv | pallets/kitties/src/lib.rs:242-259 | `breed_kitty` with failures rolled back keeps the invariant. |
| KittyInvariants.TransferMovesDeposit | pallets/kitties/src/lib.rs:350-360 | A successful transfer moves exactly one pledge from the sender's reserved balance to the recipient's, and no free balance changes. |
| KittyInvariants.BuyMovesDepositAndBid | pallets/kitties/src/lib.rs:389-413 | A successful purchase moves one pledge from the seller's reserved balance to the buyer's, and the bid from the buyer's free balance to the seller's. |
| KittyInvariants.DispatchPreservesInv | pallets/kitties/src/lib.rs:175-260 | Any one dispatchable call keeps the invariant and never lowers the counter. |
| KittyInvariants.RunPreservesInv | pallets/kitties/src/lib.rs:175-260 | Any sequence of calls keeps the invariant and never lowers the counter. |
| KittyInvariants.MintStepsBelowMax | pallets/kitties/src/lib.rs:310-315 | Below the counter's maximum, `mint` as written either succeeds or changes nothing, so it needs no rollback. |
| KittyInvariants.BreedStepsBelowMax | pallets/kitties/src/lib.rs:242-259 | Below the counter's maximum, `breed_kitty` as written leaves the state of the rolled-back call and fails or succeeds with it, with the same error. |
| KittyInvariants.GenesisPreservesInv | pallets/kitties/src/lib.rs:157-166 | While the counter cannot overflow, the genesis build keeps the invariant and raises the counter by at most one per configured kitty. |
| KittyInvariants.GenesisTwoKitties | pallets/kitties/src/tests.rs:7-26 | Two configured kitties for two funded accounts end up at indices 0 and 1 with those owners, unpriced, with deposit `Pledge`. The counter reads 2, and each account has one pledge moved from its free balance to its reserved balance. |
| KittyInvariants.BreedStepsKeepsReservation | pallets/kitties/src/lib.rs:242-259 | Run without rollback at the counter's maximum, `breed_kitty` fails with `KittyCntOverflow` but keeps the pledge reserved with no kitty behind it, which breaks the invariant. The rolled-back call fails the same way and changes nothing. |
| KittyPallet.Pallet.constructor | pallets/kitties/src/lib.rs:157-166 | With fewer than 2^63 configured kitties, the build loop leaves exactly the genesis state and establishes the invariant. |
| KittyPallet.Pallet.BreedDna | pallets/kitties/src/lib.rs:281-290 | The in-place loop over the 16-byte array returns exactly what the `breed_dna` function describes. |
| KittyPallet.Pallet.MintSteps | pallets/kitties/src/lib.rs:293-322 | The statement-by-statement `mint` leaves exactly the state and result of `Kitties.MintSteps`. |
| KittyPallet.Pallet.Exchange | pallets/kitties/src/lib.rs:334-425 | The storage after the call is the committed outcome of `Kitties.Exchange`, the returned status matches it, and the invariant is kept. |
| KittyPallet.Pallet.CreateKitty | pallets/kitties/src/lib.rs:180-192 | Same, against `Kitties.CreateKitty`; a failed mint is rolled back. |
| KittyPallet.Pallet.SellKitty | pallets/kitties/src/lib.rs:195-204 | Same, against `Kitties.SellKitty`. |
| KittyPallet.Pallet.BuyKitty | pallets/kitties/src/lib.rs:208-218 | Same, against `Kitties.BuyKitty`. |
| KittyPallet.Pallet.Transfer | pallets/kitties/src/lib.rs:225-235 | Same, against `Kitties.Transfer`. |
| KittyPallet.Pallet.BreedKitty | pallets/kitties/src/lib.rs:242-259 | Same, against the rolled-back `Kitties.Breed`. |
| Poe.CreateClaim | pallets/poe/src/lib.rs:96-111 | An over-long claim gives `ClaimOverLength` before anything else, then a recorded claim gives `ProofAlreadyExist`. It succeeds exactly when neither applies. Then the claim alone is added, held by the caller from the current block, no other entry changes, and `ClaimCreate` is emitted. |
| Poe.TransClaim | pallets/poe/src/lib.rs:115-132 | `ClaimNotExist` is checked before `NotClaimOwner`, and the call succeeds exactly for the holder. The same keys remain, the claim is held by `dest` from the current block, nothing else changes, and `ClaimTrans` is emitted. No length check applies. |
| Poe.RevokedClaim | pallets/poe/src/lib.rs:135-150 | `ClaimNotExist` is checked before `NotClaimOwner`, and the call succeeds exactly for the holder. Exactly that key is removed and no event is deposited. |
| Poe.DispatchKeepsClaimsBounded | pallets/poe/src/lib.rs:96-150 | Each call keeps every recorded claim within `Length`. |
| Poe.RunKeepsClaimsBounded | pallets/poe/src/lib.rs:91-153 | Any sequence of calls keeps every recorded claim within `Length`. |
| Poe.CreateThenRevoke | pallets/poe/src/lib.rs:106-147 | A claim created and then revoked by the same caller leaves `Proofs` exactly as before. |
| Poe.TransferHandsOver | pallets/poe/src/lib.rs:121-127 | After a transfer to someone else, the former holder gets `NotClaimOwner` on revoke and on transfer, and the new holder can revoke. |
| Poe.RevokeFreesClaim | pallets/poe/src/lib.rs:141-147 | Once revoked, a claim within the bound can be created again by anyone. |
| PoePallet.Pallet.constructor | pallets/poe/src/lib.rs:43-51 | The registry starts empty and bounded. |
| PoePallet.Pallet.CreateClaim | pallets/poe/src/lib.rs:96-111 | The storage after the call is the committed outcome of `Poe.CreateClaim`, the status matches it, and the length bound is kept. |
| PoePallet.Pallet.TransClaim | pallets/poe/src/lib.rs:115-132 | Same, against `Poe.TransClaim`. |
| PoePallet.Pallet.RevokedClaim | pallets/poe/src/lib.rs:135-150 | Same, against `Poe.RevokedClaim`. |

## Left out

- Randomness and hashing: `KittyRandomness::random`, `blake2_128` and SCALE encoding are host calls. Their outputs are the `Entropy` parameter.
- Origins: `ensure_signed` is replaced by a caller parameter, so the unsigned-origin failure (`BadOrigin`) is not modelled. In `create_claim` that failure would come after the length check.
- Balances internals: the existential deposit, `KeepAlive` reaping in `transfer`, the `DeadAccount` error of `repatriate_reserved`, and balance overflow. The ledger is an abstract map of free and reserved naturals.
- Kitties.Genesis: its own contract is weaker than what the build does. It states only that the counter never decreases and that no event is emitted. The stored kitties are stated by `KittyInvariants.GenesisPreservesInv` and `KittyInvariants.GenesisTwoKitties`.
- KittyPallet.Pallet.Exchange: the purchase branch computes the repatriated ledger on a local value and writes it only after the balance checks pass. The pallet writes it to storage first and relies on `#[transactional]` to undo it. The committed outcome is the same, but the intermediate storage is not modelled.
- Transactional rollback: modelled as "a failed call leaves the state unchanged". The storage journal itself is not modelled.
- `MaxKittyOwned` and `ExceedMaxKittyOwned` are declared and never enforced. The error exists in the model; no ownership cap is invented. The unused `Something` storage value of the proof-of-existence pallet is left out.
- Weights, `log::info!` and storage hashers have no behaviour to model.
- The mock runtimes are not part of this model. `Pledge`, `Length` and the initial balances are parameters.

## Findings

| source | as written | input that shows it | evidently intended | confidence | as-written member | corrected member |
|---|---|---|---|---|---|---|
| pallets/kitties/src/lib.rs:242-259 | `breed_kitty` has no `#[transactional]`, while `mint` reserves the pledge (line 299) before the counter's overflow check (line 313). | The caller owns both parents, `KittyCnt` is u64::MAX, and the caller's free balance is at least `Pledge` > 0. | A failed breed leaves no reservation: every reserved pledge backs a kitty. | not executed; applies only if the host does not roll back a failed dispatch | KittyInvariants.BreedStepsKeepsReservation | KittyInvariants.BreedPreservesInv |
