/**
 * What holds of the kitty registry between calls, and the proofs that every
 * dispatchable keeps it:
 *  - every stored index is below the counter;
 *  - the owner index `KittiesOwned` has the same keys as `Kitties` and agrees
 *    with each kitty's `owner`;
 *  - every kitty's deposit is the configured pledge, and it sits reserved on
 *    its owner: each account's reserved balance is what other modules reserved
 *    on it (`others`, fixed) plus one pledge per kitty it owns.
 */
module KittyInvariants {
  import opened Wrappers
  import opened Balances
  import opened Kitties

  /** The indices of the kitties `a` owns. */
  function OwnedBy(kitties: map<KittyIndex, Kitty>, a: AccountId): set<KittyIndex> {
    set id | id in kitties && kitties[id].owner == a
  }

  /** What other modules hold reserved on `a`. */
  function Held(others: map<AccountId, Balance>, a: AccountId): Balance {
    if a in others then others[a] else 0
  }

  ghost predicate IndicesBelowCounter(s: State) {
    forall id :: id in s.kitties ==> id < s.cnt
  }

  ghost predicate OwnerIndexCoherent(s: State) {
    && s.owned.Keys == s.kitties.Keys
    && forall id :: id in s.kitties ==> s.owned[id] == s.kitties[id].owner
  }

  ghost predicate DepositsReserved(s: State, pledge: Balance, others: map<AccountId, Balance>) {
    && (forall id :: id in s.kitties ==> s.kitties[id].deposit == pledge)
    && forall a :: s.ledger.Reserved(a) == Held(others, a) + pledge * |OwnedBy(s.kitties, a)|
  }

  ghost predicate Inv(s: State, pledge: Balance, others: map<AccountId, Balance>) {
    IndicesBelowCounter(s) && OwnerIndexCoherent(s) && DepositsReserved(s, pledge, others)
  }

  // ---------------------------------------------------------------------------
  // Deposits as kitties are written

  /** Writing kitty `k` at `id` moves `id` to the set of its new owner. */
  lemma OwnedByAfterWrite(kitties: map<KittyIndex, Kitty>, id: KittyIndex, k: Kitty, a: AccountId)
    ensures OwnedBy(kitties[id := k], a) == (OwnedBy(kitties, a) - {id}) + (if k.owner == a then {id} else {})
  {
  }

  /** Writing kitty `k` at `id` takes one pledge off the deposits of the
      previous owner and adds one to those of the new owner. */
  lemma DepositsAfterWrite(kitties: map<KittyIndex, Kitty>, id: KittyIndex, k: Kitty, a: AccountId, pledge: Balance)
    ensures pledge * |OwnedBy(kitties[id := k], a)| + (if id in kitties && kitties[id].owner == a then pledge else 0)
         == pledge * |OwnedBy(kitties, a)| + (if k.owner == a then pledge else 0)
  {
    var before, after := OwnedBy(kitties, a), OwnedBy(kitties[id := k], a);
    OwnedByAfterWrite(kitties, id, k, a);
    if id in before && k.owner != a {
      assert after == before - {id};
      assert |before| == |after| + 1;
      ScaleSucc(pledge, |after|);
    } else if id !in before && k.owner == a {
      assert after == before + {id};
      assert |after| == |before| + 1;
      ScaleSucc(pledge, |before|);
    } else {
      assert after == before;
    }
  }

  lemma ScaleSucc(pledge: nat, n: nat)
    ensures pledge * (n + 1) == pledge * n + pledge
  {
  }

  /** The owner of a stored kitty has at least its deposit reserved. */
  lemma OwnerHoldsDeposit(s: State, pledge: Balance, others: map<AccountId, Balance>, id: KittyIndex)
    requires Inv(s, pledge, others) && id in s.kitties
    ensures s.kitties[id].deposit <= s.ledger.Reserved(s.kitties[id].owner)
  {
    var owner := s.kitties[id].owner;
    var owns := OwnedBy(s.kitties, owner);
    assert id in owns;
    assert |owns| == |owns - {id}| + 1;
    ScaleSucc(pledge, |owns - {id}|);
  }

  // ---------------------------------------------------------------------------
  // mint and exchange keep the invariant

  lemma MintPreservesInv(s: State, pledge: Balance, others: map<AccountId, Balance>, owner: AccountId, dna: Dna, gender: Gender)
    requires Inv(s, pledge, others)
    ensures Mint(s, pledge, owner, dna, gender).Ok? ==>
              && Inv(Mint(s, pledge, owner, dna, gender).value.0, pledge, others)
              && s.cnt !in s.kitties
  {
    var r := Mint(s, pledge, owner, dna, gender);
    if r.Ok? {
      var (t, id) := r.value;
      var k := Kitty(dna, None, gender, owner, pledge);
      assert id !in s.kitties;
      forall a ensures t.ledger.Reserved(a) == Held(others, a) + pledge * |OwnedBy(t.kitties, a)| {
        DepositsAfterWrite(s.kitties, id, k, a, pledge);
      }
    }
  }

  lemma ExchangePreservesInv(s: State, pledge: Balance, others: map<AccountId, Balance>,
                             id: KittyIndex, who: AccountId, to: Option<AccountId>, price: Option<Balance>)
    requires Inv(s, pledge, others)
    ensures Exchange(s, id, who, to, price).Ok? ==> Inv(Exchange(s, id, who, to, price).value, pledge, others)
  {
    var r := Exchange(s, id, who, to, price);
    if r.Ok? {
      var t, k := r.value, s.kitties[id];
      var k' := t.kitties[id];
      OwnerHoldsDeposit(s, pledge, others, id);
      forall a ensures t.ledger.Reserved(a) == Held(others, a) + pledge * |OwnedBy(t.kitties, a)| {
        DepositsAfterWrite(s.kitties, id, k', a, pledge);
      }
    }
  }

  // ---------------------------------------------------------------------------
  // The dispatchables keep the invariant and move deposits and payments

  lemma CreateKittyPreservesInv(s: State, pledge: Balance, others: map<AccountId, Balance>, who: AccountId, rnd: Entropy)
    requires Inv(s, pledge, others)
    ensures Inv(Committed(s, CreateKitty(s, pledge, who, rnd)), pledge, others)
  {
    MintPreservesInv(s, pledge, others, who, rnd.dnaHash, GenGender(rnd.genderByte));
  }

  lemma SellKittyPreservesInv(s: State, pledge: Balance, others: map<AccountId, Balance>,
                              who: AccountId, id: KittyIndex, newPrice: Option<Balance>)
    requires Inv(s, pledge, others)
    ensures Inv(Committed(s, SellKitty(s, who, id, newPrice)), pledge, others)
  {
    ExchangePreservesInv(s, pledge, others, id, who, None, newPrice);
  }

  lemma BuyKittyPreservesInv(s: State, pledge: Balance, others: map<AccountId, Balance>,
                             who: AccountId, id: KittyIndex, bid: Balance)
    requires Inv(s, pledge, others)
    ensures Inv(Committed(s, BuyKitty(s, who, id, bid)), pledge, others)
  {
    ExchangePreservesInv(s, pledge, others, id, who, None, Some(bid));
  }

  lemma TransferPreservesInv(s: State, pledge: Balance, others: map<AccountId, Balance>,
                             who: AccountId, to: AccountId, id: KittyIndex)
    requires Inv(s, pledge, others)
    ensures Inv(Committed(s, Transfer(s, who, to, id)), pledge, others)
  {
    ExchangePreservesInv(s, pledge, others, id, who, Some(to), None);
  }

  lemma BreedPreservesInv(s: State, pledge: Balance, others: map<AccountId, Balance>,
                          who: AccountId, kid1: KittyIndex, kid2: KittyIndex, rnd: Entropy)
    requires Inv(s, pledge, others)
    ensures Inv(Committed(s, Breed(s, pledge, who, kid1, kid2, rnd)), pledge, others)
  {
    var dna := BreedDna(s.kitties, kid1, kid2, rnd.dnaHash);
    if dna.Ok? {
      MintPreservesInv(s, pledge, others, who, dna.value, GenGender(rnd.genderByte));
    }
  }

  /** A transfer moves the kitty's deposit, reserved to reserved, from the
      caller to the recipient; no free balance changes. */
  lemma TransferMovesDeposit(s: State, pledge: Balance, others: map<AccountId, Balance>,
                             who: AccountId, to: AccountId, id: KittyIndex)
    requires Inv(s, pledge, others)
    requires Transfer(s, who, to, id).Ok?
    ensures var t := Transfer(s, who, to, id).value;
            && t.ledger.Reserved(who) + pledge == s.ledger.Reserved(who)
            && t.ledger.Reserved(to) == s.ledger.Reserved(to) + pledge
            && forall a :: t.ledger.Free(a) == s.ledger.Free(a)
  {
    OwnerHoldsDeposit(s, pledge, others, id);
  }

  /** A purchase moves the deposit from the seller's reserved balance to the
      buyer's, and the bid from the buyer's free balance to the seller's. */
  lemma BuyMovesDepositAndBid(s: State, pledge: Balance, others: map<AccountId, Balance>,
                              who: AccountId, id: KittyIndex, bid: Balance)
    requires Inv(s, pledge, others)
    requires BuyKitty(s, who, id, bid).Ok?
    ensures var seller, t := s.kitties[id].owner, BuyKitty(s, who, id, bid).value;
            && t.ledger.Reserved(who) == s.ledger.Reserved(who) + pledge
            && t.ledger.Reserved(seller) + pledge == s.ledger.Reserved(seller)
            && t.ledger.Free(who) + bid == s.ledger.Free(who)
            && t.ledger.Free(seller) == s.ledger.Free(seller) + bid
  {
    OwnerHoldsDeposit(s, pledge, others, id);
  }

  // ---------------------------------------------------------------------------
  // Any run of calls

  lemma DispatchPreservesInv(s: State, pledge: Balance, others: map<AccountId, Balance>, call: Call)
    requires Inv(s, pledge, others)
    ensures Inv(Committed(s, Dispatch(s, pledge, call)), pledge, others)
    ensures s.cnt <= Committed(s, Dispatch(s, pledge, call)).cnt
  {
    match call
    case CreateKittyCall(who, rnd) => CreateKittyPreservesInv(s, pledge, others, who, rnd);
    case SellKittyCall(who, id, newPrice) => SellKittyPreservesInv(s, pledge, others, who, id, newPrice);
    case BuyKittyCall(who, id, bid) => BuyKittyPreservesInv(s, pledge, others, who, id, bid);
    case TransferCall(who, to, id) => TransferPreservesInv(s, pledge, others, who, to, id);
    case BreedKittyCall(who, kid1, kid2, rnd) => BreedPreservesInv(s, pledge, others, who, kid1, kid2, rnd);
  }

  /** Every sequence of calls keeps the invariant, and the counter never
      decreases. */
  lemma {:induction false} RunPreservesInv(s: State, pledge: Balance, others: map<AccountId, Balance>, calls: seq<Call>)
    requires Inv(s, pledge, others)
    ensures Inv(Run(s, pledge, calls), pledge, others)
    ensures s.cnt <= Run(s, pledge, calls).cnt
    decreases |calls|
  {
    if calls != [] {
      var next := Committed(s, Dispatch(s, pledge, calls[0]));
      DispatchPreservesInv(s, pledge, others, calls[0]);
      RunPreservesInv(next, pledge, others, calls[1..]);
    }
  }

  // ---------------------------------------------------------------------------
  // Genesis

  /** Below the counter's maximum, `mint` as written has the effect of the
      transactional one: it either succeeds or changes nothing. */
  lemma MintStepsBelowMax(s: State, pledge: Balance, owner: AccountId, dna: Dna, gender: Gender)
    requires s.cnt < MaxIndex
    ensures var m := Mint(s, pledge, owner, dna, gender);
            MintSteps(s, pledge, owner, dna, gender).0 == if m.Ok? then m.value.0 else s
  {
  }

  /** Below the counter's maximum, `breed_kitty` as written has the effect of
      the transactional one: the same outcome, and a failure changes nothing. */
  lemma BreedStepsBelowMax(s: State, pledge: Balance, who: AccountId, kid1: KittyIndex, kid2: KittyIndex, rnd: Entropy)
    requires s.cnt < MaxIndex
    ensures var (t, outcome) := BreedKittySteps(s, pledge, who, kid1, kid2, rnd);
            var b := Breed(s, pledge, who, kid1, kid2, rnd);
            && t == Committed(s, b)
            && outcome.Ok? == b.Ok?
            && (outcome.Err? ==> outcome.error == b.error)
  {
  }

  /** The genesis build keeps the invariant while the counter cannot
      overflow. */
  lemma {:induction false} GenesisPreservesInv(s: State, pledge: Balance, others: map<AccountId, Balance>,
                                               config: seq<(AccountId, Dna, Gender)>)
    requires Inv(s, pledge, others)
    requires s.cnt + |config| <= MaxIndex
    ensures Inv(Genesis(s, pledge, config), pledge, others)
    ensures Genesis(s, pledge, config).cnt <= s.cnt + |config|
    decreases |config|
  {
    if config != [] {
      var (acct, dna, gender) := config[0];
      MintPreservesInv(s, pledge, others, acct, dna, gender);
      MintStepsBelowMax(s, pledge, acct, dna, gender);
      GenesisPreservesInv(MintSteps(s, pledge, acct, dna, gender).0, pledge, others, config[1..]);
    }
  }

  /** Two configured kitties for two funded accounts are stored under
      indices 0 and 1, in configuration order, and the counter reads 2. */
  lemma GenesisTwoKitties(ledger: Ledger, pledge: Balance, alice: AccountId, dnaA: Dna, genderA: Gender,
                          bob: AccountId, dnaB: Dna, genderB: Gender)
    requires alice != bob
    requires pledge <= ledger.Free(alice) && pledge <= ledger.Free(bob)
    ensures var t := Genesis(State(0, map[], map[], ledger, []), pledge, [(alice, dnaA, genderA), (bob, dnaB, genderB)]);
            && t.cnt == 2
            && t.owned == map[0 := alice, 1 := bob]
            && t.kitties.Keys == {0, 1}
            && t.kitties[0] == Kitty(dnaA, None, genderA, alice, pledge)
            && t.kitties[1] == Kitty(dnaB, None, genderB, bob, pledge)
            && t.ledger.Free(alice) + pledge == ledger.Free(alice)
            && t.ledger.Free(bob) + pledge == ledger.Free(bob)
            && t.ledger.Reserved(alice) == ledger.Reserved(alice) + pledge
            && t.ledger.Reserved(bob) == ledger.Reserved(bob) + pledge
  {
    var config: seq<(AccountId, Dna, Gender)> := [(alice, dnaA, genderA), (bob, dnaB, genderB)];
    var s0 := State(0, map[], map[], ledger, []);
    var s1 := MintSteps(s0, pledge, alice, dnaA, genderA).0;
    var s2 := MintSteps(s1, pledge, bob, dnaB, genderB).0;
    assert |config[1..][1..]| == 0;
    assert Genesis(s0, pledge, config) == Genesis(s1, pledge, config[1..]) == Genesis(s2, pledge, []);
  }

  // ---------------------------------------------------------------------------
  // breed_kitty without rollback

  /** Run as written, without a transactional envelope, `breed_kitty` at the
      counter's maximum fails with `KittyCntOverflow` yet leaves the pledge
      reserved on the caller, backing no kitty; the rolled-back call fails
      with the same error and changes nothing. */
  lemma BreedStepsKeepsReservation(s: State, pledge: Balance, others: map<AccountId, Balance>,
                                   who: AccountId, kid1: KittyIndex, kid2: KittyIndex, rnd: Entropy)
    requires Inv(s, pledge, others)
    requires kid1 in s.kitties && s.kitties[kid1].owner == who
    requires kid2 in s.kitties && s.kitties[kid2].owner == who
    requires s.cnt == MaxIndex && 0 < pledge <= s.ledger.Free(who)
    ensures var (t, outcome) := BreedKittySteps(s, pledge, who, kid1, kid2, rnd);
            && outcome == Err(KittyCntOverflow)
            && t.kitties == s.kitties
            && t.ledger.Reserved(who) == s.ledger.Reserved(who) + pledge
            && !Inv(t, pledge, others)
    ensures Breed(s, pledge, who, kid1, kid2, rnd) == Err(KittyCntOverflow)
  {
  }
}
