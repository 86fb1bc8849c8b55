/**
 * The kitty pallet as the runtime holds it: one object whose fields are the
 * pallet's storage items, updated statement by statement by the dispatchables
 * and the helpers behind them. A `#[transactional]` call keeps a snapshot of
 * the storage and puts it back when the call fails.
 *
 * Every method is proved to leave the storage the specification functions of
 * `Kitties` describe, and to keep the invariant of `KittyInvariants`.
 */
module KittyPallet {
  import opened Wrappers
  import opened Balances
  import opened Kitties
  import opened KittyInvariants

  /** What a dispatchable returns: success, or the error it fails with. */
  function Status(outcome: Result<State, Error>): Result<(), Error> {
    if outcome.Ok? then Ok(()) else Err(outcome.error)
  }

  class Pallet {
    /** `Config::Pledge`, the deposit reserved per kitty. */
    const pledge: Balance
    /** What other modules had reserved when the pallet was built. */
    ghost const others: map<AccountId, Balance>

    /** `KittyCnt`. */
    var cnt: KittyIndex
    /** `Kitties`. */
    var kitties: map<KittyIndex, Kitty>
    /** `KittiesOwned`. */
    var owned: map<KittyIndex, AccountId>
    /** The balances the pallet reserves and transfers through `Currency`. */
    var ledger: Ledger
    /** The events deposited so far. */
    var events: seq<Event>

    function Storage(): State
      reads this
    {
      State(cnt, kitties, owned, ledger, events)
    }

    ghost predicate Valid()
      reads this
    {
      Inv(Storage(), pledge, others)
    }

    /** The genesis build over an empty registry: every configured kitty is
        minted in order and a failed mint is skipped. */
    constructor (pledge: Balance, ledger: Ledger, config: seq<(AccountId, Dna, Gender)>)
      requires |config| < 0x8000_0000_0000_0000
      ensures this.pledge == pledge
      ensures Storage() == Genesis(State(0, map[], map[], ledger, []), pledge, config)
      ensures Valid()
    {
      this.pledge := pledge;
      others := ledger.reserved;
      cnt := 0;
      kitties := map[];
      owned := map[];
      this.ledger := ledger;
      events := [];
      new;
      ghost var start := Storage();
      assert forall a :: OwnedBy(kitties, a) == {};
      var i := 0;
      while i < |config|
        invariant 0 <= i <= |config|
        invariant cnt <= i
        invariant Valid()
        invariant Genesis(Storage(), pledge, config[i..]) == Genesis(start, pledge, config)
      {
        var (acct, dna, gender) := config[i];
        ghost var before := Storage();
        MintStepsBelowMax(before, pledge, acct, dna, gender);
        MintPreservesInv(before, pledge, others, acct, dna, gender);
        var _ := MintSteps(acct, dna, gender);
        assert config[i..][1..] == config[i + 1..];
        i := i + 1;
      }
      assert config[i..] == [];
    }

    /** Puts back a snapshot of the storage. */
    method Restore(s: State)
      modifies this
      ensures Storage() == s
    {
      cnt, kitties, owned, ledger, events := s.cnt, s.kitties, s.owned, s.ledger, s.events;
    }

    /** `breed_dna`: looks up both parents, then overwrites the block's DNA
        hash byte by byte with the bits it selects from them. Changes
        nothing. */
    method BreedDna(kid1: KittyIndex, kid2: KittyIndex, seed: Dna) returns (r: Result<Dna, Error>)
      ensures r == Kitties.BreedDna(kitties, kid1, kid2, seed)
    {
      if kid1 !in kitties {
        return Err(KittyNotExist);
      }
      if kid2 !in kitties {
        return Err(KittyNotExist);
      }
      var dna1, dna2 := kitties[kid1].dna, kitties[kid2].dna;
      var newDna := new bv8[16](i requires 0 <= i < 16 => seed[i]);
      for i := 0 to 16
        invariant forall j :: 0 <= j < i ==> newDna[j] == Mix(seed[j], dna1[j], dna2[j])
        invariant forall j :: i <= j < 16 ==> newDna[j] == seed[j]
      {
        newDna[i] := (newDna[i] & dna1[i]) | (!newDna[i] & dna2[i]);
      }
      assert newDna[..] == seq(16, i requires 0 <= i < 16 => Mix(seed[i], dna1[i], dna2[i]));
      return Ok(newDna[..]);
    }

    /** `mint` statement by statement: the reservation is made first and
        stays when the counter then overflows. */
    method MintSteps(owner: AccountId, dna: Dna, gender: Gender) returns (r: Result<KittyIndex, Error>)
      modifies this
      ensures (Storage(), r) == Kitties.MintSteps(old(Storage()), pledge, owner, dna, gender)
    {
      var reserved := ledger.Reserve(owner, pledge);
      if reserved.Err? {
        return Err(Currency(reserved.error));
      }
      ledger := reserved.value;
      var kitty := Kitty(dna, None, gender, owner, pledge);
      if cnt == MaxIndex {
        return Err(KittyCntOverflow);
      }
      var id := cnt;
      cnt := cnt + 1;
      owned := owned[id := owner];
      kitties := kitties[id := kitty];
      return Ok(id);
    }

    /** `exchange`. The purchase branch works on a local copy of the ledger
        until the last check has passed, which is what its transactional
        envelope makes of the early `repatriate_reserved`. */
    method Exchange(id: KittyIndex, who: AccountId, to: Option<AccountId>, price: Option<Balance>)
      returns (r: Result<(), Error>)
      requires Valid()
      modifies this
      ensures Valid()
      ensures Storage() == Committed(old(Storage()), Kitties.Exchange(old(Storage()), id, who, to, price))
      ensures r == Status(Kitties.Exchange(old(Storage()), id, who, to, price))
    {
      ExchangePreservesInv(Storage(), pledge, others, id, who, to, price);
      if id !in kitties {
        return Err(KittyNotExist);
      }
      var k := kitties[id];
      if k.owner == who {
        if to.Some? {
          var newOwner := to.value;
          if who == newOwner {
            return Err(TransferToSelf);
          }
          ledger := ledger.RepatriateReserved(k.owner, newOwner, k.deposit);
          k := k.(owner := newOwner, price := None);
          owned := owned[id := newOwner];
          events := events + [Transferred(who, newOwner, id)];
        } else {
          k := k.(price := price);
          events := events + [PriceSet(who, id, price)];
        }
      } else {
        if price.None? {
          return Err(NotKittyOwner);
        }
        var bid := price.value;
        if k.price.None? {
          return Err(KittyNotForSale);
        }
        if k.price.value > bid {
          return Err(KittyBidPriceTooLow);
        }
        var withDeposit := ledger.RepatriateReserved(k.owner, who, k.deposit);
        if withDeposit.Free(who) < bid {
          return Err(NotEnoughBalance);
        }
        var seller := k.owner;
        match withDeposit.Transfer(who, seller, bid)
        case Err(e) =>
          return Err(Currency(e));
        case Ok(paid) =>
          ledger := paid;
          k := k.(owner := who, price := None);
          owned := owned[id := who];
          events := events + [Bought(who, seller, id, bid)];
      }
      kitties := kitties[id := k];
      return Ok(());
    }

    /** `create_kitty`. */
    method CreateKitty(who: AccountId, rnd: Entropy) returns (r: Result<(), Error>)
      requires Valid()
      modifies this
      ensures Valid()
      ensures Storage() == Committed(old(Storage()), Kitties.CreateKitty(old(Storage()), pledge, who, rnd))
      ensures r == Status(Kitties.CreateKitty(old(Storage()), pledge, who, rnd))
    {
      CreateKittyPreservesInv(Storage(), pledge, others, who, rnd);
      var snapshot := Storage();
      var minted := MintSteps(who, rnd.dnaHash, GenGender(rnd.genderByte));
      if minted.Err? {
        Restore(snapshot);
        return Err(minted.error);
      }
      events := events + [Created(who, minted.value)];
      return Ok(());
    }

    /** `sell_kitty`. */
    method SellKitty(who: AccountId, id: KittyIndex, newPrice: Option<Balance>) returns (r: Result<(), Error>)
      requires Valid()
      modifies this
      ensures Valid()
      ensures Storage() == Committed(old(Storage()), Kitties.SellKitty(old(Storage()), who, id, newPrice))
      ensures r == Status(Kitties.SellKitty(old(Storage()), who, id, newPrice))
    {
      var isOwner := Kitties.IsKittyOwner(Storage(), id, who);
      if isOwner.Err? {
        return Err(isOwner.error);
      }
      if !isOwner.value {
        return Err(NotKittyOwner);
      }
      r := Exchange(id, who, None, newPrice);
    }

    /** `buy_kitty`. */
    method BuyKitty(who: AccountId, id: KittyIndex, bid: Balance) returns (r: Result<(), Error>)
      requires Valid()
      modifies this
      ensures Valid()
      ensures Storage() == Committed(old(Storage()), Kitties.BuyKitty(old(Storage()), who, id, bid))
      ensures r == Status(Kitties.BuyKitty(old(Storage()), who, id, bid))
    {
      var isOwner := Kitties.IsKittyOwner(Storage(), id, who);
      if isOwner.Err? {
        return Err(isOwner.error);
      }
      if isOwner.value {
        return Err(BuyerIsKittyOwner);
      }
      r := Exchange(id, who, None, Some(bid));
    }

    /** `transfer`. */
    method Transfer(who: AccountId, to: AccountId, id: KittyIndex) returns (r: Result<(), Error>)
      requires Valid()
      modifies this
      ensures Valid()
      ensures Storage() == Committed(old(Storage()), Kitties.Transfer(old(Storage()), who, to, id))
      ensures r == Status(Kitties.Transfer(old(Storage()), who, to, id))
    {
      if who == to {
        return Err(TransferToSelf);
      }
      r := Exchange(id, who, Some(to), None);
    }

    /** `breed_kitty`, with a failed call rolled back. */
    method BreedKitty(who: AccountId, kid1: KittyIndex, kid2: KittyIndex, rnd: Entropy) returns (r: Result<(), Error>)
      requires Valid()
      modifies this
      ensures Valid()
      ensures Storage() == Committed(old(Storage()), Breed(old(Storage()), pledge, who, kid1, kid2, rnd))
      ensures r == Status(Breed(old(Storage()), pledge, who, kid1, kid2, rnd))
    {
      BreedPreservesInv(Storage(), pledge, others, who, kid1, kid2, rnd);
      var snapshot := Storage();
      var own1 := Kitties.IsKittyOwner(snapshot, kid1, who);
      if own1.Err? {
        return Err(own1.error);
      }
      if !own1.value {
        return Err(NotKittyOwner);
      }
      var own2 := Kitties.IsKittyOwner(snapshot, kid2, who);
      if own2.Err? {
        return Err(own2.error);
      }
      if !own2.value {
        return Err(NotKittyOwner);
      }
      var newDna := BreedDna(kid1, kid2, rnd.dnaHash);
      match newDna
      case Err(e) =>
        return Err(e);
      case Ok(dna) =>
        var minted := MintSteps(who, dna, GenGender(rnd.genderByte));
        if minted.Err? {
          Restore(snapshot);
          return Err(minted.error);
        }
        events := events + [Event.BreedKitty(who, kid1, kid2, minted.value)];
        return Ok(());
    }
  }
}
