/**
 * The kitty registry as a state machine over its storage: the counter
 * `KittyCnt`, the map `Kitties`, the owner index `KittiesOwned`, the balances
 * ledger that holds each kitty's deposit, and the event log. A dispatchable is
 * a function from the state before the call to the state after it, or to the
 * error it fails with; the call is transactional, so a failure leaves the state
 * as it was (see `Committed`).
 *
 * Host randomness is a parameter (`Entropy`); the signed caller is a parameter.
 */
module Kitties {
  import opened Wrappers
  import opened Balances

  /** `KittyIndex` is `u64` in the runtime the tests configure. */
  const MaxIndex: nat := 0xFFFF_FFFF_FFFF_FFFF
  type KittyIndex = i: nat | i <= MaxIndex

  type Dna = s: seq<bv8> | |s| == 16 witness seq(16, _ => 0 as bv8)

  datatype Gender = Male | Female

  datatype Kitty = Kitty(dna: Dna, price: Option<Balance>, gender: Gender, owner: AccountId, deposit: Balance)

  datatype Event =
    | Created(owner: AccountId, id: KittyIndex)
    | PriceSet(owner: AccountId, id: KittyIndex, price: Option<Balance>)
    | Transferred(from: AccountId, to: AccountId, id: KittyIndex)
    | Bought(buyer: AccountId, seller: AccountId, id: KittyIndex, bid: Balance)
    | BreedKitty(owner: AccountId, parent1: KittyIndex, parent2: KittyIndex, child: KittyIndex)

  /** The pallet's errors, and a balance error passed through from the ledger.
      `ExceedMaxKittyOwned` is declared by the pallet and never raised. */
  datatype Error =
    | ExceedMaxKittyOwned
    | BuyerIsKittyOwner
    | TransferToSelf
    | KittyNotExist
    | NotKittyOwner
    | KittyNotForSale
    | KittyBidPriceTooLow
    | NotEnoughBalance
    | KittyCntOverflow
    | Currency(cause: LedgerError)

  /** What the host's randomness yields during one call: the first byte of
      `random("gender")`, and the 16 bytes `gen_dna` hashes from `random("dna")`
      and the block number. A dispatch calls `gen_dna` at most once (in
      `breed_dna` or in `mint`), so one `dnaHash` per call is enough. */
  datatype Entropy = Entropy(genderByte: bv8, dnaHash: Dna)

  datatype State = State(
    cnt: KittyIndex,
    kitties: map<KittyIndex, Kitty>,
    owned: map<KittyIndex, AccountId>,
    ledger: Ledger,
    events: seq<Event>)

  /** The state a transactional call leaves behind: its new state on success,
      the old one on failure. */
  function Committed(s: State, outcome: Result<State, Error>): State {
    if outcome.Ok? then outcome.value else s
  }

  // ---------------------------------------------------------------------------
  // Attributes derived from host entropy

  /** `gen_gender`: the parity of the first entropy byte. */
  function GenGender(entropyByte: bv8): (g: Gender)
    ensures g == Male <==> entropyByte & 1 == 0
  {
    if entropyByte % 2 == 0 then Male else Female
  }

  /** `child` agrees with `a` on the bits set in `seed` and with `b` on the
      bits clear in it. */
  predicate Inherits(child: bv8, seed: bv8, a: bv8, b: bv8) {
    child & seed == a & seed && child & !seed == b & !seed
  }

  /** One byte of `breed_dna`: every bit set in `seed` is taken from `a`, every
      clear bit from `b`. */
  function Mix(seed: bv8, a: bv8, b: bv8): (r: bv8)
    ensures r & seed == a & seed
    ensures r & !seed == b & !seed
  {
    (seed & a) | (!seed & b)
  }

  /** `breed_dna`: both parents must exist; the child's DNA selects, bit by
      bit, parent 1 where the seed bit is 1 and parent 2 where it is 0. */
  function BreedDna(kitties: map<KittyIndex, Kitty>, kid1: KittyIndex, kid2: KittyIndex, seed: Dna): (r: Result<Dna, Error>)
    ensures r.Err? <==> kid1 !in kitties || kid2 !in kitties
    ensures r.Err? ==> r.error == KittyNotExist
    ensures r.Ok? ==> forall i :: 0 <= i < 16 ==>
              Inherits(r.value[i], seed[i], kitties[kid1].dna[i], kitties[kid2].dna[i])
  {
    if kid1 !in kitties || kid2 !in kitties then Err(KittyNotExist)
    else
      var dna1, dna2 := kitties[kid1].dna, kitties[kid2].dna;
      var child := seq(16, i requires 0 <= i < 16 => Mix(seed[i], dna1[i], dna2[i]));
      Ok(child)
  }

  /** A byte with exactly one bit set. */
  predicate SingleBit(m: bv8) {
    m == 1 || m == 2 || m == 4 || m == 8 || m == 16 || m == 32 || m == 64 || m == 128
  }

  /** The byte-wise selection, read bit by bit: at every single-bit mask `m`
      the child's bit is parent 1's where the seed bit is 1 and parent 2's
      where it is 0. */
  lemma InheritsBitwise(child: bv8, seed: bv8, a: bv8, b: bv8, m: bv8)
    requires Inherits(child, seed, a, b)
    requires SingleBit(m)
    ensures (child & m != 0) == if seed & m != 0 then a & m != 0 else b & m != 0
  {
  }

  /** The selection determines the child byte: `Mix` is the only byte that
      inherits from both parents as `seed` says. */
  lemma InheritsUnique(child: bv8, seed: bv8, a: bv8, b: bv8)
    requires Inherits(child, seed, a, b)
    ensures child == Mix(seed, a, b)
  {
  }

  /** `is_kitty_owner`: fails when the kitty does not exist. */
  function IsKittyOwner(s: State, id: KittyIndex, acct: AccountId): (r: Result<bool, Error>)
    ensures r.Err? <==> id !in s.kitties
    ensures r.Err? ==> r.error == KittyNotExist
    ensures r.Ok? ==> (r.value <==> s.kitties[id].owner == acct)
  {
    if id in s.kitties then Ok(s.kitties[id].owner == acct) else Err(KittyNotExist)
  }

  // ---------------------------------------------------------------------------
  // mint

  /** `mint` as its statements run, without a transactional envelope: the
      deposit is reserved first and stays reserved when the counter then
      overflows. Returns the state after the statements and the outcome.
      The `dna` and `gender` defaults (`gen_dna`, `gen_gender`) are resolved by
      the caller. */
  function MintSteps(s: State, pledge: Balance, owner: AccountId, dna: Dna, gender: Gender): (r: (State, Result<KittyIndex, Error>))
    ensures r.1.Ok? <==> pledge <= s.ledger.Free(owner) && s.cnt < MaxIndex
    ensures s.ledger.Free(owner) < pledge ==> r == (s, Err(Currency(InsufficientBalance)))
    ensures pledge <= s.ledger.Free(owner) && s.cnt == MaxIndex ==>
              && r.1 == Err(KittyCntOverflow)
              && r.0.ledger.Free(owner) + pledge == s.ledger.Free(owner)
              && r.0.ledger.Reserved(owner) == s.ledger.Reserved(owner) + pledge
              && (forall a :: a != owner ==>
                    r.0.ledger.Free(a) == s.ledger.Free(a) && r.0.ledger.Reserved(a) == s.ledger.Reserved(a))
              && r.0.kitties == s.kitties && r.0.owned == s.owned && r.0.cnt == s.cnt
              && r.0.events == s.events
    ensures r.1.Ok? ==> r.1.value == s.cnt && r.0.cnt == s.cnt + 1
  {
    match s.ledger.Reserve(owner, pledge)
    case Err(e) => (s, Err(Currency(e)))
    case Ok(reserved) =>
      var kitty := Kitty(dna, None, gender, owner, pledge);
      if s.cnt == MaxIndex then (s.(ledger := reserved), Err(KittyCntOverflow))
      else
        var id := s.cnt;
        (s.(cnt := id + 1, kitties := s.kitties[id := kitty], owned := s.owned[id := owner], ledger := reserved), Ok(id))
  }

  /** `mint` under a transactional envelope: reserve `pledge` on `owner`, take
      the next index, store the kitty unpriced with `pledge` as its deposit,
      and record its owner in the index. */
  function Mint(s: State, pledge: Balance, owner: AccountId, dna: Dna, gender: Gender): (r: Result<(State, KittyIndex), Error>)
    ensures s.ledger.Free(owner) < pledge ==> r == Err(Currency(InsufficientBalance))
    ensures pledge <= s.ledger.Free(owner) && s.cnt == MaxIndex ==> r == Err(KittyCntOverflow)
    ensures r.Ok? <==> pledge <= s.ledger.Free(owner) && s.cnt < MaxIndex
    ensures r.Ok? ==>
              var (t, id) := r.value;
              && id == s.cnt && t.cnt == s.cnt + 1
              && t.kitties == s.kitties[id := Kitty(dna, None, gender, owner, pledge)]
              && t.owned == s.owned[id := owner]
              && t.ledger.Free(owner) + pledge == s.ledger.Free(owner)
              && t.ledger.Reserved(owner) == s.ledger.Reserved(owner) + pledge
              && (forall a :: a != owner ==> t.ledger.Free(a) == s.ledger.Free(a) && t.ledger.Reserved(a) == s.ledger.Reserved(a))
              && t.events == s.events
  {
    var (t, outcome) := MintSteps(s, pledge, owner, dna, gender);
    if outcome.Ok? then Ok((t, outcome.value)) else Err(outcome.error)
  }

  // ---------------------------------------------------------------------------
  // exchange

  /** `exchange`: the one mutator behind transfer, price setting and purchase.
      The owner with a recipient transfers; the owner without one sets the
      price; anyone else buys with `price` as the bid. */
  function Exchange(s: State, id: KittyIndex, who: AccountId, to: Option<AccountId>, price: Option<Balance>): (r: Result<State, Error>)
    ensures id !in s.kitties ==> r == Err(KittyNotExist)
    // transfer branch
    ensures id in s.kitties && s.kitties[id].owner == who && to == Some(who) ==> r == Err(TransferToSelf)
    ensures id in s.kitties && s.kitties[id].owner == who && to.Some? && to.value != who ==>
              r.Ok? &&
              var k, t := s.kitties[id], r.value;
              && t.kitties == s.kitties[id := k.(owner := to.value, price := None)]
              && t.owned == s.owned[id := to.value]
              && t.ledger == s.ledger.RepatriateReserved(who, to.value, k.deposit)
              && t.events == s.events + [Transferred(who, to.value, id)]
              && t.cnt == s.cnt
    // set-price branch
    ensures id in s.kitties && s.kitties[id].owner == who && to.None? ==>
              && r.Ok?
              && r.value.kitties == s.kitties[id := s.kitties[id].(price := price)]
              && r.value.events == s.events + [PriceSet(who, id, price)]
              && r.value.owned == s.owned && r.value.ledger == s.ledger && r.value.cnt == s.cnt
    // purchase branch, checks in order
    ensures id in s.kitties && s.kitties[id].owner != who && price.None? ==> r == Err(NotKittyOwner)
    ensures id in s.kitties && s.kitties[id].owner != who && price.Some? && s.kitties[id].price.None? ==>
              r == Err(KittyNotForSale)
    ensures (id in s.kitties && s.kitties[id].owner != who && price.Some? && s.kitties[id].price.Some? &&
             s.kitties[id].price.value > price.value) ==> r == Err(KittyBidPriceTooLow)
    ensures (id in s.kitties && s.kitties[id].owner != who && price.Some? && s.kitties[id].price.Some? &&
             s.kitties[id].price.value <= price.value) ==>
              (r.Ok? <==> price.value <= s.ledger.Free(who)) &&
              (r.Err? ==> r.error == NotEnoughBalance)
    ensures id in s.kitties && s.kitties[id].owner != who && r.Ok? ==>
              var k, t, bid := s.kitties[id], r.value, price.value;
              && t.kitties == s.kitties[id := k.(owner := who, price := None)]
              && t.owned == s.owned[id := who]
              && t.ledger.Free(who) + bid == s.ledger.Free(who)
              && t.ledger.Free(k.owner) == s.ledger.Free(k.owner) + bid
              && (forall a :: a != who && a != k.owner ==>
                    t.ledger.Free(a) == s.ledger.Free(a) && t.ledger.Reserved(a) == s.ledger.Reserved(a))
              && t.ledger.Reserved(who) + t.ledger.Reserved(k.owner) == s.ledger.Reserved(who) + s.ledger.Reserved(k.owner)
              && t.ledger.reserved == s.ledger.RepatriateReserved(k.owner, who, k.deposit).reserved
              && t.events == s.events + [Bought(who, k.owner, id, bid)]
              && t.cnt == s.cnt
  {
    if id !in s.kitties then Err(KittyNotExist)
    else
      var k := s.kitties[id];
      if k.owner == who then
        match to
        case Some(newOwner) =>
          if who == newOwner then Err(TransferToSelf)
          else
            var ledger := s.ledger.RepatriateReserved(k.owner, newOwner, k.deposit);
            Ok(s.(kitties := s.kitties[id := k.(owner := newOwner, price := None)],
                  owned := s.owned[id := newOwner],
                  ledger := ledger,
                  events := s.events + [Transferred(who, newOwner, id)]))
        case None =>
          Ok(s.(kitties := s.kitties[id := k.(price := price)],
                events := s.events + [PriceSet(who, id, price)]))
      else
        match price
        case None => Err(NotKittyOwner)
        case Some(bid) =>
          match k.price
          case None => Err(KittyNotForSale)
          case Some(ask) =>
            if ask > bid then Err(KittyBidPriceTooLow)
            else
              var withDeposit := s.ledger.RepatriateReserved(k.owner, who, k.deposit);
              if withDeposit.Free(who) < bid then Err(NotEnoughBalance)
              else
                match withDeposit.Transfer(who, k.owner, bid)
                case Err(e) => Err(Currency(e))
                case Ok(paid) =>
                  Ok(s.(kitties := s.kitties[id := k.(owner := who, price := None)],
                        owned := s.owned[id := who],
                        ledger := paid,
                        events := s.events + [Bought(who, k.owner, id, bid)]))
  }

  // ---------------------------------------------------------------------------
  // Dispatchables

  /** `create_kitty`: mint a kitty with DNA and gender from host entropy and
      announce it. */
  function CreateKitty(s: State, pledge: Balance, who: AccountId, rnd: Entropy): (r: Result<State, Error>)
    ensures s.ledger.Free(who) < pledge ==> r == Err(Currency(InsufficientBalance))
    ensures pledge <= s.ledger.Free(who) && s.cnt == MaxIndex ==> r == Err(KittyCntOverflow)
    ensures r.Ok? <==> pledge <= s.ledger.Free(who) && s.cnt < MaxIndex
    ensures r.Ok? ==>
              && r.value.cnt == s.cnt + 1
              && r.value.kitties == s.kitties[s.cnt := Kitty(rnd.dnaHash, None, GenGender(rnd.genderByte), who, pledge)]
              && r.value.owned == s.owned[s.cnt := who]
              && r.value.ledger.Free(who) + pledge == s.ledger.Free(who)
              && r.value.ledger.Reserved(who) == s.ledger.Reserved(who) + pledge
              && (forall a :: a != who ==>
                    r.value.ledger.Free(a) == s.ledger.Free(a) && r.value.ledger.Reserved(a) == s.ledger.Reserved(a))
              && r.value.events == s.events + [Created(who, s.cnt)]
  {
    var minted :- Mint(s, pledge, who, rnd.dnaHash, GenGender(rnd.genderByte));
    var (t, id) := minted;
    Ok(t.(events := t.events + [Created(who, id)]))
  }

  /** `sell_kitty`: the owner sets or clears the asking price. */
  function SellKitty(s: State, who: AccountId, id: KittyIndex, newPrice: Option<Balance>): (r: Result<State, Error>)
    ensures id !in s.kitties ==> r == Err(KittyNotExist)
    ensures id in s.kitties && s.kitties[id].owner != who ==> r == Err(NotKittyOwner)
    ensures r.Ok? <==> id in s.kitties && s.kitties[id].owner == who
    ensures r.Ok? ==>
              && r.value.kitties == s.kitties[id := s.kitties[id].(price := newPrice)]
              && r.value.owned == s.owned && r.value.ledger == s.ledger && r.value.cnt == s.cnt
              && r.value.events == s.events + [PriceSet(who, id, newPrice)]
  {
    var isOwner :- IsKittyOwner(s, id, who);
    if !isOwner then Err(NotKittyOwner) else Exchange(s, id, who, None, newPrice)
  }

  /** `buy_kitty`: a non-owner buys a listed kitty, paying the bid (not the
      ask) to the seller and taking over the deposit. */
  function BuyKitty(s: State, who: AccountId, id: KittyIndex, bid: Balance): (r: Result<State, Error>)
    ensures id !in s.kitties ==> r == Err(KittyNotExist)
    ensures id in s.kitties && s.kitties[id].owner == who ==> r == Err(BuyerIsKittyOwner)
    ensures id in s.kitties && s.kitties[id].owner != who && s.kitties[id].price.None? ==> r == Err(KittyNotForSale)
    ensures (id in s.kitties && s.kitties[id].owner != who && s.kitties[id].price.Some? &&
             s.kitties[id].price.value > bid) ==> r == Err(KittyBidPriceTooLow)
    ensures (id in s.kitties && s.kitties[id].owner != who && s.kitties[id].price.Some? &&
             s.kitties[id].price.value <= bid && s.ledger.Free(who) < bid) ==> r == Err(NotEnoughBalance)
    ensures r.Ok? <==>
              && id in s.kitties && s.kitties[id].owner != who
              && s.kitties[id].price.Some? && s.kitties[id].price.value <= bid
              && bid <= s.ledger.Free(who)
    ensures r.Ok? ==>
              var k, t := s.kitties[id], r.value;
              && t.kitties == s.kitties[id := k.(owner := who, price := None)]
              && t.owned == s.owned[id := who]
              && t.ledger.Free(who) + bid == s.ledger.Free(who)
              && t.ledger.Free(k.owner) == s.ledger.Free(k.owner) + bid
              && (forall a :: a != who && a != k.owner ==>
                    t.ledger.Free(a) == s.ledger.Free(a) && t.ledger.Reserved(a) == s.ledger.Reserved(a))
              && t.ledger.Reserved(who) + t.ledger.Reserved(k.owner) == s.ledger.Reserved(who) + s.ledger.Reserved(k.owner)
              && t.ledger.reserved == s.ledger.RepatriateReserved(k.owner, who, k.deposit).reserved
              && t.events == s.events + [Bought(who, k.owner, id, bid)]
              && t.cnt == s.cnt
  {
    var isOwner :- IsKittyOwner(s, id, who);
    if isOwner then Err(BuyerIsKittyOwner) else Exchange(s, id, who, None, Some(bid))
  }

  /** `transfer`: the owner hands a kitty to another account. The self-transfer
      check comes before the kitty is looked up. */
  function Transfer(s: State, who: AccountId, to: AccountId, id: KittyIndex): (r: Result<State, Error>)
    ensures who == to ==> r == Err(TransferToSelf)
    ensures who != to && id !in s.kitties ==> r == Err(KittyNotExist)
    ensures who != to && id in s.kitties && s.kitties[id].owner != who ==> r == Err(NotKittyOwner)
    ensures r.Ok? <==> who != to && id in s.kitties && s.kitties[id].owner == who
    ensures r.Ok? ==>
              && r.value.kitties == s.kitties[id := s.kitties[id].(owner := to, price := None)]
              && r.value.owned == s.owned[id := to]
              && r.value.ledger == s.ledger.RepatriateReserved(who, to, s.kitties[id].deposit)
              && r.value.events == s.events + [Transferred(who, to, id)]
              && r.value.cnt == s.cnt
  {
    if who == to then Err(TransferToSelf) else Exchange(s, id, who, Some(to), None)
  }

  /** `breed_kitty` as its statements run: ownership checks on both parents,
      the child's DNA from `breed_dna`, then `mint` to the caller. Without a
      transactional envelope a failed `mint` keeps its reservation. */
  function BreedKittySteps(s: State, pledge: Balance, who: AccountId, kid1: KittyIndex, kid2: KittyIndex, rnd: Entropy): (r: (State, Result<KittyIndex, Error>))
    ensures kid1 !in s.kitties ==> r == (s, Err(KittyNotExist))
    ensures kid1 in s.kitties && s.kitties[kid1].owner != who ==> r == (s, Err(NotKittyOwner))
    ensures kid1 in s.kitties && s.kitties[kid1].owner == who && kid2 !in s.kitties ==> r == (s, Err(KittyNotExist))
    ensures kid1 in s.kitties && s.kitties[kid1].owner == who && kid2 in s.kitties && s.kitties[kid2].owner != who ==>
              r == (s, Err(NotKittyOwner))
  {
    if kid1 !in s.kitties then (s, Err(KittyNotExist))
    else if s.kitties[kid1].owner != who then (s, Err(NotKittyOwner))
    else if kid2 !in s.kitties then (s, Err(KittyNotExist))
    else if s.kitties[kid2].owner != who then (s, Err(NotKittyOwner))
    else
      match BreedDna(s.kitties, kid1, kid2, rnd.dnaHash)
      case Err(e) => (s, Err(e))
      case Ok(dna) =>
        var (t, minted) := MintSteps(s, pledge, who, dna, GenGender(rnd.genderByte));
        match minted
        case Err(e) => (t, Err(e))
        case Ok(child) => (t.(events := t.events + [BreedKitty(who, kid1, kid2, child)]), Ok(child))
  }

  /** `breed_kitty` with every failure rolled back: the caller must own both
      parents; the child goes to the caller under the next index, with DNA
      mixed from the parents by the per-block seed. */
  function Breed(s: State, pledge: Balance, who: AccountId, kid1: KittyIndex, kid2: KittyIndex, rnd: Entropy): (r: Result<State, Error>)
    ensures kid1 !in s.kitties ==> r == Err(KittyNotExist)
    ensures kid1 in s.kitties && s.kitties[kid1].owner != who ==> r == Err(NotKittyOwner)
    ensures kid1 in s.kitties && s.kitties[kid1].owner == who && kid2 !in s.kitties ==> r == Err(KittyNotExist)
    ensures kid1 in s.kitties && s.kitties[kid1].owner == who && kid2 in s.kitties && s.kitties[kid2].owner != who ==>
              r == Err(NotKittyOwner)
    ensures kid1 in s.kitties && s.kitties[kid1].owner == who && kid2 in s.kitties && s.kitties[kid2].owner == who
            && s.ledger.Free(who) < pledge ==>
              r == Err(Currency(InsufficientBalance))
    ensures kid1 in s.kitties && s.kitties[kid1].owner == who && kid2 in s.kitties && s.kitties[kid2].owner == who
            && pledge <= s.ledger.Free(who) && s.cnt == MaxIndex ==>
              r == Err(KittyCntOverflow)
    ensures r.Ok? <==>
              && kid1 in s.kitties && s.kitties[kid1].owner == who
              && kid2 in s.kitties && s.kitties[kid2].owner == who
              && pledge <= s.ledger.Free(who) && s.cnt < MaxIndex
    ensures r.Ok? ==>
              s.cnt in r.value.kitties &&
              var child := r.value.kitties[s.cnt];
              && r.value.cnt == s.cnt + 1
              && r.value.kitties == s.kitties[s.cnt := child]
              && r.value.owned == s.owned[s.cnt := who]
              && child.owner == who && child.price == None && child.deposit == pledge
              && child.gender == GenGender(rnd.genderByte)
              && r.value.ledger.Free(who) + pledge == s.ledger.Free(who)
              && r.value.ledger.Reserved(who) == s.ledger.Reserved(who) + pledge
              && (forall a :: a != who ==>
                    r.value.ledger.Free(a) == s.ledger.Free(a) && r.value.ledger.Reserved(a) == s.ledger.Reserved(a))
              && (forall i :: 0 <= i < 16 ==>
                    Inherits(child.dna[i], rnd.dnaHash[i], s.kitties[kid1].dna[i], s.kitties[kid2].dna[i]))
              && r.value.events == s.events + [BreedKitty(who, kid1, kid2, s.cnt)]
  {
    var (t, outcome) := BreedKittySteps(s, pledge, who, kid1, kid2, rnd);
    if outcome.Ok? then Ok(t) else Err(outcome.error)
  }

  /** The genesis build: mint every configured kitty in order, discarding each
      error (`let _ = mint(...)`), with no transactional envelope. */
  function Genesis(s: State, pledge: Balance, config: seq<(AccountId, Dna, Gender)>): (t: State)
    ensures s.cnt <= t.cnt
    ensures t.events == s.events
    decreases |config|
  {
    if config == [] then s
    else
      var (acct, dna, gender) := config[0];
      Genesis(MintSteps(s, pledge, acct, dna, gender).0, pledge, config[1..])
  }

  // ---------------------------------------------------------------------------
  // The call enum and a run of calls

  /** The pallet's dispatchable calls, each with its signed caller. */
  datatype Call =
    | CreateKittyCall(who: AccountId, rnd: Entropy)
    | SellKittyCall(who: AccountId, id: KittyIndex, newPrice: Option<Balance>)
    | BuyKittyCall(who: AccountId, id: KittyIndex, bid: Balance)
    | TransferCall(who: AccountId, to: AccountId, id: KittyIndex)
    | BreedKittyCall(who: AccountId, kid1: KittyIndex, kid2: KittyIndex, rnd: Entropy)

  function Dispatch(s: State, pledge: Balance, call: Call): Result<State, Error> {
    match call
    case CreateKittyCall(who, rnd) => CreateKitty(s, pledge, who, rnd)
    case SellKittyCall(who, id, newPrice) => SellKitty(s, who, id, newPrice)
    case BuyKittyCall(who, id, bid) => BuyKitty(s, who, id, bid)
    case TransferCall(who, to, id) => Transfer(s, who, to, id)
    case BreedKittyCall(who, kid1, kid2, rnd) => Breed(s, pledge, who, kid1, kid2, rnd)
  }

  /** The state after dispatching `calls` in order, each one committed or
      rolled back. */
  function Run(s: State, pledge: Balance, calls: seq<Call>): State
    decreases |calls|
  {
    if calls == [] then s
    else Run(Committed(s, Dispatch(s, pledge, calls[0])), pledge, calls[1..])
  }
}
