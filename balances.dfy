/**
 * The part of the balances subsystem the kitty registry uses through the
 * `Currency`/`ReservableCurrency` interface: per-account free and reserved
 * totals and the four operations `reserve`, `repatriate_reserved` (into the
 * reserved status), `free_balance` and `transfer`. The ledger is a value; each
 * operation returns the ledger after it.
 */
module Balances {
  import opened Wrappers

  type AccountId = nat
  type Balance = nat

  /** The one failure of the balance operations modelled here. */
  datatype LedgerError = InsufficientBalance

  function Min(x: nat, y: nat): nat {
    if x <= y then x else y
  }

  /** An account missing from a map holds nothing. */
  datatype Ledger = Ledger(free: map<AccountId, Balance>, reserved: map<AccountId, Balance>) {

    /** `free_balance(who)`: what the account may spend; an account the
        ledger has never credited has nothing. */
    function Free(who: AccountId): (b: Balance)
      ensures who !in free ==> b == 0
      ensures who in free ==> b == free[who]
    {
      if who in free then free[who] else 0
    }

    function Reserved(who: AccountId): Balance {
      if who in reserved then reserved[who] else 0
    }

    /** Everything an account holds, free and reserved. */
    function Total(who: AccountId): Balance {
      Free(who) + Reserved(who)
    }

    /** `reserve(who, amount)`: moves `amount` from the free to the reserved
        balance of `who`, or fails when the free balance is short. */
    function Reserve(who: AccountId, amount: Balance): (r: Result<Ledger, LedgerError>)
      ensures r.Err? <==> Free(who) < amount
      ensures r.Ok? ==> r.value.Free(who) + amount == Free(who)
      ensures r.Ok? ==> r.value.Reserved(who) == Reserved(who) + amount
      ensures r.Ok? ==> forall a :: r.value.Total(a) == Total(a)
      ensures r.Ok? ==> forall a :: a != who ==> r.value.Free(a) == Free(a) && r.value.Reserved(a) == Reserved(a)
    {
      if Free(who) < amount then Err(InsufficientBalance)
      else Ok(Ledger(free[who := Free(who) - amount], reserved[who := Reserved(who) + amount]))
    }

    /** `repatriate_reserved(from, to, amount, Reserved)`: moves as much as
        possible, up to `amount`, from the reserved balance of `from` to the
        reserved balance of `to`; between an account and itself nothing moves.
        No free balance changes. */
    function RepatriateReserved(from: AccountId, to: AccountId, amount: Balance): (r: Ledger)
      ensures forall a :: r.Free(a) == Free(a)
      ensures forall a :: a != from && a != to ==> r.Reserved(a) == Reserved(a)
      ensures from == to ==> r.Reserved(from) == Reserved(from)
      ensures from != to && amount <= Reserved(from) ==>
                r.Reserved(from) + amount == Reserved(from) && r.Reserved(to) == Reserved(to) + amount
      ensures from != to && Reserved(from) < amount ==> r.Reserved(from) == 0
      ensures from != to ==> r.Reserved(from) + r.Reserved(to) == Reserved(from) + Reserved(to)
    {
      if from == to then this
      else
        var moved := Min(Reserved(from), amount);
        Ledger(free, reserved[from := Reserved(from) - moved][to := Reserved(to) + moved])
    }

    /** `transfer(from, to, amount, _)`: moves `amount` of free balance; a
        zero amount or a transfer to oneself succeeds and changes nothing, a
        free balance short of `amount` fails. No reserved balance changes. */
    function Transfer(from: AccountId, to: AccountId, amount: Balance): (r: Result<Ledger, LedgerError>)
      ensures r.Err? <==> from != to && Free(from) < amount
      ensures r.Ok? ==> r.value.reserved == reserved
      ensures r.Ok? ==> forall a :: a != from && a != to ==> r.value.Free(a) == Free(a)
      ensures r.Ok? && from == to ==> r.value == this
      ensures r.Ok? && from != to ==>
                r.value.Free(from) + amount == Free(from) && r.value.Free(to) == Free(to) + amount
    {
      if amount == 0 || from == to then Ok(this)
      else if Free(from) < amount then Err(InsufficientBalance)
      else Ok(Ledger(free[from := Free(from) - amount][to := Free(to) + amount], reserved))
    }
  }
}
