/**
  The balance ledger every pallet shares: a free and a reserved balance per account.
  Existential deposits, locks and account reaping belong to the currency library and are not
  part of this model.
 */
module Currency {

  type AccountId = nat

  /** The largest balance the runtime can represent. */
  const MAX_BALANCE: nat := 0xFFFF_FFFF_FFFF_FFFF_FFFF_FFFF_FFFF_FFFF

  /** A sum of two balances as the runtime computes it when it does not check: it wraps around. */
  function WrappedSum(x: nat, y: nat): nat {
    (x + y) % (MAX_BALANCE + 1)
  }

  lemma WrapsDown(x: nat, y: nat)
    ensures WrappedSum(x, y) <= x + y
    ensures x + y <= MAX_BALANCE ==> WrappedSum(x, y) == x + y
    ensures x <= MAX_BALANCE && y <= MAX_BALANCE && x + y > MAX_BALANCE ==> WrappedSum(x, y) == x + y - MAX_BALANCE - 1
  {
  }

  datatype Bank = Bank(free: map<AccountId, nat>, reserved: map<AccountId, nat>) {

    function Free(who: AccountId): nat {
      if who in free then free[who] else 0
    }

    function Reserved(who: AccountId): nat {
      if who in reserved then reserved[who] else 0
    }

    function Reserve(who: AccountId, amount: nat): Bank
      requires amount <= Free(who)
    {
      Bank(free[who := Free(who) - amount], reserved[who := Reserved(who) + amount])
    }

    /** What an unreserve or a slash of the given amount can actually move. */
    function Movable(who: AccountId, amount: nat): nat {
      if amount <= Reserved(who) then amount else Reserved(who)
    }

    function Unreserve(who: AccountId, amount: nat): Bank {
      var moved := Movable(who, amount);
      Bank(free[who := Free(who) + moved], reserved[who := Reserved(who) - moved])
    }

    function SlashReserved(who: AccountId, amount: nat): Bank {
      this.(reserved := reserved[who := Reserved(who) - Movable(who, amount)])
    }

    function Withdraw(who: AccountId, amount: nat): Bank
      requires amount <= Free(who)
    {
      this.(free := free[who := Free(who) - amount])
    }

    function Deposit(who: AccountId, amount: nat): Bank {
      this.(free := free[who := Free(who) + amount])
    }
  }

  class Balances {
    var free: map<AccountId, nat>
    var reserved: map<AccountId, nat>

    constructor (bank: Bank)
      ensures Snapshot() == bank
    {
      free, reserved := bank.free, bank.reserved;
    }

    function Snapshot(): Bank
      reads this
    {
      Bank(free, reserved)
    }

    /** Moves funds from free to reserved, or refuses and changes nothing. */
    method Reserve(who: AccountId, amount: nat) returns (ok: bool)
      modifies this
      ensures ok == (amount <= old(Snapshot()).Free(who))
      ensures Snapshot() == if ok then old(Snapshot()).Reserve(who, amount) else old(Snapshot())
    {
      var available := Snapshot().Free(who);
      ok := amount <= available;
      if ok {
        reserved := reserved[who := Snapshot().Reserved(who) + amount];
        free := free[who := available - amount];
      }
    }

    /** Moves reserved funds back to free, as far as they go. */
    method Unreserve(who: AccountId, amount: nat)
      modifies this
      ensures Snapshot() == old(Snapshot()).Unreserve(who, amount)
    {
      var moved := Snapshot().Movable(who, amount);
      free := free[who := Snapshot().Free(who) + moved];
      reserved := reserved[who := Snapshot().Reserved(who) - moved];
    }

    /** Destroys reserved funds, as far as they go, and hands out what was taken. */
    method SlashReserved(who: AccountId, amount: nat) returns (taken: nat)
      modifies this
      ensures taken == old(Snapshot()).Movable(who, amount)
      ensures Snapshot() == old(Snapshot()).SlashReserved(who, amount)
    {
      taken := Snapshot().Movable(who, amount);
      reserved := reserved[who := Snapshot().Reserved(who) - taken];
    }

    /** Takes free funds out of an account, or refuses and changes nothing. */
    method Withdraw(who: AccountId, amount: nat) returns (ok: bool)
      modifies this
      ensures ok == (amount <= old(Snapshot()).Free(who))
      ensures Snapshot() == if ok then old(Snapshot()).Withdraw(who, amount) else old(Snapshot())
    {
      ok := amount <= Snapshot().Free(who);
      if ok {
        free := free[who := Snapshot().Free(who) - amount];
      }
    }

    method Deposit(who: AccountId, amount: nat)
      modifies this
      ensures Snapshot() == old(Snapshot()).Deposit(who, amount)
    {
      free := free[who := Snapshot().Free(who) + amount];
    }
  }
}
