/**
  The token contract of BallotToken/src/lib.rs as an object whose fields are
  its storage entries. Each entry point runs its guards in order, returns on
  the first failure and only then writes; its contract ties the new storage and
  the result to the matching function of TokenSpec.
*/
module BallotToken {
  import opened Common
  import opened TokenSpec

  class Token {
    var admin: Option<Address>
    var balances: map<Address, U32>
    var allowances: map<Address, U32>
    var blockings: map<Address, U32>

    /** The storage as a value. */
    function State(): TokenState
      reads this
    {
      TokenState(admin, balances, allowances, blockings)
    }

    ghost predicate Valid()
      reads this
    {
      TokenSpec.Valid(State())
    }

    /** A freshly deployed token: no admin, no entries. */
    constructor ()
      ensures Valid() && State() == TokenSpec.Empty
    {
      admin := None;
      balances := map[];
      allowances := map[];
      blockings := map[];
    }

    method Initialize(admin: Address) returns (r: Outcome<bool, Error>)
      requires Valid()
      modifies this
      ensures Valid()
      ensures (State(), r) == TokenSpec.Initialize(old(State()), admin)
    {
      if HasAdmin(State()) {
        return Err(TokenAlreadyInitialized);
      }
      this.admin := Some(admin);
      return Ok(true);
    }

    method Mint(addr: Address) returns (r: Outcome<U32, Error>)
      requires Valid()
      modifies this
      ensures Valid()
      ensures (State(), r) == TokenSpec.Mint(old(State()), addr)
    {
      if admin.None? {
        return Trap;
      }
      if GetBalance(State(), addr) > 0 {
        return Err(AddressAlreadyHoldsToken);
      }
      var amount: U32 := 1;
      balances := balances[addr := amount];
      return Ok(amount);
    }

    method Balance(addr: Address) returns (b: U32)
      requires Valid()
      ensures b == GetBalance(State(), addr) && b <= 1
    {
      b := GetBalance(State(), addr);
    }

    method Transfer(from: Address, to: Address) returns (r: Outcome<bool, Error>)
      requires Valid()
      modifies this
      ensures Valid()
      ensures (State(), r) == TokenSpec.Transfer(old(State()), from, to)
    {
      TransferErrorOrder(State(), from, to);
      if GetBalance(State(), from) == 0 {
        return Err(AddressDoesNotHoldToken);
      }
      if GetBalance(State(), to) > 0 {
        return Err(AddressAlreadyHoldsToken);
      }
      var amount: U32 := 1;
      balances := balances - {from};
      balances := balances[to := amount];
      return Ok(true);
    }

    method Approve(from: Address, spender: Address, expiration: U32, ledger: Ledger)
      returns (r: Outcome<bool, Error>)
      requires Valid()
      modifies this
      ensures Valid()
      ensures (State(), r) == TokenSpec.Approve(old(State()), from, spender, expiration, ledger.sequence)
    {
      ApproveErrorOrder(State(), from, spender, expiration, ledger.sequence);
      if expiration < ledger.sequence {
        return Err(ExpirationLedgerLessThanCurrentLedger);
      }
      var fromBlocking := Blocking(from, ledger);
      if fromBlocking {
        return Err(AddressAlreadyHasAllowance);
      }
      var spenderAllowed := Allowance(spender, ledger);
      if spenderAllowed {
        return Err(AddressAlreadyHasAllowance);
      }
      if GetBalance(State(), from) < 1 {
        return Err(AddressDoesNotHoldToken);
      }
      if GetBalance(State(), spender) < 1 {
        return Err(AddressDoesNotHoldToken);
      }
      var liveFor: nat := expiration - ledger.sequence;
      allowances := allowances[spender := ledger.sequence + liveFor];
      blockings := blockings[from := ledger.sequence + liveFor];
      return Ok(true);
    }

    method Allowance(addr: Address, ledger: Ledger) returns (b: bool)
      ensures b == TokenSpec.Allowance(State(), addr, ledger.sequence)
    {
      b := addr in allowances && ledger.sequence <= allowances[addr];
    }

    method Blocking(addr: Address, ledger: Ledger) returns (b: bool)
      ensures b == TokenSpec.Blocking(State(), addr, ledger.sequence)
    {
      b := addr in blockings && ledger.sequence <= blockings[addr];
    }

    method Burn(addr: Address) returns (r: Outcome<(), Error>)
      requires Valid()
      modifies this
      ensures Valid()
      ensures (State(), r) == TokenSpec.Burn(old(State()), addr)
    {
      if admin.None? {
        return Trap;
      }
      balances := balances - {addr};
      return Ok(());
    }
  }
}
