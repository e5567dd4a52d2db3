/**
  Vocabulary shared by the token contract and the ballot contract: the host's
  opaque identifiers, the machine-integer ranges the contracts use, the ledger a
  call runs in, the outcome of one invocation, and the "first failing check"
  rule every entry point follows.
*/
module Common {

  /** A host address (an account or a contract); only equality is observable. */
  type Address(==, !new)

  /** A short host symbol; the ballot uses one per candidate. */
  type Symbol(==, !new)

  const U32_MAX: nat := 0xFFFF_FFFF
  const U64_MAX: nat := 0xFFFF_FFFF_FFFF_FFFF

  type U32 = x: nat | x <= U32_MAX
  type U64 = x: nat | x <= U64_MAX

  /** What a call can observe of the ledger it runs in. */
  datatype Ledger = Ledger(sequence: U32, timestamp: U64)

  datatype Option<T> = None | Some(value: T)

  /**
    Result of one contract invocation: a value, one of the contract's numbered
    errors, or a host trap (an `unwrap` of a missing entry, an integer overflow,
    a cross-contract call that failed). An error or a trap commits no write.
  */
  datatype Outcome<T, E> = Ok(value: T) | Err(error: E) | Trap

  /** One guard of an entry point: whether it fails, and the error it reports. */
  datatype Check<E> = Check(fails: bool, error: E)

  /**
    The error of the first failing guard, in order; None when every guard
    passes. Entry points run their guards in a fixed order and return on the
    first failure.
  */
  function FirstFailure<E>(checks: seq<Check<E>>): (r: Option<E>)
    ensures r.None? <==> forall i :: 0 <= i < |checks| ==> !checks[i].fails
    ensures r.Some? ==>
      exists i :: 0 <= i < |checks| && checks[i].fails && checks[i].error == r.value &&
        forall j :: 0 <= j < i ==> !checks[j].fails
  {
    if checks == [] then None
    else if checks[0].fails then Some(checks[0].error)
    else
      var rest := FirstFailure(checks[1..]);
      assert forall i :: 1 <= i < |checks| ==> checks[i] == checks[1..][i - 1];
      rest
  }
}
