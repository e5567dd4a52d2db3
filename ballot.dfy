/**
  The ballot contract of Ballot/src/lib.rs as an object: its instance storage
  and the token contract it calls are objects of their own, and each entry
  point reads and writes them through their methods. Every entry point is tied
  to the matching function of BallotSpec on the joint state.
*/
module BallotContract {
  import opened Common
  import TokenSpec
  import opened StorageSpec
  import opened BallotSpec
  import opened BallotStorage
  import opened BallotToken

  class Ballot {
    /** The ballot's instance storage. */
    const store: Storage
    /** The token contract every guard consults. */
    const token: Token
    /** validation::is_valid_date, supplied by the host. */
    const isValidDate: DateRule

    /** The ballot storage and the token storage as one value. */
    function State(): BallotState
      reads store, token
    {
      BallotState(store.State(), token.State())
    }

    ghost predicate Valid()
      reads store, token
    {
      BallotSpec.Valid(State())
    }

    /** A freshly deployed ballot calling `token`; nothing is stored yet. */
    constructor (token: Token, isValidDate: DateRule)
      requires token.Valid()
      ensures this.token == token && this.isValidDate == isValidDate && fresh(store)
      ensures State() == BallotState(StorageSpec.Empty, token.State())
      ensures Valid()
    {
      this.token := token;
      this.isValidDate := isValidDate;
      store := new Storage();
    }

    method Configure(admin: Address, tokenAddr: Address, start: U64, end: U64) returns (r: Outcome<bool, Error>)
      requires Valid()
      modifies store
      ensures Valid()
      ensures (State(), r) == BallotSpec.Configure(old(State()), admin, tokenAddr, start, end)
    {
      ConfigurePreservesValid(State(), admin, tokenAddr, start, end);
      store.StoreConfig(start, end, tokenAddr);
      return Ok(true);
    }

    /**
      vote(voter, candidate). The host rolls back every write of a call that
      traps, so the overflow of the new tally is detected before the first
      write rather than after store_party.
    */
    method Vote(voter: Address, candidate: Symbol, ledger: Ledger) returns (r: Outcome<bool, Error>)
      requires Valid()
      modifies store
      ensures Valid()
      ensures (State(), r) == BallotSpec.Vote(old(State()), voter, candidate, ledger, isValidDate)
    {
      VotePreservesValid(State(), voter, candidate, ledger, isValidDate);
      if store.token.None? {
        return Trap;
      }
      VoteErrorOrder(State(), voter, candidate, ledger, isValidDate);
      var balance := token.Balance(voter);
      if balance < 1 {
        return Err(VoterDoesNotHoldToken);
      }
      if !CheckDates(store.State(), ledger.timestamp, isValidDate) {
        return Err(BallotOutOfDate);
      }
      var blocked := token.Blocking(voter, ledger);
      if blocked {
        return Err(VoterHasHisVoteDelegated);
      }
      if voter in GetVotes(store.State()) {
        return Err(VoterHasAlreadyVoted);
      }
      var delegated := token.Allowance(voter, ledger);
      var dVotes := if delegated then 1 else 0;
      var count := 1 + dVotes + GetCandidateVotesCount(store.State(), candidate);
      if count > U32_MAX {
        return Trap;
      }
      var _ := store.StoreParty(candidate);
      var votes := GetVotes(store.State()) + [voter];
      store.UpdateCandidateCount(candidate, count);
      store.UpdateVotes(votes);
      return Ok(true);
    }

    /**
      delegate(origin, target), with the expiration ledger counted from the
      current ledger; a failing approve traps the call.
    */
    method Delegate(origin: Address, target: Address, ledger: Ledger) returns (r: Outcome<bool, Error>)
      requires Valid()
      modifies token
      ensures Valid()
      ensures (State(), r) == BallotSpec.Delegate(old(State()), origin, target, ledger, isValidDate)
    {
      DelegatePreservesValid(State(), origin, target, ledger, isValidDate);
      if store.token.None? {
        return Trap;
      }
      DelegateErrorOrder(State(), origin, target, ledger, isValidDate);
      var originBalance := token.Balance(origin);
      if originBalance < 1 {
        return Err(VoterDoesNotHoldToken);
      }
      var targetBalance := token.Balance(target);
      if targetBalance < 1 {
        return Err(VoterDoesNotHoldToken);
      }
      if !CheckDates(store.State(), ledger.timestamp, isValidDate) {
        return Err(BallotOutOfDate);
      }
      if origin in GetVotes(store.State()) {
        return Err(VoterOriginHasAlreadyVotedAndCannotDelegate);
      }
      if target in GetVotes(store.State()) {
        return Err(VoterTargetHasAlreadyVotedAndCannotDelegate);
      }
      var blocked := token.Blocking(origin, ledger);
      if blocked {
        return Err(VoterHasHisVoteDelegated);
      }
      var allowed := token.Allowance(target, ledger);
      if allowed {
        return Err(VoterHasDelegatedVote);
      }
      var expiration := DelegateExpiration(GetConfig(store.State()), ledger.sequence);
      if expiration.None? {
        return Trap;
      }
      var approved := token.Approve(origin, target, expiration.value, ledger);
      if !approved.Ok? {
        return Trap;
      }
      return Ok(true);
    }

    /** count(admin): every candidate with its tally. */
    method Count(admin: Address) returns (m: map<Symbol, U32>)
      ensures m == Tally(store.State())
      ensures forall p :: p in m <==> p in GetCandidates(store.State())
      ensures forall p :: p in m ==> m[p] == GetCandidateVotesCount(store.State(), p)
    {
      var pts := GetCandidates(store.State());
      m := map[];
      for i := 0 to |pts|
        invariant forall p :: p in m <==> p in pts[..i]
        invariant forall p :: p in m ==> m[p] == GetCandidateVotesCount(store.State(), p)
      {
        assert pts[..i + 1] == pts[..i] + [pts[i]];
        m := m[pts[i] := GetCandidateVotesCount(store.State(), pts[i])];
      }
      assert pts[..|pts|] == pts;
    }
  }
}
