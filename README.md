# Token-gated ballot

A Dafny model of a two-contract voting system for the Soroban platform:

- **BallotToken** issues at most one unit per address (`mint`,
  `transfer`, `burn`). It also keeps, in temporary storage that expires at a
  ledger sequence, two flags per delegation: `allowance(spender)` (the target holds a
  delegated vote) and `blocking(from)` (the origin has given its vote away).
- **Ballot** keeps a list of candidates, a list of addresses that have voted, one tally per
  candidate, a voting window and the token's address. `vote` requires the voter to hold the
  token, to be inside the window, not to have delegated and not to have voted; a voter holding
  a delegated vote counts twice. `delegate` checks both parties and asks the token to `approve`
  the delegation. `count` returns every candidate with its tally.

Each source file is modelled twice:

- a value-level module of pure functions, one per entry point, from the storage before a call
  to the storage after it and the call's outcome (`TokenSpec`, `StorageSpec`, `BallotSpec`),
  with the lemmas that state what the contracts promise;
- an imperative module with a class whose fields are the storage entries and whose methods run
  the guards in the source's order, return on the first failure and then write
  (`BallotToken.Token`, `BallotStorage.Storage`, `BallotContract.Ballot`). Each method's
  `ensures` ties the new state and the result to the matching function.

An outcome is `Ok`, one of the contract's numbered errors, or `Trap` — a host abort: an
`unwrap` of a missing entry, a u32 or u64 overflow, or a failed cross-contract call. Errors and
traps commit no write. A temporary entry is modelled as the last ledger sequence at which it is
live; it reads as absent afterwards.

## Model

| member | source | states |
|---|---|---|
| Common.FirstFailure | Ballot/src/lib.rs:87-109 | returns None exactly when no guard fails, otherwise the error of the first failing guard with every earlier guard passing (the early-return chain every entry point uses) |
| TokenSpec.GetBalance | BallotToken/src/lib.rs:30-37 | the balance is 1 exactly when an entry exists, and never more than 1 in a valid token state |
| TokenSpec.InitializeOnlyOnce | BallotToken/src/lib.rs:45-54 | initialize succeeds iff no admin is recorded and then records the given one; in every state with an admin it fails with #1 and changes nothing, so the call after a successful one always fails |
| TokenSpec.MintSpec | BallotToken/src/lib.rs:56-69 | mint fails with #2 iff the address already holds the token and then changes nothing; otherwise it returns 1, sets that balance to 1 and changes nothing else |
| TokenSpec.MintTwiceFails | BallotToken/src/lib.rs:61-63 | minting the same address a second time fails with #2 |
| TokenSpec.UninitializedTokenTraps | BallotToken/src/lib.rs:58 | before initialize, mint and burn abort on the missing admin and change nothing |
| TokenSpec.TransferErrorOrder | BallotToken/src/lib.rs:76-95 | transfer fails with #3 iff the sender holds nothing, with #2 iff the receiver already holds, succeeds iff neither; a failure changes nothing |
| TokenSpec.TransferMovesToken | BallotToken/src/lib.rs:87-94 | a successful transfer leaves the sender at 0 and the receiver at 1, every other balance as it was, the number of holders the same, and the delegation flags untouched |
| TokenSpec.ApproveErrorOrder | BallotToken/src/lib.rs:97-117 | approve returns #5 iff the expiration is below the current ledger, then #4 iff from is blocking or spender already holds an allowance, then #3 iff either holds no token; it succeeds iff none applies, and a failure changes nothing |
| TokenSpec.ApproveSetsFlags | BallotToken/src/lib.rs:119-133 | after a successful approve, allowance(spender) and blocking(from) hold at exactly the ledgers up to the expiration; no balance and no other address's flags change |
| TokenSpec.BurnClearsBalance | BallotToken/src/lib.rs:153-162 | once initialized, burn always succeeds, leaves the address at 0 and every other balance and flag as it was |
| TokenSpec.OperationsKeepBalancesBinary | BallotToken/src/lib.rs:65-67 | every token entry point keeps all balances at 0 or 1 |
| BallotToken.Token.Initialize | BallotToken/src/lib.rs:45-54 | new storage and result are those of TokenSpec.Initialize; balances stay 0 or 1 |
| BallotToken.Token.Mint | BallotToken/src/lib.rs:56-69 | new storage and result are those of TokenSpec.Mint; balances stay 0 or 1 |
| BallotToken.Token.Balance | BallotToken/src/lib.rs:71-74 | returns the stored balance, which is at most 1 |
| BallotToken.Token.Transfer | BallotToken/src/lib.rs:76-95 | new storage and result are those of TokenSpec.Transfer; balances stay 0 or 1 |
| BallotToken.Token.Approve | BallotToken/src/lib.rs:97-133 | new storage and result are those of TokenSpec.Approve, whose entries live for expiration minus the current ledger |
| BallotToken.Token.Allowance | BallotToken/src/lib.rs:135-142 | true exactly while the spender's allowance entry is live |
| BallotToken.Token.Blocking | BallotToken/src/lib.rs:144-151 | true exactly while the origin's blocking entry is live |
| BallotToken.Token.Burn | BallotToken/src/lib.rs:153-162 | new storage and result are those of TokenSpec.Burn |
| StorageSpec.StoreParty | Ballot/src/storage.rs:37-46 | appends the candidate iff it was absent and reports whether it did; the candidate is listed afterwards and no other entry changes |
| StorageSpec.UpdateCandidateCount | Ballot/src/storage.rs:64-66 | reading that candidate then gives the new count, every other candidate its old count |
| StorageSpec.UpdateVotes | Ballot/src/storage.rs:68-70 | the stored voter list becomes the given one and nothing else changes |
| StorageSpec.StoreConfig | Ballot/src/storage.rs:72-80 | reading the window and the token then gives the new values; candidates, voters and tallies are untouched |
| StorageSpec.EmptyDefaults | Ballot/src/storage.rs:26-62 | before any write, the getters give no candidates, no voters, tally 0 and the window {0, 0} (the Default of Config at lines 15-19) |
| StorageSpec.StorePartyIdempotent | Ballot/src/storage.rs:37-46 | storing a candidate twice changes nothing the second time, and the candidate list never holds a duplicate |
| StorageSpec.ReconfigureOverwrites | Ballot/src/storage.rs:72-80 | a second store_config simply replaces the first |
| BallotStorage.Storage.StoreParty | Ballot/src/storage.rs:37-46 | new entries and result are those of StorageSpec.StoreParty |
| BallotStorage.Storage.UpdateCandidateCount | Ballot/src/storage.rs:64-66 | new entries are those of StorageSpec.UpdateCandidateCount |
| BallotStorage.Storage.UpdateVotes | Ballot/src/storage.rs:68-70 | new entries are those of StorageSpec.UpdateVotes |
| BallotStorage.Storage.StoreConfig | Ballot/src/storage.rs:72-80 | new entries are those of StorageSpec.StoreConfig |
| BallotSpec.DelegateExpiration | Ballot/src/lib.rs:169-172 | the corrected line 170 (see Findings): a delegation expires at the current ledger plus the window's length in ledgers (seconds / 5 + 60, truncated to u32), never before the current ledger; absent exactly when `to < from` or the u32 addition overflows |
| BallotSpec.VoteErrorOrder | Ballot/src/lib.rs:87-127 | vote returns #7 iff the voter holds no token, then #6 iff outside the window, #1 iff its vote is delegated away, #2 iff it has voted; it aborts iff the new tally would exceed u32 and succeeds otherwise; a failure changes nothing |
| BallotSpec.VoteEffect | Ballot/src/lib.rs:111-124 | a successful vote appends the voter, adds the candidate only if new, raises its tally by 2 with a live incoming delegation and by 1 otherwise, and changes no other tally, the window, the token address or the token |
| BallotSpec.VotedVoterCannotVote | Ballot/src/lib.rs:107-109 | a listed voter's vote never succeeds, and fails with #2 once the earlier guards pass |
| BallotSpec.NoDoubleVote | Ballot/src/lib.rs:107-124 | after a successful vote, a second vote by the same address fails whatever the candidate |
| BallotSpec.BlockedVoterCannotVote | Ballot/src/lib.rs:103-105 | a voter with a live blocking entry cannot vote and gets #1 once the earlier guards pass |
| BallotSpec.VoteOutOfDate | Ballot/src/lib.rs:50-58 | with a configured window whose rule rejects the timestamp, a token holder's vote fails with #6 and changes nothing |
| BallotSpec.UnsetWindowAcceptsAnyTime | Ballot/src/lib.rs:50-58 | when either bound of the window is 0, as before configure, every timestamp passes |
| BallotSpec.UnconfiguredBallotTraps | Ballot/src/storage.rs:93-96 | before configure, vote and delegate abort on the missing token address and change nothing |
| BallotSpec.TallyAfterVote | Ballot/src/lib.rs:178-190 | after a successful vote, count reports the candidate at its old tally plus the vote's weight and every other candidate as before |
| BallotSpec.DelegateErrorOrder | Ballot/src/lib.rs:129-176 | delegate returns #7 iff either party holds no token, then #6, #4 (origin voted), #5 (target voted), #1 (origin already delegated), #3 (target already holds a delegation), each iff the earlier guards pass; then, with the corrected expiration of line 170 (see Findings), it aborts iff that expiration is absent and succeeds otherwise; a failure changes nothing |
| BallotSpec.DelegateEffect | Ballot/src/lib.rs:169-174 | a successful delegate (with the corrected expiration) changes no ballot storage, no balance and not the token's admin; it makes the origin blocked and the target a delegation holder at exactly the ledgers up to the expiration, which is not before the current ledger, and leaves every other address's blocking and allowance as they were |
| BallotSpec.VotedVoterCannotDelegate | Ballot/src/lib.rs:152-154 | an address that has voted cannot delegate |
| BallotSpec.DelegatedOriginCannotVote | Ballot/src/lib.rs:103-105 | while the delegation is live, the origin's vote fails, with #1 whenever the window accepts the call |
| BallotSpec.DelegationWeight | Ballot/src/lib.rs:115-120 | while the delegation is live, the target's successful vote raises the candidate's tally by exactly 2 |
| BallotSpec.DelegateTwiceFails | Ballot/src/lib.rs:161-163 | repeating a live delegation fails with #1 |
| BallotSpec.DelegateToBusyTargetFails | Ballot/src/lib.rs:165-167 | while a delegation to a target is live, another eligible voter's delegation to the same target fails with #3 |
| BallotSpec.ExpiredDelegationLetsOriginVote | Ballot/src/lib.rs:103-105 | once the delegation has expired, an origin that has not voted can vote again |
| BallotSpec.VotesOnlyGrow | Ballot/src/lib.rs:81-176 | no entry point removes a voter or lowers a tally; delegate and configure touch neither |
| BallotSpec.VotePreservesValid | Ballot/src/lib.rs:87-127 | vote keeps the invariant: balances 0 or 1, no voter or candidate listed twice, tallies kept for exactly the listed candidates |
| BallotSpec.DelegatePreservesValid | Ballot/src/lib.rs:129-176 | delegate keeps the same invariant |
| BallotSpec.ConfigurePreservesValid | Ballot/src/lib.rs:81-85 | configure keeps the same invariant |
| BallotSpec.AsWrittenDelegateOutcome | Ballot/src/lib.rs:169-174 | as written, once every ballot guard passes, delegate succeeds iff the current ledger is at most the window's length in ledgers; on any later ledger approve answers #5 and the call traps, changing nothing |
| BallotSpec.AsWrittenDelegateRejectedLate | Ballot/src/lib.rs:170-172 | with the tests' window at ledger 100000, the expiration as written is 62699, approve answers #5 and delegate aborts, while the intended expiration succeeds |
| BallotSpec.VoteAccepted | Ballot/src/lib.rs:87-127 | when every guard passes and the tally has room, vote returns true |
| BallotSpec.VoteStep | Ballot/src/lib.rs:111-124 | such a vote is exactly one write: candidate appended if new, voter appended, tally raised by the weight |
| BallotSpec.TestSetup | Ballot/src/test.rs:12-42 | initialize, five mints and configure produce the run's starting state |
| BallotSpec.TestVote0 | Ballot/src/test.rs:33-46 | the first vote adds Laborist with tally 1 |
| BallotSpec.TestVote1 | Ballot/src/test.rs:33-46 | the second vote adds Conserv with tally 1 |
| BallotSpec.TestVote2 | Ballot/src/test.rs:33-46 | the third vote raises Conserv to 2 |
| BallotSpec.TestDelegate | Ballot/src/test.rs:52 | voter 3 delegating to voter 4 sets both entries to expire at ledger 62699 |
| BallotSpec.TestVote4 | Ballot/src/test.rs:52-54 | voter 4's vote for Conserv counts twice, raising it to 4 |
| BallotSpec.EndToEnd | Ballot/src/test.rs:33-60 | count reports {Laborist: 1, Conserv: 2} after the three votes and {Laborist: 1, Conserv: 4} after the delegation and the fourth vote |
| BallotContract.Ballot.constructor | Ballot/src/lib.rs:75-76 | a new ballot has empty storage and calls the given token |
| BallotContract.Ballot.Configure | Ballot/src/lib.rs:81-85 | new state and result are those of BallotSpec.Configure; the invariant is kept |
| BallotContract.Ballot.Vote | Ballot/src/lib.rs:87-127 | new state and result are those of BallotSpec.Vote; the invariant is kept |
| BallotContract.Ballot.Delegate | Ballot/src/lib.rs:129-176 | new state and result are those of BallotSpec.Delegate, the corrected line 170 (see Findings); the invariant is kept |
| BallotContract.Ballot.Count | Ballot/src/lib.rs:178-190 | the returned map has exactly the listed candidates as keys, each mapped to its stored tally |

## Left out

- Authorization (`require_auth`) is not modelled: any caller is accepted. In particular nothing
  restricts who may call `configure` or `count`, so a second `configure` silently replaces the
  window and the token address (ReconfigureOverwrites).
- The ballot always calls the one modelled token object, whatever address `configure` records;
  only whether a token address was ever recorded is observable.
- `validation::is_valid_date` is not part of this model: it is a parameter `isValidDate` of
  every operation that consults the window.
- Storage lifetimes: the host's minimum lifetime of a temporary entry and the expiry of
  persistent balances are not modelled. A delegation entry is live exactly up to the expiration
  approve receives; in the host it may live longer when that is below the minimum lifetime.
- BallotSpec.ExpiredDelegationLetsOriginVote: exclusivity between origin and target is stated
  only while the delegation entry lives. After it expires the origin may vote even though its
  right was already used through the target. That is what the code does.
- BallotContract.Ballot.Vote: the overflow of the new tally is checked before the first write
  rather than after store_party. The host rolls back a call that aborts, so the outcome is the same.
- BallotSpec.DelegateExpiration, BallotSpec.DelegateErrorOrder, BallotSpec.DelegateEffect,
  BallotContract.Ballot.Delegate: these model the corrected line 170 of Ballot/src/lib.rs, with the
  expiration counted from the current ledger. The code as written passes the window's length as an
  absolute ledger and traps on any later ledger; that behaviour is BallotSpec.DelegateAsWritten
  (see Findings and BallotSpec.AsWrittenDelegateOutcome).
- The build configuration is not part of this model. Treating a u64 underflow (`to - from` with
  `to < from` at Ballot/src/lib.rs:170) or a u32 overflow (the tally at line 120) as a trap assumes
  the contracts are built with overflow checks on; without them the arithmetic would wrap instead.
- Error encoding (the contract error numbers as host values), events and the Soroban client
  plumbing are not modelled; errors carry their numbers through `Code()`.
- Ballot/src/test.rs is modelled only for vote_test. The negative tests are covered by the
  error-order lemmas rather than replayed one by one.

## Findings

| source | as written | input that shows it | evidently intended | confidence | as-written member | corrected member |
|---|---|---|---|---|---|---|
| Ballot/src/lib.rs:170-172 | the delegation's length in ledgers, `(to - from) / 5 + 60`, is passed to approve as the absolute expiration ledger | window 1689238800..1689551999 at ledger sequence 100000: the expiration is 62699 < 100000, so approve returns #5 and delegate aborts | the expiration is the current ledger plus that length, so delegation works at any ledger inside the window | not executed | BallotSpec.AsWrittenExpiration, BallotSpec.DelegateAsWritten (shown by BallotSpec.AsWrittenDelegateOutcome and BallotSpec.AsWrittenDelegateRejectedLate) | BallotSpec.DelegateExpiration, BallotSpec.Delegate (proved by BallotSpec.DelegateEffect) |
