# StellarConduit contracts: a verified model

A Dafny model of the four StellarConduit contracts (relay registry, fee distributor, treasury and
dispute resolver) and of the token three of them move, with proofs of what every run of calls keeps.
`dafny verify dfyconfig.toml` checks everything.

## How it is built

Every public call is one atomic step. A step either completes, returns an error code, or panics, and in
the last two cases the host keeps the old state, also across a cross-contract call. Each contract appears
twice:

- as a **class** whose fields are the contract's stores. Its methods write them in the order of the
  contract and put them back where the host would (`RegistryContract`, `TreasuryContract`,
  `DistributorContract`, `DisputeContract`, `Token.TokenContract`);
- as a **value** with one effect function per call (`Registry`, `Treasury`, `Settlement`, `Dispute`).
  Every method is proved to have exactly that effect and reply, in every case, and the theorems are
  about these effects and about runs (`Run`) of any length, in any order, by any callers.

The invariants relate the stores to each other and to the logs. That stores and logs are what the callers
asked for is proved against the transactions themselves (the `...History` modules): amounts, parties, ledger
times and sequences, and the configuration in force, are read off the calls of a run. For each call a lemma
named `...Exactly` gives the condition on which it completes and each error code, in a reachable state.

The numeric types are bounded as in the contracts (`U32`, `U64`, `I128`), checked operations fail where
theirs fail, and unchecked ones panic (the release profile has overflow checks on).

| file | contents |
|---|---|
| `Base.dfy`, `MapSum.dfy`, `Council.dfy`, `Token.dfy` | integers and outcomes, sums over maps, the approval loop, the token |
| `Registry.dfy`, `RegistryContract.dfy` | relay registry: effects and class |
| `RegistrySafety.dfy`, `RegistryStatus.dfy`, `RegistryTimeLock.dfy`, `RegistryOverwriting.dfy` | conservation, solvency; statuses and the node count after `initialize`; the unstaking lock over the log; what overwriting loses |
| `RegistryCalls.dfy`, `RegistryHistory.dfy` | when each call completes and whom it may touch; the stores and the log against the transactions, the lock and slashing over transactions |
| `Fees.dfy` | the two nested divisions and their rounding |
| `Treasury.dfy`, `TreasuryContract.dfy`, `TreasurySafety.dfy`, `TreasuryCalls.dfy` | treasury: effects, class, replay of the log, when each call completes |
| `Settlement.dfy`, `DistributorContract.dfy`, `SettlementSafety.dfy`, `Claims.dfy`, `Funding.dfy`, `SettlementRuns.dfy` | fee distributor, the system it forms with treasury and token, conservation, overflow, commuting claims, what covers them, concrete runs |
| `SettlementCalls.dfy`, `SettlementHistory.dfy` | when each distributor call completes and who may pay; records, entries, programs, configuration and councils against the transactions |
| `Dispute.dfy`, `DisputeContract.dfy`, `DisputeSafety.dfy`, `DisputeHistory.dfy` | dispute resolver: effects, class, finality, who raised, answered and resolved each dispute |

Two assumptions about the environment appear as hypotheses of the run theorems (`AllLegitimate`): no
transaction is signed by a contract's own address, and plain token transfers do not spend a contract's
tokens. None of the contracts has an account check that would let anyone do either. Everything else is
arbitrary: initial balances, mints, transfers among users and to the contracts, withdrawals to any address
including the treasury and the distributor themselves, failing calls, and uninitialised contracts.
Every run starts at deployment, so calls made before `initialize` are part of it. Only the node count and
"Active iff the stake reaches the minimum" are about what happens after it (see below).

## What the code does that its documentation does not say

The model follows the code in each case.

- `distribute` moves a positive treasury share twice: it transfers it, and the `deposit` it then calls
  transfers it again. The treasury records it once. `CrossContractConservation` is the equation that holds,
  `ShareMovesTwice` a run of three calls, `BatchSurplus` the effect of one call, and `SharesMovedOnceIff` says
  when the expected equation holds all the same: when no completed batch had a positive share.
- `distribute` needs no signature and credits any address, the two contracts' own included
  (`DistributorCredited`). Those records are never paid out (`ContractsNeverClaim`).
- `unstake` over a pending entry overwrites it, and the registry keeps those tokens. They are the
  `overwritten` term of the registry's equations. `OverwritingHappens` is a run, `UnstakeOverwritesIff` the
  condition a node can check before the call, `OverwrittenZeroIff` the condition over runs.
- `register` and `stake` do not need an initialised contract, and `initialize` resets the node count:
  `EarlyRegistrationMiscounts` is an input. The count is right iff nobody registered early
  (`CountRightIffNobodyEarly`; `AfterInitialize` says by how much it is short). The statuses are right iff
  no node was Active with less than the new minimum at the call (`StatusRightIff`). The tokens are safe regardless.
- The unstaking lock is compared with ledger timestamps, although the documentation speaks of ledgers.
- `initialize` of the distributor does not bound `treasury_share_bps`. `PayoutNonNegativeIff` and
  `OversizedShareBlocksClaims` say what that means, `OversizedShareGoesNegative` is a run; conservation and
  absence of overflow hold regardless.
- `verify_proof` never answers false, so a bad signature makes `resolve` panic rather than lose:
  `OneBadSignatureBlocks` is an input, `AnsweredResolvableIff` the exact condition. The rulings for a single
  valid proof are unreachable.
- `slash` sends nothing to the treasury and `allocate` moves no tokens.
- The approval loop asks the first `threshold` listed members, not any `threshold` of them:
  `LaterMembersDoNotApprove` is an input, `ApprovalMeansThreshold` the exact condition.

## Model

| member | source | states |
|---|---|---|
| Council.RequireCouncilAuth | contracts/relay-registry/src/lib.rs:38-99 | for any council and any set of signatures: which of approval, missing signature and "Insufficient approvals" comes out, and exactly which members were asked |
| Council.ApprovalMeansThreshold | contracts/treasury/src/lib.rs:39-53 | for a council some `initialize` accepted, approval means the first `threshold` members all signed; with distinct members, at least `threshold` distinct signers; the late panic is unreachable |
| Council.LaterMembersDoNotApprove | contracts/treasury/src/lib.rs:39-53 | a concrete accepted council of three with threshold two that does not approve although two distinct members signed |
| Token.TransferConserves | contracts/relay-registry/src/lib.rs:296-297 | a transfer keeps the supply and moves the amount between the two holders only, a self-transfer nothing |
| Token.TokenContract.TransferTokens | contracts/fee-distributor/src/lib.rs:299-302 | fails on negative amounts, short balances and credits out of range, with all balances as before |
| RegistryContract.RelayRegistry.InitializeContract | contracts/relay-registry/src/lib.rs:121-159 | one-time setup with its checks in order and the node count reset |
| RegistryContract.RelayRegistry.RegisterNode | contracts/relay-registry/src/lib.rs:171-210 | registration without an initialisation check; a full counter undoes the stored node |
| RegistryContract.RelayRegistry.UpdateNodeMetadata | contracts/relay-registry/src/lib.rs:222-250 | only the metadata of that node changes |
| RegistryContract.RelayRegistry.StakeTokens | contracts/relay-registry/src/lib.rs:268-310 | tokens, stake and status move together or not at all |
| RegistryContract.RelayRegistry.UnstakeTokens | contracts/relay-registry/src/lib.rs:312-369 | stake turns into a pending entry that takes the place of any earlier one |
| RegistryContract.RelayRegistry.FinalizePendingUnstake | contracts/relay-registry/src/lib.rs:380-410 | entry removed and tokens paid, or the entry put back |
| RegistryContract.RelayRegistry.SlashNode | contracts/relay-registry/src/lib.rs:426-468 | stake and pending entry seized on council approval, no tokens moved |
| RegistryContract.RelayRegistry.ReinstateNode | contracts/relay-registry/src/lib.rs:486-514 | a slashed node goes back to inactive on council approval, stake untouched |
| RegistryCalls.StakeExactly | contracts/relay-registry/src/lib.rs:268-310 | in every reachable state, exactly when `stake` completes (the node's own total never stands in the way) and which error it returns otherwise |
| RegistryCalls.StakeMoves | contracts/relay-registry/src/lib.rs:283-297 | a completed stake moves the tokens from the node to the registry and nobody else's, adds them to that node's stake alone, and makes it Active when it reaches the minimum |
| RegistryCalls.UnstakeExactly | contracts/relay-registry/src/lib.rs:312-369 | exactly when `unstake` completes; the entry left is the amount, locked for the period after the ledger time of the call; no tokens move |
| RegistryCalls.SlashExactly | contracts/relay-registry/src/lib.rs:426-468 | in every reachable state `slash` completes iff the council approves and the node is registered and not slashed; it leaves that node Slashed with no stake and no entry, and others alone |
| RegistryCalls.OnlySignersTouched | contracts/relay-registry/src/lib.rs:171-514 | whatever is called, a node that did not sign keeps record and entry, unless the council signed a slash or reinstatement of it |
| RegistryCalls.OnlySignersPay | contracts/relay-registry/src/lib.rs:268-410 | no registry call lowers the token balance of anyone who did not sign |
| RegistryHistory.LogIsHistory | contracts/relay-registry/src/lib.rs:121-468 | over every run, the log holds exactly the completed transactions, with their nodes and amounts, stamped with their ledger times; so what is proved of the log is about the transactions |
| RegistryHistory.PaidAfterLock | contracts/relay-registry/src/lib.rs:312-410 | every completed finalize of every run pays exactly that node's latest completed unstake, at a ledger time at least the period then in force after the time of that call, with no completed unstake, finalize or slash of the node between |
| RegistryHistory.FinalizeWaits | contracts/relay-registry/src/lib.rs:332-410 | whatever completed finalize follows a completed unstake, with none of the three between, waited the period in force at the unstake and pays its amount |
| RegistryHistory.AnswersOnce | contracts/relay-registry/src/lib.rs:384-399 | two completed finalizes never answer to one unstake |
| RegistryHistory.SlashedIff | contracts/relay-registry/src/lib.rs:426-514 | in every run, a node is Slashed iff some completed slash of it has had no completed reinstatement since |
| RegistryHistory.SlashedRefused | contracts/relay-registry/src/lib.rs:276-345 | as long as a slash stands, in every run, the node has no stake and no entry, and its signed stake, unstake and finalize are refused |
| RegistryHistory.ProfileIsHistory | contracts/relay-registry/src/lib.rs:171-250 | in every run, metadata, registration time and last activity of a node are those of its completed calls, and a node is stored iff a registration completed |
| RegistrySafety.RunIsSolid | contracts/relay-registry/src/lib.rs:121-514 | in every run from deployment, calls before `initialize` included: slashed nodes hold nothing, entries are positive and owned by registered nodes, entries equal those the log says are pending, a stored council and its terms are valid, and both token equations hold |
| RegistrySafety.NodeConservation | contracts/relay-registry/src/lib.rs:268-468 | for every node and run from deployment, all it staked = stake + pending + paid + forfeited + overwritten |
| RegistrySafety.RegistrySolvent | contracts/relay-registry/src/lib.rs:268-468 | in every run from deployment, registry tokens = initial + owed to nodes + forfeited + overwritten + received; they cover every debt |
| RegistrySafety.FinalizeExactly | contracts/relay-registry/src/lib.rs:380-410 | exactly when `finalize_unstake` completes in a state reachable from deployment (never short of tokens), and what it pays |
| RegistrySafety.SlashNeverOverflows | contracts/relay-registry/src/lib.rs:439-450 | `Overflow` is unreachable in `slash`, whatever was called before `initialize` |
| RegistryStatus.AfterInitialize | contracts/relay-registry/src/lib.rs:121-159 | after any earlier calls, `initialize` completes iff it has not yet and its arguments are valid; then, in every run, council and terms stay, the node count is the number of nodes less the early ones, and a node is Active iff its stake reaches the minimum, unless it was Active below that minimum when `initialize` was called |
| RegistryStatus.StatusRightIff | contracts/relay-registry/src/lib.rs:137-310 | `initialize` leaves a node's status wrong iff the node was Active with less than the new minimum before the call; all statuses are right in all later runs iff there was no such node |
| RegistrySafety.CouncilCallsSigned | contracts/relay-registry/src/lib.rs:426-514 | every completed slash and reinstatement of a run carries the signatures of the first `threshold` members of the council stored once by `initialize` |
| RegistryStatus.CountRightIffNobodyEarly | contracts/relay-registry/src/lib.rs:151-156 | in every run after `initialize` the node count is right iff nobody was registered before it |
| RegistryStatus.EarlyRegistrationMiscounts | contracts/relay-registry/src/lib.rs:137-199 | a concrete early registration and stake after which `initialize` leaves the count at zero with one node, and that node Active below the minimum |
| RegistryTimeLock.PayoutsRespectLock | contracts/relay-registry/src/lib.rs:312-410 | in the log of every run from deployment (which `RegistryHistory.LogIsHistory` equates with the transactions), every payout is that node's latest unstake, at least the lock period in force at that unstake later, with no slash, payout or unstake of the node between |
| RegistryTimeLock.PeriodFixed | contracts/relay-registry/src/lib.rs:137-156 | once `initialize` has completed, the period in force at every later point of every run is the one it stored |
| RegistryTimeLock.NothingPaidTwice | contracts/relay-registry/src/lib.rs:384-399 | two payouts of a run answer to two different unstakes |
| RegistryTimeLock.NobodyOverpaid | contracts/relay-registry/src/lib.rs:268-410 | in every run from deployment a node is paid at most what it staked less what it still has in the registry |
| RegistryOverwriting.UnstakeOverwritesIff | contracts/relay-registry/src/lib.rs:347-359 | a completed unstake in a reachable state loses exactly the stored pending amount, so it loses something iff the node's entry is in the store when it calls |
| RegistryOverwriting.OverwrittenZeroIff | contracts/relay-registry/src/storage.rs:162-168 | over runs from deployment, nothing of a node is lost to overwriting iff no step was its completed unstake with its entry in the store |
| RegistryOverwriting.OverwritingHappens | contracts/relay-registry/src/lib.rs:347-359 | a concrete run: register, stake 3, unstake 1, and a second unstake of 1 that completes and loses 1 |
| Fees.SplitBounds | contracts/fee-distributor/src/lib.rs:181-192 | for any share, 10^8 * share <= size * rate * shareBps < 10^8 * (share + 1) + 10^4 * shareBps and the fee is at most the batch; for a treasury share of at most 10000 also share <= fee, the share is short of its exact value by less than two units, and the payout is rounded up |
| Fees.PayoutNonNegativeIff | contracts/fee-distributor/src/lib.rs:92-106 | payouts are non-negative for all batches iff the treasury share is at most 10000 |
| Fees.SplittingLosesLittle | contracts/fee-distributor/src/lib.rs:135-150 | fees of n batches at one rate never exceed the fee of their total size and fall less than n short of it |
| Fees.SplitFee | contracts/fee-distributor/src/lib.rs:184-192 | none of the checked steps that split a fee can fail, and the parts add up |
| Settlement.CalculateFee | contracts/fee-distributor/src/lib.rs:135-150 | the largest whole fee not above the exact one, with each error condition exact and `Overflow` impossible |
| DistributorContract.FeeDistributor.InitializeContract | contracts/fee-distributor/src/lib.rs:78-112 | one-time setup, rate and council checked, treasury share not |
| DistributorContract.FeeDistributor.DistributeFee | contracts/fee-distributor/src/lib.rs:170-253 | once-only credit and entry; all three contracts keep their state if either transfer or the deposit fails |
| DistributorContract.FeeDistributor.SendShare | contracts/fee-distributor/src/lib.rs:216-237 | the transfer and the nested deposit both happen or neither does |
| DistributorContract.FeeDistributor.ClaimEarnings | contracts/fee-distributor/src/lib.rs:271-305 | pays the unclaimed amount and zeroes it, or changes nothing |
| DistributorContract.FeeDistributor.ChangeFeeRate | contracts/fee-distributor/src/lib.rs:336-358 | council-approved change of the rate within 1..10000 |
| SettlementCalls.DistributeCredits | contracts/fee-distributor/src/lib.rs:181-213 | a completed batch credits the named relay with the fee less the treasury's share, no other record, and writes one new entry with that relay, fee, share and ledger time |
| SettlementCalls.ClaimExactly | contracts/fee-distributor/src/lib.rs:271-305 | in every sound state, exactly when `claim` completes; it returns the unclaimed amount, moves exactly that from the distributor to the relay, and only that relay's record changes |
| SettlementCalls.OnlySignersPay | contracts/fee-distributor/src/lib.rs:170-305 | no call of the system but a plain transfer lowers the balance of anyone but the two contracts and those who signed |
| SettlementHistory.RecordIsHistory | contracts/fee-distributor/src/lib.rs:177-289 | for every relay and run, earned = sum over its completed batches of fee less share at the configuration then in force; claimed = tokens its completed claims brought it; unclaimed = the difference |
| SettlementHistory.EntryIsHistory | contracts/fee-distributor/src/lib.rs:204-213 | in every run there is an entry for exactly the completed batches, with the relay, fee, share and ledger time of that transaction |
| SettlementHistory.ConfigIsHistory | contracts/fee-distributor/src/lib.rs:336-358 | the configuration in force is that of the completed `initialize` with the rate of the last completed change |
| SettlementHistory.DistributorAfterInitialize | contracts/fee-distributor/src/lib.rs:78-112 | after any earlier calls, `initialize` completes iff it has not yet and rate and council are valid; in every continuation council and share are the given ones, and rate changes carry that council's signatures |
| TreasuryContract.TreasuryVault.InitializeContract | contracts/treasury/src/lib.rs:79-98 | one-time setup |
| TreasuryContract.TreasuryVault.SetEntry | contracts/treasury/src/storage.rs:87-96 | appends at the next id and panics at the top of the counter |
| TreasuryContract.TreasuryVault.DepositTokens | contracts/treasury/src/lib.rs:110-153 | balance, statistics, log and tokens move together; every partial write is undone on failure |
| TreasuryContract.TreasuryVault.WithdrawTokens | contracts/treasury/src/lib.rs:167-218 | the same for an approved withdrawal |
| TreasuryContract.TreasuryVault.CreateSpendingProgram | contracts/treasury/src/lib.rs:226-259 | a new program under the next id |
| TreasuryContract.TreasuryVault.UpdateProgramBudget | contracts/treasury/src/lib.rs:262-289 | a budget not below what was spent |
| TreasuryContract.TreasuryVault.DeactivateProgram | contracts/treasury/src/lib.rs:292-311 | the program becomes inactive and nothing else changes |
| TreasuryContract.TreasuryVault.AllocateToProgram | contracts/treasury/src/lib.rs:333-405 | spent, balance, statistics and log move together, tokens do not |
| TreasuryCalls.DepositExactly | contracts/treasury/src/lib.rs:110-153 | exactly when `deposit` completes (the cached balance never stands in the way), the entry it writes and the tokens it moves |
| TreasuryCalls.WithdrawPays | contracts/treasury/src/lib.rs:167-218 | a completed withdrawal pays that recipient from the treasury and nobody else, lowers the balance and writes its entry; its two error codes exactly |
| TreasuryCalls.AllocateExactly | contracts/treasury/src/lib.rs:333-405 | exactly when `allocate` completes (budget and balance to the last unit, no overflow then possible) and each error code |
| SettlementHistory.TreasuryAfterInitialize | contracts/treasury/src/lib.rs:79-98 | after any earlier calls, `initialize` completes iff no council is stored and the given one is valid; in every continuation the stored council is the given one, and every council call carries the signatures of its first `threshold` members |
| SettlementHistory.LogIsHistory | contracts/treasury/src/storage.rs:87-96 | in every run of the whole system, the treasury's log is entry by entry what completed calls did: kind, amount, payer or recipient, ledger sequence; a batch with a share is a deposit by the distributor |
| SettlementHistory.ProgramIsHistory | contracts/treasury/src/lib.rs:226-405 | in every run, program n is the n-th completed creation, with its name, the last budget given, active until a completed deactivation, spent the sum of completed allocations to it |
| TreasurySafety.ReplayIdentity | contracts/treasury/src/lib.rs:356-383 | at every point of every log, deposited = balance + withdrawn + allocated |
| TreasurySafety.StatsAddUp | contracts/treasury/src/lib.rs:418-424 | the dashboard statistics satisfy the same identity with no negative part |
| TreasurySafety.EveryStepGood | contracts/treasury/src/lib.rs:110-405 | every call keeps: log ids exactly 1..count, stores equal to the replay of the log, no negative prefix, program ids exact, 0 <= spent <= budget, spent totals equal lifetime_allocated; and it rewrites no entry and revives no program |
| TreasurySafety.OverflowExactly | contracts/treasury/src/lib.rs:118-128 | `deposit` overflows iff the deposited total does, `withdraw` never, `allocate` only on spent + amount |
| SettlementSafety.RunIsSound | contracts/fee-distributor/src/lib.rs:170-305 | over any continuation of any sound state: both contracts' invariants, nothing rewritten, and tokens move only by shares (twice), claims and outside payments |
| SettlementSafety.CrossContractConservation | contracts/fee-distributor/src/lib.rs:216-237 | from deployment on, the exact token holdings of treasury and distributor in terms of their records; treasury tokens cover its recorded balance |
| SettlementSafety.WithdrawExactly | contracts/treasury/src/lib.rs:167-218 | exactly when `withdraw` completes in a reachable state; lack of tokens is not a reason |
| SettlementSafety.SupplyConserved | contracts/treasury/src/lib.rs:140-142 | no call makes or destroys tokens |
| SettlementSafety.EarningsBounded | contracts/fee-distributor/src/lib.rs:194-202 | earnings stay below 2^96; what was claimed is zero or at most what was earned, and for a treasury share of at most 10000 always at most what was earned |
| SettlementSafety.DistributorNeverOverflows | contracts/fee-distributor/src/lib.rs:184-202 | `Overflow` is unreachable in `distribute` and `claim` in every run, for any treasury share |
| SettlementSafety.OversizedShareBlocksClaims | contracts/fee-distributor/src/lib.rs:275-302 | with a treasury share above 10000 no claim ever completes |
| SettlementSafety.EarningsMatchLog | contracts/fee-distributor/src/lib.rs:194-213 | for every relay and run, earned = sum over its own fee entries = claimed + unclaimed, and entries never change later |
| SettlementSafety.DistributeExactly | contracts/fee-distributor/src/lib.rs:170-253 | exactly when `distribute` completes: a positive share needs twice its amount in the distributor |
| SettlementSafety.TreasuryReplays | contracts/treasury/src/storage.rs:87-96 | in every run of the whole system the treasury equals the replay of its log, and later calls keep every entry and every deactivated program as it was |
| SettlementSafety.CouncilCallsSigned | contracts/treasury/src/lib.rs:167-405 | every completed withdrawal, allocation, program change and rate change of a run carries the signatures of the first `threshold` members of the council its contract stored once |
| Claims.ClaimAllExactly | contracts/fee-distributor/src/lib.rs:271-305 | claims of distinct relays all complete, in a given order, iff each is ready and their sum is covered; then exactly those relays are paid |
| Claims.OrderDoesNotMatter | contracts/fee-distributor/src/lib.rs:271-305 | any two orders agree on success, end in the same state, and cost the distributor exactly the sum |
| Funding.BatchSurplus | contracts/fee-distributor/src/lib.rs:170-237 | one completed batch leaves the treasury with more than it records by exactly the share that configuration and size determine |
| Funding.SharesMovedOnceIff | contracts/fee-distributor/src/lib.rs:216-237 | the equations in which a share moves once hold in a run from deployment iff no call was a completing batch with a positive share, and iff every fee entry has a share of zero |
| SettlementRuns.ShareMovesTwice | contracts/fee-distributor/src/lib.rs:216-237 | a concrete run: one batch of one, all of it share; a distributor given 2 ends with 0, the treasury holds 2 and records 1 |
| SettlementRuns.OversizedShareGoesNegative | contracts/fee-distributor/src/lib.rs:92-106 | a concrete run: with a treasury share of 20000 a batch of one leaves the relay with -1 unclaimed, and its signed claim panics |
| SettlementRuns.DistributorCredited | contracts/fee-distributor/src/lib.rs:170-213 | a concrete run: a batch that names the distributor itself as relay completes and credits it |
| Funding.CoveredIff | contracts/fee-distributor/src/lib.rs:170-305 | in every run from deployment the distributor covers all unclaimed earnings iff what it was given is at least all fees plus every share once more |
| Funding.PaidIff | contracts/fee-distributor/src/lib.rs:271-305 | claims of any distinct relays other than the distributor all complete, in a given order, iff each is ready and funding plus what may stay unpaid to everybody else covers all fees and every share once more |
| Funding.EverybodyPaidIff | contracts/fee-distributor/src/lib.rs:271-305 | the same for all relays that have something to claim and can sign: the rest is what was credited to the two contracts' own addresses; for any treasury share |
| Funding.ContractsNeverClaim | contracts/fee-distributor/src/lib.rs:271-275 | in every run nothing is paid out on the two contracts' own records, so all they are credited with stays unclaimed |
| DisputeContract.DisputeResolver.InitializeContract | contracts/dispute-resolver/src/lib.rs:381-403 | one-time setup |
| DisputeContract.DisputeResolver.RaiseDispute | contracts/dispute-resolver/src/lib.rs:61-113 | a new open dispute under the next id, indexed by transaction; a deadline out of range undoes the counter |
| DisputeContract.DisputeResolver.RespondToDispute | contracts/dispute-resolver/src/lib.rs:127-167 | a timely answer by the named respondent, once |
| DisputeContract.DisputeResolver.ResolveDispute | contracts/dispute-resolver/src/lib.rs:186-311 | default ruling, judged ruling, each error, or a panic on a missing key or bad signature |
| DisputeHistory.AfterInitialize | contracts/dispute-resolver/src/lib.rs:381-403 | after any earlier calls, `initialize` completes iff it has not yet and its arguments are valid; council and window are the given ones in every continuation |
| DisputeHistory.RespondExactly | contracts/dispute-resolver/src/lib.rs:127-167 | `respond` completes iff the dispute is open, the caller signed and is the respondent named in it, and the deadline has not passed; it stores that proof; each error code exactly |
| DisputeHistory.RaisedByInitiator | contracts/dispute-resolver/src/lib.rs:61-113 | in every run, every dispute comes from a completed `raise_dispute` signed by its initiator for these parties, this transaction and this proof, with the deadline the window then in force after its ledger sequence |
| DisputeHistory.AnsweredIff | contracts/dispute-resolver/src/lib.rs:127-167 | in every run, a dispute holds a respondent's proof iff the respondent named in it, signing and in time, submitted exactly that proof in a completed `respond` |
| DisputeHistory.IssuedIff | contracts/dispute-resolver/src/lib.rs:186-311 | in every run, a ruling is stored iff a completed `resolve` of that dispute returned it, dated with its ledger time |
| Dispute.Judge | contracts/dispute-resolver/src/lib.rs:248-288 | rules for a party with a valid proof, the initiator on lower or equal sequence, nobody iff neither is valid |
| DisputeSafety.RunIsSound | contracts/dispute-resolver/src/lib.rs:61-311 | over any continuation: the dispute invariant, parties, deadlines and given proofs fixed, rulings and index permanent, progress paid for by the rank |
| DisputeSafety.ProgressBounded | contracts/dispute-resolver/src/lib.rs:127-311 | from deployment, completed responses and resolutions number at most twice the disputes raised |
| DisputeSafety.IndexIsBijection | contracts/dispute-resolver/src/storage.rs:147-166 | in every run, ids are exactly 1..count and the index maps a transaction to id iff that dispute is about it |
| DisputeSafety.ResolveExactly | contracts/dispute-resolver/src/lib.rs:186-311 | every outcome of `resolve` in a reachable state by an iff condition; two error codes and two verdicts are unreachable |
| DisputeSafety.RespondOrDefault | contracts/dispute-resolver/src/lib.rs:149-202 | on an open dispute, at every ledger sequence exactly one of answering and default resolution completes |
| DisputeSafety.VerdictFixed | contracts/dispute-resolver/src/lib.rs:268-284 | once answered, the winner is decided by the stored proofs in every continuation |
| DisputeSafety.RulingFinal | contracts/dispute-resolver/src/lib.rs:214-216 | a ruling never changes and names the two different parties |
| DisputeSafety.AnsweredResolvableIff | contracts/dispute-resolver/src/lib.rs:239-245 | an answered dispute can ever be ruled on iff both keys are registered and both signatures verify |
| DisputeSafety.OneBadSignatureBlocks | contracts/dispute-resolver/src/lib.rs:328-333 | a concrete reachable answered dispute with one valid and one invalid proof, on which `resolve` panics for every caller at every time |

## Left out

- Storage TTL extension and expiry: stored keys are permanent here.
- Event publishing, except that what moves value in the registry, and the lock period set by `initialize`, are kept as a log for the time-lock and conservation theorems.
- Memo texts and the wording of ruling reasons: a reason is one of five cases.
- Authorisation trees: `require_auth` is membership in the set of signers of the transaction, and the distributor counts as a signer of the `deposit` it calls, including the token transfer inside it.
- The Ed25519 algorithm: an arbitrary predicate on key, hash and signature.
- The token contract beyond balances and `transfer`; its own authorisation, freezing and clawback.
- Wiring: the treasury and token addresses given to `initialize` are fixed as the objects a contract is constructed with, one token for distributor and treasury; the registry's token address is a flag, as it is set outside its interface.
- `set_allocation`, `get_allocation`, `append_entry`, `remove_node` and `set_public_key`: no public call reaches them, so public keys are a constant of a run.
- Plain views (`get_node`, `is_active`, `get_history`, `get_program`, `get_earnings`, `get_dispute`, `get_ruling`, `get_balance`).
- One system of all four contracts: the registry's runs meet the other contracts only as token movements by somebody else, and the resolver calls no contract.
