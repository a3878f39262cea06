# Sovryn staking subgraph: the event reducers

This project models, in Dafny, the event-reduction core of the Sovryn
staking subgraph. Each decoded protocol event is handled by one synchronous
handler. The handler reads an entity store, makes a small decision on
integers and addresses, and writes back: users, transactions, delegated
stakes, vesting contracts, per-user ledgers and two append-only history logs.

Files:

- `wrappers.dfy` defines `Option`. It stands for a nullable entity and for a contract read that may revert.
- `schema.dfy` defines:
  - the entities, the decoded events and the build-time `Config`;
  - the map updates the entity helpers perform (`UserUpserted`, `TransactionRecorded`, `Credit`);
  - the ASCII lower-casing applied to addresses (`Lower`).
- `rules.dfy` holds the decision predicates of `src/mappings/Staking.ts`:
  - user delegation;
  - genesis-contract inference;
  - Stake vs IncreaseStake;
  - team revocation;
  - slashing;
  - the RSK-testnet lock-date correction.
- `ledger.dfy` sums the vesting history per contract and proves how one appended row moves those sums.
- `store.dfy` holds the class `Subgraph.Store`:
  - the store's maps and logs as fields;
  - the invariant `Valid()`;
  - the entity helpers as methods with their own store semantics;
  - one method per handler of `src/mappings/Staking.ts`, `src/mappings/VestingRegistry.ts` and `src/mappings/Vesting.ts`.
- `scenarios.dfy` holds short event sequences. Their outcomes follow from the handler contracts alone: a stake followed by a top-up, a genesis contract's balance, a registry event seen twice, a team revocation, a slashed withdrawal, and the lock-date correction.

`Store.Valid()` is preserved by every handler. It states:

- transactions and users are keyed by their own id;
- no delegated stake row holds zero;
- every vesting-history row belongs to a known vesting contract;
- **balance conservation**: each vesting contract's `currentBalance` equals what its TokensStaked rows deposited minus what its TokensWithdrawn and TeamTokensRevoked rows took out;
- each vesting address is registered as an event source at most once, and only together with its contract.

Conservation holds because of two code paths:

- a synthesised genesis contract is, by this model's reading of the `createAndReturnVestingContract` helper (see `## Left out`), created already holding the staked amount, and the handler does not raise its balance a second time (`src/mappings/Staking.ts:108-110`);
- a registry-created contract starts with `currentBalance` 0.

Three consequences of the code are worth stating plainly:

- **No `startingBalance` term.** A registry contract starts with `currentBalance` 0 and `startingBalance` equal to the event's amount (`src/mappings/VestingRegistry.ts:22-23`). So the relation the store keeps is deposits minus withdrawals, with no `startingBalance` term.
- **Delegation ledger.** A user delegation calls `incrementDelegatedAmount` with the event's raw, uncorrected `lockedUntil` as its third argument (`src/mappings/Staking.ts:34`). The helper's body is not part of this model; see `## Left out`.
- **Direct withdrawals.** A direct withdrawal upserts the *staker* as a user. Its history row and its ledger decrement both go to the *receiver* (`src/mappings/Staking.ts:197-211`).

## Model

| member | source | states |
|---|---|---|
| Schema.UserUpserted | src/mappings/Staking.ts:114 | load-or-create of a user: the key set gains exactly the address, every existing user is kept unchanged, and a new user carries the address and the block timestamp |
| Schema.TransactionRecorded | src/mappings/Staking.ts:25 | load-or-create of the enclosing transaction: one row per hash, existing rows unchanged, a new row carries hash, timestamp and block |
| Schema.Credit | src/mappings/Staking.ts:124 | a ledger update moves exactly one entry by the delta (an absent entry counts as 0) and leaves every other entry as it was |
| Schema.CreditsAdd | src/mappings/Staking.ts:211 | two credits to the same ledger entry equal one credit of their sum, whatever the ledger |
| Schema.Lower | src/mappings/Staking.ts:181 | lower-casing keeps the length, turns each upper-case ASCII letter into its lower-case letter, keeps every other character, and leaves no upper-case letter |
| Schema.LowerIgnoresCase | src/mappings/Staking.ts:181 | two addresses that differ only in the case of their letters lower to the same string |
| Rules.CorrectedLockedUntil | src/mappings/Staking.ts:37-38 | the recorded lock date differs from the raw one exactly when the chain is rsk, the network is testnet and the raw value is 1614429908000; the corrected value is that date in seconds, 1614429908 |
| Rules.FirstStakeVsTopUp | src/mappings/Staking.ts:118 | with the running total being what was staked before plus the amount, a stake with nothing staked before is logged as Stake and one adding to an earlier positive stake as IncreaseStake |
| Rules.RevocationIgnoresCase | src/mappings/Staking.ts:181 | the revocation decision is the same for two receivers that differ only in letter case |
| Rules.SlashedDebitSplits | src/mappings/Staking.ts:200-211 | a direct withdrawal's one debit of amount plus slashed amount equals debiting the amount and then the slashing; an ordinary WithdrawStaked withdrawal debits exactly the amount |
| Ledger.DepositedAppend | src/mappings/Staking.ts:98-106 | appending a row raises a contract's deposit sum by the row's amount exactly when it is that contract's TokensStaked row |
| Ledger.WithdrawnAppend | src/mappings/Staking.ts:182-190 | appending a row raises a contract's withdrawal sum by the row's amount exactly when it is that contract's TokensWithdrawn or TeamTokensRevoked row |
| Ledger.NetAppend | src/mappings/Staking.ts:97-110 | one appended row moves a contract's net logged balance by exactly that row's delta |
| Ledger.NoRowsNoBalance | src/mappings/Staking.ts:79-80 | an address with no rows in the vesting log has no logged deposits and no logged withdrawals |
| Ledger.AppendKeepsConserved | src/mappings/Staking.ts:182-191 | logging a row for a known contract while moving its balance by the row's delta, and no other balance, keeps every balance equal to its logged net |
| Ledger.SynthesisedKeepsConserved | src/mappings/Staking.ts:85-110 | a genesis contract synthesised already holding the staked amount, with that one TokensStaked row logged, counts the amount exactly once |
| Ledger.EmptyContractKeepsConserved | src/mappings/VestingRegistry.ts:17-23 | a registry contract created with current balance 0 at an address with no rows keeps balances conserved |
| Subgraph.Store.CreateAndReturnUser | src/mappings/Staking.ts:33 | upserts the user and returns the stored user, whose id is the address |
| Subgraph.Store.CreateAndReturnTransaction | src/mappings/Staking.ts:25 | upserts the transaction and returns the stored row, whose id is the hash |
| Subgraph.Store.CreateOrUpdateStake | src/mappings/Staking.ts:53 | the stake row for (delegate, lockedUntil) holds the event's new balance |
| Subgraph.Store.RemoveStakeIfEmpty | src/mappings/Staking.ts:54 | a stake row holding zero is removed; any other row is kept |
| Subgraph.Store.IncrementDelegatedAmount | src/mappings/Staking.ts:34 | the (from, to) delegation entry rises by the given value; nothing else changes |
| Subgraph.Store.IncrementVestingStakedAmount | src/mappings/Staking.ts:111 | the owner's vesting-staked entry at the lock date rises by the amount |
| Subgraph.Store.IncrementUserStakeHistory | src/mappings/Staking.ts:124 | the user's stake total rises by the amount |
| Subgraph.Store.DecrementUserStakeHistory | src/mappings/Staking.ts:211 | the user's stake total falls by the amount plus the slashed amount |
| Subgraph.Store.IncrementVestingContractBalance | src/mappings/Staking.ts:109 | only the contract's current balance changes, rising by the amount |
| Subgraph.Store.DecrementVestingContractBalance | src/mappings/Staking.ts:191 | only the contract's current balance changes, falling by the amount |
| Subgraph.Store.CreateAndReturnVestingContract | src/mappings/Staking.ts:86-94 | for an address with no contract yet (its one caller has just found none), stores a contract with the given owner, cliff, duration and type, starting and current balance both the given balance, and creation data from the event |
| Subgraph.Store.CreateAndReturnStakeHistoryItem | src/mappings/Staking.ts:40-48 | exactly one stake-history row is appended |
| Subgraph.Store.CreateAndReturnVestingHistoryItem | src/mappings/Staking.ts:98-106 | exactly one vesting-history row is appended |
| Subgraph.Store.RegisterVestingContractTemplate | src/mappings/VestingRegistry.ts:15 | the address is appended to the registered event sources |
| Subgraph.Store.HandleDelegateChanged | src/mappings/Staking.ts:24-49 | the delegation entry rises and `toDelegate` is upserted if and only if both delegates are non-zero and different and the delegator sent the transaction; in every case one Delegate row is logged for the delegator with amount 0, zero token, delegatee `toDelegate` and the corrected lock date; the invariant is kept |
| Subgraph.Store.HandleDelegateStakeChanged | src/mappings/Staking.ts:51-55 | the delegate is upserted; the (delegate, lockedUntil) stake row takes the new balance, or is removed when that is 0 |
| Subgraph.Store.HandleExtendedStakingDuration | src/mappings/Staking.ts:57-70 | one ExtendStake row for the staker with amount 0, the new date and zero delegatee; no vesting contract changes |
| Subgraph.Store.HandleTokensStaked | src/mappings/Staking.ts:72-127 | a Genesis contract owned by the sender, with cliff and duration 0 and balance the amount, is created exactly when no contract exists, the block is inside the inclusive genesis window and the sender is not the staker; with a contract, one TokensStaked vesting row is logged, the owner's vesting-staked entry rises, the balance rises only for a pre-existing contract, and no user row is written; without one, the staker is upserted and logged as IncreaseStake exactly when amount < totalStaked (else Stake), and their total rises; balances stay conserved |
| Subgraph.Store.StakeThroughVestingContract | src/mappings/Staking.ts:85-111 | the vesting branch: a synthesised genesis contract holds the amount once, a pre-existing one rises by it, the owner's vesting-staked entry rises and one TokensStaked row is logged |
| Subgraph.Store.StakeDirectly | src/mappings/Staking.ts:112-126 | the direct branch: the staker is upserted, one Stake or IncreaseStake row is logged and their total rises by the amount |
| Subgraph.Store.WithdrawnEventsAgree | src/mappings/Staking.ts:146-163 | StakingWithdrawn and TokensWithdrawn with the same parameters make the same request, apart from its lock date |
| Subgraph.Store.HandleTokensWithdrawn | src/mappings/Staking.ts:129-144 | records the transaction, then reduces a withdrawal with lock date 0 |
| Subgraph.Store.HandleStakingWithdrawn | src/mappings/Staking.ts:146-163 | records the transaction, then reduces the same withdrawal with the event's `until` as its lock date |
| Subgraph.Store.HandleStakingOrTokensWithdrawn | src/mappings/Staking.ts:177-214 | with a vesting contract, only the vesting log and that contract's balance change; without one, only users, the stake log and the receiver's total change; balances stay conserved |
| Subgraph.Store.WithdrawFromVestingContract | src/mappings/Staking.ts:178-195 | one row keyed by the event, TeamTokensRevoked exactly when the lower-cased receiver is an administrator and the contract is Team (else TokensWithdrawn); the balance falls by the amount |
| Subgraph.Store.WithdrawDirectStake | src/mappings/Staking.ts:197-213 | the staker is upserted; one row for the receiver, Unstake exactly when a fee-sharing transfer exists for the transaction (else WithdrawStaked); the receiver's total falls by the amount plus the slashed amount, which is 0 without a transfer |
| Subgraph.Store.CreateVestingContractFromRegistry | src/mappings/VestingRegistry.ts:12-44 | a known address changes nothing; otherwise the address is registered once, the owner upserted, the transaction recorded, and the contract stored with the event's cliff, duration and starting balance, current balance 0, creation data from the transaction record, and token/staking only where the read did not revert |
| Subgraph.Store.HandleTeamVestingCreatedProxy | src/mappings/VestingRegistry.ts:12-44 | idempotent creation of a Team contract, as above |
| Subgraph.Store.HandleVestingCreatedProxy | src/mappings/VestingRegistry.ts:46-78 | the same creation with type Rewards, likewise a no-op for a known address |
| Subgraph.Store.HandleVotesDelegated | src/mappings/Vesting.ts:10-36 | an unknown source address changes nothing; otherwise only the contract's delegate changes, to the upserted delegatee, one DelegateChanged vesting row is logged for the contract, and one DelegateVested stake row for the contract's owning user |

## Left out

- The graph-ts runtime and store I/O (`load`, `save`, `new Entity`). The store is the fields of `Subgraph.Store`.
- Store overwrites on a repeated entity id. The history logs are append-only sequences whose rows carry the (transaction hash, log index) id.
- The `createAndReturnV2*` mirror entities are not modelled. They are write-only, and their code is not part of this model.
- `log.info` is not modelled; it only writes to the log.
- The contract bindings `try_SOV` and `try_staking` are foreign chain calls. They become `Option` parameters of the registry handlers, `None` when the read reverted.
- `VestingContractTemplate.create` is not modelled. A sequence of registered addresses stands for it.
- The `src/entities/*` helpers are not part of this model. Each helper method has its name's plain semantics:
  - upsert for users and transactions;
  - add to or subtract from one map entry for ledgers and balances;
  - append for history items.
- Subgraph.Store.CreateAndReturnVestingContract: the helper's body is not part of this model. The model assumes it stores the given balance as both starting and current balance, the reading under which the no-double-count guard at `src/mappings/Staking.ts:108` makes sense. Balance conservation for genesis contracts rests on this assumption.
- The delegation ledger of `createOrUpdateStake` is keyed by (delegate, lockedUntil). It holds the event's new balance.
- The `FeeSharingTokensTransferred` entities are written elsewhere in the subgraph. They are a map from transaction hash to slashed amount, given when the store is built.
- Address conversion (`toHexString`, `toHex`) is not modelled: addresses are strings.
- `Lower` is ASCII lower-casing.
- Amounts are raw integer token units. The 18-decimal scaling is exact and changes no comparison or sum.
- `toI32` on cliff and duration (`src/mappings/VestingRegistry.ts:20-21`): `Subgraph.Store.CreateVestingContractFromRegistry` stores them as unbounded integers. Values outside the 32-bit range are not truncated.
- The `TokensWithdrawnParams` id built by both withdrawal handlers is carried but never read by the reducer. The reducer keys its rows by the event, as the code does.
- Subgraph.Store.IncrementDelegatedAmount: the helper's body is not part of this model. The model records only that it is called, in which branch, and with which arguments: the (from, to) pair and the raw, uncorrected lock date. Adding that lock date to the (from, to) entry stands in for whatever the helper credits, so the entry's value is not a meaningful amount.
- Over-withdrawal is neither rejected nor fatal. The code has no check at `src/mappings/Staking.ts:191` or `src/mappings/Staking.ts:211`, so a vesting contract's balance or a user's stake total can go below zero, and the model lets it.
- The `user != null` test at `src/mappings/Staking.ts:199` is always true after an upsert, so the model has no branch for it.
- Negative amounts are not excluded. The source does not check amounts, and the model does not either.
