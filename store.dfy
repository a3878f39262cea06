/** The event-reduction engine: one store of entities, and one handler per
    protocol event that reads the store, decides, and writes.

    The store holds the entities as maps keyed by their identifiers and the
    two history logs as append-only sequences. The entity helpers the
    handlers call (user, transaction, stake, ledger and history helpers)
    are methods here with the plain store semantics their names give them;
    each handler's contract says which helper ran, in which branch, with
    which arguments, and that the store's invariant still holds. */
module Subgraph {
  import opened Wrappers
  import opened Schema
  import opened Rules
  import opened Ledger

  class Store {
    var transactions: map<string, Transaction>
    var users: map<string, User>
    var stakes: map<StakeKey, int>
    var vestingContracts: map<string, VestingContract>
    var stakeHistory: seq<StakeHistoryItem>
    var vestingHistory: seq<VestingHistoryItem>
    /** Net amount each user has staked directly. */
    var userStakeHistory: map<string, int>
    /** Amount each user has staked through vesting contracts, per lock date. */
    var vestingStaked: map<(string, int), int>
    /** Delegation ledger per (from, to) delegate pair. */
    var delegated: map<(string, string), int>
    /** FeeSharingTokensTransferred signals by transaction hash: written by
        another part of the subgraph, only read here. */
    var feeSharing: map<string, int>
    /** Vesting contract addresses registered as dynamic event sources, in order. */
    var registrations: seq<string>

    ghost predicate TransactionsKeyed()
      reads this
    {
      forall h :: h in transactions ==> transactions[h].id == h
    }

    ghost predicate UsersKeyed()
      reads this
    {
      forall a :: a in users ==> users[a].id == a
    }

    /** A stake row that reaches zero is removed. */
    ghost predicate StakesNonZero()
      reads this
    {
      forall k :: k in stakes ==> stakes[k] != 0
    }


    /** Each address is registered as an event source at most once, and only
        together with its contract. */
    ghost predicate RegisteredOnce()
      reads this
    {
      && (forall i, j :: 0 <= i < j < |registrations| ==> registrations[i] != registrations[j])
      && (forall i :: 0 <= i < |registrations| ==> registrations[i] in vestingContracts)
    }

    ghost predicate Valid()
      reads this
    {
      && TransactionsKeyed()
      && UsersKeyed()
      && StakesNonZero()
      && RowsOwned(vestingContracts, vestingHistory)
      && Conserved(vestingContracts, vestingHistory)
      && RegisteredOnce()
    }

    constructor (feeSharing: map<string, int>)
      ensures Valid()
      ensures transactions == map[] && users == map[] && stakes == map[]
      ensures vestingContracts == map[] && stakeHistory == [] && vestingHistory == []
      ensures userStakeHistory == map[] && vestingStaked == map[] && delegated == map[]
      ensures registrations == [] && this.feeSharing == feeSharing
    {
      transactions, users, stakes, vestingContracts := map[], map[], map[], map[];
      stakeHistory, vestingHistory := [], [];
      userStakeHistory, vestingStaked, delegated := map[], map[], map[];
      this.feeSharing := feeSharing;
      registrations := [];
    }

    // ---------------------------------------------------------------
    // Entity helpers (src/entities, not part of this model): plain store
    // semantics as their names give them.
    // ---------------------------------------------------------------

    method CreateAndReturnUser(address: string, timestamp: int) returns (u: User)
      requires UsersKeyed()
      modifies this`users
      ensures UsersKeyed()
      ensures users == UserUpserted(old(users), address, timestamp)
      ensures u == users[address] && u.id == address
    {
      if address !in users {
        users := users[address := User(address, timestamp)];
      }
      u := users[address];
    }

    method CreateAndReturnTransaction(env: Envelope) returns (t: Transaction)
      requires TransactionsKeyed()
      modifies this`transactions
      ensures TransactionsKeyed()
      ensures transactions == TransactionRecorded(old(transactions), env)
      ensures t == transactions[env.txHash] && t.id == env.txHash
    {
      if env.txHash !in transactions {
        transactions := transactions[env.txHash := Transaction(env.txHash, env.timestamp, env.blockNumber)];
      }
      t := transactions[env.txHash];
    }

    method CreateOrUpdateStake(ev: DelegateStakeChangedEvent) returns (key: StakeKey)
      modifies this`stakes
      ensures key == StakeKey(ev.delegate, ev.lockedUntil)
      ensures stakes == old(stakes)[key := ev.amount]
    {
      key := StakeKey(ev.delegate, ev.lockedUntil);
      stakes := stakes[key := ev.amount];
    }

    method RemoveStakeIfEmpty(key: StakeKey)
      requires key in stakes
      modifies this`stakes
      ensures stakes == if old(stakes)[key] == 0 then old(stakes) - {key} else old(stakes)
    {
      if stakes[key] == 0 {
        stakes := stakes - {key};
      }
    }

    method IncrementDelegatedAmount(fromDelegate: string, toDelegate: string, value: int)
      modifies this`delegated
      ensures delegated == Credit(old(delegated), (fromDelegate, toDelegate), value)
    {
      delegated := Credit(delegated, (fromDelegate, toDelegate), value);
    }

    method IncrementVestingStakedAmount(user: string, lockedUntil: int, amount: int)
      modifies this`vestingStaked
      ensures vestingStaked == Credit(old(vestingStaked), (user, lockedUntil), amount)
    {
      vestingStaked := Credit(vestingStaked, (user, lockedUntil), amount);
    }

    method IncrementUserStakeHistory(user: string, amount: int)
      modifies this`userStakeHistory
      ensures userStakeHistory == Credit(old(userStakeHistory), user, amount)
    {
      userStakeHistory := Credit(userStakeHistory, user, amount);
    }

    method DecrementUserStakeHistory(user: string, amount: int, slashedAmount: int)
      modifies this`userStakeHistory
      ensures userStakeHistory == Credit(old(userStakeHistory), user, -(amount + slashedAmount))
    {
      userStakeHistory := Credit(userStakeHistory, user, -(amount + slashedAmount));
    }

    method IncrementVestingContractBalance(id: string, amount: int)
      requires id in vestingContracts
      modifies this`vestingContracts
      ensures vestingContracts == old(vestingContracts)[id := old(vestingContracts)[id].(
        currentBalance := old(vestingContracts)[id].currentBalance + amount)]
    {
      var v := vestingContracts[id];
      vestingContracts := vestingContracts[id := v.(currentBalance := v.currentBalance + amount)];
    }

    method DecrementVestingContractBalance(id: string, amount: int)
      requires id in vestingContracts
      modifies this`vestingContracts
      ensures vestingContracts == old(vestingContracts)[id := old(vestingContracts)[id].(
        currentBalance := old(vestingContracts)[id].currentBalance - amount)]
    {
      var v := vestingContracts[id];
      vestingContracts := vestingContracts[id := v.(currentBalance := v.currentBalance - amount)];
    }

    /** Creates a contract whose starting and current balance are both `balance`. */
    method CreateAndReturnVestingContract(vestingAddress: string, user: string, cliff: int, duration: int,
                                          balance: int, contractType: VestingContractType, env: Envelope)
      returns (v: VestingContract)
      requires vestingAddress !in vestingContracts
      modifies this`vestingContracts
      ensures v == VestingContract(user, cliff, duration, balance, balance, contractType,
                                   None, None, None, env.txHash, env.timestamp, env.address)
      ensures vestingContracts == old(vestingContracts)[vestingAddress := v]
    {
      v := VestingContract(user, cliff, duration, balance, balance, contractType,
                           None, None, None, env.txHash, env.timestamp, env.address);
      vestingContracts := vestingContracts[vestingAddress := v];
    }

    method CreateAndReturnStakeHistoryItem(item: StakeHistoryItem)
      modifies this`stakeHistory
      ensures stakeHistory == old(stakeHistory) + [item]
    {
      stakeHistory := stakeHistory + [item];
    }

    method CreateAndReturnVestingHistoryItem(item: VestingHistoryItem)
      modifies this`vestingHistory
      ensures vestingHistory == old(vestingHistory) + [item]
    {
      vestingHistory := vestingHistory + [item];
    }

    /** VestingContractTemplate.create: start routing the address's events here. */
    method RegisterVestingContractTemplate(address: string)
      modifies this`registrations
      ensures registrations == old(registrations) + [address]
    {
      registrations := registrations + [address];
    }

    // ---------------------------------------------------------------
    // src/mappings/Staking.ts
    // ---------------------------------------------------------------

    method HandleDelegateChanged(cfg: Config, ev: DelegateChangedEvent)
      requires Valid()
      modifies this`transactions, this`users, this`delegated, this`stakeHistory
      ensures Valid()
      ensures transactions == TransactionRecorded(old(transactions), ev.env)
      ensures IsUserDelegated(ev.delegator, ev.fromDelegate, ev.toDelegate, ev.env.sender) ==>
                users == UserUpserted(old(users), ev.toDelegate, ev.env.timestamp)
                && delegated == Credit(old(delegated), (ev.fromDelegate, ev.toDelegate), ev.lockedUntil)
      ensures !IsUserDelegated(ev.delegator, ev.fromDelegate, ev.toDelegate, ev.env.sender) ==>
                users == old(users) && delegated == old(delegated)
      ensures stakeHistory == old(stakeHistory) + [StakeHistoryItem(EventId(ev.env), ev.delegator, Delegate, 0,
                ZERO_ADDRESS, CorrectedLockedUntil(cfg, ev.lockedUntil), ev.toDelegate)]
    {
      var _ := CreateAndReturnTransaction(ev.env);
      if IsUserDelegated(ev.delegator, ev.fromDelegate, ev.toDelegate, ev.env.sender) {
        var _ := CreateAndReturnUser(ev.toDelegate, ev.env.timestamp);
        IncrementDelegatedAmount(ev.fromDelegate, ev.toDelegate, ev.lockedUntil);
      }
      var lockedUntil := CorrectedLockedUntil(cfg, ev.lockedUntil);
      CreateAndReturnStakeHistoryItem(StakeHistoryItem(EventId(ev.env), ev.delegator, Delegate, 0,
                                                       ZERO_ADDRESS, lockedUntil, ev.toDelegate));
    }

    method HandleDelegateStakeChanged(ev: DelegateStakeChangedEvent)
      requires Valid()
      modifies this`users, this`stakes
      ensures Valid()
      ensures users == UserUpserted(old(users), ev.delegate, ev.env.timestamp)
      ensures ev.amount == 0 ==> stakes == old(stakes) - {StakeKey(ev.delegate, ev.lockedUntil)}
      ensures ev.amount != 0 ==> stakes == old(stakes)[StakeKey(ev.delegate, ev.lockedUntil) := ev.amount]
    {
      var _ := CreateAndReturnUser(ev.delegate, ev.env.timestamp);
      var key := CreateOrUpdateStake(ev);
      RemoveStakeIfEmpty(key);
    }

    method HandleExtendedStakingDuration(ev: ExtendedStakingDurationEvent)
      requires Valid()
      modifies this`transactions, this`stakeHistory
      ensures Valid()
      ensures transactions == TransactionRecorded(old(transactions), ev.env)
      ensures stakeHistory == old(stakeHistory) + [StakeHistoryItem(EventId(ev.env), ev.staker, ExtendStake, 0,
                ZERO_ADDRESS, ev.newDate, ZERO_ADDRESS)]
    {
      var _ := CreateAndReturnTransaction(ev.env);
      CreateAndReturnStakeHistoryItem(StakeHistoryItem(EventId(ev.env), ev.staker, ExtendStake, 0,
                                                       ZERO_ADDRESS, ev.newDate, ZERO_ADDRESS));
    }

    method HandleTokensStaked(cfg: Config, ev: TokensStakedEvent)
      requires Valid()
      modifies this`transactions, this`vestingContracts, this`vestingHistory, this`vestingStaked,
               this`users, this`stakeHistory, this`userStakeHistory
      ensures Valid()
      ensures transactions == TransactionRecorded(old(transactions), ev.env)
      // A contract applies exactly when one is known or genesis inference synthesises one.
      ensures ev.staker in vestingContracts <==>
        ev.staker in old(vestingContracts)
        || IsGenesisContract(cfg, ev.staker in old(vestingContracts), ev.env.blockNumber, ev.env.sender, ev.staker)
      ensures ev.staker in vestingContracts ==>
        && StakedThroughContract(ev, ev.staker !in old(vestingContracts))
        && users == old(users) && stakeHistory == old(stakeHistory) && userStakeHistory == old(userStakeHistory)
      ensures ev.staker !in vestingContracts ==>
        && StakedDirectly(ev)
        && vestingContracts == old(vestingContracts) && vestingHistory == old(vestingHistory)
        && vestingStaked == old(vestingStaked)
    {
      var _ := CreateAndReturnTransaction(ev.env);
      var vestingContract: Option<VestingContract> :=
        if ev.staker in vestingContracts then Some(vestingContracts[ev.staker]) else None;
      var isGenesisContract := IsGenesisContract(cfg, vestingContract.Some?, ev.env.blockNumber,
                                                 ev.env.sender, ev.staker);
      label recorded:
      if isGenesisContract || vestingContract.Some? {
        StakeThroughVestingContract(ev, isGenesisContract);
        assert StakedThroughContract@recorded(ev, isGenesisContract);
      } else {
        StakeDirectly(ev);
        assert StakedDirectly@recorded(ev);
      }
    }

    /** The vesting branch of TokensStaked: one TokensStaked row, the owner's
        vesting-staked entry rises by the amount, and the contract counts the
        amount once. A synthesised genesis contract, owned by the sender, is
        created already holding it; a known contract's balance rises by it. */
    twostate predicate StakedThroughContract(ev: TokensStakedEvent, isGenesisContract: bool)
      reads this
    {
      && vestingHistory == old(vestingHistory) + [VestingHistoryItem(EventId(ev.env), ev.staker, TokensStaked,
           ev.amount, ev.lockedUntil, ev.totalStaked, None)]
      && (if isGenesisContract then
            && vestingContracts == old(vestingContracts)[ev.staker := VestingContract(ev.env.sender, 0, 0,
                 ev.amount, ev.amount, Genesis, None, None, None, ev.env.txHash, ev.env.timestamp, ev.env.address)]
            && vestingStaked == Credit(old(vestingStaked), (ev.env.sender, ev.lockedUntil), ev.amount)
          else
            && ev.staker in old(vestingContracts)
            && vestingContracts == old(vestingContracts)[ev.staker := old(vestingContracts)[ev.staker].(
                 currentBalance := old(vestingContracts)[ev.staker].currentBalance + ev.amount)]
            && vestingStaked == Credit(old(vestingStaked),
                 (old(vestingContracts)[ev.staker].user, ev.lockedUntil), ev.amount))
    }

    /** The direct branch of TokensStaked: the staker is upserted, one Stake or
        IncreaseStake row is logged, and their total rises by the amount. */
    twostate predicate StakedDirectly(ev: TokensStakedEvent)
      reads this
    {
      && users == UserUpserted(old(users), ev.staker, ev.env.timestamp)
      && stakeHistory == old(stakeHistory) + [StakeHistoryItem(EventId(ev.env), ev.staker,
           StakeActionFor(ev.amount, ev.totalStaked), ev.amount, ZERO_ADDRESS, ev.lockedUntil, ZERO_ADDRESS)]
      && userStakeHistory == Credit(old(userStakeHistory), ev.staker, ev.amount)
    }

    /** The vesting branch of TokensStaked. A genesis contract is synthesised
        first, already holding the amount, so its balance is not raised again. */
    method StakeThroughVestingContract(ev: TokensStakedEvent, isGenesisContract: bool)
      requires Valid()
      requires isGenesisContract <==> ev.staker !in vestingContracts
      modifies this`vestingContracts, this`vestingHistory, this`vestingStaked
      ensures Valid()
      ensures StakedThroughContract(ev, isGenesisContract)
    {
      var vestingContract: VestingContract;
      if isGenesisContract {
        vestingContract := CreateAndReturnVestingContract(ev.staker, ev.env.sender, 0, 0, ev.amount, Genesis, ev.env);
      } else {
        vestingContract := vestingContracts[ev.staker];
      }
      var item := VestingHistoryItem(EventId(ev.env), ev.staker, TokensStaked,
                                     ev.amount, ev.lockedUntil, ev.totalStaked, None);
      CreateAndReturnVestingHistoryItem(item);
      if !isGenesisContract {
        IncrementVestingContractBalance(ev.staker, ev.amount);
        AppendKeepsConserved(old(vestingContracts), old(vestingHistory), vestingContracts, item);
      } else {
        SynthesisedKeepsConserved(old(vestingContracts), old(vestingHistory), item, vestingContract);
      }
      IncrementVestingStakedAmount(vestingContract.user, ev.lockedUntil, ev.amount);
    }

    /** The direct branch of TokensStaked: the staker is a user staking on their own. */
    method StakeDirectly(ev: TokensStakedEvent)
      requires Valid()
      modifies this`users, this`stakeHistory, this`userStakeHistory
      ensures Valid()
      ensures StakedDirectly(ev)
    {
      var _ := CreateAndReturnUser(ev.staker, ev.env.timestamp);
      CreateAndReturnStakeHistoryItem(StakeHistoryItem(EventId(ev.env), ev.staker,
                                                       StakeActionFor(ev.amount, ev.totalStaked),
                                                       ev.amount, ZERO_ADDRESS, ev.lockedUntil, ZERO_ADDRESS));
      IncrementUserStakeHistory(ev.staker, ev.amount);
    }

    /** The two withdrawal events as one withdrawal request: the row id of
        the event, its transaction, the emitting staking contract, and the
        event's staker, receiver and amount, with nothing staked in total. */
    static function FromTokensWithdrawn(ev: TokensWithdrawnEvent, t: Transaction): TokensWithdrawnParams {
      TokensWithdrawnParams(EventId(ev.env), t, ev.env.address, ev.staker, ev.receiver, ev.amount, 0, 0, ev.env)
    }

    /** StakingWithdrawn is TokensWithdrawn renamed; its request also carries the `until` date. */
    static function FromStakingWithdrawn(ev: StakingWithdrawnEvent, t: Transaction): TokensWithdrawnParams {
      TokensWithdrawnParams(EventId(ev.env), t, ev.env.address, ev.staker, ev.receiver, ev.amount, ev.until, 0, ev.env)
    }

    /** The two withdrawal events with the same parameters make the same
        request except for its lock date, which the reducer never reads. */
    static lemma WithdrawnEventsAgree(ev: StakingWithdrawnEvent, t: Transaction)
      ensures FromStakingWithdrawn(ev, t)
           == FromTokensWithdrawn(TokensWithdrawnEvent(ev.env, ev.staker, ev.receiver, ev.amount), t)
                .(lockedUntil := ev.until)
    {
    }

    /** The FeeSharingTokensTransferred amount recorded for a transaction, if any. */
    function SlashingSignal(transactionId: string): Option<int>
      reads this
    {
      if transactionId in feeSharing then Some(feeSharing[transactionId]) else None
    }

    /** The vesting branch of a withdrawal: one row, a revocation exactly when
        the team contract pays an administrator, and the balance falls. */
    twostate predicate WithdrawnFromContract(cfg: Config, p: TokensWithdrawnParams)
      reads this
    {
      && p.staker in old(vestingContracts)
      && vestingHistory == old(vestingHistory) + [VestingHistoryItem(EventId(p.event), p.staker,
           if IsRevoked(cfg, p.receiver, old(vestingContracts)[p.staker].contractType)
           then TeamTokensRevoked else TokensWithdrawn,
           p.amount, 0, 0, None)]
      && vestingContracts == old(vestingContracts)[p.staker := old(vestingContracts)[p.staker].(
           currentBalance := old(vestingContracts)[p.staker].currentBalance - p.amount)]
    }

    /** The direct branch of a withdrawal: the staker is upserted, the row and
        the debit go to the receiver, and a fee-sharing signal makes it an
        Unstake whose slashed amount is debited too. */
    twostate predicate WithdrawnDirectly(p: TokensWithdrawnParams)
      reads this
    {
      && users == UserUpserted(old(users), p.staker, p.event.timestamp)
      && stakeHistory == old(stakeHistory) + [StakeHistoryItem(EventId(p.event), p.receiver,
           WithdrawActionFor(SlashingSignal(p.transaction.id)), p.amount, ZERO_ADDRESS, 0, ZERO_ADDRESS)]
      && userStakeHistory == Credit(old(userStakeHistory), p.receiver,
           -(p.amount + SlashedAmount(SlashingSignal(p.transaction.id))))
    }

    /** What the shared withdrawal reducer does to the store: exactly one of
        the two branches, and nothing else. */
    twostate predicate WithdrawalReduced(cfg: Config, p: TokensWithdrawnParams)
      reads this
    {
      if p.staker in old(vestingContracts) then
        && WithdrawnFromContract(cfg, p)
        && users == old(users) && stakeHistory == old(stakeHistory) && userStakeHistory == old(userStakeHistory)
      else
        && WithdrawnDirectly(p)
        && vestingHistory == old(vestingHistory) && vestingContracts == old(vestingContracts)
    }

    method HandleTokensWithdrawn(cfg: Config, ev: TokensWithdrawnEvent)
      requires Valid()
      modifies this`transactions, this`vestingContracts, this`vestingHistory,
               this`users, this`stakeHistory, this`userStakeHistory
      ensures Valid()
      ensures transactions == TransactionRecorded(old(transactions), ev.env)
      ensures WithdrawalReduced(cfg, FromTokensWithdrawn(ev, transactions[ev.env.txHash]))
    {
      var transaction := CreateAndReturnTransaction(ev.env);
      label recorded:
      HandleStakingOrTokensWithdrawn(cfg, FromTokensWithdrawn(ev, transaction));
      assert WithdrawalReduced@recorded(cfg, FromTokensWithdrawn(ev, transaction));
    }

    method HandleStakingWithdrawn(cfg: Config, ev: StakingWithdrawnEvent)
      requires Valid()
      modifies this`transactions, this`vestingContracts, this`vestingHistory,
               this`users, this`stakeHistory, this`userStakeHistory
      ensures Valid()
      ensures transactions == TransactionRecorded(old(transactions), ev.env)
      ensures WithdrawalReduced(cfg, FromStakingWithdrawn(ev, transactions[ev.env.txHash]))
    {
      var transaction := CreateAndReturnTransaction(ev.env);
      label recorded:
      HandleStakingOrTokensWithdrawn(cfg, FromStakingWithdrawn(ev, transaction));
      assert WithdrawalReduced@recorded(cfg, FromStakingWithdrawn(ev, transaction));
    }

    method HandleStakingOrTokensWithdrawn(cfg: Config, p: TokensWithdrawnParams)
      requires Valid()
      modifies this`vestingContracts, this`vestingHistory, this`users, this`stakeHistory, this`userStakeHistory
      ensures Valid()
      ensures WithdrawalReduced(cfg, p)
    {
      if p.staker in vestingContracts {
        WithdrawFromVestingContract(cfg, p);
        return;
      }
      WithdrawDirectStake(p);
    }

    /** The vesting branch of a withdrawal: log it as a withdrawal or, for a
        team contract paying an administrator, as a revocation. */
    method WithdrawFromVestingContract(cfg: Config, p: TokensWithdrawnParams)
      requires Valid()
      requires p.staker in vestingContracts
      modifies this`vestingContracts, this`vestingHistory
      ensures Valid()
      ensures WithdrawnFromContract(cfg, p)
    {
      var vesting := vestingContracts[p.staker];
      var isRevoked := IsRevoked(cfg, p.receiver, vesting.contractType);
      var item := VestingHistoryItem(EventId(p.event), p.staker, if isRevoked then TeamTokensRevoked else TokensWithdrawn,
                                     p.amount, 0, 0, None);
      CreateAndReturnVestingHistoryItem(item);
      DecrementVestingContractBalance(p.staker, p.amount);
      AppendKeepsConserved(old(vestingContracts), old(vestingHistory), vestingContracts, item);
    }

    /** The direct branch of a withdrawal: a fee-sharing transfer in the same
        transaction marks it as a slashing, and its amount is taken off too. */
    method WithdrawDirectStake(p: TokensWithdrawnParams)
      requires Valid()
      modifies this`users, this`stakeHistory, this`userStakeHistory
      ensures Valid()
      ensures WithdrawnDirectly(p)
    {
      var _ := CreateAndReturnUser(p.staker, p.event.timestamp);
      var slashingEvent := SlashingSignal(p.transaction.id);
      var slashedAmount := SlashedAmount(slashingEvent);
      CreateAndReturnStakeHistoryItem(StakeHistoryItem(EventId(p.event), p.receiver, WithdrawActionFor(slashingEvent),
                                                       p.amount, ZERO_ADDRESS, 0, ZERO_ADDRESS));
      DecrementUserStakeHistory(p.receiver, p.amount, slashedAmount);
    }

    // ---------------------------------------------------------------
    // src/mappings/VestingRegistry.ts
    // ---------------------------------------------------------------

    /** What a registry creation event does: nothing for a known address;
        otherwise register the address, upsert the owner, record the
        transaction and store the new contract with the reads that succeeded. */
    twostate predicate VestingCreated(ev: VestingCreatedEvent, contractType: VestingContractType,
                                      sov: Option<string>, stakingAddress: Option<string>)
      reads this
    {
      if ev.vesting in old(vestingContracts) then
        && registrations == old(registrations) && users == old(users)
        && transactions == old(transactions) && vestingContracts == old(vestingContracts)
      else
        && registrations == old(registrations) + [ev.vesting]
        && users == UserUpserted(old(users), ev.tokenOwner, ev.env.timestamp)
        && transactions == TransactionRecorded(old(transactions), ev.env)
        && vestingContracts == old(vestingContracts)[ev.vesting := VestingContract(ev.tokenOwner,
             ev.cliff, ev.duration, ev.amount, 0, contractType, None, sov, stakingAddress,
             ev.env.txHash, transactions[ev.env.txHash].timestamp, ev.env.address)]
    }

    /** The body both registry handlers share; `sov` and `stakingAddress` are
        the results of the two contract reads, None when the read reverted. */
    method CreateVestingContractFromRegistry(ev: VestingCreatedEvent, contractType: VestingContractType,
                                             sov: Option<string>, stakingAddress: Option<string>)
      requires Valid()
      modifies this`registrations, this`users, this`transactions, this`vestingContracts
      ensures Valid()
      ensures VestingCreated(ev, contractType, sov, stakingAddress)
    {
      if ev.vesting !in vestingContracts {
        RegisterVestingContractTemplate(ev.vesting);
        var user := CreateAndReturnUser(ev.tokenOwner, ev.env.timestamp);
        var transaction := CreateAndReturnTransaction(ev.env);
        var entity := VestingContract(user.id, ev.cliff, ev.duration, ev.amount, 0, contractType,
                                      None, None, None, transaction.id, transaction.timestamp, ev.env.address);
        if sov.Some? {
          entity := entity.(token := sov);
        }
        if stakingAddress.Some? {
          entity := entity.(staking := stakingAddress);
        }
        vestingContracts := vestingContracts[ev.vesting := entity];
        EmptyContractKeepsConserved(old(vestingContracts), vestingHistory, ev.vesting, entity);
        assert forall i :: 0 <= i < |old(registrations)| ==> old(registrations)[i] != ev.vesting;
      }
    }

    method HandleTeamVestingCreatedProxy(ev: VestingCreatedEvent, sov: Option<string>, stakingAddress: Option<string>)
      requires Valid()
      modifies this`registrations, this`users, this`transactions, this`vestingContracts
      ensures Valid()
      ensures VestingCreated(ev, Team, sov, stakingAddress)
    {
      CreateVestingContractFromRegistry(ev, Team, sov, stakingAddress);
    }

    method HandleVestingCreatedProxy(ev: VestingCreatedEvent, sov: Option<string>, stakingAddress: Option<string>)
      requires Valid()
      modifies this`registrations, this`users, this`transactions, this`vestingContracts
      ensures Valid()
      ensures VestingCreated(ev, Rewards, sov, stakingAddress)
    {
      CreateVestingContractFromRegistry(ev, Rewards, sov, stakingAddress);
    }

    // ---------------------------------------------------------------
    // src/mappings/Vesting.ts
    // ---------------------------------------------------------------

    method HandleVotesDelegated(ev: VotesDelegatedEvent)
      requires Valid()
      modifies this`users, this`vestingContracts, this`vestingHistory, this`stakeHistory
      ensures Valid()
      ensures ev.env.address !in old(vestingContracts) ==>
        users == old(users) && vestingContracts == old(vestingContracts)
        && vestingHistory == old(vestingHistory) && stakeHistory == old(stakeHistory)
      ensures ev.env.address in old(vestingContracts) ==>
        users == UserUpserted(old(users), ev.delegatee, ev.env.timestamp)
        && vestingContracts == old(vestingContracts)[ev.env.address :=
             old(vestingContracts)[ev.env.address].(delegate := Some(ev.delegatee))]
        && vestingHistory == old(vestingHistory) + [VestingHistoryItem(EventId(ev.env), ev.env.address,
             DelegateChanged, 0, 0, 0, Some(ev.delegatee))]
        && stakeHistory == old(stakeHistory) + [StakeHistoryItem(EventId(ev.env),
             old(vestingContracts)[ev.env.address].user, DelegateVested, 0, ZERO_ADDRESS, 0, ev.delegatee)]
    {
      if ev.env.address in vestingContracts {
        var vesting := vestingContracts[ev.env.address];
        var delegatee := CreateAndReturnUser(ev.delegatee, ev.env.timestamp);
        vesting := vesting.(delegate := Some(delegatee.id));
        vestingContracts := vestingContracts[ev.env.address := vesting];
        var item := VestingHistoryItem(EventId(ev.env), ev.env.address, DelegateChanged, 0, 0, 0, Some(ev.delegatee));
        CreateAndReturnVestingHistoryItem(item);
        AppendKeepsConserved(old(vestingContracts), old(vestingHistory), vestingContracts, item);
        CreateAndReturnStakeHistoryItem(StakeHistoryItem(EventId(ev.env), vesting.user, DelegateVested, 0,
                                                         ZERO_ADDRESS, 0, ev.delegatee));
      }
    }
  }
}
