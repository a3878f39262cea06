/** Clients of the store: short event sequences whose outcome follows from
    the handlers' contracts alone. */
module Scenarios {
  import opened Wrappers
  import opened Schema
  import opened Subgraph

  const ADMIN: string := "0xad"
  const STAKING: string := "0x5a"

  function TestConfig(): Config {
    Config("testnet", "rsk", 100, 200, [ADMIN])
  }

  function At(txHash: string, logIndex: nat, blockNumber: int, sender: string): Envelope {
    Envelope(txHash, logIndex, blockNumber, 1000 + blockNumber, sender, STAKING)
  }

  /** A first stake equal to the running total is a Stake; a smaller one
      after it is an IncreaseStake; the user's total follows both. */
  method StakeThenIncreaseStake() {
    var store := new Store(map[]);
    var alice := "0xa1";
    store.HandleTokensStaked(TestConfig(), TokensStakedEvent(At("0x01", 0, 50, alice), alice, 50, 9000, 50));
    assert store.stakeHistory[0].action == Stake;
    store.HandleTokensStaked(TestConfig(), TokensStakedEvent(At("0x02", 0, 51, alice), alice, 30, 9000, 80));
    assert store.stakeHistory[1].action == IncreaseStake;
    assert Balance(store.userStakeHistory, alice) == 80;
    assert store.vestingContracts == map[];
  }

  /** A stake sent by someone else inside the genesis window synthesises a
      Genesis contract holding the amount once; a later deposit adds to it,
      and a withdrawal takes from it without touching any user ledger. */
  method GenesisContractBalance() {
    var store := new Store(map[]);
    var vesting, owner := "0xc0", "0xb0";
    store.HandleTokensStaked(TestConfig(), TokensStakedEvent(At("0x01", 0, 150, owner), vesting, 70, 9000, 70));
    assert store.vestingContracts[vesting].contractType == Genesis;
    assert store.vestingContracts[vesting].user == owner;
    assert store.vestingContracts[vesting].currentBalance == 70;
    store.HandleTokensStaked(TestConfig(), TokensStakedEvent(At("0x02", 0, 250, owner), vesting, 30, 9000, 100));
    assert store.vestingContracts[vesting].currentBalance == 100;
    store.HandleTokensWithdrawn(TestConfig(), TokensWithdrawnEvent(At("0x03", 0, 260, owner), vesting, owner, 40));
    assert store.vestingContracts[vesting].currentBalance == 60;
    assert store.vestingHistory[2].action == TokensWithdrawn;
    assert store.stakeHistory == [] && store.userStakeHistory == map[];
  }

  /** A registry event seen twice creates one contract and registers its
      address once; the second sight changes nothing. */
  method RegistryEventSeenTwice() {
    var store := new Store(map[]);
    var vesting, owner := "0xc1", "0xb1";
    var ev := VestingCreatedEvent(At("0x01", 0, 10, owner), vesting, owner, 4, 52, 500);
    store.HandleTeamVestingCreatedProxy(ev, Some("0x50"), None);
    var created := store.vestingContracts[vesting];
    assert created.contractType == Team && created.currentBalance == 0 && created.startingBalance == 500;
    assert created.token == Some("0x50") && created.staking == None;
    store.HandleVestingCreatedProxy(ev, None, None);
    assert store.vestingContracts[vesting] == created && store.registrations == [vesting];
  }

  /** A team contract's deposit raises its balance; a withdrawal from it to
      an administrator is logged as a revocation and lowers the balance. */
  method TeamTokensRevokedByAdmin() {
    assert Lower(ADMIN) == ADMIN by {
      forall i | 0 <= i < |ADMIN| ensures Lower(ADMIN)[i] == ADMIN[i] { }
    }
    var store := new Store(map[]);
    var vesting, owner := "0xc1", "0xb1";
    store.HandleTeamVestingCreatedProxy(VestingCreatedEvent(At("0x01", 0, 10, owner), vesting, owner, 4, 52, 500),
                                        None, None);
    store.HandleTokensStaked(TestConfig(), TokensStakedEvent(At("0x01", 1, 10, owner), vesting, 500, 9000, 500));
    assert store.vestingContracts[vesting].currentBalance == 500;
    store.HandleTokensWithdrawn(TestConfig(), TokensWithdrawnEvent(At("0x02", 0, 20, ADMIN), vesting, ADMIN, 100));
    assert store.vestingHistory[1].action == TeamTokensRevoked;
    assert store.vestingContracts[vesting].currentBalance == 400;
  }

  /** A direct withdrawal in a transaction that also carries a fee-sharing
      transfer is an Unstake and also takes off the slashed amount. */
  method SlashedWithdrawal() {
    var store := new Store(map["0x02" := 5]);
    var bob := "0xb2";
    store.HandleStakingWithdrawn(TestConfig(), StakingWithdrawnEvent(At("0x02", 3, 20, bob), bob, bob, 45, 9000));
    assert store.stakeHistory[0].action == Unstake;
    assert Balance(store.userStakeHistory, bob) == -50;
    store.HandleStakingWithdrawn(TestConfig(), StakingWithdrawnEvent(At("0x03", 0, 21, bob), bob, bob, 10, 9000));
    assert store.stakeHistory[1].action == WithdrawStaked;
    assert Balance(store.userStakeHistory, bob) == -60;
  }

  /** On RSK testnet the oversized lock date is recorded corrected; the same
      value on another network is recorded as it came. */
  method LockDateCorrection() {
    var store := new Store(map[]);
    var carol, dave := "0xca", "0xda";
    var ev := DelegateChangedEvent(At("0x01", 0, 10, carol), carol, ZERO_ADDRESS, dave, 1614429908000);
    store.HandleDelegateChanged(TestConfig(), ev);
    assert store.stakeHistory[0].lockedUntil == 1614429908;
    assert store.users == map[] && store.delegated == map[];
    store.HandleDelegateChanged(TestConfig().(network := "mainnet"), ev.(env := At("0x02", 0, 11, carol)));
    assert store.stakeHistory[1].lockedUntil == 1614429908000;
  }
}
