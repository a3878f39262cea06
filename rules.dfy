/** The decisions the staking handlers take, each a small test on integers
    and addresses, lifted out of src/mappings/Staking.ts. */
module Rules {
  import opened Wrappers
  import opened Schema

  /** The one out-of-range lock date seen on RSK testnet, and its correction. */
  const RSK_TESTNET_BAD_LOCKED_UNTIL: int := 1614429908000
  const RSK_TESTNET_FIXED_LOCKED_UNTIL: int := 1614429908

  /** A DelegateChanged event is a delegation the user made: both delegates
      are real and different, and the delegator sent the transaction. A
      first delegation (from the zero address), an undelegation (to it) or
      a re-delegation to the same delegate is not one. */
  predicate IsUserDelegated(delegator: string, fromDelegate: string, toDelegate: string, sender: string) {
    fromDelegate != ZERO_ADDRESS && toDelegate != ZERO_ADDRESS && fromDelegate != toDelegate
    && delegator == sender
  }

  /** The lock date recorded for a DelegateChanged event: the raw value,
      except for the single millisecond-scaled value on RSK testnet. */
  function CorrectedLockedUntil(cfg: Config, raw: int): (r: int)
    ensures r != raw <==> cfg.chain == "rsk" && cfg.network == "testnet" && raw == 1614429908000
    ensures r != raw ==> r == 1614429908 && r * 1000 == raw
  {
    if cfg.chain == "rsk" && cfg.network == "testnet" && raw == RSK_TESTNET_BAD_LOCKED_UNTIL
    then RSK_TESTNET_FIXED_LOCKED_UNTIL
    else raw
  }

  /** A stake by an unknown contract, inside the genesis block window, sent
      by someone other than the staker, comes from a genesis vesting contract. */
  predicate IsGenesisContract(cfg: Config, hasContract: bool, blockNumber: int, sender: string, staker: string) {
    !hasContract
    && blockNumber <= cfg.genesisVestingEnd
    && blockNumber >= cfg.genesisVestingStart
    && sender != staker
  }

  /** A stake smaller than the running total tops up an earlier one. */
  function StakeActionFor(amount: int, totalStaked: int): StakeHistoryAction {
    if amount < totalStaked then IncreaseStake else Stake
  }

  /** The running total after a stake is what was staked before plus the
      amount: a stake with nothing staked before is a Stake, one that adds
      to an earlier positive stake is an IncreaseStake. */
  lemma FirstStakeVsTopUp(previous: int, amount: int)
    requires previous >= 0
    ensures StakeActionFor(amount, previous + amount) == if previous > 0 then IncreaseStake else Stake
  {
  }

  /** A withdrawal from a team contract to an administrator is a revocation;
      the receiver is compared with the administrators in lower case. */
  predicate IsRevoked(cfg: Config, receiver: string, contractType: VestingContractType) {
    Lower(receiver) in cfg.adminContracts && contractType == Team
  }

  /** The revocation test does not depend on how the receiver's letters are cased. */
  lemma RevocationIgnoresCase(cfg: Config, a: string, b: string, contractType: VestingContractType)
    requires SameIgnoringCase(a, b)
    ensures IsRevoked(cfg, a, contractType) == IsRevoked(cfg, b, contractType)
  {
    LowerIgnoresCase(a, b);
  }

  /** A fee-sharing transfer in the same transaction marks a slashing. */
  function WithdrawActionFor(signal: Option<int>): StakeHistoryAction {
    if signal.None? then WithdrawStaked else Unstake
  }

  /** The slashed amount is the transfer's amount, and nothing without one. */
  function SlashedAmount(signal: Option<int>): int {
    if signal.None? then 0 else signal.value
  }

  /** A direct withdrawal's single debit of the amount plus the slashed amount
      is the debit of the amount followed by the debit of the slashing; an
      ordinary (WithdrawStaked) withdrawal debits the amount alone. */
  lemma SlashedDebitSplits(ledger: map<string, int>, user: string, amount: int, signal: Option<int>)
    ensures Credit(ledger, user, -(amount + SlashedAmount(signal)))
         == Credit(Credit(ledger, user, -amount), user, -SlashedAmount(signal))
    ensures WithdrawActionFor(signal) == WithdrawStaked
            ==> Credit(ledger, user, -(amount + SlashedAmount(signal))) == Credit(ledger, user, -amount)
  {
    CreditsAdd(ledger, user, -amount, -SlashedAmount(signal));
  }
}
