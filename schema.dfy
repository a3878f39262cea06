/** The entities of the subgraph's store, the decoded protocol events the
    handlers receive, the static configuration, and the small map updates
    the entity helpers perform.

    Amounts are raw token units (unbounded integers): the source turns them
    into 18-decimal fixed-point values by exact scaling, which changes no
    comparison and no sum. Addresses are their hexadecimal strings. */
module Schema {
  import opened Wrappers

  /** The all-zero address, used as "no token" and "no delegatee". */
  const ZERO_ADDRESS: string := "0x0000000000000000000000000000000000000000"

  /** Build-time constants: network and chain names, the inclusive block
      window of genesis vesting contracts, and the administrator addresses. */
  datatype Config = Config(
    network: string,
    chain: string,
    genesisVestingStart: int,
    genesisVestingEnd: int,
    adminContracts: seq<string>)

  datatype VestingContractType = Genesis | Team | Rewards

  datatype StakeHistoryAction =
    | Stake | IncreaseStake | ExtendStake | Delegate | DelegateVested | Unstake | WithdrawStaked

  datatype VestingHistoryActionItem =
    | TokensStaked | TokensWithdrawn | TeamTokensRevoked | DelegateChanged

  /** What every event carries besides its parameters: the enclosing
      transaction's hash and sender, the event's position in it, the block,
      and the address of the emitting contract. */
  datatype Envelope = Envelope(
    txHash: string,
    logIndex: nat,
    blockNumber: int,
    timestamp: int,
    sender: string,
    address: string)

  /** History rows are keyed by the event that wrote them. */
  datatype HistoryId = HistoryId(txHash: string, logIndex: nat)

  function EventId(env: Envelope): HistoryId {
    HistoryId(env.txHash, env.logIndex)
  }

  datatype Transaction = Transaction(id: string, timestamp: int, blockNumber: int)

  datatype User = User(id: string, createdAtTimestamp: int)

  /** A delegated stake row: the delegatee and the lock date it belongs to. */
  datatype StakeKey = StakeKey(delegatee: string, lockedUntil: int)

  datatype VestingContract = VestingContract(
    user: string,
    cliff: int,
    duration: int,
    startingBalance: int,
    currentBalance: int,
    contractType: VestingContractType,
    delegate: Option<string>,
    token: Option<string>,
    staking: Option<string>,
    createdAtTransaction: string,
    createdAtTimestamp: int,
    emittedBy: string)

  datatype StakeHistoryItem = StakeHistoryItem(
    id: HistoryId,
    user: string,
    action: StakeHistoryAction,
    amount: int,
    token: string,
    lockedUntil: int,
    delegatee: string)

  datatype VestingHistoryItem = VestingHistoryItem(
    id: HistoryId,
    staker: string,
    action: VestingHistoryActionItem,
    amount: int,
    lockedUntil: int,
    totalStaked: int,
    delegatee: Option<string>)

  // Decoded protocol events.

  datatype DelegateChangedEvent = DelegateChangedEvent(
    env: Envelope, delegator: string, fromDelegate: string, toDelegate: string, lockedUntil: int)

  /** `amount` is the delegate's new stake balance at `lockedUntil`. */
  datatype DelegateStakeChangedEvent = DelegateStakeChangedEvent(
    env: Envelope, delegate: string, lockedUntil: int, amount: int)

  datatype ExtendedStakingDurationEvent = ExtendedStakingDurationEvent(
    env: Envelope, staker: string, newDate: int)

  datatype TokensStakedEvent = TokensStakedEvent(
    env: Envelope, staker: string, amount: int, lockedUntil: int, totalStaked: int)

  datatype TokensWithdrawnEvent = TokensWithdrawnEvent(
    env: Envelope, staker: string, receiver: string, amount: int)

  datatype StakingWithdrawnEvent = StakingWithdrawnEvent(
    env: Envelope, staker: string, receiver: string, amount: int, until: int)

  /** Both registry events, VestingCreated and TeamVestingCreated, have this shape. */
  datatype VestingCreatedEvent = VestingCreatedEvent(
    env: Envelope, vesting: string, tokenOwner: string, cliff: int, duration: int, amount: int)

  /** Emitted by a vesting contract; `env.address` names the contract. */
  datatype VotesDelegatedEvent = VotesDelegatedEvent(env: Envelope, delegatee: string)

  /** The one internal withdrawal request both withdrawal events are normalised to. */
  datatype TokensWithdrawnParams = TokensWithdrawnParams(
    id: HistoryId,
    transaction: Transaction,
    stakingContract: string,
    staker: string,
    receiver: string,
    amount: int,
    lockedUntil: int,
    totalStaked: int,
    event: Envelope)

  // Map updates performed by the entity helpers.

  /** Load-or-create of a User: an existing user is kept as it is. */
  function UserUpserted(users: map<string, User>, address: string, timestamp: int): (r: map<string, User>)
    ensures r.Keys == users.Keys + {address}
    ensures forall a :: a in users ==> r[a] == users[a]
    ensures address !in users ==> r[address] == User(address, timestamp)
  {
    if address in users then users else users[address := User(address, timestamp)]
  }

  /** Load-or-create of the enclosing Transaction: one row per hash. */
  function TransactionRecorded(txs: map<string, Transaction>, env: Envelope): (r: map<string, Transaction>)
    ensures r.Keys == txs.Keys + {env.txHash}
    ensures forall h :: h in txs ==> r[h] == txs[h]
    ensures env.txHash !in txs ==> r[env.txHash] == Transaction(env.txHash, env.timestamp, env.blockNumber)
  {
    if env.txHash in txs then txs else txs[env.txHash := Transaction(env.txHash, env.timestamp, env.blockNumber)]
  }

  /** The value of a ledger entry, zero when it has never been written. */
  function Balance<K>(m: map<K, int>, k: K): int {
    if k in m then m[k] else 0
  }

  /** Adds `delta` to one ledger entry and leaves every other entry alone. */
  function Credit<K>(m: map<K, int>, k: K, delta: int): (r: map<K, int>)
    ensures r.Keys == m.Keys + {k}
    ensures Balance(r, k) == Balance(m, k) + delta
    ensures forall j :: j in m && j != k ==> r[j] == m[j]
  {
    m[k := Balance(m, k) + delta]
  }

  /** Two credits to the same entry are one credit of their sum, so a ledger
      entry is the sum of what was credited to it, in any grouping. */
  lemma CreditsAdd<K>(m: map<K, int>, k: K, a: int, b: int)
    ensures Credit(Credit(m, k, a), k, b) == Credit(m, k, a + b)
  {
  }

  /** ASCII lower-casing, as applied to a hexadecimal address string. */
  function LowerChar(c: char): char {
    if 'A' <= c <= 'Z' then (c as int + 32) as char else c
  }

  function Lower(s: string): (r: string)
    ensures |r| == |s|
    ensures forall i :: 0 <= i < |r| ==> !('A' <= r[i] <= 'Z')
    ensures forall i :: 0 <= i < |s| && !('A' <= s[i] <= 'Z') ==> r[i] == s[i]
    ensures forall i :: 0 <= i < |s| && 'A' <= s[i] <= 'Z' ==> r[i] == (s[i] as int + 32) as char
  {
    seq(|s|, i requires 0 <= i < |s| => LowerChar(s[i]))
  }

  /** Two characters that are equal once upper-case ASCII letters are lowered. */
  predicate SameLetterIgnoringCase(x: char, y: char) {
    x == y
    || ('A' <= x <= 'Z' && y as int == x as int + 32)
    || ('A' <= y <= 'Z' && x as int == y as int + 32)
  }

  /** Two addresses that differ at most in the case of their letters. */
  predicate SameIgnoringCase(a: string, b: string) {
    |a| == |b| && forall i :: 0 <= i < |a| ==> SameLetterIgnoringCase(a[i], b[i])
  }

  /** Addresses that differ only in letter case lower to the same string. */
  lemma LowerIgnoresCase(a: string, b: string)
    requires SameIgnoringCase(a, b)
    ensures Lower(a) == Lower(b)
  {
    forall i | 0 <= i < |a|
      ensures Lower(a)[i] == Lower(b)[i]
    {
      assert SameLetterIgnoringCase(a[i], b[i]);
    }
  }
}
