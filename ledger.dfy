/** What the vesting history log says about a contract's balance: the sum
    of its deposits and of its withdrawals. The store keeps every contract's
    current balance equal to the difference (see Subgraph.Store.Valid). */
module Ledger {
  import opened Schema

  predicate IsWithdrawal(action: VestingHistoryActionItem) {
    action == TokensWithdrawn || action == TeamTokensRevoked
  }

  /** Sum of the TokensStaked amounts logged for contract `c`. */
  function Deposited(h: seq<VestingHistoryItem>, c: string): int {
    if h == [] then 0
    else (if h[0].staker == c && h[0].action == TokensStaked then h[0].amount else 0) + Deposited(h[1..], c)
  }

  /** Sum of the withdrawn and revoked amounts logged for contract `c`. */
  function Withdrawn(h: seq<VestingHistoryItem>, c: string): int {
    if h == [] then 0
    else (if h[0].staker == c && IsWithdrawal(h[0].action) then h[0].amount else 0) + Withdrawn(h[1..], c)
  }

  /** The change one history row makes to contract `c`'s balance. */
  function Delta(it: VestingHistoryItem, c: string): int {
    if it.staker != c then 0
    else if it.action == TokensStaked then it.amount
    else if IsWithdrawal(it.action) then -it.amount
    else 0
  }

  lemma {:induction false} DepositedAppend(h: seq<VestingHistoryItem>, it: VestingHistoryItem, c: string)
    ensures Deposited(h + [it], c)
         == Deposited(h, c) + (if it.staker == c && it.action == TokensStaked then it.amount else 0)
  {
    if h == [] {
      assert [it][1..] == [];
    } else {
      assert (h + [it])[1..] == h[1..] + [it];
      DepositedAppend(h[1..], it, c);
    }
  }

  lemma {:induction false} WithdrawnAppend(h: seq<VestingHistoryItem>, it: VestingHistoryItem, c: string)
    ensures Withdrawn(h + [it], c)
         == Withdrawn(h, c) + (if it.staker == c && IsWithdrawal(it.action) then it.amount else 0)
  {
    if h == [] {
      assert [it][1..] == [];
    } else {
      assert (h + [it])[1..] == h[1..] + [it];
      WithdrawnAppend(h[1..], it, c);
    }
  }

  /** Appending a row moves the net balance of `c` by exactly that row's delta. */
  lemma NetAppend(h: seq<VestingHistoryItem>, it: VestingHistoryItem, c: string)
    ensures Deposited(h + [it], c) - Withdrawn(h + [it], c) == Deposited(h, c) - Withdrawn(h, c) + Delta(it, c)
  {
    DepositedAppend(h, it, c);
    WithdrawnAppend(h, it, c);
  }

  /** A contract with no rows in the log has neither deposits nor withdrawals. */
  lemma {:induction false} NoRowsNoBalance(h: seq<VestingHistoryItem>, c: string)
    requires forall i :: 0 <= i < |h| ==> h[i].staker != c
    ensures Deposited(h, c) == 0 && Withdrawn(h, c) == 0
  {
    if h != [] {
      assert forall i :: 0 <= i < |h[1..]| ==> h[1..][i] == h[i + 1];
      NoRowsNoBalance(h[1..], c);
    }
  }

  /** Every history row belongs to a known contract. */
  ghost predicate RowsOwned(contracts: map<string, VestingContract>, h: seq<VestingHistoryItem>) {
    forall i :: 0 <= i < |h| ==> h[i].staker in contracts
  }

  /** Balance conservation: each contract's current balance is what its rows
      deposited minus what they withdrew or revoked. */
  ghost predicate Conserved(contracts: map<string, VestingContract>, h: seq<VestingHistoryItem>) {
    forall c :: c in contracts ==> contracts[c].currentBalance == Deposited(h, c) - Withdrawn(h, c)
  }

  /** Logging a row for a known contract while moving that contract's balance
      by the row's delta, and no other balance, keeps the balances conserved. */
  lemma AppendKeepsConserved(contracts: map<string, VestingContract>, h: seq<VestingHistoryItem>,
                             contracts': map<string, VestingContract>, it: VestingHistoryItem)
    requires Conserved(contracts, h) && RowsOwned(contracts, h)
    requires it.staker in contracts && contracts'.Keys == contracts.Keys
    requires forall c :: c in contracts && c != it.staker ==> contracts'[c].currentBalance == contracts[c].currentBalance
    requires contracts'[it.staker].currentBalance == contracts[it.staker].currentBalance + Delta(it, it.staker)
    ensures Conserved(contracts', h + [it]) && RowsOwned(contracts', h + [it])
  {
    forall c | c in contracts'
      ensures contracts'[c].currentBalance == Deposited(h + [it], c) - Withdrawn(h + [it], c)
    {
      NetAppend(h, it, c);
    }
  }

  /** A contract synthesised for an address with no rows, already holding the
      amount of the one TokensStaked row logged for it, keeps the balances
      conserved: that amount is counted exactly once. */
  lemma SynthesisedKeepsConserved(contracts: map<string, VestingContract>, h: seq<VestingHistoryItem>,
                                  it: VestingHistoryItem, created: VestingContract)
    requires Conserved(contracts, h) && RowsOwned(contracts, h)
    requires it.staker !in contracts
    requires it.action == TokensStaked && created.currentBalance == it.amount
    ensures Conserved(contracts[it.staker := created], h + [it])
    ensures RowsOwned(contracts[it.staker := created], h + [it])
  {
    NoRowsNoBalance(h, it.staker);
    forall c | c in contracts[it.staker := created]
      ensures contracts[it.staker := created][c].currentBalance == Deposited(h + [it], c) - Withdrawn(h + [it], c)
    {
      NetAppend(h, it, c);
    }
  }

  /** A new contract with nothing in its balance, at an address with no rows,
      keeps the balances conserved. */
  lemma EmptyContractKeepsConserved(contracts: map<string, VestingContract>, h: seq<VestingHistoryItem>,
                                    address: string, created: VestingContract)
    requires Conserved(contracts, h) && RowsOwned(contracts, h)
    requires address !in contracts && created.currentBalance == 0
    ensures Conserved(contracts[address := created], h) && RowsOwned(contracts[address := created], h)
  {
    NoRowsNoBalance(h, address);
  }
}
