/**
  The unit tests of src/lib/transaction.rs, each stated as the outcome of
  replaying its records into a new bank.
 */
module Scenarios {
  import opened Types
  import opened Records
  import opened Banks
  import opened Processing
  import opened Ingestion

  /** A freshly decoded record: not disputed. */
  function Record(kind: TxType, client: ClientId, tx: TxId, amount: AmountValue): Tx
  {
    Tx(kind, client, tx, amount, false)
  }

  lemma DepositScenario()
    ensures var r := Replay(EmptyLedger, [Record(Deposit, 1, 1, 5)]);
      && 1 in r.accounts && r.accounts[1] == Account(1, 5, 0, 0, false)
      && |r.transactions| == 1
  {
  }

  lemma DepositToLockedAccountScenario()
    ensures var r := Replay(EmptyLedger, [Record(Deposit, 1, 1, 5), Record(Dispute, 1, 1, 0),
                                          Record(Chargeback, 1, 1, 0), Record(Deposit, 1, 2, 1)]);
      && 1 in r.accounts && r.accounts[1] == Account(1, 0, 0, 0, true)
      && r.transactions.Keys == {1} && r.transactions[1].disputed
  {
  }

  lemma WithdrawalScenario()
    ensures var r := Replay(EmptyLedger, [Record(Deposit, 1, 1, 5), Record(Withdrawal, 1, 2, 5)]);
      && 1 in r.accounts && r.accounts[1] == Account(1, 0, 0, 0, false)
      && r.transactions.Keys == {1, 2}
  {
  }

  lemma InsufficientFundsScenario()
    ensures var r := Replay(EmptyLedger, [Record(Deposit, 1, 1, 3), Record(Withdrawal, 1, 2, 5)]);
      && 1 in r.accounts && r.accounts[1] == Account(1, 3, 0, 0, false)
      && r.transactions.Keys == {1, 2}
  {
  }

  lemma WithdrawalMidDisputeScenario()
    ensures Replay(EmptyLedger, [Record(Deposit, 1, 1, 3), Record(Dispute, 1, 1, 0), Record(Withdrawal, 1, 2, 3)])
      == Ledger(map[1 := Record(Deposit, 1, 1, 3).(disputed := true), 2 := Record(Withdrawal, 1, 2, 3)],
                map[1 := Account(1, 0, 3, 0, false)])
  {
  }

  /** Continues the previous scenario with a Resolve of the dispute and a second withdrawal. */
  lemma DisputeResolvedScenario()
    ensures var r := Replay(EmptyLedger, [Record(Deposit, 1, 1, 3), Record(Dispute, 1, 1, 0),
                                          Record(Withdrawal, 1, 2, 3), Record(Resolve, 1, 1, 0),
                                          Record(Withdrawal, 1, 3, 3)]);
      && 1 in r.accounts && r.accounts[1] == Account(1, 0, 0, 0, false)
      && r.transactions.Keys == {1, 2, 3} && !r.transactions[1].disputed
  {
  }

  lemma ResolveWrongTxIdScenario()
    ensures var r := Replay(EmptyLedger, [Record(Deposit, 1, 1, 3), Record(Dispute, 1, 1, 0),
                                          Record(Resolve, 1, 34, 0)]);
      && 1 in r.accounts && r.accounts[1] == Account(1, 0, 3, 0, false)
      && r.transactions.Keys == {1} && r.transactions[1].disputed
  {
  }
}
