/**
  Replaying one input stream into a bank (the record loop of
  `Bank::process_transactions_from_csv_path` in src/lib/bank.rs), and the
  properties of a whole stream.
 */
module Ingestion {
  import opened Types
  import opened Records
  import opened Banks
  import opened Processing

  /** The ledger after processing `txs` in order: the left fold of `Step`. */
  function Replay(l: Ledger, txs: seq<Tx>): Ledger
    decreases |txs|
  {
    if txs == [] then l else Replay(Step(l, txs[0]), txs[1..])
  }

  /** Processing one more record after a stream is one more `Step`. */
  lemma {:induction false} ReplaySnoc(l: Ledger, txs: seq<Tx>, t: Tx)
    ensures Replay(l, txs + [t]) == Step(Replay(l, txs), t)
    decreases |txs|
  {
    if txs == [] {
      assert [t][1..] == [];
    } else {
      assert (txs + [t])[1..] == txs[1..] + [t];
      ReplaySnoc(Step(l, txs[0]), txs[1..], t);
    }
  }

  /** Replaying two streams one after the other is replaying their concatenation. */
  lemma {:induction false} ReplayAppend(l: Ledger, xs: seq<Tx>, ys: seq<Tx>)
    ensures Replay(l, xs + ys) == Replay(Replay(l, xs), ys)
    decreases |xs|
  {
    if xs == [] {
      assert xs + ys == ys;
    } else {
      assert (xs + ys)[1..] == xs[1..] + ys;
      ReplayAppend(Step(l, xs[0]), xs[1..], ys);
    }
  }

  /** Processes every record of a stream, in order, against a bank handle. */
  method ProcessTransactions(records: seq<Tx>, bank: Bank)
    modifies bank.accounts, bank.transactions
    ensures bank.State() == Replay(old(bank.State()), records)
  {
    ghost var start := bank.State();
    for i := 0 to |records|
      invariant bank.State() == Replay(start, records[..i])
    {
      ghost var before := bank.State();
      Process(records[i], bank);
      assert bank.State() == Step(before, records[i]);
      ReplaySnoc(start, records[..i], records[i]);
      assert records[..i + 1] == records[..i] + [records[i]];
    }
    assert records[..|records|] == records;
  }

  /** Every reachable ledger is well formed. */
  lemma {:induction false} ReplayPreservesWellFormed(l: Ledger, txs: seq<Tx>)
    requires WellFormed(l)
    ensures WellFormed(Replay(l, txs))
    decreases |txs|
  {
    if txs != [] {
      StepPreservesWellFormed(l, txs[0]);
      ReplayPreservesWellFormed(Step(l, txs[0]), txs[1..]);
    }
  }

  /**
    Locking is permanent: once a client's account is locked, no later record
    changes it.
   */
  lemma {:induction false} LockIsPermanent(l: Ledger, txs: seq<Tx>, c: ClientId)
    requires IsLocked(l.accounts, c)
    ensures c in Replay(l, txs).accounts && Replay(l, txs).accounts[c] == l.accounts[c]
    decreases |txs|
  {
    if txs != [] {
      var next := Step(l, txs[0]);
      if txs[0].client == c {
        LockedIsNoOp(l, txs[0]);
      }
      LockIsPermanent(next, txs[1..], c);
    }
  }

  /**
    No account and no stored transaction ever disappears, and every client
    named by a record ends up with an account.
   */
  lemma {:induction false} ReplayKeysGrow(l: Ledger, txs: seq<Tx>)
    ensures l.accounts.Keys <= Replay(l, txs).accounts.Keys
    ensures l.transactions.Keys <= Replay(l, txs).transactions.Keys
    ensures forall i :: 0 <= i < |txs| ==> txs[i].client in Replay(l, txs).accounts
    decreases |txs|
  {
    if txs != [] {
      ReplayKeysGrow(Step(l, txs[0]), txs[1..]);
      assert forall i :: 1 <= i < |txs| ==> txs[i] == txs[1..][i - 1];
    }
  }

  /** A stream of only Dispute, Resolve and Chargeback records stores nothing. */
  lemma {:induction false} MetaStreamKeepsSheetKeys(l: Ledger, txs: seq<Tx>)
    requires forall i :: 0 <= i < |txs| ==> !IsStored(txs[i].kind)
    ensures Replay(l, txs).transactions.Keys == l.transactions.Keys
    decreases |txs|
  {
    if txs != [] {
      MetaStreamKeepsSheetKeys(Step(l, txs[0]), txs[1..]);
    }
  }

  /** A stream without a Chargeback locks no account that was unlocked. */
  lemma {:induction false} NoChargebackNoLock(l: Ledger, txs: seq<Tx>, c: ClientId)
    requires forall i :: 0 <= i < |txs| ==> !txs[i].kind.Chargeback?
    requires !IsLocked(l.accounts, c)
    ensures !IsLocked(Replay(l, txs).accounts, c)
    decreases |txs|
  {
    if txs != [] {
      NoChargebackNoLock(Step(l, txs[0]), txs[1..], c);
    }
  }

  /**
    Reference balance for a client's stream of Deposits and Withdrawals:
    deposits add their amount, and a withdrawal subtracts its amount when the
    balance at that moment covers it and is skipped otherwise.
   */
  function CashBalance(available: AmountValue, txs: seq<Tx>): AmountValue
    decreases |txs|
  {
    if txs == [] then available
    else
      var t := txs[0];
      var next :=
        if t.kind.Deposit? then available + t.amount
        else if available >= t.amount then available - t.amount
        else available;
      CashBalance(next, txs[1..])
  }

  /**
    For a stream of Deposits and Withdrawals of one unlocked client, the
    final `available` is the reference balance, `held` is untouched and the
    account stays unlocked.
   */
  lemma {:induction false} CashStreamBalance(l: Ledger, c: ClientId, txs: seq<Tx>)
    requires forall i :: 0 <= i < |txs| ==> txs[i].client == c && IsStored(txs[i].kind)
    requires !IsLocked(l.accounts, c)
    ensures var a, r := AccountFor(l.accounts, c), Replay(l, txs).accounts;
      && (c in r || txs == [])
      && AccountFor(r, c).available == CashBalance(a.available, txs)
      && AccountFor(r, c).held == a.held
      && !AccountFor(r, c).locked
    decreases |txs|
  {
    if txs != [] {
      var t, a := txs[0], AccountFor(l.accounts, c);
      var next := if t.kind.Deposit? then a.available + t.amount
        else if a.available >= t.amount then a.available - t.amount
        else a.available;
      var mid := Step(l, t);
      if t.kind.Deposit? {
        DepositEffect(l, t);
      } else {
        WithdrawalEffect(l, t);
      }
      assert c in mid.accounts;
      assert mid.accounts[c] == a.(available := next);
      assert CashBalance(a.available, txs) == CashBalance(next, txs[1..]);
      CashStreamBalance(mid, c, txs[1..]);
    }
  }
}
