/**
  The transaction state machine `Tx::process` (src/lib/transaction.rs): its
  specification `Step` on ledger values, the imperative `Process` on a bank
  handle proved against it, and the properties of one step.
 */
module Processing {
  import opened Types
  import opened Records
  import opened Banks

  /** True iff the client has an account and it is locked (the early return). */
  predicate IsLocked(accounts: map<ClientId, Account>, c: ClientId)
  {
    c in accounts && accounts[c].locked
  }

  /** The client's account, or the new one created for it on first reference. */
  function AccountFor(accounts: map<ClientId, Account>, c: ClientId): Account
  {
    if c in accounts then accounts[c] else NewAccount(c)
  }

  /** Only Deposit and Withdrawal records are kept in the transaction sheet. */
  predicate IsStored(k: TxType)
  {
    k.Deposit? || k.Withdrawal?
  }

  /**
    The effect of the dispatch on the kind of `t`: the updated account and
    the updated transaction sheet. Meta-operations read the record stored
    under `t.tx` without looking at whose record it is.
   */
  function Dispatch(acc: Account, t: Tx, txs: map<TxId, Tx>): (Account, map<TxId, Tx>)
  {
    match t.kind
    case Deposit =>
      (acc.(available := acc.available + t.amount), txs)
    case Withdrawal =>
      (if acc.available >= t.amount then acc.(available := acc.available - t.amount) else acc, txs)
    case Dispute =>
      if t.tx in txs then
        var d := txs[t.tx];
        (acc.(available := acc.available - d.amount, held := acc.held + d.amount), txs[t.tx := d.(disputed := true)])
      else (acc, txs)
    case Resolve =>
      if t.tx in txs && txs[t.tx].disputed then
        var d := txs[t.tx];
        (acc.(available := acc.available + d.amount, held := acc.held - d.amount), txs[t.tx := d.(disputed := false)])
      else (acc, txs)
    case Chargeback =>
      if t.tx in txs && txs[t.tx].disputed then
        (acc.(locked := true, held := acc.held - txs[t.tx].amount), txs)
      else (acc, txs)
  }

  /**
    The ledger after processing `t`. The account sheet differs at most in
    the entry of `t.client`, which it then holds; the transaction sheet
    differs at most in the entry under `t.tx`, which is new only for an
    unlocked Deposit or Withdrawal.
   */
  function Step(l: Ledger, t: Tx): (r: Ledger)
    ensures t.client in r.accounts && r.accounts == l.accounts[t.client := r.accounts[t.client]]
    ensures r.transactions == l.transactions ||
      (t.tx in r.transactions && r.transactions == l.transactions[t.tx := r.transactions[t.tx]])
    ensures t.tx in r.transactions <==> t.tx in l.transactions || (!IsLocked(l.accounts, t.client) && IsStored(t.kind))
  {
    if IsLocked(l.accounts, t.client) then l
    else
      var (acc, txs) := Dispatch(AccountFor(l.accounts, t.client), t, l.transactions);
      Ledger(if IsStored(t.kind) then txs[t.tx := t] else txs, l.accounts[t.client := acc])
  }

  /**
    The dispatch on the kind of `t`, applied to a local copy of the account
    and, in place, to the transaction sheet.
   */
  method DispatchOn(account: Account, t: Tx, sheet: TransactionSheet) returns (updated: Account)
    modifies sheet
    ensures (updated, sheet.entries) == Dispatch(account, t, old(sheet.entries))
  {
    updated := account;
    match t.kind {
      case Deposit =>
        updated := updated.(available := updated.available + t.amount);
      case Withdrawal =>
        if updated.available >= t.amount {
          updated := updated.(available := updated.available - t.amount);
        }
      case Dispute =>
        if t.tx in sheet.entries {
          var disputed := sheet.entries[t.tx];
          updated := updated.(available := updated.available - disputed.amount, held := updated.held + disputed.amount);
          sheet.Insert(t.tx, disputed.(disputed := true));
        }
      case Resolve =>
        if t.tx in sheet.entries {
          var disputed := sheet.entries[t.tx];
          if disputed.disputed {
            updated := updated.(available := updated.available + disputed.amount, held := updated.held - disputed.amount);
            sheet.Insert(t.tx, disputed.(disputed := false));
          }
        }
      case Chargeback =>
        if t.tx in sheet.entries {
          var disputed := sheet.entries[t.tx];
          if disputed.disputed {
            updated := updated.(locked := true, held := updated.held - disputed.amount);
          }
        }
    }
  }

  /**
    Processes one record against a bank handle, changing the shared sheets
    in place as the source does. The account is updated through a local
    copy that is written back to its entry.
   */
  method Process(t: Tx, bank: Bank)
    modifies bank.accounts, bank.transactions
    ensures bank.State() == Step(old(bank.State()), t)
  {
    var account: Account;
    if t.client in bank.accounts.entries {
      account := bank.accounts.entries[t.client];
      if account.locked {
        return;
      }
    } else {
      account := NewAccount(t.client);
      bank.accounts.Insert(t.client, account);
    }
    assert account == AccountFor(old(bank.accounts.entries), t.client);
    account := DispatchOn(account, t, bank.transactions);
    bank.accounts.Insert(t.client, account);
    if t.kind.Deposit? || t.kind.Withdrawal? {
      bank.transactions.Insert(t.tx, t);
    }
  }

  /**
    The frame of one step, entry by entry: the account sheet gains at most
    `t.client`, every other account and every record not under `t.tx` is
    untouched, and the transaction sheet gains `t.tx` exactly for an
    unlocked Deposit or Withdrawal.
   */
  lemma StepFrame(l: Ledger, t: Tx)
    ensures var r := Step(l, t);
      && r.accounts.Keys == l.accounts.Keys + {t.client}
      && (forall c :: c in l.accounts && c != t.client ==> r.accounts[c] == l.accounts[c])
      && r.transactions.Keys ==
           (if !IsLocked(l.accounts, t.client) && IsStored(t.kind) then l.transactions.Keys + {t.tx} else l.transactions.Keys)
      && (forall k :: k in l.transactions && k != t.tx ==> r.transactions[k] == l.transactions[k])
  {
  }

  /** Processing keeps every account under its own client and every stored record under its own id. */
  lemma StepPreservesWellFormed(l: Ledger, t: Tx)
    requires WellFormed(l)
    ensures WellFormed(Step(l, t))
  {
    if !IsLocked(l.accounts, t.client) {
      var (acc, txs) := Dispatch(AccountFor(l.accounts, t.client), t, l.transactions);
      assert acc.client == t.client;
      assert forall k :: k in txs ==> txs[k].tx == k && IsStored(txs[k].kind);
    }
  }

  /** A record for a locked account changes nothing; even a Deposit is not stored. */
  lemma LockedIsNoOp(l: Ledger, t: Tx)
    requires IsLocked(l.accounts, t.client)
    ensures Step(l, t) == l
  {
  }

  /**
    A client without an account gets a new, empty, unlocked one before the
    record is applied to it.
   */
  lemma FirstReferenceCreatesAccount(l: Ledger, t: Tx)
    requires t.client !in l.accounts
    ensures Step(l, t) == Step(l.(accounts := l.accounts[t.client := NewAccount(t.client)]), t)
  {
  }

  /** A Deposit adds its amount to `available`; nothing else of the account changes. */
  lemma DepositEffect(l: Ledger, t: Tx)
    requires t.kind == Deposit && !IsLocked(l.accounts, t.client)
    ensures var a, r := AccountFor(l.accounts, t.client), Step(l, t).accounts[t.client];
      r == a.(available := a.available + t.amount)
  {
  }

  /**
    A Withdrawal takes its amount out of `available` exactly when enough is
    available; otherwise the account is unchanged. Funds that are not
    negative never become negative, and for a non-negative amount the
    balance never falls below the old balance minus the amount.
   */
  lemma WithdrawalEffect(l: Ledger, t: Tx)
    requires t.kind == Withdrawal && !IsLocked(l.accounts, t.client)
    ensures var a, r := AccountFor(l.accounts, t.client), Step(l, t).accounts[t.client];
      && (a.available >= t.amount ==> r == a.(available := a.available - t.amount))
      && (a.available < t.amount ==> r == a)
      && (a.available >= 0 ==> r.available >= 0)
      && (t.amount >= 0 ==> r.available >= a.available - t.amount)
  {
  }

  /**
    A Dispute of a stored record moves its amount from `available` to
    `held`, keeping their sum, and marks the record disputed; it neither
    checks whose record it is nor whether it is already disputed. For an
    unknown transaction id it only creates the account.
   */
  lemma DisputeEffect(l: Ledger, t: Tx)
    requires t.kind == Dispute && !IsLocked(l.accounts, t.client)
    ensures var a, r := AccountFor(l.accounts, t.client), Step(l, t);
      if t.tx in l.transactions then
        var d := l.transactions[t.tx];
        && r.accounts[t.client] == a.(available := a.available - d.amount, held := a.held + d.amount)
        && r.accounts[t.client].available + r.accounts[t.client].held == a.available + a.held
        && r.transactions == l.transactions[t.tx := d.(disputed := true)]
      else
        r == Ledger(l.transactions, l.accounts[t.client := a])
  {
  }

  /**
    A Resolve of a disputed record moves its amount back from `held` to
    `available` and clears the flag; for an unknown or undisputed record it
    only creates the account.
   */
  lemma ResolveEffect(l: Ledger, t: Tx)
    requires t.kind == Resolve && !IsLocked(l.accounts, t.client)
    ensures var a, r := AccountFor(l.accounts, t.client), Step(l, t);
      if t.tx in l.transactions && l.transactions[t.tx].disputed then
        var d := l.transactions[t.tx];
        && r.accounts[t.client] == a.(available := a.available + d.amount, held := a.held - d.amount)
        && r.accounts[t.client].available + r.accounts[t.client].held == a.available + a.held
        && r.transactions == l.transactions[t.tx := d.(disputed := false)]
      else
        r == Ledger(l.transactions, l.accounts[t.client := a])
  {
  }

  /**
    A Chargeback of a disputed record takes its amount out of `held` and
    locks the account, leaving the record disputed and the sheet as it was;
    for an unknown or undisputed record it only creates the account.
   */
  lemma ChargebackEffect(l: Ledger, t: Tx)
    requires t.kind == Chargeback && !IsLocked(l.accounts, t.client)
    ensures var a, r := AccountFor(l.accounts, t.client), Step(l, t);
      if t.tx in l.transactions && l.transactions[t.tx].disputed then
        && r.accounts[t.client] == a.(locked := true, held := a.held - l.transactions[t.tx].amount)
        && r.accounts[t.client].available + r.accounts[t.client].held == a.available + a.held - l.transactions[t.tx].amount
        && r.transactions == l.transactions
      else
        r == Ledger(l.transactions, l.accounts[t.client := a])
  {
  }

  /**
    An unlocked Deposit or Withdrawal is stored under its transaction id as
    given, replacing any earlier record there (even one that failed for lack
    of funds, or one under dispute).
   */
  lemma CashRecordIsStored(l: Ledger, t: Tx)
    requires IsStored(t.kind) && !IsLocked(l.accounts, t.client)
    ensures Step(l, t).transactions == l.transactions[t.tx := t]
  {
  }

  /** Dispute, Resolve and Chargeback never add or remove a stored transaction. */
  lemma MetaRecordKeepsSheetKeys(l: Ledger, t: Tx)
    requires !IsStored(t.kind)
    ensures Step(l, t).transactions.Keys == l.transactions.Keys
  {
  }

  /**
    Dispute then Resolve of the same stored record gives back the balances
    the account had before, and leaves the record undisputed.
   */
  lemma DisputeThenResolve(l: Ledger, dispute: Tx, resolve: Tx)
    requires dispute.kind == Dispute && resolve.kind == Resolve
    requires dispute.client == resolve.client && dispute.tx == resolve.tx
    requires dispute.tx in l.transactions && !IsLocked(l.accounts, dispute.client)
    ensures Step(Step(l, dispute), resolve) ==
      Ledger(l.transactions[dispute.tx := l.transactions[dispute.tx].(disputed := false)],
             l.accounts[dispute.client := AccountFor(l.accounts, dispute.client)])
  {
    var c, k := dispute.client, dispute.tx;
    var a, d := AccountFor(l.accounts, c), l.transactions[k];
    var mid := Step(l, dispute);
    DisputeEffect(l, dispute);
    assert mid.accounts[c] == a.(available := a.available - d.amount, held := a.held + d.amount);
    ResolveEffect(mid, resolve);
  }

  /**
    Dispute then Chargeback of the same stored record: the amount leaves the
    account for good (`held` is back where it was, `available` is down by the
    amount), the account is locked and the record stays disputed.
   */
  lemma DisputeThenChargeback(l: Ledger, dispute: Tx, chargeback: Tx)
    requires dispute.kind == Dispute && chargeback.kind == Chargeback
    requires dispute.client == chargeback.client && dispute.tx == chargeback.tx
    requires dispute.tx in l.transactions && !IsLocked(l.accounts, dispute.client)
    ensures var a, d := AccountFor(l.accounts, dispute.client), l.transactions[dispute.tx];
      Step(Step(l, dispute), chargeback) ==
        Ledger(l.transactions[dispute.tx := d.(disputed := true)],
               l.accounts[dispute.client := a.(available := a.available - d.amount, locked := true)])
  {
    var c, k := dispute.client, dispute.tx;
    var a, d := AccountFor(l.accounts, c), l.transactions[k];
    var mid := Step(l, dispute);
    DisputeEffect(l, dispute);
    ChargebackEffect(mid, chargeback);
  }

  /**
    A second Dispute of a record that is already disputed moves its amount
    again, as the source does not look at the flag.
   */
  lemma DisputeTwice(l: Ledger, dispute: Tx)
    requires dispute.kind == Dispute
    requires dispute.tx in l.transactions && !IsLocked(l.accounts, dispute.client)
    ensures var a, d := AccountFor(l.accounts, dispute.client), l.transactions[dispute.tx];
      Step(Step(l, dispute), dispute).accounts[dispute.client] ==
        a.(available := a.available - 2 * d.amount, held := a.held + 2 * d.amount)
  {
    DisputeEffect(l, dispute);
    DisputeEffect(Step(l, dispute), dispute);
  }
}
