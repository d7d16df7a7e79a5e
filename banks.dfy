/**
  The bank (src/lib/bank.rs): client accounts, the two shared sheets a bank
  holds, the bank handle itself and the export of all accounts.
 */
module Banks {
  import opened Types
  import opened Records

  /** The state of one client's account. `total` is only computed for export. */
  datatype Account = Account(client: ClientId, available: AmountValue, held: AmountValue, total: AmountValue, locked: bool)

  /** A fresh, unlocked account with nothing in it. */
  function NewAccount(c: ClientId): (a: Account)
    ensures a.client == c && a.available == 0 && a.held == 0 && a.total == 0 && !a.locked
  {
    Account(c, 0, 0, 0, false)
  }

  /** The account with `total` set to its available plus held funds. */
  function CalculateTotal(a: Account): (r: Account)
    ensures r.total == a.available + a.held
    ensures r.client == a.client && r.available == a.available && r.held == a.held && r.locked == a.locked
  {
    a.(total := a.available + a.held)
  }

  /** The contents of both sheets of a bank, as one value. */
  datatype Ledger = Ledger(transactions: map<TxId, Tx>, accounts: map<ClientId, Account>)

  const EmptyLedger := Ledger(map[], map[])

  /**
    The shape every reachable ledger has: each account is stored under its
    own client, and each stored record is a Deposit or a Withdrawal stored
    under its own transaction id.
   */
  predicate WellFormed(l: Ledger)
  {
    && (forall c: ClientId :: c in l.accounts ==> l.accounts[c].client == c)
    && (forall k: TxId :: k in l.transactions ==>
          l.transactions[k].tx == k && (l.transactions[k].kind.Deposit? || l.transactions[k].kind.Withdrawal?))
  }

  /** Every account of a map with its total computed. */
  function Snapshot(accounts: map<ClientId, Account>): (r: map<ClientId, Account>)
    ensures r.Keys == accounts.Keys
    ensures forall c :: c in r ==> r[c].total == r[c].available + r[c].held
    ensures forall c :: c in r ==>
      r[c].client == accounts[c].client && r[c].available == accounts[c].available &&
      r[c].held == accounts[c].held && r[c].locked == accounts[c].locked
  {
    map c | c in accounts :: CalculateTotal(accounts[c])
  }

  /**
    The transaction sheet, shared by every handle of one bank (the source's
    reference-counted, mutex-guarded map from transaction id to record).
   */
  class TransactionSheet {
    var entries: map<TxId, Tx>

    constructor ()
      ensures entries == map[]
    {
      entries := map[];
    }

    /** Stores `t` under `k`, replacing whatever was there. */
    method Insert(k: TxId, t: Tx)
      modifies this
      ensures entries == old(entries)[k := t]
    {
      entries := entries[k := t];
    }
  }

  /** The account sheet, shared by every handle of one bank. */
  class AccountSheet {
    var entries: map<ClientId, Account>

    constructor ()
      ensures entries == map[]
    {
      entries := map[];
    }

    /** Stores `a` under `c`, replacing whatever was there. */
    method Insert(c: ClientId, a: Account)
      modifies this
      ensures entries == old(entries)[c := a]
    {
      entries := entries[c := a];
    }
  }

  /** A handle on a bank: two references to shared sheets. */
  class Bank {
    const transactions: TransactionSheet
    const accounts: AccountSheet

    /** The current contents of the two sheets this handle refers to. */
    ghost function State(): Ledger
      reads transactions, accounts
    {
      Ledger(transactions.entries, accounts.entries)
    }

    /** A new bank with both sheets empty. */
    constructor ()
      ensures fresh(transactions) && fresh(accounts)
      ensures State() == EmptyLedger
    {
      transactions := new TransactionSheet();
      accounts := new AccountSheet();
    }

    /** A second handle on the same bank, as handed to each worker. */
    constructor ForTokio(bank: Bank)
      ensures transactions == bank.transactions && accounts == bank.accounts
      ensures State() == bank.State()
    {
      transactions := bank.transactions;
      accounts := bank.accounts;
    }

    /**
      Computes every account's total and yields the rows written out, one
      per account, in the (unspecified) order the map is walked. The CSV
      encoding and the write to standard output are not modelled.
     */
    method WriteAccounts() returns (rows: seq<Account>, ghost order: seq<ClientId>)
      modifies accounts
      ensures accounts.entries == Snapshot(old(accounts.entries))
      ensures |rows| == |order|
      ensures forall i, j :: 0 <= i < j < |order| ==> order[i] != order[j]
      ensures forall c :: c in accounts.entries <==> c in order
      ensures forall i :: 0 <= i < |order| ==> rows[i] == accounts.entries[order[i]]
    {
      ghost var before := accounts.entries;
      var remaining := accounts.entries.Keys;
      rows, order := [], [];
      while remaining != {}
        invariant remaining <= before.Keys
        invariant accounts.entries.Keys == before.Keys
        invariant forall c :: c in accounts.entries ==>
          accounts.entries[c] == if c in remaining then before[c] else CalculateTotal(before[c])
        invariant |rows| == |order|
        invariant forall i, j :: 0 <= i < j < |order| ==> order[i] != order[j]
        invariant forall c :: c in before && c !in remaining ==> c in order
        invariant forall i :: 0 <= i < |order| ==>
          order[i] in before && order[i] !in remaining && rows[i] == CalculateTotal(before[order[i]])
        decreases remaining
      {
        var c :| c in remaining;
        var updated := CalculateTotal(accounts.entries[c]);
        accounts.entries := accounts.entries[c := updated];
        rows, order := rows + [updated], order + [c];
        remaining := remaining - {c};
      }
    }
  }

  /** Account rows carry their own client id once the ledger is well formed. */
  lemma RowsNameTheirClient(l: Ledger, rows: seq<Account>, order: seq<ClientId>)
    requires WellFormed(l)
    requires |rows| == |order|
    requires forall i :: 0 <= i < |order| ==> order[i] in l.accounts && rows[i] == Snapshot(l.accounts)[order[i]]
    ensures forall i :: 0 <= i < |rows| ==> rows[i].client == order[i] && rows[i].total == rows[i].available + rows[i].held
  {
  }

  /**
    A second handle sees what is inserted through a first one: the behaviour
    of two worker handles on one new bank.
   */
  method SharedHandlesSeeInsertions(t: Tx) returns (viaBank: AmountValue, viaFirst: AmountValue, viaSecond: AmountValue)
    ensures viaBank == t.amount && viaFirst == t.amount && viaSecond == t.amount
  {
    var bank := new Bank();
    var first := new Bank.ForTokio(bank);
    var second := new Bank.ForTokio(bank);
    second.transactions.Insert(0, t);
    viaBank := bank.transactions.entries[0].amount;
    viaFirst := first.transactions.entries[0].amount;
    viaSecond := second.transactions.entries[0].amount;
  }
}
