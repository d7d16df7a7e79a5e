# Payments engine ledger, modelled in Dafny

This project models the core of a small payments engine. The engine replays
streams of transaction records into per-client accounts. There are five kinds
of record: deposit, withdrawal, dispute, resolve and chargeback. The engine
then writes every account out with its total.

The model covers:

- the state machine `Tx::process`;
- the bank it changes, which is two shared maps (transaction id to stored
  record, and client id to account);
- accounts and their totals;
- decoding of the transaction kind;
- the replay loop of one stream;
- the export of the accounts.

## Layout

- `types.dfy`, module `Types`: client and transaction ids, bounded as `u16`
  and `u32`. Amounts are `int`s already scaled to ten-thousandths of a
  unit. Also the `Option` datatype.
- `records.dfy`, module `Records`: the `Tx` record and the `TxType` kinds. It
  decodes a kind from its name, decodes a row into a record, and decodes a
  stream. Processing of a stream stops at the first row whose kind does not
  decode, because the source panics there.
- `banks.dfy`, module `Banks`: `Account`, `NewAccount`, `CalculateTotal`, and
  the value `Ledger` holding both maps. It also has the two shared sheets as
  classes (`TransactionSheet`, `AccountSheet`), each with a `map` field that
  its methods reassign. The `Bank` class holds `const` references to the two
  sheets. Its `ForTokio` constructor copies the references, so every handle
  sees the same maps. `WriteAccounts` computes each total in place and yields
  one row per account.
- `processing.dfy`, module `Processing`: `Step` is the specification of
  `Tx::process` as a function on `Ledger` values. `Process` is the imperative
  version on a `Bank`, proved equal to `Step`. The module also has one lemma
  per behaviour of a single step, and lemmas about Dispute followed by
  Resolve or by Chargeback.
- `ingestion.dfy`, module `Ingestion`: `Replay` is the left fold of `Step`
  over a stream. `ProcessTransactions` is the imperative loop, proved equal
  to `Replay`. The module also has lemmas about whole streams: well-formedness
  is invariant, locking is permanent, keys only grow, and a stream of
  deposits and withdrawals ends at a separately defined reference balance.
- `scenarios.dfy`, module `Scenarios`: the unit tests of
  `src/lib/transaction.rs`, each stated as the outcome of replaying its
  records into a new bank.

## Modelling decisions

The source's `Bank` holds two `Arc<Mutex<HashMap>>`s. The model makes each map
an object (a "sheet") and makes the bank a pair of references to them. Taking
the mutex is the identity, since the model has one sequential caller.
Accounts and records are owned by the maps by value, and nothing aliases
them. So an update through `get_mut`/`values_mut` is modelled as replacing the
map entry with the updated value. `Process` works on a local copy of the
account and writes it back to its entry.

The model reproduces these behaviours of the code exactly:

- Dispute does not check whether the stored record is already disputed
  (`DisputeTwice`).
- No meta-operation checks that the stored record belongs to the issuing
  client.
- A withdrawal refused for lack of funds is still stored.
- A record for a locked account is not stored.
- Chargeback leaves the record disputed.

The account keeps a `total` field, as the code does, even though it is only
meaningful after `calculate_total`.

## Model

| member | source | states |
|---|---|---|
| Records.KindName | src/lib/transaction.rs:110-115 | every kind has one of the five accepted names |
| Records.ParseTxType | src/lib/transaction.rs:105-119 | decoding succeeds exactly on the five names "deposit", "withdrawal", "dispute", "resolve", "chargeback" (None stands for the panic), and a decoded kind is named by the string it came from |
| Records.ParseKindName | src/lib/transaction.rs:110-115 | decoding the name of a kind gives back that kind |
| Records.DecodeRow | src/lib/transaction.rs:8-17 | a row decodes iff its kind decodes; client, tx and amount are copied and `disputed` starts false |
| Records.DecodeRecords | src/lib/bank.rs:37-40 | the records processed from a stream are the decoded rows up to, not including, the first row that fails to decode |
| Banks.NewAccount | src/lib/bank.rs:80-88 | a new account belongs to its client, has zero available, held and total, and is unlocked |
| Banks.CalculateTotal | src/lib/bank.rs:91-93 | total becomes available + held and no other field changes |
| Banks.Snapshot | src/lib/bank.rs:55-57 | totalling all accounts keeps the same clients and every available, held and locked value, and every total equals available + held |
| Banks.TransactionSheet.constructor | src/lib/bank.rs:20-25 | a new transaction sheet is empty |
| Banks.TransactionSheet.Insert | src/lib/transaction.rs:89 | stores a record under a key, replacing the previous one, and changes nothing else |
| Banks.AccountSheet.constructor | src/lib/bank.rs:20-25 | a new account sheet is empty |
| Banks.AccountSheet.Insert | src/lib/transaction.rs:41 | stores an account under a client, replacing the previous one, and changes nothing else |
| Banks.Bank.constructor | src/lib/bank.rs:20-25 | a new bank has fresh, empty transaction and account sheets |
| Banks.Bank.ForTokio | src/lib/bank.rs:27-32 | a new handle refers to the very same two sheets as the bank it was made from |
| Banks.Bank.WriteAccounts | src/lib/bank.rs:53-61 | afterwards every account is its old value with the total computed; the rows list each account exactly once, in some order, as it now stands |
| Banks.RowsNameTheirClient | src/lib/bank.rs:55-57 | in a well-formed ledger each exported row carries its own client id and a total equal to available + held |
| Banks.SharedHandlesSeeInsertions | src/lib/bank.rs:118-143 | a record inserted through one handle is seen, with its amount, through the original bank and through every other handle |
| Processing.Step | src/lib/transaction.rs:32-91 | one step always leaves an account for the client; it changes at most that account and at most the stored entry under the record's tx; the entry under tx is new only for an unlocked Deposit or Withdrawal |
| Processing.StepFrame | src/lib/transaction.rs:32-91 | entry by entry: every other account and every other stored record is untouched; the key sets grow by at most the client and by the tx of an unlocked Deposit or Withdrawal |
| Processing.DispatchOn | src/lib/transaction.rs:45-87 | the match on the kind updates the account copy and the transaction sheet exactly as the function `Dispatch` says |
| Processing.Process | src/lib/transaction.rs:32-91 | processing a record in place on a bank leaves it in the state `Step` gives |
| Processing.StepPreservesWellFormed | src/lib/transaction.rs:39-90 | accounts stay under their own client, and stored records stay Deposits or Withdrawals under their own tx |
| Processing.LockedIsNoOp | src/lib/transaction.rs:34-38 | a record for a locked account changes neither map, so even a Deposit is not stored |
| Processing.FirstReferenceCreatesAccount | src/lib/transaction.rs:39-43 | a client with no account is first given a new account (zero balances, unlocked) and the record is applied to that |
| Processing.DepositEffect | src/lib/transaction.rs:46-48 | a deposit adds exactly its amount to available; held, locked and the rest stay |
| Processing.WithdrawalEffect | src/lib/transaction.rs:49-53 | a withdrawal subtracts its amount iff available covers it, else leaves the account unchanged; non-negative funds stay non-negative; for a non-negative amount, available never falls below old available minus amount |
| Processing.DisputeEffect | src/lib/transaction.rs:54-63 | a dispute of a stored record moves its amount from available to held, keeping their sum, and marks it disputed, whoever owns it and whatever its flag was; an unknown tx is a no-op apart from account creation |
| Processing.ResolveEffect | src/lib/transaction.rs:64-75 | a resolve of a disputed record moves its amount back from held to available and clears the flag; an unknown or undisputed tx is a no-op apart from account creation |
| Processing.ChargebackEffect | src/lib/transaction.rs:76-86 | a chargeback of a disputed record subtracts its amount from held, locks the account and leaves the record disputed; an unknown or undisputed tx is a no-op apart from account creation |
| Processing.CashRecordIsStored | src/lib/transaction.rs:88-90 | an unlocked Deposit or Withdrawal, applied or refused, is stored under its tx and overwrites any earlier entry |
| Processing.MetaRecordKeepsSheetKeys | src/lib/transaction.rs:88-90 | Dispute, Resolve and Chargeback never change the set of stored transaction ids |
| Processing.DisputeThenResolve | src/lib/transaction.rs:54-75 | Dispute then Resolve of the same stored record restores available and held to their values before the dispute and leaves the record undisputed |
| Processing.DisputeThenChargeback | src/lib/transaction.rs:54-86 | Dispute then Chargeback removes the amount from available for good, restores held, locks the account and leaves the record disputed |
| Processing.DisputeTwice | src/lib/transaction.rs:54-63 | a second dispute of the same record moves its amount a second time |
| Ingestion.ReplaySnoc | src/lib/bank.rs:37-40 | replaying a stream and then one more record is one more step after the replay |
| Ingestion.ReplayAppend | src/lib/bank.rs:37-40 | replaying two streams one after the other equals replaying their concatenation |
| Ingestion.ProcessTransactions | src/lib/bank.rs:34-41 | the loop leaves the bank in the left fold of `Step` over the records, in order |
| Ingestion.ReplayPreservesWellFormed | src/lib/transaction.rs:39-90 | every ledger reached from a well-formed one by replay is well formed |
| Ingestion.LockIsPermanent | src/lib/transaction.rs:34-38 | once an account is locked, no later record of any stream changes it |
| Ingestion.ReplayKeysGrow | src/lib/transaction.rs:39-43 | no account and no stored record is ever removed, and every client named in a stream ends up with an account |
| Ingestion.MetaStreamKeepsSheetKeys | src/lib/transaction.rs:88-90 | a stream of meta-operations only never changes the set of stored transaction ids |
| Ingestion.NoChargebackNoLock | src/lib/transaction.rs:76-86 | without a Chargeback no unlocked account becomes locked |
| Ingestion.CashStreamBalance | src/lib/transaction.rs:46-53 | for one unlocked client's stream of deposits and withdrawals, final available equals the reference balance (deposits added, withdrawals subtracted when covered at that moment), held is unchanged and the account stays unlocked |
| Scenarios.DepositScenario | src/lib/transaction.rs:169-187 | a single deposit of 5 gives available 5, held 0, unlocked, one stored record |
| Scenarios.DepositToLockedAccountScenario | src/lib/transaction.rs:189-228 | after deposit, dispute and chargeback the account is locked with zero balances, the later deposit is ignored and not stored, and the record stays disputed |
| Scenarios.WithdrawalScenario | src/lib/transaction.rs:230-254 | depositing and withdrawing 5 leaves zero balances and two stored records |
| Scenarios.InsufficientFundsScenario | src/lib/transaction.rs:256-280 | a withdrawal of 5 from 3 is refused but still stored |
| Scenarios.WithdrawalMidDisputeScenario | src/lib/transaction.rs:282-313 | a withdrawal during a dispute of the whole balance is refused: available 0, held 3, record 1 disputed, two records stored |
| Scenarios.DisputeResolvedScenario | src/lib/transaction.rs:315-360 | after the dispute is resolved a second withdrawal succeeds: zero balances, record 1 undisputed, three records stored |
| Scenarios.ResolveWrongTxIdScenario | src/lib/transaction.rs:362-393 | a resolve of an unknown tx leaves the dispute in place: available 0, held 3, record 1 disputed |

## Left out

- Amount parsing and rendering (src/lib/transaction.rs:124-149): they go through `f64`, scale by 10000 and round. Amounts are taken as scaled integers, and the fallback of an unreadable amount to zero is not modelled.
- The `i64` width of amounts: the source never checks `+=`/`-=` for overflow, so the model uses unbounded integers.
- CSV reading and writing, the reader configuration and standard output (src/lib/bank.rs:35-36, 43-50, 54, 57-59). These are I/O through a foreign library. `WriteAccounts` yields the rows instead of writing them.
- Panics on an unreadable file or a malformed row other than an unknown kind. The unknown kind is modelled as `None`, and the stream stops there (`DecodeRecords`).
- The `Mutex` locks, the tokio tasks and `main`. The model has one sequential caller, and taking a lock is the identity. Streams processed concurrently can interleave in any order. `ReplayAppend` covers only the orders in which one whole stream follows another.
- The tests that compare memory addresses (src/lib/bank.rs:102-116). Memory identity of Rust values has no counterpart in the model.
- Processing.WithdrawalEffect: the clause "available never falls below old available minus amount" is stated only for non-negative amounts. With a negative amount larger than a negative available balance, the withdrawal is refused and available stays below that bound.
