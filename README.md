# toy_pay account state machine in Dafny

toy_pay replays a stream of client transaction records (deposits,
withdrawals, disputes, resolutions and chargebacks) and reports each
client's final balances. This project models the per-account state machine
of `src/transaction.rs`: an `Account` holding `available`, `held`, `total`
and `locked`, a table of active deposits and withdrawals keyed by
transaction id, and a table of disputed ("frozen") ones, together with the
dispatcher `process_transaction` that routes a record by its type tag to one
of five handlers and then recomputes the total.

Files:

- `transaction.dfy`, module `Transaction`: the record and account types;
  the specification as pure functions on `AccountState` (one step function
  per handler, `Dispatch`, `Apply` for one record, `Replay` for a stream);
  and the class `Account`, whose methods update its fields and tables in
  place and are each proved to produce exactly the state the matching
  function describes.
- `properties.dfy`, module `TransactionProperties`: lemmas on the
  specification — the effect of each kind, the lock guards, the
  dispute/resolve round trip and where it breaks, repeated chargebacks,
  stream-wide invariants (balance, lock monotonicity) proved by induction,
  and toy_pay's own unit-test cases.

Modelling decisions:

- Amounts are integers counting ten-thousandths of a unit instead of
  `f32`. Rounding to four decimal places (`round_values`) is then the
  identity, and `RoundValues` changes nothing.
- The Rust code panics (`unwrap`) when a deposit or withdrawal without an
  amount reaches an unlocked account. The model makes that a precondition
  (`Processable`), and only for that case: a locked account returns before
  reading the amount. Stored records always carry an amount
  (`AmountsPresent`, the object invariant `Valid`), so the unwraps in
  dispute, resolve and chargeback cannot fail.
- The dispatcher matches the tag text exactly (`KindOf`); any other tag
  leaves the whole account unchanged, including a stale `total`.
- Choices of the code that the model keeps:
  - disputes are tracked by moving the record between the active and the
    frozen table;
  - chargeback is not gated on `locked`, and it reads the frozen record
    without removing it, although the comment above it speaks of removal.
    Charging back the same id twice therefore takes the amount out of
    `held` twice (`RepeatedChargeback`), and `held` can still change on a
    locked account;
  - `total` is recomputed after every recognised kind, even when the
    handler returned early.
- Streams: `Replay` applies a sequence of records to one account, in
  order. It requires only that each record be `Processable` in the state
  the earlier records leave (`Replayable`), so a deposit or withdrawal
  without an amount is accepted once the account is locked
  (`LockedReplayable`). The caller's record loop (src/main.rs:44-49) goes
  through `AccountRegistry::process_record`, whose definition is not part
  of this model; assuming it hands each record to the addressed client's
  account, `Replay` is the effect on one account of that client's records,
  in order. `Replay` does not itself check that the records name the
  account's client.
- Dispute inserts into the frozen table under the record's id and
  overwrites an older frozen record with the same id, which a re-used id
  can produce. Resolve therefore undoes dispute only when the id was not
  already frozen (`DisputeThenResolve`, `DisputeThenResolveOverwritesFrozen`).

## Model

| member | source | states |
|---|---|---|
| `Transaction.KindOf` | src/transaction.rs:29-35 | each of the five tags selects its kind, compared exactly; every other string is `Unknown` |
| `Transaction.NewAccount` | src/transaction.rs:114-124 | a new account for client `c` is unlocked, balanced and stores no record without an amount |
| `Transaction.DepositStep` | src/transaction.rs:43-51 | deposit keeps every stored amount present and leaves held, the frozen table, the lock and the total alone |
| `Transaction.WithdrawStep` | src/transaction.rs:52-60 | withdrawal keeps every stored amount present and leaves held, the frozen table, the lock and the total alone |
| `Transaction.DisputeStep` | src/transaction.rs:61-77 | dispute keeps stored amounts present and preserves available + held, the lock and the total |
| `Transaction.ResolveStep` | src/transaction.rs:78-93 | resolve keeps stored amounts present and preserves available + held, the lock and the total |
| `Transaction.ChargebackStep` | src/transaction.rs:94-105 | chargeback never changes available or either table, never unlocks, and keeps stored amounts present |
| `Transaction.Dispatch` | src/transaction.rs:29-36 | an unknown tag selects no handler; no handler touches the total; on a locked account no handler changes available or the tables or unlocks |
| `Transaction.Apply` | src/transaction.rs:28-41 | after a recognised kind `total == available + held`; an unknown kind changes nothing; a locked account stays locked with available and both tables unchanged; stored amounts stay present |
| `Transaction.Replay` | src/main.rs:44-49 | assuming the registry forwards each record to its client's account: over that client's records in order, stored amounts stay present, and a locked account keeps its lock, its available funds and both tables |
| `Transaction.Account.constructor` | src/transaction.rs:114-124 | a new account object has the state `NewAccount(client)` and satisfies the invariant |
| `Transaction.Account.ProcessTransaction` | src/transaction.rs:28-41 | the account's new state is `Apply` of its old state and the record; the invariant is kept |
| `Transaction.Account.Deposit` | src/transaction.rs:43-51 | the new state is `DepositStep` of the old state: unchanged when locked, otherwise available up by the amount and the record stored under its id |
| `Transaction.Account.Withdraw` | src/transaction.rs:52-60 | the new state is `WithdrawStep` of the old state: unchanged when locked, otherwise available down by the amount and the record stored under its id |
| `Transaction.Account.Dispute` | src/transaction.rs:61-77 | the new state is `DisputeStep` of the old state: the active record, if any, moves to the frozen table with its amount from available to held |
| `Transaction.Account.Resolve` | src/transaction.rs:78-93 | the new state is `ResolveStep` of the old state: the frozen record, if any, moves back with its amount from held to available |
| `Transaction.Account.Chargeback` | src/transaction.rs:94-105 | the new state is `ChargebackStep` of the old state: a frozen record's amount leaves held and the account locks, whatever the lock was |
| `Transaction.Account.RoundValues` | src/transaction.rs:107-111 | rounding to four decimal places leaves every field of a fixed-point account as it was |
| `TransactionProperties.NewAccountIsEmpty` | src/transaction.rs:114-124 | a new account has available = held = total = 0, is unlocked, has both tables empty and the given client id |
| `TransactionProperties.LockedIgnoresRecord` | src/transaction.rs:43-93 | on a locked account deposit, withdrawal, dispute and resolve change nothing except that the total is recomputed |
| `TransactionProperties.DepositEffect` | src/transaction.rs:43-51 | an unlocked deposit raises available by its amount, stores the record under its id (overwriting), and leaves held, the frozen table and the lock alone |
| `TransactionProperties.WithdrawEffect` | src/transaction.rs:52-60 | an unlocked withdrawal lowers available by its amount with no sufficiency check (available may go negative) and stores the record under its id |
| `TransactionProperties.DisputeEffect` | src/transaction.rs:61-77 | disputing an active id removes it from the active table, adds it to the frozen table, moves its amount from available to held and preserves available + held |
| `TransactionProperties.DisputeAbsentIgnored` | src/transaction.rs:67-70 | disputing an id that is not active changes nothing but the recomputed total |
| `TransactionProperties.DoubleDisputeIgnored` | src/transaction.rs:67-70 | a second dispute of the same id is a no-op |
| `TransactionProperties.ResolveEffect` | src/transaction.rs:78-93 | resolving a frozen id moves it back to the active table and its amount from held to available |
| `TransactionProperties.ResolveAbsentIgnored` | src/transaction.rs:84-87 | resolving an id that is not frozen changes nothing but the recomputed total |
| `TransactionProperties.DisputeThenResolve` | src/transaction.rs:61-93 | on an unlocked account, dispute then resolve of an id not already frozen restores available, held and both tables, and the whole state when it was balanced |
| `TransactionProperties.DisputeThenResolveOverwritesFrozen` | src/transaction.rs:75-76 | when the id is already frozen, the dispute overwrites that frozen record and the round trip does not restore the frozen table |
| `TransactionProperties.ChargebackEffect` | src/transaction.rs:94-105 | charging back a frozen id, locked or not, lowers held by its amount and locks the account, leaving available and both tables unchanged |
| `TransactionProperties.ChargebackAbsentIgnored` | src/transaction.rs:97-100 | charging back an id that is not frozen changes nothing but the recomputed total |
| `TransactionProperties.RepeatedChargeback` | src/transaction.rs:97-104 | the record stays frozen, so a second chargeback of the same id lowers held by its amount again |
| `TransactionProperties.WellFormedReplayable` | src/transaction.rs:43-60 | a stream whose deposits and withdrawals all carry amounts never reaches an `unwrap` on a missing amount, from any state |
| `TransactionProperties.LockedReplayable` | src/transaction.rs:44-46 | a locked account accepts every stream, amount-less deposits and withdrawals included, because the lock guard returns before the `unwrap` |
| `TransactionProperties.AmountlessDepositAfterLock` | src/transaction.rs:44-46 | an amount-less deposit reaching a locked, balanced account is accepted and leaves it unchanged |
| `TransactionProperties.ReplaySplit` | src/main.rs:44-49 | replaying a stream equals replaying a prefix and then the rest from the resulting state |
| `TransactionProperties.ReplayKeepsBalanced` | src/transaction.rs:37-38 | an account whose total agrees with its balances still does after any stream of records |
| `TransactionProperties.NewAccountStaysBalanced` | src/transaction.rs:37-38 | after any stream of records from a new account, `total == available + held` |
| `TransactionProperties.LockedStaysLocked` | src/transaction.rs:104 | once locked part-way through a stream, the account stays locked and the rest changes neither available nor either table |
| `TransactionProperties.DepositTestCase` | src/transaction.rs:148-168 | depositing 10.0 into an empty account gives available = total = 10.0, held = 0, unlocked |
| `TransactionProperties.WithdrawTestCase` | src/transaction.rs:170-190 | withdrawing 10.0 from 20.0 with a stale total gives available = total = 10.0 |
| `TransactionProperties.DisputeTestCase` | src/transaction.rs:192-220 | disputing a stored 10.0 deposit gives available = 0, held = total = 10.0 |
| `TransactionProperties.ResolveTestCase` | src/transaction.rs:222-250 | resolving a frozen 10.0 deposit gives available = total = 10.0, held = 0 |
| `TransactionProperties.ChargebackTestCase` | src/transaction.rs:252-280 | charging back a frozen 10.0 deposit gives all balances 0 and a locked account |
| `TransactionProperties.UnsupportedActionTestCase` | src/transaction.rs:295-314 | an unsupported tag on a new account leaves it empty, zero and unlocked |

## Left out

- `src/main.rs`: reading the input path argument, reading and parsing the CSV input, writing the CSV output and exiting the process are I/O and are not modelled. Its record loop is modelled per account by `Replay` only under the assumption that `AccountRegistry::process_record` forwards each record to its client's account.
- `AccountRegistry` (client id to account, created lazily) is not part of this model: its definition is in neither src/transaction.rs nor src/main.rs.
- `f32` arithmetic and the float rounding of `round_values`: amounts are exact ten-thousandths, so rounding is the identity and float precision loss is not modelled.
- The Rust code does not check a record's client id or transaction id against the account; the model does not check them either.
- Serde derives and skip attributes: serialisation is library code.
- The panic of the Rust code on a deposit or withdrawal without an amount on an unlocked account is a precondition, not a modelled failure.
- The printing in the loop of toy_pay's unit test.
