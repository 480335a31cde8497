/**
  The per-account transaction state machine of the toy_pay ledger.

  An account keeps its balances and two tables keyed by transaction id:
  `transactions` holds accepted deposits and withdrawals, and
  `frozenTransactions` holds the ones currently under dispute. A record is
  dispatched on its textual type tag to one of five handlers; after any
  recognised tag the total is recomputed from the available and held funds.

  Amounts are fixed-point integers counting ten-thousandths of a unit, so
  rounding to four decimal places is the identity.

  The pure functions on `AccountState` are the specification; the class
  `Account` updates its fields in place and is proved against them.
*/
module Transaction {

  datatype Option<T> = None | Some(value: T)

  /** Client identifiers are unsigned 16-bit integers. */
  type ClientId = c: int | 0 <= c < 0x1_0000

  /** Transaction identifiers are unsigned 32-bit integers. */
  type TxId = t: int | 0 <= t < 0x1_0000_0000

  /** A quantity of money in ten-thousandths of a unit (four decimal places). */
  type Amount = int

  /** One input record: a type tag, the addressed client, a transaction id and an optional amount. */
  datatype Record = Record(tag: string, client: ClientId, tx: TxId, amount: Option<Amount>)

  /** The record types the dispatcher recognises, plus a catch-all for every other tag. */
  datatype Kind = Deposit | Withdrawal | Dispute | Resolve | Chargeback | Unknown

  /** Reads a record's type tag; the comparison is exact (no trimming or case folding). */
  function KindOf(tag: string): (k: Kind)
    ensures k == Deposit <==> tag == "deposit"
    ensures k == Withdrawal <==> tag == "withdrawal"
    ensures k == Dispute <==> tag == "dispute"
    ensures k == Resolve <==> tag == "resolve"
    ensures k == Chargeback <==> tag == "chargeback"
    ensures k == Unknown <==> tag !in {"deposit", "withdrawal", "dispute", "resolve", "chargeback"}
  {
    if tag == "deposit" then Deposit
    else if tag == "withdrawal" then Withdrawal
    else if tag == "dispute" then Dispute
    else if tag == "resolve" then Resolve
    else if tag == "chargeback" then Chargeback
    else Unknown
  }

  /** The observable state of one account. */
  datatype AccountState = AccountState(
    transactions: map<TxId, Record>,
    frozen: map<TxId, Record>,
    client: ClientId,
    available: Amount,
    held: Amount,
    total: Amount,
    locked: bool)

  /** Every stored record, active or frozen, carries an amount. */
  predicate AmountsPresent(s: AccountState) {
    && (forall tx :: tx in s.transactions ==> s.transactions[tx].amount.Some?)
    && (forall tx :: tx in s.frozen ==> s.frozen[tx].amount.Some?)
  }

  /** The total agrees with the available and held funds. */
  predicate Balanced(s: AccountState) {
    s.total == s.available + s.held
  }

  /** Kinds whose handler reads the incoming record's own amount. */
  predicate CarriesAmount(k: Kind) {
    k == Deposit || k == Withdrawal
  }

  /**
    What applying `r` to `s` needs in order not to fail: the stored records
    carry amounts, and a deposit or withdrawal reaching an unlocked account
    carries one too (a locked account returns before reading it).
  */
  predicate Processable(s: AccountState, r: Record) {
    AmountsPresent(s) && (CarriesAmount(KindOf(r.tag)) && !s.locked ==> r.amount.Some?)
  }

  /** A fresh account: zero balances, unlocked, no stored records. */
  function NewAccount(client: ClientId): (s: AccountState)
    ensures AmountsPresent(s) && Balanced(s) && !s.locked
    ensures s.client == client
  {
    AccountState(map[], map[], client, 0, 0, 0, false)
  }

  function DepositStep(s: AccountState, r: Record): (t: AccountState)
    requires AmountsPresent(s)
    requires !s.locked ==> r.amount.Some?
    ensures AmountsPresent(t)
    ensures t.held == s.held && t.frozen == s.frozen
    ensures t.locked == s.locked && t.total == s.total && t.client == s.client
  {
    if s.locked then s
    else s.(available := s.available + r.amount.value, transactions := s.transactions[r.tx := r])
  }

  function WithdrawStep(s: AccountState, r: Record): (t: AccountState)
    requires AmountsPresent(s)
    requires !s.locked ==> r.amount.Some?
    ensures AmountsPresent(t)
    ensures t.held == s.held && t.frozen == s.frozen
    ensures t.locked == s.locked && t.total == s.total && t.client == s.client
  {
    if s.locked then s
    else s.(available := s.available - r.amount.value, transactions := s.transactions[r.tx := r])
  }

  /** Moves an active record to the frozen table and its amount from available to held. */
  function DisputeStep(s: AccountState, r: Record): (t: AccountState)
    requires AmountsPresent(s)
    ensures AmountsPresent(t)
    ensures t.available + t.held == s.available + s.held
    ensures t.locked == s.locked && t.total == s.total && t.client == s.client
  {
    if s.locked || r.tx !in s.transactions then s
    else
      var stored := s.transactions[r.tx];
      s.(transactions := s.transactions - {r.tx},
         available := s.available - stored.amount.value,
         held := s.held + stored.amount.value,
         frozen := s.frozen[r.tx := stored])
  }

  /** Moves a frozen record back to the active table and its amount from held to available. */
  function ResolveStep(s: AccountState, r: Record): (t: AccountState)
    requires AmountsPresent(s)
    ensures AmountsPresent(t)
    ensures t.available + t.held == s.available + s.held
    ensures t.locked == s.locked && t.total == s.total && t.client == s.client
  {
    if s.locked || r.tx !in s.frozen then s
    else
      var stored := s.frozen[r.tx];
      s.(frozen := s.frozen - {r.tx},
         available := s.available + stored.amount.value,
         held := s.held - stored.amount.value,
         transactions := s.transactions[r.tx := stored])
  }

  /** Takes a frozen record's amount out of held and locks the account; the record stays frozen. */
  function ChargebackStep(s: AccountState, r: Record): (t: AccountState)
    requires AmountsPresent(s)
    ensures AmountsPresent(t)
    ensures t.available == s.available && t.transactions == s.transactions && t.frozen == s.frozen
    ensures s.locked ==> t.locked
    ensures t.total == s.total && t.client == s.client
  {
    if r.tx !in s.frozen then s
    else s.(held := s.held - s.frozen[r.tx].amount.value, locked := true)
  }

  /** The handler a record's tag selects; an unknown tag selects none. */
  function Dispatch(s: AccountState, r: Record): (u: AccountState)
    requires Processable(s, r)
    ensures AmountsPresent(u)
    ensures KindOf(r.tag) == Unknown ==> u == s
    ensures s.locked ==> u.locked && u.available == s.available
    ensures s.locked ==> u.transactions == s.transactions && u.frozen == s.frozen
    ensures u.total == s.total && u.client == s.client
  {
    match KindOf(r.tag)
    case Deposit => DepositStep(s, r)
    case Withdrawal => WithdrawStep(s, r)
    case Dispute => DisputeStep(s, r)
    case Resolve => ResolveStep(s, r)
    case Chargeback => ChargebackStep(s, r)
    case Unknown => s
  }

  /** The effect of processing one record on an account: dispatch, then recompute the total. */
  function Apply(s: AccountState, r: Record): (t: AccountState)
    requires Processable(s, r)
    ensures AmountsPresent(t)
    ensures KindOf(r.tag) == Unknown ==> t == s
    ensures KindOf(r.tag) != Unknown ==> Balanced(t)
    ensures s.locked ==> t.locked && t.available == s.available
    ensures s.locked ==> t.transactions == s.transactions && t.frozen == s.frozen
    ensures t.client == s.client
  {
    var u := Dispatch(s, r);
    if KindOf(r.tag) == Unknown then u
    else u.(total := u.available + u.held)
  }

  /** A deposit or withdrawal record carries an amount; other kinds need none. */
  predicate WellFormed(r: Record) {
    CarriesAmount(KindOf(r.tag)) ==> r.amount.Some?
  }

  /** Every record of the stream is `Processable` in the state the records before it leave. */
  ghost predicate Replayable(s: AccountState, rs: seq<Record>)
    decreases |rs|
  {
    rs == [] || (Processable(s, rs[0]) && Replayable(Apply(s, rs[0]), rs[1..]))
  }

  /**
    Processing a stream of records for one account, in order. Assuming the
    registry hands each record to its client's account, this is the effect on
    one account of that client's records.
  */
  function Replay(s: AccountState, rs: seq<Record>): (t: AccountState)
    requires AmountsPresent(s)
    requires Replayable(s, rs)
    ensures AmountsPresent(t)
    ensures s.locked ==> t.locked && t.available == s.available
    ensures s.locked ==> t.transactions == s.transactions && t.frozen == s.frozen
    ensures t.client == s.client
    decreases |rs|
  {
    if rs == [] then s
    else Replay(Apply(s, rs[0]), rs[1..])
  }

  /** One client account, updated in place by `ProcessTransaction`. */
  class Account {
    var transactions: map<TxId, Record>
    var frozenTransactions: map<TxId, Record>
    var client: ClientId
    var available: Amount
    var held: Amount
    var total: Amount
    var locked: bool

    function State(): (s: AccountState)
      reads this
    {
      AccountState(transactions, frozenTransactions, client, available, held, total, locked)
    }

    ghost predicate Valid()
      reads this
    {
      AmountsPresent(State())
    }

    constructor (client: ClientId)
      ensures Valid()
      ensures State() == NewAccount(client)
    {
      transactions := map[];
      frozenTransactions := map[];
      this.client := client;
      available := 0;
      held := 0;
      locked := false;
      total := 0;
    }

    /** Dispatches on the record's tag; an unknown tag leaves the account untouched. */
    method ProcessTransaction(record: Record)
      requires Valid()
      requires Processable(State(), record)
      modifies this
      ensures Valid()
      ensures State() == Apply(old(State()), record)
    {
      match KindOf(record.tag) {
        case Deposit => Deposit(record);
        case Withdrawal => Withdraw(record);
        case Dispute => Dispute(record);
        case Resolve => Resolve(record);
        case Chargeback => Chargeback(record);
        case Unknown => return;
      }
      total := available + held;
      RoundValues();
    }

    method Deposit(record: Record)
      requires Valid()
      requires !locked ==> record.amount.Some?
      modifies this
      ensures Valid()
      ensures State() == DepositStep(old(State()), record)
    {
      if locked {
        return;
      }
      available := available + record.amount.value;
      transactions := transactions[record.tx := record];
    }

    method Withdraw(record: Record)
      requires Valid()
      requires !locked ==> record.amount.Some?
      modifies this
      ensures Valid()
      ensures State() == WithdrawStep(old(State()), record)
    {
      if locked {
        return;
      }
      available := available - record.amount.value;
      transactions := transactions[record.tx := record];
    }

    method Dispute(record: Record)
      requires Valid()
      modifies this
      ensures Valid()
      ensures State() == DisputeStep(old(State()), record)
    {
      if locked {
        return;
      }
      if record.tx !in transactions {
        return;
      }
      var stored := transactions[record.tx];
      transactions := transactions - {record.tx};
      available := available - stored.amount.value;
      held := held + stored.amount.value;
      frozenTransactions := frozenTransactions[record.tx := stored];
    }

    method Resolve(record: Record)
      requires Valid()
      modifies this
      ensures Valid()
      ensures State() == ResolveStep(old(State()), record)
    {
      if locked {
        return;
      }
      if record.tx !in frozenTransactions {
        return;
      }
      var stored := frozenTransactions[record.tx];
      frozenTransactions := frozenTransactions - {record.tx};
      available := available + stored.amount.value;
      held := held - stored.amount.value;
      transactions := transactions[record.tx := stored];
    }

    method Chargeback(record: Record)
      requires Valid()
      modifies this
      ensures Valid()
      ensures State() == ChargebackStep(old(State()), record)
    {
      if record.tx !in frozenTransactions {
        return;
      }
      var stored := frozenTransactions[record.tx];
      held := held - stored.amount.value;
      locked := true;
    }

    /** Rounds to four decimal places; on whole ten-thousandths this changes nothing. */
    method RoundValues()
      modifies this
      ensures State() == old(State())
    {
    }
  }
}
