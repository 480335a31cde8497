/**
  Properties of the account state machine: the effect of each record kind,
  the lock guards, the dispute/resolve round trip, and invariants that hold
  over a whole stream of records.
*/
module TransactionProperties {
  import opened Transaction

  /** A new account has zero balances, is unlocked and stores nothing. */
  lemma NewAccountIsEmpty(c: ClientId)
    ensures var s := NewAccount(c);
      && s.available == 0 && s.held == 0 && s.total == 0 && !s.locked
      && s.transactions == map[] && s.frozen == map[] && s.client == c
  {
  }

  /** On a locked account, deposit, withdrawal, dispute and resolve change nothing but the recomputed total. */
  lemma LockedIgnoresRecord(s: AccountState, r: Record)
    requires AmountsPresent(s) && s.locked
    requires KindOf(r.tag) in {Deposit, Withdrawal, Dispute, Resolve}
    ensures Apply(s, r) == s.(total := s.available + s.held)
  {
  }

  /** A deposit on an unlocked account adds its amount to available and stores the record under its id. */
  lemma DepositEffect(s: AccountState, r: Record)
    requires AmountsPresent(s) && !s.locked
    requires KindOf(r.tag) == Deposit && r.amount.Some?
    ensures var t := Apply(s, r);
      && t.available == s.available + r.amount.value
      && t.transactions == s.transactions[r.tx := r]
      && t.held == s.held && t.frozen == s.frozen && !t.locked
      && t.total == t.available + t.held
  {
  }

  /**
    A withdrawal on an unlocked account takes its amount from available with
    no sufficiency check, so available can fall below zero.
  */
  lemma WithdrawEffect(s: AccountState, r: Record)
    requires AmountsPresent(s) && !s.locked
    requires KindOf(r.tag) == Withdrawal && r.amount.Some?
    ensures var t := Apply(s, r);
      && t.available == s.available - r.amount.value
      && (s.available < r.amount.value ==> t.available < 0)
      && t.transactions == s.transactions[r.tx := r]
      && t.held == s.held && t.frozen == s.frozen && !t.locked
      && t.total == t.available + t.held
  {
  }

  /** Disputing an active record moves it to the frozen table and its amount from available to held. */
  lemma DisputeEffect(s: AccountState, r: Record)
    requires AmountsPresent(s) && !s.locked
    requires KindOf(r.tag) == Dispute && r.tx in s.transactions
    ensures var a := s.transactions[r.tx].amount.value;
      var t := Apply(s, r);
      && t.transactions == s.transactions - {r.tx}
      && t.frozen == s.frozen[r.tx := s.transactions[r.tx]]
      && t.available == s.available - a && t.held == s.held + a
      && t.available + t.held == s.available + s.held
      && !t.locked && t.total == t.available + t.held
  {
  }

  /** Disputing an id with no active record (never seen, or already disputed) changes nothing but the total. */
  lemma DisputeAbsentIgnored(s: AccountState, r: Record)
    requires AmountsPresent(s)
    requires KindOf(r.tag) == Dispute && r.tx !in s.transactions
    ensures Apply(s, r) == s.(total := s.available + s.held)
  {
  }

  /** A second dispute of the same id is a no-op. */
  lemma DoubleDisputeIgnored(s: AccountState, r: Record)
    requires AmountsPresent(s)
    requires KindOf(r.tag) == Dispute
    ensures Apply(Apply(s, r), r) == Apply(s, r)
  {
  }

  /** Resolving a frozen record moves it back to the active table and its amount from held to available. */
  lemma ResolveEffect(s: AccountState, r: Record)
    requires AmountsPresent(s) && !s.locked
    requires KindOf(r.tag) == Resolve && r.tx in s.frozen
    ensures var a := s.frozen[r.tx].amount.value;
      var t := Apply(s, r);
      && t.frozen == s.frozen - {r.tx}
      && t.transactions == s.transactions[r.tx := s.frozen[r.tx]]
      && t.available == s.available + a && t.held == s.held - a
      && !t.locked && t.total == t.available + t.held
  {
  }

  /** Resolving an id with no frozen record changes nothing but the total. */
  lemma ResolveAbsentIgnored(s: AccountState, r: Record)
    requires AmountsPresent(s)
    requires KindOf(r.tag) == Resolve && r.tx !in s.frozen
    ensures Apply(s, r) == s.(total := s.available + s.held)
  {
  }

  /**
    Resolve undoes dispute: on an unlocked account, disputing an id and then
    resolving it restores the balances and both tables. The id must not
    already be frozen, since the dispute would overwrite that frozen record.
  */
  lemma DisputeThenResolve(s: AccountState, d: Record, v: Record)
    requires AmountsPresent(s) && !s.locked
    requires KindOf(d.tag) == Dispute && KindOf(v.tag) == Resolve && d.tx == v.tx
    requires d.tx !in s.frozen
    ensures var t := Apply(Apply(s, d), v);
      && t.available == s.available && t.held == s.held
      && t.transactions == s.transactions && t.frozen == s.frozen
      && t.locked == s.locked
      && (Balanced(s) ==> t == s)
  {
  }

  /**
    When the id is already frozen, the round trip loses the older frozen
    record: after a deposit re-uses a disputed id, dispute and resolve do not
    restore the frozen table.
  */
  lemma DisputeThenResolveOverwritesFrozen(c: ClientId)
    ensures var older := Record("deposit", c, 1, Some(100000));
      var newer := Record("deposit", c, 1, Some(50000));
      var s := AccountState(map[1 := newer], map[1 := older], c, 50000, 100000, 150000, false);
      var t := Apply(Apply(s, Record("dispute", c, 1, None)), Record("resolve", c, 1, None));
      t.frozen == map[] && t.frozen != s.frozen
  {
  }

  /** A chargeback of a frozen record takes its amount out of held and locks the account, locked or not. */
  lemma ChargebackEffect(s: AccountState, r: Record)
    requires AmountsPresent(s)
    requires KindOf(r.tag) == Chargeback && r.tx in s.frozen
    ensures var t := Apply(s, r);
      && t.held == s.held - s.frozen[r.tx].amount.value
      && t.locked
      && t.available == s.available
      && t.transactions == s.transactions && t.frozen == s.frozen
      && t.total == t.available + t.held
  {
  }

  /** A chargeback of an id with no frozen record changes nothing but the total. */
  lemma ChargebackAbsentIgnored(s: AccountState, r: Record)
    requires AmountsPresent(s)
    requires KindOf(r.tag) == Chargeback && r.tx !in s.frozen
    ensures Apply(s, r) == s.(total := s.available + s.held)
  {
  }

  /**
    The charged-back record stays frozen and chargeback ignores the lock, so
    charging back the same id twice takes its amount out of held twice.
  */
  lemma RepeatedChargeback(s: AccountState, r: Record)
    requires AmountsPresent(s)
    requires KindOf(r.tag) == Chargeback && r.tx in s.frozen
    ensures var t := Apply(Apply(s, r), r);
      t.held == s.held - 2 * s.frozen[r.tx].amount.value && t.locked
  {
  }

  /** A stream whose deposits and withdrawals all carry amounts can be replayed from any state. */
  lemma {:induction false} WellFormedReplayable(s: AccountState, rs: seq<Record>)
    requires AmountsPresent(s)
    requires forall j :: 0 <= j < |rs| ==> WellFormed(rs[j])
    ensures Replayable(s, rs)
    decreases |rs|
  {
    if rs != [] {
      assert WellFormed(rs[0]);
      WellFormedReplayable(Apply(s, rs[0]), rs[1..]);
    }
  }

  /**
    A locked account accepts every stream, including deposits and withdrawals
    without an amount, since their handlers return before reading it.
  */
  lemma {:induction false} LockedReplayable(s: AccountState, rs: seq<Record>)
    requires AmountsPresent(s) && s.locked
    ensures Replayable(s, rs)
    decreases |rs|
  {
    if rs != [] {
      LockedReplayable(Apply(s, rs[0]), rs[1..]);
    }
  }

  /** Replaying a stream record by record is the same as replaying a prefix and then the rest. */
  lemma {:induction false} ReplaySplit(s: AccountState, rs: seq<Record>, i: nat)
    requires AmountsPresent(s) && Replayable(s, rs)
    requires i <= |rs|
    ensures Replayable(s, rs[..i])
    ensures Replayable(Replay(s, rs[..i]), rs[i..])
    ensures Replay(s, rs) == Replay(Replay(s, rs[..i]), rs[i..])
    decreases i
  {
    if i == 0 {
      assert rs[..0] == [];
      assert rs[0..] == rs;
    } else {
      ReplaySplit(Apply(s, rs[0]), rs[1..], i - 1);
      assert rs[1..][..i - 1] == rs[..i][1..];
      assert rs[1..][i - 1..] == rs[i..];
    }
  }

  /** If the total agrees with the balances at the start, it does after every stream. */
  lemma {:induction false} ReplayKeepsBalanced(s: AccountState, rs: seq<Record>)
    requires AmountsPresent(s) && Balanced(s) && Replayable(s, rs)
    ensures Balanced(Replay(s, rs))
    decreases |rs|
  {
    if rs != [] {
      ReplayKeepsBalanced(Apply(s, rs[0]), rs[1..]);
    }
  }

  /** Every account starts balanced, so after any stream `total == available + held`. */
  lemma NewAccountStaysBalanced(c: ClientId, rs: seq<Record>)
    requires Replayable(NewAccount(c), rs)
    ensures Balanced(Replay(NewAccount(c), rs))
  {
    ReplayKeepsBalanced(NewAccount(c), rs);
  }

  /**
    Once an account is locked part-way through a stream it stays locked, and
    the rest of the stream changes neither available funds nor either table.
  */
  lemma LockedStaysLocked(s: AccountState, rs: seq<Record>, i: nat)
    requires AmountsPresent(s) && Replayable(s, rs)
    requires i <= |rs|
    ensures Replayable(s, rs[..i])
    ensures Replay(s, rs[..i]).locked ==>
      var m := Replay(s, rs[..i]);
      var t := Replay(s, rs);
      && t.locked && t.available == m.available
      && t.transactions == m.transactions && t.frozen == m.frozen
  {
    ReplaySplit(s, rs, i);
  }

  /** An amount-less deposit after a chargeback is accepted and leaves the locked account as it was. */
  lemma AmountlessDepositAfterLock(s: AccountState, c: ClientId)
    requires AmountsPresent(s) && s.locked && Balanced(s)
    ensures Replayable(s, [Record("deposit", c, 2, None)])
    ensures Replay(s, [Record("deposit", c, 2, None)]) == s
  {
    LockedReplayable(s, [Record("deposit", c, 2, None)]);
  }

  // The unit tests of toy_pay, stated for any client id (the tests use client 1).

  /** The deposit test case: 10.0 into an empty account. */
  lemma DepositTestCase(c: ClientId)
    ensures var t := Apply(AccountState(map[], map[], c, 0, 0, 0, false), Record("deposit", c, 1, Some(100000)));
      t.total == 100000 && t.held == 0 && t.available == 100000 && !t.locked
  {
  }

  /** The withdrawal test case: 10.0 out of 20.0, with a stale total of zero. */
  lemma WithdrawTestCase(c: ClientId)
    ensures var t := Apply(AccountState(map[], map[], c, 200000, 0, 0, false), Record("withdrawal", c, 1, Some(100000)));
      t.total == 100000 && t.held == 0 && t.available == 100000 && !t.locked
  {
  }

  /** The dispute test case: the stored 10.0 deposit moves to held. */
  lemma DisputeTestCase(c: ClientId)
    ensures var stored := Record("deposit", c, 1, Some(100000));
      var t := Apply(AccountState(map[1 := stored], map[], c, 100000, 0, 0, false), Record("dispute", c, 1, None));
      t.total == 100000 && t.held == 100000 && t.available == 0 && !t.locked
  {
  }

  /** The resolve test case: the frozen 10.0 deposit returns to available. */
  lemma ResolveTestCase(c: ClientId)
    ensures var stored := Record("deposit", c, 1, Some(100000));
      var t := Apply(AccountState(map[], map[1 := stored], c, 0, 100000, 100000, false), Record("resolve", c, 1, None));
      t.total == 100000 && t.held == 0 && t.available == 100000 && !t.locked
  {
  }

  /** The chargeback test case: the frozen 10.0 deposit leaves held and the account locks. */
  lemma ChargebackTestCase(c: ClientId)
    ensures var stored := Record("deposit", c, 1, Some(100000));
      var t := Apply(AccountState(map[], map[1 := stored], c, 0, 100000, 100000, false), Record("chargeback", c, 1, None));
      t.total == 0 && t.held == 0 && t.available == 0 && t.locked
  {
  }

  /** The unsupported-action test case: an unknown tag leaves a new account as it was. */
  lemma UnsupportedActionTestCase(c: ClientId)
    ensures var t := Apply(NewAccount(c), Record("unsupported_action", c, 1, Some(100000)));
      t.transactions == map[] && t.available == 0 && t.total == 0 && t.held == 0 && !t.locked
  {
  }

  /** Drives one account object through a deposit, a dispute, a chargeback and a refused deposit. */
  method ChargebackLifecycle(c: ClientId)
  {
    var account := new Account(c);
    account.ProcessTransaction(Record("deposit", c, 1, Some(100000)));
    account.ProcessTransaction(Record("dispute", c, 1, None));
    assert account.available == 0 && account.held == 100000 && account.total == 100000;
    account.ProcessTransaction(Record("chargeback", c, 1, None));
    assert account.available == 0 && account.held == 0 && account.total == 0 && account.locked;
    account.ProcessTransaction(Record("deposit", c, 2, Some(50000)));
    assert account.available == 0 && account.transactions == map[];
  }
}
