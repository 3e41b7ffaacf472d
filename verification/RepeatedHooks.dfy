/**
 When a webhook transaction that has committed can take effect once more, whatever was committed since: the
 same event comes under a second key, or twice from the PSP.
 */
module RepeatedHooks {
  import opened Options
  import opened PaymentStates
  import opened Transactions
  import opened AuditTrail
  import opened WebhookRefunds
  import opened Isolation

  /** Since the row `early` the payment has kept its amount and its rank has not risen. */
  ghost predicate Later(db: Db, payment: string, early: Payment) {
    && payment in db.payments
    && db.payments[payment].amount == early.amount
    && Rank(db.payments[payment].status) <= Rank(early.status)
  }

  lemma ExecKeepsLater(db: Db, tx: Tx, payment: string, early: Payment)
    requires Exec(db, tx).Some? && Later(db, payment, early)
    ensures Later(Exec(db, tx).value, payment, early)
  {
    if Target(tx) == Some(payment) {
      ExecTarget(db, tx);
      WritersFollowTable(tx, db.payments[payment]);
      CaptureLowersRank(tx, db.payments[payment]);
    } else if tx.InsertPayment? && tx.payment == payment {
      ExecInsert(db, tx);
    } else {
      ExecElsewhere(db, tx, payment);
    }
  }

  lemma {:induction false} StaysLater(history: seq<Tx>, n: nat, payment: string, early: Payment)
    requires n <= |history| && Replay(history).Some? && Replay(history[..n]).Some?
    requires Later(Replay(history[..n]).value, payment, early)
    ensures Later(Replay(history).value, payment, early)
    decreases |history|
  {
    if n == |history| {
      assert history[..n] == history;
    } else {
      var most := history[..|history| - 1];
      assert most[..n] == history[..n];
      StaysLater(most, n, payment, early);
      ExecKeepsLater(Replay(most).value, history[|history| - 1], payment, early);
    }
  }

  /** The status a webhook transaction leaves. */
  function Outcome(tx: Tx, amount: int): Status
    requires IsHook(tx)
  {
    if tx.HookCapture? then Captured
    else if tx.HookFailure? then Failed
    else if tx.amount < amount then PartiallyRefunded
    else Refunded
  }

  lemma HookLeaves(db: Db, tx: Tx)
    requires Exec(db, tx).Some? && IsHook(tx)
    ensures tx.payment in db.payments && (tx.HookRefund? ==> 0 < tx.amount)
    ensures var amount := db.payments[tx.payment].amount;
            Later(Exec(db, tx).value, tx.payment,
                  db.payments[tx.payment].(status := Outcome(tx, amount)))
  {
    ExecTarget(db, tx);
    WritersFollowTable(tx, db.payments[tx.payment]);
  }

  /** The row right after the i-th transaction, a webhook's. */
  lemma AfterHook(history: seq<Tx>, i: nat) returns (early: Payment)
    requires Replay(history).Some? && i < |history| && IsHook(history[i])
    ensures Later(Replay(history).value, history[i].payment, early)
    ensures early.status == Outcome(history[i], early.amount) && (history[i].HookRefund? ==> 0 < history[i].amount)
  {
    var tx := history[i];
    PrefixReplays(history, i + 1);
    assert history[..i + 1][..i] == history[..i];
    var before := Replay(history[..i]).value;
    HookLeaves(before, tx);
    early := before.payments[tx.payment].(status := Outcome(tx, before.payments[tx.payment].amount));
    StaysLater(history, i + 1, tx.payment, early);
  }

  lemma PlainHookRepeats(db: Db, tx: Tx, early: Payment)
    requires tx.HookCapture? || tx.HookFailure?
    requires Later(db, tx.payment, early) && early.status == Outcome(tx, early.amount)
    ensures Exec(db, tx).None?
  {
  }

  lemma RefundHookRepeats(history: seq<Tx>, payment: string, amount: int, early: Payment)
    requires Replay(history).Some? && Later(Replay(history).value, payment, early) && 0 < amount
    requires early.status == if amount < early.amount then PartiallyRefunded else Refunded
    ensures var db := Replay(history).value;
            && (Exec(db, HookRefund(payment, amount)).Some? <==> db.payments[payment].status == PartiallyRefunded)
            && (Exec(db, HookRefund(payment, amount)).Some? ==> amount < early.amount)
  {
    RefundHookCommitsIff(history, payment, amount);
  }

  /** A webhook transaction that was committed at any time before would commit now exactly when it is a refund
      and the payment is partially refunded: never a capture, a failure or a full refund, whatever else has
      been committed in between. */
  lemma RepeatIff(history: seq<Tx>, i: nat)
    requires Replay(history).Some? && i < |history| && IsHook(history[i])
    ensures var tx, db := history[i], Replay(history).value;
            && tx.payment in db.payments
            && (Exec(db, tx).Some? <==>
                tx.HookRefund? && db.payments[tx.payment].status == PartiallyRefunded)
            && (Exec(db, tx).Some? ==> tx.amount < db.payments[tx.payment].amount)
  {
    var early := AfterHook(history, i);
    if history[i].HookRefund? {
      RefundHookRepeats(history, history[i].payment, history[i].amount, early);
    } else {
      PlainHookRepeats(Replay(history).value, history[i], early);
    }
  }

  /** Only partial refunds are ever committed twice. */
  lemma CommittedTwice(history: seq<Tx>, i: nat, j: nat)
    requires Replay(history).Some? && i < j < |history| && history[i] == history[j] && IsHook(history[i])
    ensures history[i].HookRefund? && history[i].payment in Replay(history).value.payments
    ensures history[i].amount < Replay(history).value.payments[history[i].payment].amount
  {
    StepOf(history, j);
    RepeatIff(history[..j], i);
    var payment := history[j].payment;
    StaysLater(history, j, payment, Replay(history[..j]).value.payments[payment]);
  }

  lemma StepOf(history: seq<Tx>, j: nat)
    requires Replay(history).Some? && j < |history|
    ensures Replay(history[..j]).Some?
    ensures Exec(Replay(history[..j]).value, history[j]).Some?
  {
    PrefixReplays(history, j + 1);
    OneLonger(history, j);
    LastStep(history[..j + 1], history[..j], history[j]);
  }

  lemma LastStep(longer: seq<Tx>, most: seq<Tx>, tx: Tx)
    requires longer == most + [tx] && Replay(longer).Some?
    ensures Replay(most).Some? && Exec(Replay(most).value, tx).Some?
  {
    ReplayOneMore(most, tx);
  }

  lemma OneLonger(history: seq<Tx>, j: nat)
    requires j < |history|
    ensures history[..j + 1] == history[..j] + [history[j]]
  {
  }

  /** Right after its own commit a webhook transaction would commit once more exactly when it is a partial
      refund. */
  lemma SecondEffectIff(history: seq<Tx>, tx: Tx)
    requires Replay(history).Some? && IsHook(tx) && Exec(Replay(history).value, tx).Some?
    ensures tx.payment in Replay(history).value.payments
    ensures Exec(Exec(Replay(history).value, tx).value, tx).Some? <==>
              tx.HookRefund? && tx.amount < Replay(history).value.payments[tx.payment].amount
  {
    var longer := history + [tx];
    ReplayOneMore(history, tx);
    assert longer[|history|] == tx;
    RepeatIff(longer, |history|);
    HookIsNow(Replay(history).value, tx);
  }

  lemma HookIsNow(db: Db, tx: Tx)
    requires Exec(db, tx).Some? && IsHook(tx)
    ensures tx.payment in db.payments && tx.payment in Exec(db, tx).value.payments
    ensures Exec(db, tx).value.payments[tx.payment].status == Outcome(tx, db.payments[tx.payment].amount)
  {
    ExecTarget(db, tx);
  }
}
