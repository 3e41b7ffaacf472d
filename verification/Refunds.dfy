/** Over-refund protection and termination, over every serial history. */
module Refunds {
  import opened Options
  import opened PaymentStates
  import opened LedgerBounds
  import opened Transactions
  import opened AuditTrail

  /** What the callers guarantee: internal/handler/payment.go validates amounts, and only
      CreatePayment and CancelPayment call updatePaymentState. */
  predicate Handled(tx: Tx) {
    && (tx.InsertPayment? ==> Validated(tx.amount))
    && (tx.ApiRefund? ==> Validated(tx.amount))
    && (tx.Move? ==>
      || (tx.from == Created && (tx.to == Authorized || tx.to == Failed))
      || (tx.from == Authorized && tx.to == Cancelled))
  }

  ghost predicate AllHandled(history: seq<Tx>) {
    forall i :: 0 <= i < |history| ==> Handled(history[i])
  }

  lemma HandledPrefix(history: seq<Tx>)
    requires AllHandled(history) && history != []
    ensures AllHandled(history[..|history| - 1]) && Handled(history[|history| - 1])
    ensures history[..|history| - 1] + [history[|history| - 1]] == history
  {
  }

  /** The sum of the committed API refunds of a payment. */
  function ApiRefunded(history: seq<Tx>, payment: string): int {
    if history == [] then 0
    else
      var tx := history[|history| - 1];
      ApiRefunded(history[..|history| - 1], payment) +
      if tx.ApiRefund? && tx.payment == payment then tx.amount else 0
  }

  function ApiRefundCount(history: seq<Tx>, payment: string): nat {
    if history == [] then 0
    else
      var tx := history[|history| - 1];
      ApiRefundCount(history[..|history| - 1], payment) +
      if tx.ApiRefund? && tx.payment == payment then 1 else 0
  }

  /** No refund webhook of this payment was processed. */
  ghost predicate ApiOnly(history: seq<Tx>, payment: string) {
    forall i :: 0 <= i < |history| ==> !(history[i].HookRefund? && history[i].payment == payment)
  }

  /** The refund fields of a payment row, given the API refunds committed on it so far. */
  ghost predicate RowOk(row: Payment, refunded: int, count: int, apiOnly: bool) {
    && 0 < row.amount
    && row.totalRefunded == refunded
    && 0 <= count <= refunded <= row.amount
    && (0 < refunded ==> row.status == PartiallyRefunded || row.status == Refunded)
    && (refunded == row.amount ==> row.status == Refunded)
    && (apiOnly && row.status == Refunded ==> refunded == row.amount)
    && (apiOnly && row.status == PartiallyRefunded ==> 0 < refunded)
  }

  ghost predicate RefundsOk(history: seq<Tx>, db: Db, payment: string) {
    if payment in db.payments
    then
      RowOk(db.payments[payment], ApiRefunded(history, payment), ApiRefundCount(history, payment),
            ApiOnly(history, payment))
    else ApiRefunded(history, payment) == ApiRefundCount(history, payment) == 0
  }

  lemma WriterKeepsRow(tx: Tx, row: Payment, refunded: int, count: int, apiOnly: bool)
    requires Handled(tx) && Target(tx).Some? && Decide(tx, Some(row)).Write?
    requires RowOk(row, refunded, count, apiOnly) || (RowOk(row, refunded, count, false) && tx.HookRefund?)
    ensures var rows := Decide(tx, Some(row)).writes.rows;
            && tx.payment in rows
            && RowOk(rows[tx.payment],
                     refunded + if tx.ApiRefund? then tx.amount else 0,
                     count + if tx.ApiRefund? then 1 else 0,
                     apiOnly && !tx.HookRefund?)
  {
    WritersFollowTable(tx, row);
  }

  lemma ExecKeepsRefunds(history: seq<Tx>, db: Db, tx: Tx, payment: string)
    requires Exec(db, tx).Some? && Handled(tx) && RefundsOk(history, db, payment)
    ensures RefundsOk(history + [tx], Exec(db, tx).value, payment)
  {
    assert (history + [tx])[..|history|] == history;
    ApiOnlyOneMore(history, tx, payment);
    if Target(tx) == Some(payment) {
      ExecTarget(db, tx);
      WriterKeepsRow(tx, db.payments[payment], ApiRefunded(history, payment), ApiRefundCount(history, payment),
                     ApiOnly(history, payment));
    } else if tx.InsertPayment? && tx.payment == payment {
      ExecInsert(db, tx);
    } else {
      ExecElsewhere(db, tx, payment);
    }
  }

  /** With amounts validated by the handlers, in every serial history total_refunded is the sum of the
      committed API refunds and stays within the amount; it is zero before the first refund, reaching
      the amount means refunded, and without refund webhooks the converse holds as well. */
  lemma {:induction false} RefundsStayWithinAmount(history: seq<Tx>, payment: string)
    requires Replay(history).Some? && AllHandled(history)
    ensures RefundsOk(history, Replay(history).value, payment)
    decreases |history|
  {
    if history != [] {
      var most, tx := history[..|history| - 1], history[|history| - 1];
      HandledPrefix(history);
      RefundsStayWithinAmount(most, payment);
      ExecKeepsRefunds(most, Replay(most).value, tx, payment);
    }
  }

  lemma ApiOnlyOneMore(history: seq<Tx>, tx: Tx, payment: string)
    ensures ApiOnly(history + [tx], payment) <==>
              ApiOnly(history, payment) && !(tx.HookRefund? && tx.payment == payment)
  {
    var longer := history + [tx];
    assert longer[|history|] == tx;
    assert forall i :: 0 <= i < |history| ==> longer[i] == history[i];
  }

  /** At most `amount` API refunds of a payment ever commit, and once its cap is reached
      no further one does. */
  lemma AtMostAmountRefunds(history: seq<Tx>, payment: string)
    requires Replay(history).Some? && AllHandled(history)
    requires payment in Replay(history).value.payments
    ensures var db := Replay(history).value;
            && ApiRefundCount(history, payment) <= db.payments[payment].amount
            && forall refund ::
                 0 < refund && refund > db.payments[payment].amount - ApiRefunded(history, payment) ==>
                   Exec(db, ApiRefund(payment, refund)) == None
  {
    RefundsStayWithinAmount(history, payment);
  }

  lemma GuardsDecide(tx: Tx, row: Payment)
    requires Target(tx).Some? && (tx.ApiRefund? ==> 0 < tx.amount) && RefundCheck(row)
    ensures Decide(tx, Some(row)).Reject? <==> GuardsFail(tx, row)
  {
  }

  /** On rows reached with validated amounts, a transaction is refused exactly when its own guards fail:
      the database constraint on total_refunded never fires. */
  lemma RefundCapNeverFires(history: seq<Tx>, tx: Tx)
    requires Replay(history).Some? && AllHandled(history) && Handled(tx)
    requires Target(tx).Some? && tx.payment in Replay(history).value.payments
    ensures var row := Replay(history).value.payments[tx.payment];
            Decide(tx, Some(row)).Reject? <==> GuardsFail(tx, row)
  {
    RefundsStayWithinAmount(history, tx.payment);
    GuardsDecide(tx, Replay(history).value.payments[tx.payment]);
  }

  /** The order in which every API transaction descends. */
  ghost predicate Descends(before: Payment, after: Payment) {
    || Rank(after.status) < Rank(before.status)
    || (Rank(after.status) == Rank(before.status) &&
        0 <= after.amount - after.totalRefunded < before.amount - before.totalRefunded)
  }

  /** Every committed transaction on an existing payment descends, unless it is the refund
      webhook's partially_refunded self-loop. */
  lemma WritersDescend(tx: Tx, row: Payment)
    requires Handled(tx) && Target(tx).Some? && Decide(tx, Some(row)).Write?
    ensures var rows := Decide(tx, Some(row)).writes.rows;
            && tx.payment in rows
            && (Descends(row, rows[tx.payment]) <==>
                !(tx.HookRefund? && row.status == PartiallyRefunded && tx.amount < row.amount))
  {
    WritersFollowTable(tx, row);
    StepLowersRank(row.status, Decide(tx, Some(row)).writes.rows[tx.payment].status);
  }

  /** The length the audit trail of a payment in the given row may have. */
  function Room(row: Payment): int {
    match row.status
    case Created => 1
    case Authorized => 2
    case PartiallyRefunded => 3 + row.totalRefunded
    case Refunded => 3 + row.amount
    case _ => 3
  }

  lemma WriterKeepsRoom(tx: Tx, row: Payment)
    requires Handled(tx) && Target(tx).Some? && Decide(tx, Some(row)).Write?
    requires !tx.HookRefund? && 0 < row.amount && 0 <= row.totalRefunded <= row.amount
    requires row.status == PartiallyRefunded ==> row.totalRefunded < row.amount
    requires row.status != Pending
    ensures var rows := Decide(tx, Some(row)).writes.rows;
            && tx.payment in rows
            && Room(row) + 1 <= Room(rows[tx.payment])
            && rows[tx.payment].status != Pending
  {
    WritersFollowTable(tx, row);
  }

  ghost predicate Settling(db: Db, payment: string) {
    payment in db.payments ==>
      && db.payments[payment].status != Pending
      && |Trail(db.log, payment)| <= Room(db.payments[payment])
  }

  lemma ExecSettles(history: seq<Tx>, db: Db, tx: Tx, payment: string)
    requires Exec(db, tx).Some? && Handled(tx) && !(tx.HookRefund? && tx.payment == payment)
    requires RefundsOk(history, db, payment) && TrailOk(db, payment) && Settling(db, payment)
    ensures Settling(Exec(db, tx).value, payment)
  {
    if Target(tx) == Some(payment) {
      ExecTarget(db, tx);
      WriterKeepsRoom(tx, db.payments[payment]);
    } else if tx.InsertPayment? && tx.payment == payment {
      ExecInsert(db, tx);
    } else {
      ExecElsewhere(db, tx, payment);
    }
  }

  /** Without refund webhooks every payment settles: at most amount + 3 changes are ever
      committed on it, whatever the order of the requests; pending is never entered. */
  lemma {:induction false} ApiRunsTerminate(history: seq<Tx>, payment: string)
    requires Replay(history).Some? && AllHandled(history) && ApiOnly(history, payment)
    ensures var db := Replay(history).value;
            && Settling(db, payment)
            && (payment in db.payments ==> |Trail(db.log, payment)| <= db.payments[payment].amount + 3)
    decreases |history|
  {
    RefundsStayWithinAmount(history, payment);
    if history != [] {
      var most, tx := history[..|history| - 1], history[|history| - 1];
      assert most + [tx] == history;
      ApiOnlyOneMore(most, tx, payment);
      ApiRunsTerminate(most, payment);
      RefundsStayWithinAmount(most, payment);
      EveryTrailIsLegal(most, payment);
      ExecSettles(most, Replay(most).value, tx, payment);
    }
  }
}
