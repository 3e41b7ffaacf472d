/**
 The audit trail of every payment, over every serial history of committed
 transactions.
 */
module AuditTrail {
  import opened Options
  import opened PaymentStates
  import opened Ledger
  import opened Transactions

  /** The rows of payment_state_transitions of one payment, in commit order. */
  function Trail(log: seq<Transition>, payment: string): seq<Edge> {
    if log == [] then []
    else
      var last := log[|log| - 1];
      Trail(log[..|log| - 1], payment) + if last.payment == payment then [last.edge] else []
  }

  lemma TrailOneMore(log: seq<Transition>, t: Transition, payment: string)
    ensures Trail(log + [t], payment) == Trail(log, payment) + if t.payment == payment then [t.edge] else []
  {
    assert (log + [t])[..|log|] == log;
  }

  /** A payment's trail is well formed and ends in the payment's status; an absent payment has none. */
  ghost predicate TrailOk(db: Db, payment: string) {
    var trail := Trail(db.log, payment);
    if payment in db.payments
    then IsTrail(trail) && Last(trail) == db.payments[payment].status
    else trail == []
  }

  /** Every writer of an existing payment changes that row only, logs the change it
      makes, and follows the transition table, even where it never consults it. */
  lemma WritersFollowTable(tx: Tx, row: Payment)
    requires Target(tx).Some? && Decide(tx, Some(row)).Write?
    ensures var w := Decide(tx, Some(row)).writes;
            && w.rows.Keys == {tx.payment}
            && var after := w.rows[tx.payment];
            && w.log == [Transition(tx.payment, Edge(Some(row.status), after.status))]
            && CanTransition(row.status, after.status)
            && after.amount == row.amount && after.psp == row.psp
            && (row.reference.Some? && !tx.Move? ==> after.reference == row.reference)
            && RefundCheck(after)
  {
    assert tx.ApiRefund? ==> row.status == Captured || row.status == PartiallyRefunded;
    assert CanTransition(Captured, Refunded) && CanTransition(PartiallyRefunded, Refunded);
    assert CanTransition(Captured, PartiallyRefunded) && CanTransition(PartiallyRefunded, PartiallyRefunded);
    assert CanTransition(Authorized, Captured);
  }

  /** A committed transaction that does not write a payment leaves its row and its trail alone. */
  lemma ExecElsewhere(db: Db, tx: Tx, payment: string)
    requires Exec(db, tx).Some? && (Named(tx) != Some(payment) || tx.PostLedger?)
    ensures var after := Exec(db, tx).value;
            && (payment in after.payments <==> payment in db.payments)
            && (payment in db.payments ==> after.payments[payment] == db.payments[payment])
            && Trail(after.log, payment) == Trail(db.log, payment)
  {
    var w := Decide(tx, Read(db, tx)).writes;
    if tx.PostLedger? {
      assert db.log + [] == db.log;
    } else {
      if !tx.InsertPayment? {
        WritersFollowTable(tx, db.payments[tx.payment]);
      }
      assert w.log == [w.log[0]] && w.log[0].payment == tx.payment;
      TrailOneMore(db.log, w.log[0], payment);
    }
  }

  lemma MergeOne(rows: map<string, Payment>, changed: map<string, Payment>, key: string)
    requires changed.Keys == {key}
    ensures rows + changed == rows[key := changed[key]]
  {
  }

  /** A committed transaction on an existing payment replaces its row and adds one edge. */
  lemma ExecTarget(db: Db, tx: Tx)
    requires Exec(db, tx).Some? && Target(tx).Some?
    ensures tx.payment in db.payments
    ensures var before, after := db.payments[tx.payment], Exec(db, tx).value;
            var decision := Decide(tx, Some(before));
            && decision.Write?
            && tx.payment in decision.writes.rows
            && after.payments == db.payments[tx.payment := decision.writes.rows[tx.payment]]
            && Trail(after.log, tx.payment) == Trail(db.log, tx.payment) +
               [Edge(Some(before.status), decision.writes.rows[tx.payment].status)]
  {
    var before := db.payments[tx.payment];
    WritersFollowTable(tx, before);
    var w := Decide(tx, Some(before)).writes;
    MergeOne(db.payments, w.rows, tx.payment);
    TrailOneMore(db.log, Transition(tx.payment, Edge(Some(before.status), w.rows[tx.payment].status)), tx.payment);
  }

  lemma ExecInsert(db: Db, tx: Tx)
    requires Exec(db, tx).Some? && tx.InsertPayment?
    ensures tx.payment !in db.payments && 0 <= tx.amount
    ensures var after := Exec(db, tx).value;
            && after.payments == db.payments[tx.payment := Payment(tx.amount, tx.psp, Created, None, 0)]
            && Trail(after.log, tx.payment) == Trail(db.log, tx.payment) + [Edge(None, Created)]
  {
    TrailOneMore(db.log, Decide(tx, Read(db, tx)).writes.log[0], tx.payment);
  }

  /** The database constraint holds on every row. */
  lemma {:induction false} ReplayKeepsCap(history: seq<Tx>)
    requires Replay(history).Some?
    ensures forall p :: p in Replay(history).value.payments ==> RefundCheck(Replay(history).value.payments[p])
    decreases |history|
  {
    if history != [] {
      var db, tx := Replay(history[..|history| - 1]).value, history[|history| - 1];
      ReplayKeepsCap(history[..|history| - 1]);
      if Target(tx).Some? {
        ExecTarget(db, tx);
        WritersFollowTable(tx, db.payments[tx.payment]);
      } else if tx.InsertPayment? {
        ExecInsert(db, tx);
      } else {
        assert Exec(db, tx).value.payments == db.payments;
      }
    }
  }

  /** A change that posts nothing commits whenever it is decided. */
  lemma OneMoreChange(history: seq<Tx>, tx: Tx)
    requires Replay(history).Some? && Target(tx).Some? && !tx.HookCapture? && !tx.HookRefund?
    requires tx.payment in Replay(history).value.payments
    requires Decide(tx, Some(Replay(history).value.payments[tx.payment])).Write?
    ensures Replay(history + [tx]).Some?
    ensures var row := Decide(tx, Some(Replay(history).value.payments[tx.payment])).writes.rows;
            && tx.payment in row
            && Replay(history + [tx]).value.payments == Replay(history).value.payments[tx.payment := row[tx.payment]]
  {
    var db := Replay(history).value;
    ReplayOneMore(history, tx);
    assert Decide(tx, Read(db, tx)).writes.lines == [];
    ExecTarget(db, tx);
  }

  lemma ExecKeepsTrail(db: Db, tx: Tx, payment: string)
    requires Exec(db, tx).Some? && TrailOk(db, payment)
    ensures TrailOk(Exec(db, tx).value, payment)
  {
    if Named(tx) != Some(payment) || tx.PostLedger? {
      ExecElsewhere(db, tx, payment);
    } else if tx.InsertPayment? {
      ExecInsert(db, tx);
    } else {
      ExecTarget(db, tx);
      WritersFollowTable(tx, db.payments[payment]);
      var row := Decide(tx, Some(db.payments[payment])).writes.rows[payment];
      TrailGrows(Trail(db.log, payment), Edge(Some(db.payments[payment].status), row.status));
    }
  }

  /** In every serial history each payment's transition log is a chain of legal
      changes from created to the payment's current status. */
  lemma {:induction false} EveryTrailIsLegal(history: seq<Tx>, payment: string)
    requires Replay(history).Some?
    ensures TrailOk(Replay(history).value, payment)
    decreases |history|
  {
    if history != [] {
      EveryTrailIsLegal(history[..|history| - 1], payment);
      ExecKeepsTrail(Replay(history[..|history| - 1]).value, history[|history| - 1], payment);
    }
  }

  /** A terminal payment never changes again. */
  lemma TerminalIsFinal(db: Db, tx: Tx, payment: string)
    requires Exec(db, tx).Some? && payment in db.payments && IsTerminal(db.payments[payment].status)
    ensures payment in Exec(db, tx).value.payments
    ensures Exec(db, tx).value.payments[payment] == db.payments[payment]
    ensures Trail(Exec(db, tx).value.log, payment) == Trail(db.log, payment)
  {
    if Target(tx) == Some(payment) {
      WritersFollowTable(tx, db.payments[payment]);
    } else if tx.InsertPayment? && tx.payment == payment {
      ExecInsert(db, tx);
    } else {
      ExecElsewhere(db, tx, payment);
    }
  }

  /** The ledger transactions of type payment_capture recorded for a payment. */
  function Captures(journal: seq<LedgerTx>, payment: string): nat {
    if journal == [] then 0
    else
      Captures(journal[..|journal| - 1], payment) +
      if journal[|journal| - 1].header == Header(Some(payment), "payment_capture") then 1 else 0
  }

  lemma CapturesAppend(journal: seq<LedgerTx>, t: LedgerTx, payment: string)
    ensures Captures(journal + [t], payment) ==
            Captures(journal, payment) + if t.header == Header(Some(payment), "payment_capture") then 1 else 0
  {
    assert (journal + [t])[..|journal|] == journal;
  }

  /** Whether a transaction is a generic posting that poses as the capture of this payment. */
  function Poses(tx: Tx, payment: string): nat {
    if tx.PostLedger? && tx.header == Header(Some(payment), "payment_capture") then 1 else 0
  }

  function Posed(history: seq<Tx>, payment: string): nat {
    if history == [] then 0
    else Posed(history[..|history| - 1], payment) + Poses(history[|history| - 1], payment)
  }

  lemma PosedOneMore(history: seq<Tx>, tx: Tx, payment: string)
    ensures Posed(history + [tx], payment) == Posed(history, payment) + Poses(tx, payment)
  {
    assert (history + [tx])[..|history|] == history;
  }

  lemma HeaderOfTx(tx: Tx, read: Option<Payment>, payment: string)
    requires Decide(tx, read).Write?
    ensures Decide(tx, read).writes.header == Some(Header(Some(payment), "payment_capture")) <==>
              tx == HookCapture(payment) || Poses(tx, payment) == 1
  {
    assert |"payment_capture"| == 15 && |"refund"| == 6;
  }

  lemma CapturesOneMore(db: Db, tx: Tx, payment: string)
    requires Exec(db, tx).Some?
    ensures Captures(Exec(db, tx).value.journal, payment) ==
            Captures(db.journal, payment) + Poses(tx, payment) + if tx == HookCapture(payment) then 1 else 0
  {
    var w := Decide(tx, Read(db, tx)).writes;
    HeaderOfTx(tx, Read(db, tx), payment);
    if w.header.None? {
      assert db.journal + [] == db.journal;
    } else {
      CapturesAppend(db.journal, LedgerTx(w.header.value, PostLines(db.accounts, w.lines).entries), payment);
    }
  }

  /** No writer raises the rank, and posting a capture brings it down to that of captured. */
  lemma CaptureLowersRank(tx: Tx, row: Payment)
    requires Target(tx).Some? && Decide(tx, Some(row)).Write?
    ensures var rows := Decide(tx, Some(row)).writes.rows;
            && tx.payment in rows
            && Rank(rows[tx.payment].status) <= Rank(row.status)
            && (tx.HookCapture? ==> rows[tx.payment].status == Captured && Rank(Captured) < Rank(row.status))
  {
    WritersFollowTable(tx, row);
    StepLowersRank(row.status, Decide(tx, Some(row)).writes.rows[tx.payment].status);
  }

  ghost predicate CapturedOnce(db: Db, payment: string, posed: nat) {
    && posed <= Captures(db.journal, payment) <= posed + 1
    && (Captures(db.journal, payment) > posed ==>
      payment in db.payments && Rank(db.payments[payment].status) <= Rank(Captured))
  }

  lemma ExecKeepsCapturedOnce(db: Db, tx: Tx, payment: string, posed: nat)
    requires Exec(db, tx).Some? && CapturedOnce(db, payment, posed)
    ensures CapturedOnce(Exec(db, tx).value, payment, posed + Poses(tx, payment))
  {
    CapturesOneMore(db, tx, payment);
    if Target(tx) == Some(payment) {
      ExecTarget(db, tx);
      CaptureLowersRank(tx, db.payments[payment]);
    } else if tx.InsertPayment? && tx.payment == payment {
      ExecInsert(db, tx);
    } else {
      ExecElsewhere(db, tx, payment);
    }
  }

  /** Whatever mix of API captures and capture webhooks is committed, a payment gets at most one
      payment_capture ledger transaction besides the generic postings that carry this header themselves, and
      none before it is captured. */
  lemma {:induction false} CapturedInLedgerOnce(history: seq<Tx>, payment: string)
    requires Replay(history).Some?
    ensures CapturedOnce(Replay(history).value, payment, Posed(history, payment))
    decreases |history|
  {
    if history != [] {
      var most, tx := history[..|history| - 1], history[|history| - 1];
      CapturedInLedgerOnce(most, payment);
      ExecKeepsCapturedOnce(Replay(most).value, tx, payment, Posed(most, payment));
    }
  }
}
