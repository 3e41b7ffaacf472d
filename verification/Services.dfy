/**
 The Go functions of internal/service on one set of tables, each running alone.
 An early return rolls back; what a completed call leaves behind is the serial
 step of Transactions.
 */
module Services {
  import opened Options
  import opened Int64
  import opened PaymentStates
  import opened Ledger
  import opened Transactions
  import opened Sessions

  datatype ServiceError =
    | PaymentNotFound
    | NotAuthorized
    | NotRefundable(status: Status)
    | ExceedsRemaining(remaining: int)
    | PspFailed
    | StaleStatus
    | BadTransition(reason: TransitionError)
    | InvalidRefundAmount
    | NoInternalPayment
    | RowRejected
    | LedgerFailed(ledger: LedgerError)
    | UnknownPsp
    | EventRejected                                // raw_payload is a JSONB column
    | BadSignature

  type Result = Outcome<ServiceError>

  /** A row of webhook_events, with the payment the delivery was matched to. */
  datatype EventRecord = EventRecord(payment: Option<string>, status: EventStatus)

  /** A call left the tables as the serial transaction does: its effect when it commits, nothing
      when it does not; it reports success exactly when it commits or has nothing to do. */
  ghost predicate Ran(before: Db, tx: Tx, after: Db, r: Result) {
    match Exec(before, tx)
    case Some(db) => r.Pass? && after == db
    case None => after == before && (r.Pass? <==> Decide(tx, Read(before, tx)).NoOp?)
  }

  /** What a delivery does, by its event type as received and the payment it was matched to. */
  ghost predicate Dispatched(before: Db, d: Delivery, found: Option<string>, after: Db, r: Result) {
    if d.eventType in {"payment.captured", "payment_intent.succeeded"} then
      if found.Some? then Ran(before, HookCapture(found.value), after, r)
      else r == Fail(NoInternalPayment) && after == before
    else if d.eventType in {"payment.failed", "payment_intent.payment_failed"} then
      if found.Some? then Ran(before, HookFailure(found.value), after, r)
      else r.Pass? && after == before
    else if d.eventType in {"refund.created", "refund.processed"} then
      if found.None? then r.Pass? && after == before
      else if d.payload.refund <= 0 then r == Fail(InvalidRefundAmount) && after == before
      else Ran(before, HookRefund(found.value, d.payload.refund), after, r)
    else r.Pass? && after == before
  }

  class Database {
    var payments: map<string, Payment>
    var log: seq<Transition>
    var accounts: Accounts
    var journal: seq<LedgerTx>
    var events: map<Key, EventRecord>

    function Tables(): Db
      reads this
    {
      Db(payments, log, accounts, journal)
    }

    constructor ()
      ensures Tables() == SEED && events == map[]
    {
      payments, log, accounts, journal := SEED.payments, SEED.log, SEED.accounts, SEED.journal;
      events := map[];
    }

    method RollBack(begin: Db)
      modifies this`payments, this`log, this`accounts, this`journal
      ensures Tables() == begin
    {
      payments, log, accounts, journal := begin.payments, begin.log, begin.accounts, begin.journal;
    }

    /** UPDATE payments and INSERT INTO payment_state_transitions; the row is checked against chk_refund_cap. */
    method WriteChange(id: string, row: Payment, from: Status) returns (ok: bool)
      modifies this`payments, this`log
      ensures ok == RefundCheck(row)
      ensures ok ==> payments == old(payments)[id := row]
      ensures ok ==> log == old(log) + [Transition(id, Edge(Some(from), row.status))]
      ensures !ok ==> unchanged(this)
    {
      ok := RefundCheck(row);
      if ok {
        payments := payments[id := row];
        log := log + [Transition(id, Edge(Some(from), row.status))];
      }
    }

    // ---- internal/service/payment.go

    method InsertCreated(id: string, amount: int, psp: string) returns (r: Result)
      modifies this`payments, this`log
      ensures Ran(old(Tables()), Tx.InsertPayment(id, amount, psp), Tables(), r)
    {
      var row := Payment(amount, psp, Created, None, 0);
      if id in payments || !RefundCheck(row) {
        return Fail(RowRejected);
      }
      payments := payments[id := row];
      log := log + [Transition(id, Edge(None, Created))];
      r := Pass;
      assert payments == old(payments) + map[id := row];
      assert PostLines(accounts, []) == Posted(accounts, []);
      assert journal + [] == journal;
    }

    method UpdatePaymentState(id: string, from: Status, to: Status, reference: string) returns (r: Result)
      modifies this`payments, this`log
      ensures Ran(old(Tables()), Move(id, from, to, reference), Tables(), r)
      ensures r == Fail(StaleStatus) <==>
                CanTransition(from, to) && (id !in old(payments) || old(payments)[id].status != from)
      ensures r.Fail? ==> r.error.StaleStatus? || r.error.BadTransition? || r.error.RowRejected?
    {
      var valid := ValidateTransition(from, to);
      if valid.Fail? {
        return Fail(BadTransition(valid.error));
      }
      if id !in payments || payments[id].status != from {
        return Fail(StaleStatus);
      }
      var p := payments[id];
      var ok := WriteChange(id, p.(status := to, reference := NewReference(reference, p)), from);
      if !ok {
        return Fail(RowRejected);
      }
      r := Pass;
      PlainChange(old(Tables()), Move(id, from, to, reference));
    }

    /** The PSP is asked under the row lock; pspOk is its answer. */
    method CapturePayment(id: string, pspOk: bool) returns (r: Result)
      modifies this`payments, this`log
      ensures if pspOk then Ran(old(Tables()), ApiCapture(id), Tables(), r)
              else r.Fail? && Tables() == old(Tables())
      ensures r == Fail(PaymentNotFound) <==> id !in old(payments) || old(payments)[id].reference.None?
      ensures r == Fail(NotAuthorized) <==>
                id in old(payments) && old(payments)[id].reference.Some? && old(payments)[id].status != Authorized
      ensures r == Fail(PspFailed) <==>
                && id in old(payments) && old(payments)[id].reference.Some? && old(payments)[id].status == Authorized
                && !pspOk
    {
      if id !in payments || payments[id].reference.None? {
        return Fail(PaymentNotFound);
      }
      var p := payments[id];
      if p.status != Authorized {
        return Fail(NotAuthorized);
      }
      if !pspOk {
        return Fail(PspFailed);
      }
      var ok := WriteChange(id, p.(status := Captured), Authorized);
      if !ok {
        return Fail(RowRejected);
      }
      r := Pass;
      PlainChange(old(Tables()), ApiCapture(id));
    }

    method RefundPayment(id: string, amount: int, pspOk: bool) returns (r: Result)
      modifies this`payments, this`log
      ensures if pspOk then Ran(old(Tables()), ApiRefund(id, amount), Tables(), r)
              else r.Fail? && Tables() == old(Tables())
      ensures r.Fail? && r.error.ExceedsRemaining? ==>
                id in old(payments) && r.error.remaining == old(payments)[id].amount - old(payments)[id].totalRefunded
      ensures r.Fail? && r.error.ExceedsRemaining? <==>
                && id in old(payments) && old(payments)[id].reference.Some?
                && (old(payments)[id].status == Captured || old(payments)[id].status == PartiallyRefunded)
                && amount > old(payments)[id].amount - old(payments)[id].totalRefunded
      ensures r == Fail(PaymentNotFound) <==> id !in old(payments) || old(payments)[id].reference.None?
      ensures r.Fail? && r.error.NotRefundable? ==> id in old(payments) && r.error.status == old(payments)[id].status
      ensures r.Fail? && r.error.NotRefundable? <==>
                && id in old(payments) && old(payments)[id].reference.Some?
                && old(payments)[id].status != Captured && old(payments)[id].status != PartiallyRefunded
    {
      if id !in payments || payments[id].reference.None? {
        return Fail(PaymentNotFound);
      }
      var p := payments[id];
      if p.status != Captured && p.status != PartiallyRefunded {
        return Fail(NotRefundable(p.status));
      }
      var remaining := p.amount - p.totalRefunded;
      if amount > remaining {
        return Fail(ExceedsRemaining(remaining));
      }
      if !pspOk {
        return Fail(PspFailed);
      }
      var newTotalRefunded := p.totalRefunded + amount;
      var newStatus := PartiallyRefunded;
      if newTotalRefunded >= p.amount {
        newStatus := Refunded;
      }
      var ok := WriteChange(id, p.(status := newStatus, totalRefunded := newTotalRefunded), p.status);
      if !ok {
        return Fail(RowRejected);
      }
      r := Pass;
      PlainChange(old(Tables()), ApiRefund(id, amount));
    }

    method CancelPayment(id: string, pspOk: bool) returns (r: Result)
      modifies this`payments, this`log
      ensures var known := id in old(payments) && old(payments)[id].reference.Some?;
              if known && pspOk
              then Ran(old(Tables()), Move(id, Authorized, Cancelled, old(payments)[id].reference.value), Tables(), r)
              else r.Fail? && Tables() == old(Tables())
      ensures r == Fail(PaymentNotFound) <==> id !in old(payments) || old(payments)[id].reference.None?
      ensures r == Fail(NotAuthorized) <==>
                id in old(payments) && old(payments)[id].reference.Some? && old(payments)[id].status != Authorized
      ensures r == Fail(PspFailed) <==>
                && id in old(payments) && old(payments)[id].reference.Some? && old(payments)[id].status == Authorized
                && !pspOk
    {
      if id !in payments || payments[id].reference.None? {
        return Fail(PaymentNotFound);
      }
      var p := payments[id];
      if p.status != Authorized {
        return Fail(NotAuthorized);
      }
      if !pspOk {
        return Fail(PspFailed);
      }
      r := UpdatePaymentState(id, p.status, Cancelled, p.reference.value);
    }

    // ---- internal/service/ledger.go

    /** postEntryInTx, and the loop body of PostLedgerTransaction: one account row and one entry row,
        added to the ledger transaction under way. */
    method PostEntryInTx(line: Line) returns (r: Outcome<LedgerError>)
      requires journal != []
      modifies this`accounts, this`journal
      ensures var last := old(journal)[|old(journal)| - 1];
              match PostLine(old(accounts), last.entries, line)
              case Posted(after, entries) =>
                r.Pass? && accounts == after
                && journal == old(journal)[|old(journal)| - 1 := last.(entries := entries)]
              case Refused(e) => r == Fail(e)
    {
      if line.code !in accounts {
        return Fail(AccountNotFound(line.code));
      }
      var account := accounts[line.code];
      var newBalance := account.balance;
      if NormalDebit(account.kind) {
        newBalance := Add(newBalance, Sub(line.debit, line.credit));
      } else {
        newBalance := Add(newBalance, Sub(line.credit, line.debit));
      }
      accounts := accounts[line.code := account.(balance := newBalance)];
      if !RowCheck(line.debit, line.credit) {
        return Fail(CheckViolation);
      }
      var last := journal[|journal| - 1];
      var entry := Entry(line.code, line.debit, line.credit, newBalance);
      journal := journal[|journal| - 1 := last.(entries := last.entries + [entry])];
      r := Pass;
    }

    /** INSERT INTO ledger_transactions, then the entries one by one; a failure leaves
        rows for the caller to roll back. */
    method PostAll(header: Header, lines: seq<Line>) returns (r: Outcome<LedgerError>)
      modifies this`accounts, this`journal
      ensures match PostLines(old(accounts), lines)
              case Posted(after, entries) =>
                r.Pass? && accounts == after && journal == old(journal) + [LedgerTx(header, entries)]
              case Refused(e) => r == Fail(e)
    {
      journal := journal + [LedgerTx(header, [])];
      var i := 0;
      while i < |lines|
        invariant 0 <= i <= |lines|
        invariant |journal| == |old(journal)| + 1 && journal[..|old(journal)|] == old(journal)
        invariant journal[|old(journal)|].header == header
        invariant PostLines(old(accounts), lines[..i]) == Posted(accounts, journal[|old(journal)|].entries)
      {
        PostOneMore(old(accounts), lines, i);
        r := PostEntryInTx(lines[i]);
        if r.Fail? {
          RefusedStays(old(accounts), lines, i + 1);
          return;
        }
        i := i + 1;
      }
      assert lines[..i] == lines;
      r := Pass;
    }

    method PostLedgerTransaction(header: Header, lines: seq<Line>) returns (r: Result)
      modifies this`payments, this`log, this`accounts, this`journal
      ensures Ran(old(Tables()), PostLedger(header, lines), Tables(), r)
    {
      var valid := ValidateEntries(lines);
      if valid.Fail? {
        return Fail(LedgerFailed(valid.error));
      }
      var begin := Tables();
      if header.payment.Some? && header.payment.value !in payments {
        return Fail(RowRejected);
      }
      var posted := PostAll(header, lines);
      if posted.Fail? {
        RollBack(begin);
        return Fail(LedgerFailed(posted.error));
      }
      r := Pass;
      assert payments == begin.payments + map[] && log == begin.log + [];
    }

    // ---- internal/service/webhook.go

    method ProcessCaptureWebhook(id: string) returns (r: Result)
      modifies this`payments, this`log, this`accounts, this`journal
      ensures Ran(old(Tables()), HookCapture(id), Tables(), r)
      ensures r == Fail(PaymentNotFound) <==> id !in old(payments)
      ensures id in old(payments) ==>
                var row := old(payments)[id];
                && (r.Pass? && row.status in {Pending, Authorized} ==>
                  && payments == old(payments)[id := row.(status := Captured)]
                  && log == old(log) + [Transition(id, Edge(Some(row.status), Captured))])
                && (row.status == Captured ==> r.Pass? && Tables() == old(Tables()))
                && (row.status !in {Pending, Authorized, Captured} ==> r.Fail? && Tables() == old(Tables()))
    {
      if id in payments {
        LegalChanges(payments[id].status, Captured);
      }
      if id !in payments {
        return Fail(PaymentNotFound);
      }
      var begin := Tables();
      var p := payments[id];
      if p.status == Captured {
        return Pass;
      }
      var valid := ValidateTransition(p.status, Captured);
      if valid.Fail? {
        return Fail(BadTransition(valid.error));
      }
      var ok := WriteChange(id, p.(status := Captured), p.status);
      if !ok {
        return Fail(RowRejected);
      }
      HookChange(begin, HookCapture(id), p.(status := Captured), Header(Some(id), "payment_capture"),
                 CaptureLines(p.amount));
      var posted := PostAll(Header(Some(id), "payment_capture"),
                            [Line(PSP_SETTLEMENT, p.amount, 0), Line(MERCHANT_PAY, 0, p.amount)]);
      if posted.Fail? {
        RollBack(begin);
        return Fail(LedgerFailed(posted.error));
      }
      r := Pass;
    }

    method ProcessFailureWebhook(id: string) returns (r: Result)
      modifies this`payments, this`log
      ensures Ran(old(Tables()), HookFailure(id), Tables(), r)
      ensures r == Fail(PaymentNotFound) <==> id !in old(payments)
      ensures id in old(payments) ==>
                var row := old(payments)[id];
                && (row.status in {Created, Pending, Authorized} && 0 <= row.totalRefunded <= row.amount ==>
                  && r.Pass? && payments == old(payments)[id := row.(status := Failed)]
                  && log == old(log) + [Transition(id, Edge(Some(row.status), Failed))])
                && (row.status in {Failed, Cancelled, Refunded} ==> r.Pass? && unchanged(this))
                && (row.status in {Captured, PartiallyRefunded} ==> r.Fail? && unchanged(this))
    {
      if id in payments {
        LegalChanges(payments[id].status, Failed);
      }
      if id !in payments {
        return Fail(PaymentNotFound);
      }
      var p := payments[id];
      if IsTerminal(p.status) {
        return Pass;
      }
      var valid := ValidateTransition(p.status, Failed);
      if valid.Fail? {
        return Fail(BadTransition(valid.error));
      }
      var ok := WriteChange(id, p.(status := Failed), p.status);
      if !ok {
        return Fail(RowRejected);
      }
      r := Pass;
      PlainChange(old(Tables()), HookFailure(id));
    }

    method ProcessRefundWebhook(id: string, refundAmount: int) returns (r: Result)
      modifies this`payments, this`log, this`accounts, this`journal
      ensures Ran(old(Tables()), HookRefund(id, refundAmount), Tables(), r)
      ensures r == Fail(InvalidRefundAmount) <==> refundAmount <= 0
      ensures r == Fail(PaymentNotFound) <==> 0 < refundAmount && id !in old(payments)
      ensures r.Pass? ==>
                && id in old(payments) && old(payments)[id].status in {Captured, PartiallyRefunded}
                && payments == old(payments)[id := old(payments)[id].(
                                 status := if refundAmount < old(payments)[id].amount
                                           then PartiallyRefunded else Refunded)]
    {
      if refundAmount <= 0 {
        return Fail(InvalidRefundAmount);
      }
      if id !in payments {
        return Fail(PaymentNotFound);
      }
      var begin := Tables();
      var p := payments[id];
      var newStatus := Refunded;
      if refundAmount < p.amount {
        newStatus := PartiallyRefunded;
      }
      LegalChanges(p.status, newStatus);
      var valid := ValidateTransition(p.status, newStatus);
      if valid.Fail? {
        return Fail(BadTransition(valid.error));
      }
      var ok := WriteChange(id, p.(status := newStatus), p.status);
      if !ok {
        return Fail(RowRejected);
      }
      HookChange(begin, HookRefund(id, refundAmount), p.(status := newStatus), Header(Some(id), "refund"),
                 RefundLines(refundAmount));
      var posted := PostAll(Header(Some(id), "refund"),
                            [Line(MERCHANT_PAY, refundAmount, 0), Line(REFUND_EXP, 0, refundAmount)]);
      if posted.Fail? {
        RollBack(begin);
        return Fail(LedgerFailed(posted.error));
      }
      r := Pass;
    }

    /** Step 7 of the ingestion, on the payment the delivery was matched to. */
    method ProcessEvent(d: Delivery, found: Option<string>) returns (r: Result)
      modifies this`payments, this`log, this`accounts, this`journal
      ensures Dispatched(old(Tables()), d, found, Tables(), r)
    {
      match Classify(d.eventType)
      case CaptureEvent =>
        if found.None? {
          return Fail(NoInternalPayment);
        }
        r := ProcessCaptureWebhook(found.value);
      case FailureEvent =>
        if found.None? {
          return Pass;
        }
        r := ProcessFailureWebhook(found.value);
      case RefundEvent =>
        if found.None? {
          return Pass;
        }
        r := ProcessRefundWebhook(found.value, d.payload.refund);
      case OtherEvent =>
        r := Pass;
    }

    /** Signature and freshness checks are the caller's answer `verified`, and `insertable` is the database's to
        the insert, which fails for a body that is not JSON. A delivery is recorded once per idempotency key; the
        first time it runs the transaction of its event on the payment it matches. */
    method IngestWebhook(d: Delivery, pspKnown: bool, verified: bool, insertable: bool) returns (r: Result)
      modifies this
      ensures !pspKnown || !verified ==> r.Fail? && unchanged(this)
      ensures pspKnown && verified && KeyOf(d) in old(events) ==> r.Pass? && unchanged(this)
      ensures pspKnown && verified && KeyOf(d) !in old(events) && !insertable ==>
                r == Fail(EventRejected) && unchanged(this)
      ensures pspKnown && verified && KeyOf(d) !in old(events) && insertable ==>
                && KeyOf(d) in events && events == old(events)[KeyOf(d) := events[KeyOf(d)]]
                && events[KeyOf(d)].status == (if r.Pass? then EventProcessed else EventFailed)
                && var found := events[KeyOf(d)].payment;
                && (found.Some? ==>
                  && found.value in old(payments) && old(payments)[found.value].psp == d.psp
                  && old(payments)[found.value].reference == Some(d.payload.reference))
                && (found.None? ==> forall p :: p in old(payments) ==>
                  old(payments)[p].psp != d.psp || old(payments)[p].reference != Some(d.payload.reference))
                && Dispatched(old(Tables()), d, found, Tables(), r)
    {
      if !pspKnown {
        return Fail(UnknownPsp);
      }
      if !verified {
        return Fail(BadSignature);
      }
      var key := KeyOf(d);
      if key in events {
        return Pass;
      }
      var found: Option<string> := None;
      if p :| p in payments && Matches(payments[p], d) {
        found := Some(p);
      }
      if !insertable {
        return Fail(EventRejected);
      }
      events := events[key := EventRecord(found, EventProcessing)];
      r := ProcessEvent(d, found);
      events := events[key := EventRecord(found, if r.Pass? then EventProcessed else EventFailed)];
    }
  }

  /** The loop of PostLedgerTransaction that adds up the lines in int64 and compares the totals. */
  method ValidateEntries(lines: seq<Line>) returns (r: Outcome<LedgerError>)
    ensures r.Pass? <==> Acceptable(lines)
    ensures r == Fail(TooFewEntries) <==> |lines| < 2
    ensures r == Fail(NegativeAmount) || r == Fail(DebitAndCredit) <==>
              2 <= |lines| && exists i :: 0 <= i < |lines| && !CleanLine(lines[i])
    ensures r.Fail? && r.error.Unbalanced? ==>
              && r.error.debits == Wrap(SumDebit(lines)) && r.error.credits == Wrap(SumCredit(lines))
              && r.error.debits != r.error.credits
    ensures r == Fail(NegativeAmount) ==> exists i :: 0 <= i < |lines| && (lines[i].debit < 0 || lines[i].credit < 0)
    ensures r == Fail(DebitAndCredit) ==> exists i :: 0 <= i < |lines| && lines[i].debit > 0 && lines[i].credit > 0
  {
    if |lines| < 2 {
      return Fail(TooFewEntries);
    }
    var totalDebit, totalCredit := 0, 0;
    var i := 0;
    while i < |lines|
      invariant 0 <= i <= |lines|
      invariant forall k :: 0 <= k < i ==> CleanLine(lines[k])
      invariant totalDebit == Wrap(SumDebit(lines[..i])) && totalCredit == Wrap(SumCredit(lines[..i]))
    {
      if lines[i].debit < 0 || lines[i].credit < 0 {
        return Fail(NegativeAmount);
      }
      if lines[i].debit > 0 && lines[i].credit > 0 {
        return Fail(DebitAndCredit);
      }
      assert lines[..i + 1][..i] == lines[..i];
      WrapAbsorbs(SumDebit(lines[..i]), lines[i].debit);
      WrapAbsorbs(SumCredit(lines[..i]), lines[i].credit);
      totalDebit := Add(totalDebit, lines[i].debit);
      totalCredit := Add(totalCredit, lines[i].credit);
      i := i + 1;
    }
    assert lines[..i] == lines;
    if totalDebit != totalCredit {
      return Fail(Unbalanced(totalDebit, totalCredit));
    }
    r := Pass;
  }

  lemma {:induction false} RefusedStays(accounts: Accounts, lines: seq<Line>, n: nat)
    requires n <= |lines| && PostLines(accounts, lines[..n]).Refused?
    ensures PostLines(accounts, lines) == PostLines(accounts, lines[..n])
    decreases |lines|
  {
    if n == |lines| {
      assert lines[..n] == lines;
    } else {
      assert lines[..|lines| - 1][..n] == lines[..n];
      RefusedStays(accounts, lines[..|lines| - 1], n);
    }
  }

  /** A change that posts lines commits exactly when they can be posted. */
  lemma HookChange(db: Db, tx: Tx, row: Payment, header: Header, lines: seq<Line>)
    requires Target(tx).Some? && tx.payment in db.payments && RefundCheck(row)
    requires Decide(tx, Some(db.payments[tx.payment])) ==
             Change(tx.payment, row, db.payments[tx.payment].status, Some(header), lines)
    ensures Exec(db, tx) ==
            match PostLines(db.accounts, lines)
            case Refused(_) => None
            case Posted(accounts, entries) =>
              Some(Db(db.payments[tx.payment := row],
                      db.log + [Transition(tx.payment, Edge(Some(db.payments[tx.payment].status), row.status))],
                      accounts, db.journal + [LedgerTx(header, entries)]))
  {
    assert db.payments + map[tx.payment := row] == db.payments[tx.payment := row];
  }

  /** A change that posts nothing touches the payment and the log only. */
  lemma PlainChange(db: Db, tx: Tx)
    requires Target(tx).Some? && !tx.HookCapture? && !tx.HookRefund?
    requires tx.payment in db.payments && Decide(tx, Some(db.payments[tx.payment])).Write?
    ensures var w := Decide(tx, Some(db.payments[tx.payment])).writes;
            && tx.payment in w.rows
            && Exec(db, tx) == Some(db.(payments := db.payments[tx.payment := w.rows[tx.payment]],
                                        log := db.log + w.log))
  {
    var w := Decide(tx, Some(db.payments[tx.payment])).writes;
    assert w.lines == [] && w.header == None;
    assert db.journal + [] == db.journal;
    assert db.payments + w.rows == db.payments[tx.payment := w.rows[tx.payment]];
  }
}
