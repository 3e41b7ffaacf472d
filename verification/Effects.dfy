/**
 Exactly when each of the database transactions commits after a history, and what it leaves: the rows, the log
 and the ledger, spelled out.
 */
module Effects {
  import opened Options
  import opened Int64
  import opened PaymentStates
  import opened Ledger
  import opened Balances
  import opened LedgerBounds
  import opened Transactions
  import opened AuditTrail
  import opened BookKeeping
  import opened WebhookRefunds

  /** The payment changes to the given row and its log says so; no other payment and no other log changes. */
  ghost predicate Changes(db: Db, after: Db, payment: string, row: Payment) {
    && payment in db.payments
    && after.payments == db.payments[payment := row]
    && after.log == db.log + [Transition(payment, Edge(Some(db.payments[payment].status), row.status))]
  }

  ghost predicate LedgerKept(db: Db, after: Db) {
    after.accounts == db.accounts && after.journal == db.journal
  }

  /** The transaction commits exactly when it may, and then this row is all it changes. */
  ghost predicate PlainIff(db: Db, tx: Tx, payment: string, may: bool, row: Payment) {
    && (Exec(db, tx).Some? <==> may)
    && (may ==> Changes(db, Exec(db, tx).value, payment, row) && LedgerKept(db, Exec(db, tx).value))
  }

  /** One ledger transaction more, with a debit and a credit of the amount. */
  ghost predicate Books(db: Db, after: Db, header: Header, debited: string, credited: string, amount: int) {
    && |after.journal| == |db.journal| + 1 && after.journal[..|db.journal|] == db.journal
    && var t := after.journal[|db.journal|];
    && t.header == header && |t.entries| == 2
    && t.entries[0].code == debited && t.entries[0].debit == amount && t.entries[0].credit == 0
    && t.entries[1].code == credited && t.entries[1].debit == 0 && t.entries[1].credit == amount
  }

  // ---- Postings

  /** A posting goes through exactly when every line names an account and is a debit or a credit, not both. */
  lemma {:induction false} PostsIff(accounts: Accounts, lines: seq<Line>)
    ensures PostLines(accounts, lines).Posted? <==>
              forall i :: 0 <= i < |lines| ==>
                && lines[i].code in accounts
                && ((lines[i].debit > 0 && lines[i].credit == 0) || (lines[i].credit > 0 && lines[i].debit == 0))
    decreases |lines|
  {
    if lines != [] {
      var most, last := lines[..|lines| - 1], lines[|lines| - 1];
      PostsIff(accounts, most);
      assert forall i :: 0 <= i < |most| ==> most[i] == lines[i];
      if PostLines(accounts, most).Posted? {
        PostingShape(accounts, most);
      }
    }
  }

  lemma PairPostsIff(accounts: Accounts, debited: string, credited: string, amount: int)
    requires debited in accounts && credited in accounts
    ensures PostLines(accounts, [Line(debited, amount, 0), Line(credited, 0, amount)]).Posted? <==> 0 < amount
  {
    var lines := [Line(debited, amount, 0), Line(credited, 0, amount)];
    PostsIff(accounts, lines);
    assert lines[0] == Line(debited, amount, 0) && lines[1] == Line(credited, 0, amount);
  }

  lemma PairBooks(db: Db, after: Db, header: Header, debited: string, credited: string, amount: int)
    requires var done := PostLines(db.accounts, [Line(debited, amount, 0), Line(credited, 0, amount)]);
             done.Posted? && after.journal == db.journal + [LedgerTx(header, done.entries)]
    ensures Books(db, after, header, debited, credited, amount)
  {
    var lines := [Line(debited, amount, 0), Line(credited, 0, amount)];
    PostingShape(db.accounts, lines);
    assert lines[0] == Line(debited, amount, 0) && lines[1] == Line(credited, 0, amount);
  }

  /** A generic posting commits exactly when it has at least two lines, none negative or on both sides, its totals
      agree as int64, its payment exists if it names one, and every line can be posted; it changes no payment. */
  lemma PostLedgerCommitsIff(db: Db, header: Header, lines: seq<Line>)
    ensures Exec(db, PostLedger(header, lines)).Some? <==>
              && 2 <= |lines|
              && (forall i :: 0 <= i < |lines| ==>
                && lines[i].code in db.accounts
                && ((lines[i].debit > 0 && lines[i].credit == 0) || (lines[i].credit > 0 && lines[i].debit == 0)))
              && (SumDebit(lines) - SumCredit(lines)) % 0x1_0000_0000_0000_0000 == 0
              && (header.payment.Some? ==> header.payment.value in db.payments)
    ensures Exec(db, PostLedger(header, lines)).Some? ==>
              var after := Exec(db, PostLedger(header, lines)).value;
              && after.payments == db.payments && after.log == db.log
              && |after.journal| == |db.journal| + 1 && after.journal[..|db.journal|] == db.journal
              && after.journal[|db.journal|].header == header
  {
    PostsIff(db.accounts, lines);
    ValidationMeaning(lines);
    assert db.payments + map[] == db.payments && db.log + [] == db.log;
  }

  // ---- The shape of a commit

  lemma PlainCommits(db: Db, tx: Tx, row: Payment)
    requires Target(tx).Some? && tx.payment in db.payments
    requires Decide(tx, Some(db.payments[tx.payment])) ==
             Write(Writes(map[tx.payment := row],
                          [Transition(tx.payment, Edge(Some(db.payments[tx.payment].status), row.status))], None, []))
    ensures Exec(db, tx).Some? && Changes(db, Exec(db, tx).value, tx.payment, row)
    ensures LedgerKept(db, Exec(db, tx).value)
  {
    assert db.payments + map[tx.payment := row] == db.payments[tx.payment := row];
    assert db.journal + [] == db.journal;
  }

  lemma PairCommits(db: Db, tx: Tx, row: Payment, header: Header, debited: string, credited: string, amount: int)
    requires Target(tx).Some? && tx.payment in db.payments && debited in db.accounts && credited in db.accounts
    requires Decide(tx, Some(db.payments[tx.payment])) ==
             Write(Writes(map[tx.payment := row],
                          [Transition(tx.payment, Edge(Some(db.payments[tx.payment].status), row.status))],
                          Some(header), [Line(debited, amount, 0), Line(credited, 0, amount)]))
    ensures Exec(db, tx).Some? <==> 0 < amount
    ensures 0 < amount ==>
              && Changes(db, Exec(db, tx).value, tx.payment, row)
              && Books(db, Exec(db, tx).value, header, debited, credited, amount)
  {
    PairPostsIff(db.accounts, debited, credited, amount);
    if 0 < amount {
      PairBooks(db, Exec(db, tx).value, header, debited, credited, amount);
      assert db.payments + map[tx.payment := row] == db.payments[tx.payment := row];
    }
  }

  // ---- The transactions of internal/service/payment.go

  /** A payment is inserted exactly under a new id and with an amount that is not negative. */
  lemma InsertCommitsIff(db: Db, payment: string, amount: int, psp: string)
    ensures Exec(db, InsertPayment(payment, amount, psp)).Some? <==> payment !in db.payments && 0 <= amount
    ensures Exec(db, InsertPayment(payment, amount, psp)).Some? ==>
              var after := Exec(db, InsertPayment(payment, amount, psp)).value;
              && after.payments == db.payments[payment := Payment(amount, psp, Created, None, 0)]
              && after.log == db.log + [Transition(payment, Edge(None, Created))]
              && LedgerKept(db, after)
  {
    var row := Payment(amount, psp, Created, None, 0);
    assert db.payments + map[payment := row] == db.payments[payment := row];
    assert db.journal + [] == db.journal;
  }

  /** The closing update of CreatePayment and the update of CancelPayment commit exactly when the payment still has
      the status they expect; a reference that is not empty replaces the one before. */
  lemma MoveCommitsIff(history: seq<Tx>, payment: string, from: Status, to: Status, reference: string)
    requires Replay(history).Some? && payment in Replay(history).value.payments
    requires || (from == Created && (to == Authorized || to == Failed))
             || (from == Authorized && to == Cancelled)
    ensures var db, tx := Replay(history).value, Move(payment, from, to, reference);
            var row := db.payments[payment];
            PlainIff(db, tx, payment, row.status == from,
                     Payment(row.amount, row.psp, to, if reference == "" then row.reference else Some(reference),
                             row.totalRefunded))
  {
    var db, tx := Replay(history).value, Move(payment, from, to, reference);
    var row := db.payments[payment];
    ReplayKeepsCap(history);
    LegalChanges(from, to);
    if row.status == from {
      PlainCommits(db, tx, row.(status := to, reference := if reference == "" then row.reference else Some(reference)));
    }
  }

  /** A capture through the API commits exactly for an authorized payment with a PSP reference. */
  lemma ApiCaptureCommitsIff(history: seq<Tx>, payment: string)
    requires Replay(history).Some? && payment in Replay(history).value.payments
    ensures var db, tx := Replay(history).value, ApiCapture(payment);
            var row := db.payments[payment];
            PlainIff(db, tx, payment, row.status == Authorized && row.reference.Some?,
                     Payment(row.amount, row.psp, Captured, row.reference, row.totalRefunded))
  {
    var db, tx := Replay(history).value, ApiCapture(payment);
    var row := db.payments[payment];
    ReplayKeepsCap(history);
    if row.status == Authorized && row.reference.Some? {
      PlainCommits(db, tx, row.(status := Captured));
    }
  }

  lemma ApiRefundRow(payment: string, amount: int, row: Payment)
    requires RefundCheck(row)
    ensures var total := row.totalRefunded + amount;
            var after := Payment(row.amount, row.psp, if total == row.amount then Refunded else PartiallyRefunded,
                                 row.reference, total);
            var passes := (row.status == Captured || row.status == PartiallyRefunded) && row.reference.Some?
                          && 0 <= total <= row.amount;
            Decide(ApiRefund(payment, amount), Some(row)) ==
            if passes
            then Write(Writes(map[payment := after], [Transition(payment, Edge(Some(row.status), after.status))],
                              None, []))
            else Reject
  {
  }

  lemma RejectedIsRefused(db: Db, tx: Tx)
    requires !Decide(tx, Read(db, tx)).Write?
    ensures Exec(db, tx).None?
  {
  }

  /** A refund through the API may commit for a captured or partially refunded payment with a PSP reference while
      the total stays between 0 and the amount; the payment is refunded when nothing remains. */
  ghost predicate ApiRefundIff(db: Db, payment: string, amount: int)
    requires payment in db.payments
  {
    var row := db.payments[payment];
    var total := row.totalRefunded + amount;
    PlainIff(db, ApiRefund(payment, amount), payment,
             (row.status == Captured || row.status == PartiallyRefunded) && row.reference.Some?
             && 0 <= total <= row.amount,
             Payment(row.amount, row.psp, if total == row.amount then Refunded else PartiallyRefunded,
                     row.reference, total))
  }

  lemma ApiRefundCommits(db: Db, payment: string, amount: int)
    requires payment in db.payments && RefundCheck(db.payments[payment])
    ensures ApiRefundIff(db, payment, amount)
  {
    var row, tx := db.payments[payment], ApiRefund(payment, amount);
    var total := row.totalRefunded + amount;
    ApiRefundRow(payment, amount, row);
    if Decide(tx, Some(row)).Write? {
      PlainCommits(db, tx, Payment(row.amount, row.psp, if total == row.amount then Refunded else PartiallyRefunded,
                                   row.reference, total));
    } else {
      RejectedIsRefused(db, tx);
    }
  }

  lemma ApiRefundCommitsIff(history: seq<Tx>, payment: string, amount: int)
    requires Replay(history).Some? && payment in Replay(history).value.payments
    ensures ApiRefundIff(Replay(history).value, payment, amount)
  {
    ReplayKeepsCap(history);
    ApiRefundCommits(Replay(history).value, payment, amount);
  }

  // ---- The transactions of internal/service/webhook.go

  /** A failure webhook commits exactly for a created, pending or authorized payment and has nothing to do exactly
      for one that has ended. */
  lemma FailureHookCommitsIff(history: seq<Tx>, payment: string)
    requires Replay(history).Some? && payment in Replay(history).value.payments
    ensures var db, tx := Replay(history).value, HookFailure(payment);
            var row := db.payments[payment];
            && PlainIff(db, tx, payment, row.status == Created || row.status == Pending || row.status == Authorized,
                        Payment(row.amount, row.psp, Failed, row.reference, row.totalRefunded))
            && (Decide(tx, Read(db, tx)) == NoOp <==>
                row.status == Failed || row.status == Cancelled || row.status == Refunded)
  {
    var db, tx := Replay(history).value, HookFailure(payment);
    var row := db.payments[payment];
    ReplayKeepsCap(history);
    LegalChanges(row.status, Failed);
    if row.status == Created || row.status == Pending || row.status == Authorized {
      PlainCommits(db, tx, row.(status := Failed));
    }
  }

  lemma HookAccountsPresent(history: seq<Tx>)
    requires Replay(history).Some?
    ensures "PSP_SETTLEMENT" in Replay(history).value.accounts
    ensures "MERCHANT_PAY" in Replay(history).value.accounts && "REFUND_EXP" in Replay(history).value.accounts
  {
    LedgerReconciles(history);
    HookAccounts();
  }

  /** A capture webhook commits exactly for a pending or authorized payment of a positive amount, which it books, and
      has nothing to do exactly for a captured one. */
  lemma CaptureHookCommitsIff(history: seq<Tx>, payment: string)
    requires Replay(history).Some? && payment in Replay(history).value.payments
    ensures var db, tx := Replay(history).value, HookCapture(payment);
            var row := db.payments[payment];
            && (Exec(db, tx).Some? <==> (row.status == Pending || row.status == Authorized) && 0 < row.amount)
            && (Exec(db, tx).Some? ==>
              && Changes(db, Exec(db, tx).value, payment,
                         Payment(row.amount, row.psp, Captured, row.reference, row.totalRefunded))
              && Books(db, Exec(db, tx).value, Header(Some(payment), "payment_capture"),
                       "PSP_SETTLEMENT", "MERCHANT_PAY", row.amount))
            && (Decide(tx, Read(db, tx)) == NoOp <==> row.status == Captured)
  {
    var db, tx := Replay(history).value, HookCapture(payment);
    var row := db.payments[payment];
    ReplayKeepsCap(history);
    HookAccountsPresent(history);
    LegalChanges(row.status, Captured);
    if row.status == Pending || row.status == Authorized {
      PairCommits(db, tx, row.(status := Captured), Header(Some(payment), "payment_capture"),
                  "PSP_SETTLEMENT", "MERCHANT_PAY", row.amount);
    }
  }

  /** A refund webhook that commits makes the payment partially refunded when it is smaller than the amount, refunded
      otherwise, leaves total_refunded and books its own amount; it always has something to do. */
  lemma RefundHookLeaves(history: seq<Tx>, payment: string, amount: int)
    requires Replay(history).Some? && payment in Replay(history).value.payments
    ensures var db, tx := Replay(history).value, HookRefund(payment, amount);
            var row := db.payments[payment];
            && (Exec(db, tx).Some? <==> 0 < amount && (row.status == Captured || row.status == PartiallyRefunded))
            && (Exec(db, tx).Some? ==>
              && Changes(db, Exec(db, tx).value, payment,
                         Payment(row.amount, row.psp, if amount < row.amount then PartiallyRefunded else Refunded,
                                 row.reference, row.totalRefunded))
              && Books(db, Exec(db, tx).value, Header(Some(payment), "refund"), "MERCHANT_PAY", "REFUND_EXP", amount))
            && Decide(tx, Read(db, tx)) != NoOp
  {
    var db, tx := Replay(history).value, HookRefund(payment, amount);
    var row := db.payments[payment];
    ReplayKeepsCap(history);
    HookAccountsPresent(history);
    RefundHookDecides(payment, amount, row);
    if 0 < amount && (row.status == Captured || row.status == PartiallyRefunded) {
      PairCommits(db, tx, row.(status := if amount < row.amount then PartiallyRefunded else Refunded),
                  Header(Some(payment), "refund"), "MERCHANT_PAY", "REFUND_EXP", amount);
    }
  }

  // ---- Absent payments

  /** Nothing but an insert or a posting without a payment ever commits for a payment that does not exist. */
  lemma AbsentIsRefused(db: Db, tx: Tx)
    requires Target(tx).Some? && tx.payment !in db.payments
    ensures Exec(db, tx).None? && Decide(tx, Read(db, tx)) != NoOp
  {
  }

  // ---- What a balance means

  /** Assets and expenses grow with debits, liabilities and revenue with credits. */
  ghost predicate BalanceIs(account: Account, debits: int, credits: int) {
    match account.kind
    case Asset => account.balance == Wrap(debits - credits)
    case Expense => account.balance == Wrap(debits - credits)
    case Liability => account.balance == Wrap(credits - debits)
    case Revenue => account.balance == Wrap(credits - debits)
  }

  function DebitsOf(book: seq<Entry>, code: string): int {
    if book == [] then 0
    else
      var e := book[|book| - 1];
      DebitsOf(book[..|book| - 1], code) + if e.code == code then e.debit else 0
  }

  function CreditsOf(book: seq<Entry>, code: string): int {
    if book == [] then 0
    else
      var e := book[|book| - 1];
      CreditsOf(book[..|book| - 1], code) + if e.code == code then e.credit else 0
  }

  lemma {:induction false} NetIsDifference(book: seq<Entry>, code: string)
    ensures Net(book, code) == DebitsOf(book, code) - CreditsOf(book, code)
    decreases |book|
  {
    if book != [] {
      NetIsDifference(book[..|book| - 1], code);
    }
  }

  lemma ReconciledBalance(accounts: Accounts, book: seq<Entry>, code: string)
    requires Reconciled(accounts, book) && code in accounts
    ensures BalanceIs(accounts[code], DebitsOf(book, code), CreditsOf(book, code))
  {
    NetIsDifference(book, code);
    var net := DebitsOf(book, code) - CreditsOf(book, code);
    assert -net == CreditsOf(book, code) - DebitsOf(book, code);
    assert accounts[code].balance == Wrap(Signed(accounts[code].kind, net));
  }

  /** After every history the balance of an asset or expense account is its debits less its credits, that of a
      liability or revenue account its credits less its debits, as int64. */
  lemma BalanceByKind(history: seq<Tx>, code: string)
    requires Replay(history).Some? && code in Replay(history).value.accounts
    ensures var db := Replay(history).value;
            BalanceIs(db.accounts[code], DebitsOf(Book(db.journal), code), CreditsOf(Book(db.journal), code))
  {
    LedgerReconciles(history);
    var db := Replay(history).value;
    ReconciledBalance(db.accounts, Book(db.journal), code);
  }

  lemma ChartByKind(accounts: Accounts, code: string)
    requires SeedChart(accounts)
    ensures code in accounts <==>
              code in {"MERCHANT_RECV", "PSP_SETTLEMENT", "CUSTOMER_DEP", "MERCHANT_PAY", "FEE_PAYABLE",
                       "PLATFORM_FEE", "PROCESSING_FEE", "PSP_FEE_EXP", "REFUND_EXP"}
    ensures code in accounts ==>
              && (accounts[code].kind == Asset <==> code in {"MERCHANT_RECV", "PSP_SETTLEMENT"})
              && (accounts[code].kind == Liability <==> code in {"CUSTOMER_DEP", "MERCHANT_PAY", "FEE_PAYABLE"})
              && (accounts[code].kind == Revenue <==> code in {"PLATFORM_FEE", "PROCESSING_FEE"})
              && (accounts[code].kind == Expense <==> code in {"PSP_FEE_EXP", "REFUND_EXP"})
  {
  }

  /** The chart of accounts never changes: these nine, of these types. */
  lemma ChartOfAccounts(history: seq<Tx>, code: string)
    requires Replay(history).Some?
    ensures var accounts := Replay(history).value.accounts;
            && (code in accounts <==>
                code in {"MERCHANT_RECV", "PSP_SETTLEMENT", "CUSTOMER_DEP", "MERCHANT_PAY", "FEE_PAYABLE",
                         "PLATFORM_FEE", "PROCESSING_FEE", "PSP_FEE_EXP", "REFUND_EXP"})
            && (code in accounts ==>
              && (accounts[code].kind == Asset <==> code in {"MERCHANT_RECV", "PSP_SETTLEMENT"})
              && (accounts[code].kind == Liability <==> code in {"CUSTOMER_DEP", "MERCHANT_PAY", "FEE_PAYABLE"})
              && (accounts[code].kind == Revenue <==> code in {"PLATFORM_FEE", "PROCESSING_FEE"})
              && (accounts[code].kind == Expense <==> code in {"PSP_FEE_EXP", "REFUND_EXP"}))
  {
    LedgerReconciles(history);
    ChartByKind(Replay(history).value.accounts, code);
  }
}
