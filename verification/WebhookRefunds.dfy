/**
 Refunds reported by the PSP. They neither read nor raise total_refunded: exactly
 when one commits, and exactly when they exceed the amount of the payment.
 */
module WebhookRefunds {
  import opened Options
  import opened PaymentStates
  import opened Ledger
  import opened Balances
  import opened LedgerBounds
  import opened Transactions
  import opened AuditTrail
  import opened BookKeeping
  import opened Refunds

  /** The total of the committed refund webhooks of a payment. */
  function HookRefunded(history: seq<Tx>, payment: string): int {
    if history == [] then 0
    else HookRefunded(history[..|history| - 1], payment) + HookAmount(history[|history| - 1], payment)
  }

  function HookAmount(tx: Tx, payment: string): int {
    if tx.HookRefund? && tx.payment == payment then tx.amount else 0
  }

  lemma HookRefundedOneMore(history: seq<Tx>, tx: Tx, payment: string)
    ensures HookRefunded(history + [tx], payment) == HookRefunded(history, payment) + HookAmount(tx, payment)
  {
    assert (history + [tx])[..|history|] == history;
  }

  predicate Refundable(s: Status) {
    s == Captured || s == PartiallyRefunded
  }

  // ---- When a refund webhook commits

  lemma RefundHookDecides(payment: string, amount: int, row: Payment)
    requires RefundCheck(row)
    ensures Decide(HookRefund(payment, amount), Some(row)) ==
            if 0 < amount && Refundable(row.status)
            then
              var after := row.(status := if amount < row.amount then PartiallyRefunded else Refunded);
              Write(Writes(map[payment := after], [Transition(payment, Edge(Some(row.status), after.status))],
                           Some(Header(Some(payment), "refund")), RefundLines(amount)))
            else Reject
  {
  }

  lemma HookAccountsExist(history: seq<Tx>)
    requires Replay(history).Some?
    ensures MERCHANT_PAY in Replay(history).value.accounts && REFUND_EXP in Replay(history).value.accounts
  {
    LedgerReconciles(history);
    HookAccounts();
  }

  /** After every history a refund webhook commits exactly when its amount is positive and the payment is
      captured or partially refunded, whatever has been refunded before. */
  lemma RefundHookCommitsIff(history: seq<Tx>, payment: string, amount: int)
    requires Replay(history).Some? && payment in Replay(history).value.payments
    ensures Exec(Replay(history).value, HookRefund(payment, amount)).Some? <==>
              0 < amount && Refundable(Replay(history).value.payments[payment].status)
  {
    var db := Replay(history).value;
    ReplayKeepsCap(history);
    HookAccountsExist(history);
    RefundHookDecides(payment, amount, db.payments[payment]);
    if 0 < amount {
      TwoLinesPost(db.accounts, MERCHANT_PAY, REFUND_EXP, amount);
    }
  }

  lemma ExecRefundHook(db: Db, payment: string, amount: int)
    requires Exec(db, HookRefund(payment, amount)).Some? && RefundCheck(db.payments[payment])
    ensures 0 < amount && payment in db.payments
    ensures var row := db.payments[payment];
            Exec(db, HookRefund(payment, amount)).value.payments ==
            db.payments[payment := row.(status := if amount < row.amount then PartiallyRefunded else Refunded)]
  {
    RefundHookDecides(payment, amount, db.payments[payment]);
    ExecTarget(db, HookRefund(payment, amount));
  }

  // ---- When refund webhooks exceed the amount

  /** The next refund webhook commits and takes the payment over its amount exactly when it is positive, the
      payment is refundable, and it is more than the webhooks before have left. */
  lemma OverRefundIff(history: seq<Tx>, payment: string, amount: int)
    requires Replay(history).Some? && payment in Replay(history).value.payments
    ensures var row, longer := Replay(history).value.payments[payment], history + [HookRefund(payment, amount)];
            Replay(longer).Some? && HookRefunded(longer, payment) > row.amount <==>
              && 0 < amount
              && Refundable(row.status)
              && amount > row.amount - HookRefunded(history, payment)
  {
    RefundHookCommitsIff(history, payment, amount);
    ReplayOneMore(history, HookRefund(payment, amount));
    HookRefundedOneMore(history, HookRefund(payment, amount), payment);
  }

  /** Each refund webhook was within what those before it had left of the cap. */
  ghost predicate EachFits(history: seq<Tx>, payment: string, cap: int) {
    forall i :: 0 <= i < |history| && history[i].HookRefund? && history[i].payment == payment ==>
      history[i].amount <= cap - HookRefunded(history[..i], payment)
  }

  lemma EachFitsOneMore(history: seq<Tx>, tx: Tx, payment: string, cap: int)
    ensures EachFits(history + [tx], payment, cap) <==>
              && EachFits(history, payment, cap)
              && (tx.HookRefund? && tx.payment == payment ==> tx.amount <= cap - HookRefunded(history, payment))
  {
    var longer := history + [tx];
    assert longer[|history|] == tx && longer[..|history|] == history;
    assert forall i :: 0 <= i < |history| ==> longer[i] == history[i] && longer[..i] == history[..i];
  }

  lemma FitsStep(most: seq<Tx>, tx: Tx, payment: string, cap: int)
    requires HookRefunded(most, payment) <= cap <==> EachFits(most, payment, cap)
    requires tx.HookRefund? ==> 0 < tx.amount
    ensures HookRefunded(most + [tx], payment) <= cap <==> EachFits(most + [tx], payment, cap)
  {
    EachFitsOneMore(most, tx, payment, cap);
    HookRefundedOneMore(most, tx, payment);
  }

  lemma CommittedIsPositive(db: Db, tx: Tx)
    requires Exec(db, tx).Some? && tx.HookRefund?
    ensures 0 < tx.amount
  {
  }

  /** The refund webhooks of a payment stay within its amount exactly when each was within what was left. */
  lemma {:induction false} WithinAmountIff(history: seq<Tx>, payment: string, cap: int)
    requires Replay(history).Some? && 0 <= cap
    ensures HookRefunded(history, payment) <= cap <==> EachFits(history, payment, cap)
    decreases |history|
  {
    if history != [] {
      var most, tx := history[..|history| - 1], history[|history| - 1];
      WithinAmountIff(most, payment, cap);
      LastOf(history);
      if tx.HookRefund? {
        CommittedIsPositive(Replay(most).value, tx);
      }
      FitsStep(most, tx, payment, cap);
    }
  }

  // ---- What the ledger has of them

  /** The total booked against MERCHANT_PAY by the refund transactions of a payment. */
  function BookedRefunds(journal: seq<LedgerTx>, payment: string): int {
    if journal == [] then 0
    else BookedRefunds(journal[..|journal| - 1], payment) + BookedRefund(journal[|journal| - 1], payment)
  }

  function BookedRefund(t: LedgerTx, payment: string): int {
    if t.header == Header(Some(payment), "refund") then Net(t.entries, MERCHANT_PAY) else 0
  }

  lemma BookedOneMore(journal: seq<LedgerTx>, t: LedgerTx, payment: string)
    ensures BookedRefunds(journal + [t], payment) == BookedRefunds(journal, payment) + BookedRefund(t, payment)
  {
    assert (journal + [t])[..|journal|] == journal;
  }

  lemma RefundEntries(accounts: Accounts, amount: int)
    requires PostLines(accounts, RefundLines(amount)).Posted?
    ensures Net(PostLines(accounts, RefundLines(amount)).entries, MERCHANT_PAY) == amount
  {
    var entries := PostLines(accounts, RefundLines(amount)).entries;
    NetOfTwo([], accounts, MERCHANT_PAY, REFUND_EXP, amount, MERCHANT_PAY);
    HookAccounts();
    assert [] + entries == entries;
  }

  /** What a generic posting books that carries the header of this payment's refunds. */
  function PosedRefund(tx: Tx, payment: string): int {
    if tx.PostLedger? && tx.header == Header(Some(payment), "refund") then NetLines(tx.lines, MERCHANT_PAY) else 0
  }

  function PosedRefunds(history: seq<Tx>, payment: string): int {
    if history == [] then 0
    else PosedRefunds(history[..|history| - 1], payment) + PosedRefund(history[|history| - 1], payment)
  }

  lemma PosedRefundsOneMore(history: seq<Tx>, tx: Tx, payment: string)
    ensures PosedRefunds(history + [tx], payment) == PosedRefunds(history, payment) + PosedRefund(tx, payment)
  {
    assert (history + [tx])[..|history|] == history;
  }

  lemma EntryOf(accounts: Accounts, tx: Tx, read: Option<Payment>, payment: string)
    requires Decide(tx, read).Write? && Decide(tx, read).writes.header.Some?
    requires PostLines(accounts, Decide(tx, read).writes.lines).Posted?
    ensures var w := Decide(tx, read).writes;
            BookedRefund(LedgerTx(w.header.value, PostLines(accounts, w.lines).entries), payment) ==
            HookAmount(tx, payment) + PosedRefund(tx, payment)
  {
    assert |"payment_capture"| == 15 && |"refund"| == 6;
    if tx.HookRefund? {
      RefundEntries(accounts, tx.amount);
    } else if tx.PostLedger? {
      PostingNet(accounts, tx.lines, MERCHANT_PAY);
    }
  }

  lemma ExecBooks(db: Db, tx: Tx, payment: string)
    requires Exec(db, tx).Some?
    ensures BookedRefunds(Exec(db, tx).value.journal, payment) ==
            BookedRefunds(db.journal, payment) + HookAmount(tx, payment) + PosedRefund(tx, payment)
  {
    var w := Decide(tx, Read(db, tx)).writes;
    if w.header.None? {
      assert db.journal + [] == db.journal;
    } else {
      BookedOneMore(db.journal, LedgerTx(w.header.value, PostLines(db.accounts, w.lines).entries), payment);
      EntryOf(db.accounts, tx, Read(db, tx), payment);
    }
  }

  /** Every committed refund webhook is booked in full, also beyond the amount of the payment, besides what
      generic postings with the same header book. */
  lemma {:induction false} RefundsAreBooked(history: seq<Tx>, payment: string)
    requires Replay(history).Some?
    ensures BookedRefunds(Replay(history).value.journal, payment) ==
            HookRefunded(history, payment) + PosedRefunds(history, payment)
    decreases |history|
  {
    if history != [] {
      RefundsAreBooked(history[..|history| - 1], payment);
      ExecBooks(Replay(history[..|history| - 1]).value, history[|history| - 1], payment);
    }
  }

  // ---- Without bound

  /** A partially refunded payment and the size of a further partial refund. */
  ghost predicate Repeatable(history: seq<Tx>, payment: string, amount: int) {
    && Replay(history).Some? && payment in Replay(history).value.payments
    && Replay(history).value.payments[payment].status == PartiallyRefunded
    && 0 < amount < Replay(history).value.payments[payment].amount
  }

  /** The longer history has refunded so much more in so many webhooks, each logged; no row has changed. */
  ghost predicate RefundedMore(history: seq<Tx>, longer: seq<Tx>, payment: string, more: int, count: nat)
    requires Replay(history).Some?
  {
    && Replay(longer).Some? && history <= longer && (AllHandled(history) ==> AllHandled(longer))
    && Replay(longer).value.payments == Replay(history).value.payments
    && |Trail(Replay(longer).value.log, payment)| == |Trail(Replay(history).value.log, payment)| + count
    && HookRefunded(longer, payment) == HookRefunded(history, payment) + more
    && RefundTotal(longer) == RefundTotal(history) + more
  }

  lemma SameRow(rows: map<string, Payment>, payment: string)
    requires payment in rows
    ensures rows[payment := rows[payment]] == rows
  {
  }

  lemma ExecPartial(db: Db, payment: string, amount: int)
    requires Exec(db, HookRefund(payment, amount)).Some? && payment in db.payments && RefundCheck(db.payments[payment])
    requires db.payments[payment].status == PartiallyRefunded && amount < db.payments[payment].amount
    ensures var after := Exec(db, HookRefund(payment, amount)).value;
            after.payments == db.payments && |Trail(after.log, payment)| == |Trail(db.log, payment)| + 1
  {
    ExecTarget(db, HookRefund(payment, amount));
    ExecRefundHook(db, payment, amount);
    assert db.payments[payment].(status := PartiallyRefunded) == db.payments[payment];
    SameRow(db.payments, payment);
  }

  lemma RefundTotalOneMore(history: seq<Tx>, payment: string, amount: int)
    ensures RefundTotal(history + [HookRefund(payment, amount)]) == RefundTotal(history) + amount
  {
    assert (history + [HookRefund(payment, amount)])[..|history|] == history;
  }

  lemma OneMorePartial(history: seq<Tx>, payment: string, amount: int)
    requires Repeatable(history, payment, amount)
    ensures RefundedMore(history, history + [HookRefund(payment, amount)], payment, amount, 1)
  {
    RefundHookCommitsIff(history, payment, amount);
    ReplayKeepsCap(history);
    ReplayOneMore(history, HookRefund(payment, amount));
    ExecPartial(Replay(history).value, payment, amount);
    HookRefundedOneMore(history, HookRefund(payment, amount), payment);
    RefundTotalOneMore(history, payment, amount);
  }

  function Sum(amounts: seq<int>): int {
    if amounts == [] then 0 else Sum(amounts[..|amounts| - 1]) + amounts[|amounts| - 1]
  }

  ghost predicate AllRepeatable(history: seq<Tx>, payment: string, amounts: seq<int>) {
    forall i :: 0 <= i < |amounts| ==> Repeatable(history, payment, amounts[i])
  }

  lemma StaysRepeatable(history: seq<Tx>, longer: seq<Tx>, payment: string, more: int, count: nat, amount: int)
    requires Repeatable(history, payment, amount) && RefundedMore(history, longer, payment, more, count)
    ensures Repeatable(longer, payment, amount)
  {
  }

  lemma MoreAndMore(a: seq<Tx>, b: seq<Tx>, c: seq<Tx>, payment: string, x: int, m: nat, y: int, n: nat)
    requires Replay(a).Some? && RefundedMore(a, b, payment, x, m) && RefundedMore(b, c, payment, y, n)
    ensures RefundedMore(a, c, payment, x + y, m + n)
  {
  }

  /** A partially refunded payment takes any sequence of partial refund webhooks, its row staying as it is. */
  lemma {:induction false} WebhookRefundsRepeat(history: seq<Tx>, payment: string, amounts: seq<int>)
    returns (longer: seq<Tx>)
    requires Replay(history).Some? && AllRepeatable(history, payment, amounts)
    ensures RefundedMore(history, longer, payment, Sum(amounts), |amounts|)
    decreases |amounts|
  {
    longer := history;
    if amounts != [] {
      var most, last := amounts[..|amounts| - 1], amounts[|amounts| - 1];
      var before := WebhookRefundsRepeat(history, payment, most);
      StaysRepeatable(history, before, payment, Sum(most), |most|, last);
      OneMorePartial(before, payment, last);
      longer := before + [HookRefund(payment, last)];
      MoreAndMore(history, before, longer, payment, Sum(most), |most|, last, 1);
    }
  }

  // ---- Two payments

  /** A history with validated amounts, no refund webhook on the payment, and the payment in the given row. */
  ghost predicate Reaches(history: seq<Tx>, payment: string, row: Payment) {
    && Replay(history).Some? && AllHandled(history)
    && HookRefunded(history, payment) == 0 && PosedRefunds(history, payment) == 0
    && payment in Replay(history).value.payments && Replay(history).value.payments[payment] == row
  }

  lemma ReachCreated(payment: string, amount: int, psp: string) returns (history: seq<Tx>)
    requires Validated(amount)
    ensures Reaches(history, payment, Payment(amount, psp, Created, None, 0))
  {
    var first := InsertPayment(payment, amount, psp);
    ReplayOneMore([], first);
    HookRefundedOneMore([], first, payment);
    PosedRefundsOneMore([], first, payment);
    history := [] + [first];
    ExecInsert(SEED, first);
  }

  lemma ReachNext(history: seq<Tx>, tx: Tx, before: Payment, after: Payment) returns (longer: seq<Tx>)
    requires Target(tx).Some? && Reaches(history, tx.payment, before) && Handled(tx)
    requires !tx.HookCapture? && !tx.HookRefund?
    requires var decision := Decide(tx, Some(before));
             decision.Write? && decision.writes.rows == map[tx.payment := after]
    ensures Reaches(longer, tx.payment, after)
  {
    longer := history + [tx];
    OneMoreChange(history, tx);
    HookRefundedOneMore(history, tx, tx.payment);
    PosedRefundsOneMore(history, tx, tx.payment);
  }

  /** A captured payment of 100. */
  lemma CapturedExample() returns (history: seq<Tx>)
    ensures Reaches(history, "p", Payment(100, "mock", Captured, Some("r"), 0))
  {
    var created, authorized := Payment(100, "mock", Created, None, 0), Payment(100, "mock", Authorized, Some("r"), 0);
    history := ReachCreated("p", 100, "mock");
    history := ReachNext(history, Move("p", Created, Authorized, "r"), created, authorized);
    history := ReachNext(history, ApiCapture("p"), authorized, authorized.(status := Captured));
  }

  /** A partially refunded one: of 100, 1 is refunded through the API. */
  lemma PartiallyRefundedExample() returns (history: seq<Tx>)
    ensures Reaches(history, "p", Payment(100, "mock", PartiallyRefunded, Some("r"), 1))
  {
    history := CapturedExample();
    history := ReachNext(history, ApiRefund("p", 1), Payment(100, "mock", Captured, Some("r"), 0),
                         Payment(100, "mock", PartiallyRefunded, Some("r"), 1));
  }

  /** One webhook is enough: a captured payment takes any amount, and the ledger books all of it. */
  lemma OneWebhookRefundsAnything(history: seq<Tx>, payment: string, row: Payment, amount: int)
    requires Reaches(history, payment, row) && row.status == Captured && row.amount <= amount && 0 < amount
    ensures var longer := history + [HookRefund(payment, amount)];
            && Replay(longer).Some?
            && var db := Replay(longer).value;
            && payment in db.payments && db.payments[payment] == row.(status := Refunded)
            && HookRefunded(longer, payment) == amount
            && BookedRefunds(db.journal, payment) == amount
  {
    RefundHookCommitsIff(history, payment, amount);
    ReplayKeepsCap(history);
    ReplayOneMore(history, HookRefund(payment, amount));
    ExecRefundHook(Replay(history).value, payment, amount);
    HookRefundedOneMore(history, HookRefund(payment, amount), payment);
    ExecBooks(Replay(history).value, HookRefund(payment, amount), payment);
    RefundsAreBooked(history, payment);
  }

  // ---- Refunds through the API

  lemma ApiRefundDecides(payment: string, amount: int, row: Payment)
    requires RefundCheck(row) && Refundable(row.status) && row.reference.Some?
    requires 0 < amount <= row.amount - row.totalRefunded
    ensures var total := row.totalRefunded + amount;
            var after := row.(status := if total >= row.amount then Refunded else PartiallyRefunded,
                              totalRefunded := total);
            Decide(ApiRefund(payment, amount), Some(row)) ==
            Write(Writes(map[payment := after], [Transition(payment, Edge(Some(row.status), after.status))], None, []))
  {
  }

  lemma PlainLeavesLedger(db: Db, tx: Tx)
    requires Exec(db, tx).Some? && Decide(tx, Read(db, tx)).writes.header.None?
    requires Decide(tx, Read(db, tx)).writes.lines == []
    ensures Exec(db, tx).value.journal == db.journal && Exec(db, tx).value.accounts == db.accounts
  {
    assert db.journal + [] == db.journal;
  }

  /** A refund through the API is never booked: it commits with the ledger as it was. When it completes the
      refund, the PSP's webhook about it is refused; otherwise the webhook is one more refund. */
  lemma ApiRefundLeavesGap(history: seq<Tx>, payment: string, amount: int, reported: int)
    requires Replay(history).Some? && payment in Replay(history).value.payments
    requires var row := Replay(history).value.payments[payment];
             Refundable(row.status) && row.reference.Some? && 0 < amount <= row.amount - row.totalRefunded
    ensures var db, longer := Replay(history).value, history + [ApiRefund(payment, amount)];
            && Replay(longer).Some?
            && var after := Replay(longer).value;
            && after.journal == db.journal && after.accounts == db.accounts
            && (Exec(after, HookRefund(payment, reported)).Some? <==>
                0 < reported && db.payments[payment].totalRefunded + amount < db.payments[payment].amount)
  {
    var db, tx := Replay(history).value, ApiRefund(payment, amount);
    ReplayKeepsCap(history);
    ApiRefundDecides(payment, amount, db.payments[payment]);
    OneMoreChange(history, tx);
    ReplayOneMore(history, tx);
    PlainLeavesLedger(db, tx);
    RefundHookCommitsIff(history + [tx], payment, reported);
  }
}
