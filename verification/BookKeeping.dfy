/** The ledger over every serial history: reconciliation, conservation, the webhook balances. */
module BookKeeping {
  import opened Int64
  import opened Ledger
  import opened Balances
  import opened LedgerBounds
  import opened Transactions

  /** All rows of ledger_entries in commit order. */
  function Book(journal: seq<LedgerTx>): seq<Entry> {
    if journal == [] then [] else Book(journal[..|journal| - 1]) + journal[|journal| - 1].entries
  }

  /** The accounts of the migration, with the types it gives them. */
  ghost predicate SeedChart(accounts: Accounts) {
    && accounts.Keys == SEED.accounts.Keys
    && forall c :: c in accounts ==> accounts[c].kind == SEED.accounts[c].kind
  }

  function LinesOf(db: Db, tx: Tx): seq<Line>
    requires Exec(db, tx).Some?
  {
    Decide(tx, Read(db, tx)).writes.lines
  }

  /** A committed transaction posts its lines on the accounts and appends their rows to the book. */
  lemma ExecPosts(db: Db, tx: Tx)
    requires Exec(db, tx).Some?
    ensures var after, done := Exec(db, tx).value, PostLines(db.accounts, LinesOf(db, tx));
            && done.Posted?
            && after.accounts == done.accounts
            && Book(after.journal) == Book(db.journal) + done.entries
  {
    var after := Exec(db, tx).value;
    var w := Decide(tx, Read(db, tx)).writes;
    if w.header.None? {
      assert after.journal == db.journal;
      assert w.lines == [];
      assert Book(db.journal) + [] == Book(db.journal);
    } else {
      assert after.journal[..|db.journal|] == db.journal && |after.journal| == |db.journal| + 1;
    }
  }

  /** What a committed transaction posts was validated, or balances by construction. */
  lemma ExecChecked(db: Db, tx: Tx)
    requires Exec(db, tx).Some?
    ensures var lines := LinesOf(db, tx);
            if tx.PostLedger? then Acceptable(lines) else SumDebit(lines) == SumCredit(lines)
  {
    if !tx.PostLedger? {
      LinesAre(db, tx);
      var lines := LinesOf(db, tx);
      if tx.HookCapture? || tx.HookRefund? {
        TwoLineTotals(lines[0], lines[1]);
      }
    }
  }

  lemma LinesAre(db: Db, tx: Tx)
    requires Exec(db, tx).Some? && !tx.PostLedger?
    ensures tx.HookCapture? ==>
              tx.payment in db.payments && LinesOf(db, tx) == CaptureLines(db.payments[tx.payment].amount)
    ensures tx.HookRefund? ==> LinesOf(db, tx) == RefundLines(tx.amount)
    ensures !tx.HookCapture? && !tx.HookRefund? ==> LinesOf(db, tx) == []
  {
  }

  lemma ExecBalances(db: Db, tx: Tx)
    requires Exec(db, tx).Some?
    ensures Congruent(SumDebit(LinesOf(db, tx)), SumCredit(LinesOf(db, tx)))
  {
    ExecChecked(db, tx);
    if tx.PostLedger? {
      ValidationMeaning(LinesOf(db, tx));
    }
  }

  /** In every serial history each running balance is the type-signed prefix sum of its account,
      each current balance the whole sum, and debits match credits in int64 arithmetic. */
  lemma {:induction false} LedgerReconciles(history: seq<Tx>)
    requires Replay(history).Some?
    ensures var db := Replay(history).value;
            && SeedChart(db.accounts)
            && Reconciled(db.accounts, Book(db.journal))
            && Congruent(Imbalance(Book(db.journal)), 0)
    decreases |history|
  {
    if history != [] {
      var db, tx := Replay(history[..|history| - 1]).value, history[|history| - 1];
      LedgerReconciles(history[..|history| - 1]);
      ExecReconciles(db, tx);
    }
  }

  lemma ExecReconciles(db: Db, tx: Tx)
    requires Exec(db, tx).Some?
    requires SeedChart(db.accounts) && Reconciled(db.accounts, Book(db.journal))
    requires Congruent(Imbalance(Book(db.journal)), 0)
    ensures var after := Exec(db, tx).value;
            && SeedChart(after.accounts)
            && Reconciled(after.accounts, Book(after.journal))
            && Congruent(Imbalance(Book(after.journal)), 0)
  {
    ExecPosts(db, tx);
    ExecBalances(db, tx);
    PostingReconciles(db.accounts, Book(db.journal), LinesOf(db, tx));
  }

  lemma PostingReconciles(accounts: Accounts, book: seq<Entry>, lines: seq<Line>)
    requires PostLines(accounts, lines).Posted?
    requires SeedChart(accounts) && Reconciled(accounts, book) && Congruent(Imbalance(book), 0)
    requires Congruent(SumDebit(lines), SumCredit(lines))
    ensures var done := PostLines(accounts, lines);
            && SeedChart(done.accounts)
            && Reconciled(done.accounts, book + done.entries)
            && Congruent(Imbalance(book + done.entries), 0)
  {
    PostingKeepsChart(accounts, lines);
    PostingKeepsReconciled(accounts, book, lines);
    PostingKeepsZero(accounts, book, lines);
  }

  lemma PostingKeepsChart(accounts: Accounts, lines: seq<Line>)
    requires PostLines(accounts, lines).Posted? && SeedChart(accounts)
    ensures SeedChart(PostLines(accounts, lines).accounts)
  {
    PostingShape(accounts, lines);
  }

  lemma PostingKeepsZero(accounts: Accounts, book: seq<Entry>, lines: seq<Line>)
    requires PostLines(accounts, lines).Posted?
    requires Congruent(Imbalance(book), 0) && Congruent(SumDebit(lines), SumCredit(lines))
    ensures Congruent(Imbalance(book + PostLines(accounts, lines).entries), 0)
  {
    PostingImbalance(accounts, lines);
    ImbalanceConcat(book, PostLines(accounts, lines).entries);
    SumStaysZero(Imbalance(book), SumDebit(lines), SumCredit(lines));
  }

  lemma SumStaysZero(total: int, debits: int, credits: int)
    requires Congruent(total, 0) && Congruent(debits, credits)
    ensures Congruent(total + (debits - credits), 0)
  {
  }

  /** The accounting equation: assets plus expenses equal liabilities plus revenue modulo 2^64,
      over any listing of the chart of accounts. */
  lemma AccountingEquation(history: seq<Tx>, codes: seq<string>)
    requires Replay(history).Some?
    requires Distinct(codes) && forall c :: c in codes <==> c in Replay(history).value.accounts
    ensures Congruent(Sheet(Replay(history).value.accounts, codes), 0)
  {
    var db := Replay(history).value;
    LedgerReconciles(history);
    EntriesNameAccounts(db.accounts, Book(db.journal));
    SheetIsSumNet(db.accounts, Book(db.journal), codes);
    SumNetIsImbalance(Book(db.journal), codes);
    CongruentTrans(Sheet(db.accounts, codes), SumNet(Book(db.journal), codes), 0);
  }

  lemma EntriesNameAccounts(accounts: Accounts, book: seq<Entry>)
    requires RunningAgrees(accounts, book)
    ensures forall i :: 0 <= i < |book| ==> book[i].code in accounts
  {
    forall i | 0 <= i < |book|
      ensures book[i].code in accounts
    {
      assert RunningAt(accounts, book, i);
    }
  }

  // ---- Exactness below the caps

  lemma {:induction false} CappedBookBalances(history: seq<Tx>)
    requires Replay(history).Some?
    requires var book := Book(Replay(history).value.journal); CappedBook(book) && |book| <= MAX_ENTRIES
    ensures Imbalance(Book(Replay(history).value.journal)) == 0
    decreases |history|
  {
    if history != [] {
      ExactStep(Replay(history[..|history| - 1]).value, history[|history| - 1]);
      CappedBookBalances(history[..|history| - 1]);
    }
  }

  lemma ExactStep(db: Db, tx: Tx)
    requires Exec(db, tx).Some?
    requires var book := Book(Exec(db, tx).value.journal); CappedBook(book) && |book| <= MAX_ENTRIES
    ensures CappedBook(Book(db.journal)) && |Book(db.journal)| <= MAX_ENTRIES
    ensures Imbalance(Book(Exec(db, tx).value.journal)) == Imbalance(Book(db.journal))
  {
    ExecPosts(db, tx);
    ExecChecked(db, tx);
    ExactPosting(db.accounts, Book(db.journal), LinesOf(db, tx), tx.PostLedger?);
  }

  /** A posting whose rows are all capped is exactly balanced, whichever way it was checked. */
  lemma ExactPosting(accounts: Accounts, book: seq<Entry>, lines: seq<Line>, checked: bool)
    requires PostLines(accounts, lines).Posted?
    requires if checked then Acceptable(lines) else SumDebit(lines) == SumCredit(lines)
    requires var all := book + PostLines(accounts, lines).entries; CappedBook(all) && |all| <= MAX_ENTRIES
    ensures CappedBook(book)
    ensures Imbalance(book + PostLines(accounts, lines).entries) == Imbalance(book)
  {
    var entries := PostLines(accounts, lines).entries;
    assert forall i :: 0 <= i < |book| ==> (book + entries)[i] == book[i];
    PostingShape(accounts, lines);
    PostingImbalance(accounts, lines);
    ImbalanceConcat(book, entries);
    if checked {
      assert forall i :: 0 <= i < |entries| ==> (book + entries)[|book| + i] == entries[i];
      ValidationExact(lines);
    }
  }

  /** Stored and running balances are the exact sums of the book, and the two sides of the sheet agree. */
  ghost predicate ExactSheet(db: Db, codes: seq<string>)
    requires forall c :: c in codes ==> c in db.accounts
  {
    var book := Book(db.journal);
    && (forall c :: c in db.accounts ==> db.accounts[c].balance == Signed(db.accounts[c].kind, Net(book, c)))
    && (forall i :: 0 <= i < |book| ==>
      && book[i].code in db.accounts
      && book[i].running == Signed(db.accounts[book[i].code].kind, Net(book[..i + 1], book[i].code)))
    && Sheet(db.accounts, codes) == 0
  }

  /** With every booked amount at most MAX_AMOUNT and at most MAX_ENTRIES entries nothing has wrapped:
      the stored balances are the exact sums and the two sides of the sheet agree exactly. */
  lemma LedgerIsExact(history: seq<Tx>, codes: seq<string>)
    requires Replay(history).Some?
    requires var book := Book(Replay(history).value.journal); CappedBook(book) && |book| <= MAX_ENTRIES
    requires Distinct(codes) && forall c :: c in codes <==> c in Replay(history).value.accounts
    ensures ExactSheet(Replay(history).value, codes)
  {
    var db := Replay(history).value;
    var book := Book(db.journal);
    LedgerReconciles(history);
    BalancesExact(db.accounts, book);
    EntriesNameAccounts(db.accounts, book);
    forall c | c in codes
      ensures Fits(Net(book, c)) && Fits(-Net(book, c))
    {
      NetBound(book, c);
    }
    SheetIsSumNet(db.accounts, book, codes);
    SumNetIsImbalance(book, codes);
    CappedBookBalances(history);
  }

  // ---- The accounts the webhooks post to

  /** No generic posting was committed. */
  ghost predicate NoPostings(history: seq<Tx>) {
    forall i :: 0 <= i < |history| ==> !history[i].PostLedger?
  }

  /** The total of the captures posted by webhooks. */
  function CaptureTotal(history: seq<Tx>): int
    requires Replay(history).Some?
  {
    if history == [] then 0
    else
      var tx := history[|history| - 1];
      var db := Replay(history[..|history| - 1]).value;
      CaptureTotal(history[..|history| - 1]) +
      if tx.HookCapture? && tx.payment in db.payments then db.payments[tx.payment].amount else 0
  }

  /** The total of the refunds posted by webhooks. */
  function RefundTotal(history: seq<Tx>): int {
    if history == [] then 0
    else
      var tx := history[|history| - 1];
      RefundTotal(history[..|history| - 1]) + if tx.HookRefund? then tx.amount else 0
  }

  lemma NetOfTwo(book: seq<Entry>, accounts: Accounts, debited: string, credited: string, amount: int, code: string)
    requires var done := PostLines(accounts, [Line(debited, amount, 0), Line(credited, 0, amount)]); done.Posted?
    ensures var done := PostLines(accounts, [Line(debited, amount, 0), Line(credited, 0, amount)]);
            Net(book + done.entries, code) == Net(book, code) + Moved(debited, credited, amount, code)
  {
    var lines := [Line(debited, amount, 0), Line(credited, 0, amount)];
    var entries := PostLines(accounts, lines).entries;
    PostingShape(accounts, lines);
    assert book + entries == (book + [entries[0]]) + [entries[1]];
    NetOneMore(book, entries[0], code);
    NetOneMore(book + [entries[0]], entries[1], code);
  }

  /** What one committed transaction, other than a generic posting, adds to an account. */
  lemma ExecNet(db: Db, tx: Tx, code: string)
    requires Exec(db, tx).Some? && !tx.PostLedger?
    ensures tx.HookCapture? ==> tx.payment in db.payments
    ensures Net(Book(Exec(db, tx).value.journal), code) - Net(Book(db.journal), code) ==
            if tx.HookCapture? then Moved(PSP_SETTLEMENT, MERCHANT_PAY, db.payments[tx.payment].amount, code)
            else if tx.HookRefund? then Moved(MERCHANT_PAY, REFUND_EXP, tx.amount, code)
            else 0
  {
    ExecPosts(db, tx);
    LinesAre(db, tx);
    var book, lines := Book(db.journal), LinesOf(db, tx);
    if tx.HookCapture? {
      NetOfTwo(book, db.accounts, PSP_SETTLEMENT, MERCHANT_PAY, db.payments[tx.payment].amount, code);
    } else if tx.HookRefund? {
      NetOfTwo(book, db.accounts, MERCHANT_PAY, REFUND_EXP, tx.amount, code);
    } else {
      assert PostLines(db.accounts, []).entries == [];
      assert book + [] == book;
    }
  }

  function Moved(debited: string, credited: string, amount: int, code: string): int {
    (if code == debited then amount else 0) - if code == credited then amount else 0
  }

  /** Net per account as a function of the two totals. */
  function HookNet(captured: int, refunded: int, code: string): int {
    Moved(PSP_SETTLEMENT, MERCHANT_PAY, captured, code) + Moved(MERCHANT_PAY, REFUND_EXP, refunded, code)
  }

  lemma {:induction false} HookNets(history: seq<Tx>, code: string)
    requires Replay(history).Some?
    requires NoPostings(history)
    ensures Net(Book(Replay(history).value.journal), code) ==
            HookNet(CaptureTotal(history), RefundTotal(history), code)
    decreases |history|
  {
    if history != [] {
      var most, tx := history[..|history| - 1], history[|history| - 1];
      var db := Replay(most).value;
      HookNets(most, code);
      ExecNet(db, tx, code);
      HookNetAdds(CaptureTotal(most), RefundTotal(most), if tx.HookCapture? then db.payments[tx.payment].amount else 0,
                  if tx.HookRefund? then tx.amount else 0, code);
    }
  }

  lemma HookNetAdds(captured: int, refunded: int, capture: int, refund: int, code: string)
    ensures HookNet(captured + capture, refunded + refund, code) ==
            HookNet(captured, refunded, code) + Moved(PSP_SETTLEMENT, MERCHANT_PAY, capture, code)
            + Moved(MERCHANT_PAY, REFUND_EXP, refund, code)
    ensures Moved(PSP_SETTLEMENT, MERCHANT_PAY, 0, code) == Moved(MERCHANT_PAY, REFUND_EXP, 0, code) == 0
  {
  }

  /** PSP_SETTLEMENT holds the captures, MERCHANT_PAY the captures less the refunds, REFUND_EXP
      the refunds with a minus sign, and no other account has moved. */
  ghost predicate WebhookSheet(accounts: Accounts, captured: int, refunded: int) {
    && PSP_SETTLEMENT in accounts && accounts[PSP_SETTLEMENT].balance == Wrap(captured)
    && MERCHANT_PAY in accounts && accounts[MERCHANT_PAY].balance == Wrap(captured - refunded)
    && REFUND_EXP in accounts && accounts[REFUND_EXP].balance == Wrap(-refunded)
    && forall c :: c in accounts && c != PSP_SETTLEMENT && c != MERCHANT_PAY && c != REFUND_EXP ==>
         accounts[c].balance == 0
  }

  /** While only webhooks post, the sheet shows exactly their captures and refunds. */
  lemma WebhookBalances(history: seq<Tx>)
    requires Replay(history).Some?
    requires NoPostings(history)
    ensures WebhookSheet(Replay(history).value.accounts, CaptureTotal(history), RefundTotal(history))
  {
    LedgerReconciles(history);
    forall c
      ensures Net(Book(Replay(history).value.journal), c) ==
              HookNet(CaptureTotal(history), RefundTotal(history), c)
    {
      HookNets(history, c);
    }
    HookAccounts();
    SheetFromNets(Replay(history).value.accounts, Book(Replay(history).value.journal),
                  CaptureTotal(history), RefundTotal(history));
  }

  /** Below the caps the three balances are the exact totals; the refund expense is never positive. */
  lemma WebhookBalancesExact(history: seq<Tx>)
    requires Replay(history).Some?
    requires NoPostings(history)
    requires var book := Book(Replay(history).value.journal); CappedBook(book) && |book| <= MAX_ENTRIES
    ensures var accounts := Replay(history).value.accounts;
            && PSP_SETTLEMENT in accounts && accounts[PSP_SETTLEMENT].balance == CaptureTotal(history)
            && MERCHANT_PAY in accounts
            && accounts[MERCHANT_PAY].balance == CaptureTotal(history) - RefundTotal(history)
            && REFUND_EXP in accounts && accounts[REFUND_EXP].balance == -RefundTotal(history) <= 0
  {
    var db := Replay(history).value;
    LedgerReconciles(history);
    HookAccounts();
    BalancesExact(db.accounts, Book(db.journal));
    HookNets(history, PSP_SETTLEMENT);
    HookNets(history, MERCHANT_PAY);
    HookNets(history, REFUND_EXP);
    HookNetValues(CaptureTotal(history), RefundTotal(history));
    RefundTotalGrows(history);
  }

  lemma {:induction false} RefundTotalGrows(history: seq<Tx>)
    requires Replay(history).Some?
    ensures 0 <= RefundTotal(history)
    decreases |history|
  {
    if history != [] {
      RefundTotalGrows(history[..|history| - 1]);
    }
  }

  lemma SheetFromNets(accounts: Accounts, book: seq<Entry>, captured: int, refunded: int)
    requires PSP_SETTLEMENT in accounts && MERCHANT_PAY in accounts && REFUND_EXP in accounts
    requires accounts[PSP_SETTLEMENT].kind.Asset? && accounts[MERCHANT_PAY].kind.Liability?
    requires accounts[REFUND_EXP].kind.Expense?
    requires BalancesAgree(accounts, book)
    requires forall c :: Net(book, c) == HookNet(captured, refunded, c)
    ensures WebhookSheet(accounts, captured, refunded)
  {
    HookNetValues(captured, refunded);
    WrapAgrees(0, 0);
    assert -(refunded - captured) == captured - refunded;
  }

  lemma HookNetValues(captured: int, refunded: int)
    ensures HookNet(captured, refunded, PSP_SETTLEMENT) == captured
    ensures HookNet(captured, refunded, MERCHANT_PAY) == refunded - captured
    ensures HookNet(captured, refunded, REFUND_EXP) == -refunded
    ensures forall c :: c != PSP_SETTLEMENT && c != MERCHANT_PAY && c != REFUND_EXP ==>
              HookNet(captured, refunded, c) == 0
  {
    HookAccounts();
  }

  lemma HookAccounts()
    ensures PSP_SETTLEMENT in SEED.accounts && SEED.accounts[PSP_SETTLEMENT].kind == Asset
    ensures MERCHANT_PAY in SEED.accounts && SEED.accounts[MERCHANT_PAY].kind == Liability
    ensures REFUND_EXP in SEED.accounts && SEED.accounts[REFUND_EXP].kind == Expense
    ensures PSP_SETTLEMENT != MERCHANT_PAY && MERCHANT_PAY != REFUND_EXP && PSP_SETTLEMENT != REFUND_EXP
  {
    assert |PSP_SETTLEMENT| == 14 && |MERCHANT_PAY| == 12 && |REFUND_EXP| == 10;
  }
}
