/**
 The handlers cap the amounts of payments and API refunds. With the same cap on
 the amounts that reach the ledger past them, no stored balance ever wraps.
 */
module CappedRequests {
  import opened Options
  import opened Ledger
  import opened Balances
  import opened LedgerBounds
  import opened Transactions
  import opened AuditTrail
  import opened BookKeeping
  import opened Refunds

  /** What the code does not check itself: refunds reported by a PSP, and generic postings. */
  ghost predicate CappedTx(tx: Tx) {
    && (tx.HookRefund? ==> tx.amount <= MAX_AMOUNT)
    && (tx.PostLedger? ==> CappedLines(tx.lines))
  }

  ghost predicate AllCapped(history: seq<Tx>) {
    forall i :: 0 <= i < |history| ==> CappedTx(history[i])
  }

  lemma CappedPrefix(history: seq<Tx>)
    requires AllCapped(history) && history != []
    ensures AllCapped(history[..|history| - 1]) && CappedTx(history[|history| - 1])
  {
  }

  ghost predicate CappedPayments(payments: map<string, Payment>) {
    forall p :: p in payments ==> Validated(payments[p].amount)
  }

  lemma ExecKeepsPayments(db: Db, tx: Tx)
    requires Exec(db, tx).Some? && Handled(tx) && CappedPayments(db.payments)
    ensures CappedPayments(Exec(db, tx).value.payments)
  {
    forall p | p in Exec(db, tx).value.payments
      ensures Validated(Exec(db, tx).value.payments[p].amount)
    {
      if Target(tx) == Some(p) {
        ExecTarget(db, tx);
        WritersFollowTable(tx, db.payments[p]);
      } else if tx.InsertPayment? && tx.payment == p {
        ExecInsert(db, tx);
      } else {
        ExecElsewhere(db, tx, p);
      }
    }
  }

  ghost predicate NoLineAbove(lines: seq<Line>) {
    forall i :: 0 <= i < |lines| ==> lines[i].debit <= MAX_AMOUNT && lines[i].credit <= MAX_AMOUNT
  }

  lemma PostedIsCapped(accounts: Accounts, lines: seq<Line>)
    requires PostLines(accounts, lines).Posted? && NoLineAbove(lines)
    ensures CappedBook(PostLines(accounts, lines).entries)
  {
    PostingShape(accounts, lines);
  }

  lemma LinesAreCapped(db: Db, tx: Tx)
    requires Exec(db, tx).Some? && CappedTx(tx) && CappedPayments(db.payments)
    ensures NoLineAbove(LinesOf(db, tx))
  {
    if !tx.PostLedger? {
      LinesAre(db, tx);
    }
  }

  lemma BookGrowsCapped(book: seq<Entry>, entries: seq<Entry>)
    requires CappedBook(book) && CappedBook(entries)
    ensures CappedBook(book + entries)
  {
  }

  lemma ExecKeepsBook(db: Db, tx: Tx)
    requires Exec(db, tx).Some? && CappedTx(tx) && CappedPayments(db.payments) && CappedBook(Book(db.journal))
    ensures CappedBook(Book(Exec(db, tx).value.journal))
  {
    LinesAreCapped(db, tx);
    ExecPosts(db, tx);
    PostedIsCapped(db.accounts, LinesOf(db, tx));
    BookGrowsCapped(Book(db.journal), PostLines(db.accounts, LinesOf(db, tx)).entries);
  }

  /** The amounts of all payments of a history with validated amounts are validated. */
  lemma {:induction false} PaymentsAreValidated(history: seq<Tx>)
    requires Replay(history).Some? && AllHandled(history)
    ensures CappedPayments(Replay(history).value.payments)
    decreases |history|
  {
    if history != [] {
      HandledPrefix(history);
      PaymentsAreValidated(history[..|history| - 1]);
      ExecKeepsPayments(Replay(history[..|history| - 1]).value, history[|history| - 1]);
    }
  }

  /** Capped requests leave capped payments and a capped book, in every serial history. */
  lemma {:induction false} BookIsCapped(history: seq<Tx>)
    requires Replay(history).Some? && AllHandled(history) && AllCapped(history)
    ensures CappedPayments(Replay(history).value.payments)
    ensures CappedBook(Book(Replay(history).value.journal))
    decreases |history|
  {
    if history != [] {
      var most, tx := history[..|history| - 1], history[|history| - 1];
      HandledPrefix(history);
      CappedPrefix(history);
      BookIsCapped(most);
      ExecKeepsPayments(Replay(most).value, tx);
      ExecKeepsBook(Replay(most).value, tx);
    }
  }

  /** With every request capped and at most MAX_ENTRIES entries nothing has wrapped: stored and running
      balances are the exact sums, and the two sides of the sheet agree exactly. */
  lemma CappedLedgerIsExact(history: seq<Tx>, codes: seq<string>)
    requires Replay(history).Some? && AllHandled(history) && AllCapped(history)
    requires |Book(Replay(history).value.journal)| <= MAX_ENTRIES
    requires Distinct(codes) && forall c :: c in codes <==> c in Replay(history).value.accounts
    ensures ExactSheet(Replay(history).value, codes)
  {
    BookIsCapped(history);
    LedgerIsExact(history, codes);
  }
}
