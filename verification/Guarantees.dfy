/** What the serial results mean for the running service. */
module Guarantees {
  import opened Options
  import opened Int64
  import opened PaymentStates
  import opened Balances
  import opened LedgerBounds
  import opened Transactions
  import opened AuditTrail
  import opened Refunds
  import opened CaptureLedger
  import opened WebhookRefunds
  import opened RepeatedHooks
  import opened CappedRequests
  import opened BookKeeping
  import opened Sessions
  import opened Isolation
  import opened Serialisability

  lemma SessionsAreHandled(w: World, sid: Sid)
    requires FlowsOk(w.sessions, w.issued) && sid in w.sessions && w.sessions[sid].pc.InTx?
    ensures Handled(w.sessions[sid].pc.tx)
  {
    assert PcFits(w.sessions[sid]);
  }

  /** A step either leaves the history alone or appends the transaction of one session. */
  lemma StepExtendsHistory(w: World, step: Step)
    requires Next(w, step).Some?
    ensures var after := Next(w, step).value;
            || after.history == w.history
            || (&& step.sid in w.sessions && w.sessions[step.sid].pc.InTx?
                && |after.history| == |w.history| + 1 && after.history[..|w.history|] == w.history
                && after.history[|w.history|].tx == w.sessions[step.sid].pc.tx)
  {
    if !step.Start? && !step.Vanish? && !w.sessions[step.sid].pc.InTx? {
      IdleMovesOne(w, step);
    }
  }

  /** Only transactions with validated amounts and the callers' status changes are ever committed. */
  lemma {:induction false} HistoryIsHandled(steps: seq<Step>)
    requires Run(steps).Some?
    ensures AllHandled(Txs(Run(steps).value.history))
    decreases |steps|
  {
    if steps != [] {
      var w, step := Run(steps[..|steps| - 1]).value, steps[|steps| - 1];
      HistoryIsHandled(steps[..|steps| - 1]);
      RunIsSound(steps[..|steps| - 1]);
      StepExtendsHistory(w, step);
      AppendHandled(w, step);
    }
  }

  lemma AppendHandled(w: World, step: Step)
    requires FlowsOk(w.sessions, w.issued) && AllHandled(Txs(w.history)) && Next(w, step).Some?
    ensures AllHandled(Txs(Next(w, step).value.history))
  {
    var after := Next(w, step).value;
    StepExtendsHistory(w, step);
    if after.history != w.history {
      SessionsAreHandled(w, step.sid);
      forall i | 0 <= i < |after.history|
        ensures Handled(after.history[i].tx)
      {
        if i < |w.history| {
          assert after.history[i] == after.history[..|w.history|][i];
          assert Handled(Txs(w.history)[i]);
        }
      }
    }
  }

  /** Every payment that is inserted and every refund that is committed through the API has an amount from 1 to
      999,999,999,999. */
  lemma AmountsAreValidated(steps: seq<Step>, i: nat)
    requires Run(steps).Some? && i < |Run(steps).value.history|
    ensures var tx := Run(steps).value.history[i].tx;
            tx.InsertPayment? || tx.ApiRefund? ==> 1 <= tx.amount <= 999_999_999_999
  {
    HistoryIsHandled(steps);
    assert Handled(Txs(Run(steps).value.history)[i]);
  }

  /** In every reachable state of the concurrent service each payment's audit trail is a chain of legal
      changes ending in its status, and its refund fields add up. */
  lemma PaymentsAreSound(steps: seq<Step>, payment: string)
    requires Run(steps).Some?
    ensures var w := Run(steps).value;
            && TrailOk(w.db, payment)
            && RefundsOk(Txs(w.history), w.db, payment)
  {
    EveryRunIsSerial(steps);
    HistoryIsHandled(steps);
    EveryTrailIsLegal(Txs(Run(steps).value.history), payment);
    RefundsStayWithinAmount(Txs(Run(steps).value.history), payment);
  }

  /** In every reachable state the ledger reconciles and its two sides agree, over any listing of the accounts. */
  lemma LedgerIsSound(steps: seq<Step>, codes: seq<string>)
    requires Run(steps).Some?
    requires Distinct(codes) && forall c :: c in codes <==> c in Run(steps).value.db.accounts
    ensures var db := Run(steps).value.db;
            && Reconciled(db.accounts, Book(db.journal))
            && Congruent(Sheet(db.accounts, codes), 0)
  {
    EveryRunIsSerial(steps);
    LedgerReconciles(Txs(Run(steps).value.history));
    AccountingEquation(Txs(Run(steps).value.history), codes);
  }

  lemma {:induction false} NonePosed(history: seq<Tx>, payment: string)
    requires NoPostings(history)
    ensures Posed(history, payment) == 0
    decreases |history|
  {
    if history != [] {
      NonePosed(history[..|history| - 1], payment);
    }
  }

  /** While no generic posting commits, the ledger shows exactly the webhooks' captures and refunds,
      and at most one capture per payment. */
  lemma WebhookLedgerIsSound(steps: seq<Step>, payment: string)
    requires Run(steps).Some?
    requires NoPostings(Txs(Run(steps).value.history))
    ensures var w := Run(steps).value;
            && Replay(Txs(w.history)) == Some(w.db)
            && WebhookSheet(w.db.accounts, CaptureTotal(Txs(w.history)), RefundTotal(Txs(w.history)))
            && Captures(w.db.journal, payment) <= 1
  {
    EveryRunIsSerial(steps);
    WebhookBalances(Txs(Run(steps).value.history));
    CapturedInLedgerOnce(Txs(Run(steps).value.history), payment);
    NonePosed(Txs(Run(steps).value.history), payment);
  }

  /** Besides generic postings that carry the same header, at most one capture per payment is booked, and only
      one that a webhook committed. */
  lemma CapturesAreSound(steps: seq<Step>, payment: string)
    requires Run(steps).Some?
    ensures var w := Run(steps).value;
            var posed := Posed(Txs(w.history), payment);
            && Captures(w.db.journal, payment) <= posed + 1
            && Captures(w.db.journal, payment) == Count(Txs(w.history), HookCapture(payment)) + posed
  {
    EveryRunIsSerial(steps);
    HistoryIsHandled(steps);
    CapturedInLedgerOnce(Txs(Run(steps).value.history), payment);
    HistoryAddsUp(Txs(Run(steps).value.history), payment);
  }

  /** With the handlers' cap on the amounts of refund webhooks and generic postings too, and at most MAX_ENTRIES
      entries, no balance of a reachable state has wrapped. */
  lemma LedgerIsExactInRuns(steps: seq<Step>, codes: seq<string>)
    requires Run(steps).Some? && AllCapped(Txs(Run(steps).value.history))
    requires |Book(Run(steps).value.db.journal)| <= MAX_ENTRIES
    requires Distinct(codes) && forall c :: c in codes <==> c in Run(steps).value.db.accounts
    ensures ExactSheet(Run(steps).value.db, codes)
  {
    EveryRunIsSerial(steps);
    HistoryIsHandled(steps);
    CappedLedgerIsExact(Txs(Run(steps).value.history), codes);
  }

  /** Every committed refund webhook is booked in full in every reachable state, besides what generic postings
      with the same header book. */
  lemma RefundsAreBookedInRuns(steps: seq<Step>, payment: string)
    requires Run(steps).Some?
    ensures BookedRefunds(Run(steps).value.db.journal, payment) ==
            HookRefunded(Txs(Run(steps).value.history), payment) +
            PosedRefunds(Txs(Run(steps).value.history), payment)
  {
    EveryRunIsSerial(steps);
    RefundsAreBooked(Txs(Run(steps).value.history), payment);
  }

  /** In every reachable state a webhook transaction committed at any time before could commit once more exactly
      when it is a refund and the payment is partially refunded. */
  lemma RepeatIffInRuns(steps: seq<Step>, i: nat)
    requires Run(steps).Some? && i < |Run(steps).value.history| && IsHook(Run(steps).value.history[i].tx)
    ensures var w := Run(steps).value;
            var tx := w.history[i].tx;
            && tx.payment in w.db.payments
            && (Exec(w.db, tx).Some? <==> tx.HookRefund? && w.db.payments[tx.payment].status == PartiallyRefunded)
  {
    EveryRunIsSerial(steps);
    RepeatIff(Txs(Run(steps).value.history), i);
  }

  /** Only partial refunds are ever committed twice, under whatever keys they came. */
  lemma CommittedTwiceInRuns(steps: seq<Step>, i: nat, j: nat)
    requires Run(steps).Some? && i < j < |Run(steps).value.history|
    requires var w := Run(steps).value; w.history[i].tx == w.history[j].tx && IsHook(w.history[i].tx)
    ensures var w := Run(steps).value;
            var tx := w.history[i].tx;
            && tx.HookRefund? && tx.payment in w.db.payments && tx.amount < w.db.payments[tx.payment].amount
  {
    EveryRunIsSerial(steps);
    CommittedTwice(Txs(Run(steps).value.history), i, j);
  }

  /** The place in CapturePayment and RefundPayment where the PSP is asked: after the guards, under the row
      lock, before the row is written. */
  ghost predicate AsksPsp(s: Session, payment: string) {
    && s.pc.InTx? && (s.pc.tx.ApiCapture? || s.pc.tx.ApiRefund?) && s.pc.tx.payment == payment
    && s.pc.phase.RowLocked? && Decide(s.pc.tx, Some(s.pc.phase.row)).Write?
  }

  /** No two requests are at that place for one payment, and while one is, the committed row stays the one
      its guards have seen. */
  lemma PspCallsExclude(steps: seq<Step>, a: Sid, b: Sid, payment: string)
    requires Run(steps).Some? && a in Run(steps).value.sessions && b in Run(steps).value.sessions
    requires AsksPsp(Run(steps).value.sessions[a], payment) && AsksPsp(Run(steps).value.sessions[b], payment)
    ensures a == b
    ensures var w := Run(steps).value;
            payment in w.db.payments && w.db.payments[payment] == w.sessions[a].pc.phase.row
  {
    RunIsSound(steps);
    var w := Run(steps).value;
    assert TxOk(w.db, w.sessions[a].pc.tx, w.sessions[a].pc.phase);
    OneHolder(w.locks, w.sessions, a, b, PaymentRow(payment));
  }
}
