/**
 docs/architecture.md says that all money movements are recorded in the ledger.
 An API capture is not: exactly which captured payments the ledger holds.
 */
module CaptureLedger {
  import opened Options
  import opened PaymentStates
  import opened Transactions
  import opened AuditTrail
  import opened Refunds

  function Count(history: seq<Tx>, tx: Tx): nat {
    if history == [] then 0
    else Count(history[..|history| - 1], tx) + if history[|history| - 1] == tx then 1 else 0
  }

  /** How often a trail enters captured. */
  function Entered(trail: seq<Edge>): nat {
    if trail == [] then 0
    else Entered(trail[..|trail| - 1]) + if trail[|trail| - 1].to == Captured then 1 else 0
  }

  lemma EnteredOneMore(trail: seq<Edge>, e: Edge)
    ensures Entered(trail + [e]) == Entered(trail) + if e.to == Captured then 1 else 0
  {
    assert (trail + [e])[..|trail|] == trail;
  }

  lemma {:induction false} EnteredAtMostOnce(trail: seq<Edge>)
    requires IsTrail(trail)
    ensures Entered(trail) <= 1
    ensures Entered(trail) == 1 <==> exists i :: 0 <= i < |trail| && trail[i].to == Captured
    decreases |trail|
  {
    var most := trail[..|trail| - 1];
    if most != [] {
      assert IsTrail(most);
      EnteredAtMostOnce(most);
      if i :| 0 <= i < |most| && most[i].to == Captured {
        EnteredOnce(trail, i, |trail| - 1);
      }
    }
  }

  lemma OnlyCapturesEnter(tx: Tx, row: Payment)
    requires Handled(tx) && Target(tx).Some? && Decide(tx, Some(row)).Write?
    ensures var rows := Decide(tx, Some(row)).writes.rows;
            && tx.payment in rows
            && (rows[tx.payment].status == Captured <==> tx.HookCapture? || tx.ApiCapture?)
  {
    WritersFollowTable(tx, row);
  }

  ghost predicate CapturesAddUp(history: seq<Tx>, db: Db, payment: string) {
    && Captures(db.journal, payment) == Count(history, HookCapture(payment)) + Posed(history, payment)
    && Entered(Trail(db.log, payment)) == Count(history, HookCapture(payment)) + Count(history, ApiCapture(payment))
  }

  lemma CountOneMore(history: seq<Tx>, tx: Tx, other: Tx)
    ensures Count(history + [tx], other) == Count(history, other) + if tx == other then 1 else 0
  {
    assert (history + [tx])[..|history|] == history;
  }

  /** How often a transaction makes the payment enter captured. */
  function Enters(tx: Tx, payment: string): nat {
    if tx == HookCapture(payment) || tx == ApiCapture(payment) then 1 else 0
  }

  lemma TargetEnters(db: Db, tx: Tx)
    requires Exec(db, tx).Some? && Handled(tx) && Target(tx).Some?
    ensures Entered(Trail(Exec(db, tx).value.log, tx.payment)) ==
            Entered(Trail(db.log, tx.payment)) + Enters(tx, tx.payment)
  {
    ExecTarget(db, tx);
    OnlyCapturesEnter(tx, db.payments[tx.payment]);
    var row := Decide(tx, Some(db.payments[tx.payment])).writes.rows[tx.payment];
    EnteredOneMore(Trail(db.log, tx.payment), Edge(Some(db.payments[tx.payment].status), row.status));
  }

  lemma ExecEnters(db: Db, tx: Tx, payment: string)
    requires Exec(db, tx).Some? && Handled(tx)
    ensures Entered(Trail(Exec(db, tx).value.log, payment)) == Entered(Trail(db.log, payment)) + Enters(tx, payment)
  {
    if Target(tx) == Some(payment) {
      TargetEnters(db, tx);
    } else if tx.InsertPayment? && tx.payment == payment {
      ExecInsert(db, tx);
      EnteredOneMore(Trail(db.log, payment), Edge(None, Created));
    } else {
      ExecElsewhere(db, tx, payment);
    }
  }

  lemma ExecAddsUp(history: seq<Tx>, db: Db, tx: Tx, payment: string)
    requires Exec(db, tx).Some? && Handled(tx) && CapturesAddUp(history, db, payment)
    ensures CapturesAddUp(history + [tx], Exec(db, tx).value, payment)
  {
    CountOneMore(history, tx, HookCapture(payment));
    CountOneMore(history, tx, ApiCapture(payment));
    PosedOneMore(history, tx, payment);
    CapturesOneMore(db, tx, payment);
    ExecEnters(db, tx, payment);
  }

  lemma {:induction false} HistoryAddsUp(history: seq<Tx>, payment: string)
    requires Replay(history).Some? && AllHandled(history)
    ensures CapturesAddUp(history, Replay(history).value, payment)
    decreases |history|
  {
    if history != [] {
      var most, tx := history[..|history| - 1], history[|history| - 1];
      HandledPrefix(history);
      HistoryAddsUp(most, payment);
      ExecAddsUp(most, Replay(most).value, tx, payment);
    }
  }

  /** Every payment that was captured was captured by exactly one committed transaction, and the ledger holds
      its capture, besides generic postings with the same header, exactly when that was the webhook's: a
      capture through the API, which the webhook then finds already captured, is never booked. */
  lemma BookedIffByWebhook(history: seq<Tx>, payment: string)
    requires Replay(history).Some? && AllHandled(history) && payment in Replay(history).value.payments
    ensures var db := Replay(history).value;
            var trail := Trail(db.log, payment);
            && ((exists i :: 0 <= i < |trail| && trail[i].to == Captured) <==>
                Count(history, HookCapture(payment)) + Count(history, ApiCapture(payment)) == 1)
            && Count(history, HookCapture(payment)) + Count(history, ApiCapture(payment)) <= 1
            && Captures(db.journal, payment) == Count(history, HookCapture(payment)) + Posed(history, payment)
  {
    HistoryAddsUp(history, payment);
    var db := Replay(history).value;
    assert IsTrail(Trail(db.log, payment)) by {
      EveryTrailIsLegal(history, payment);
    }
    EnteredAtMostOnce(Trail(db.log, payment));
  }

  /** An authorized payment with a PSP reference can always be captured through the API; the ledger is
      left as it was, and the webhook that follows succeeds without doing anything. */
  lemma ApiCaptureLeavesGap(history: seq<Tx>, payment: string)
    requires Replay(history).Some?
    requires var db := Replay(history).value;
             && payment in db.payments && db.payments[payment].status == Authorized
             && db.payments[payment].reference.Some?
    ensures var db, longer := Replay(history).value, history + [ApiCapture(payment)];
            && Replay(longer).Some?
            && var after := Replay(longer).value;
            && payment in after.payments && after.payments[payment].status == Captured
            && after.journal == db.journal && after.accounts == db.accounts
            && Decide(HookCapture(payment), Read(after, HookCapture(payment))) == NoOp
  {
    ReplayKeepsCap(history);
    OneMoreChange(history, ApiCapture(payment));
    ReplayOneMore(history, ApiCapture(payment));
    assert Replay(history).value.journal + [] == Replay(history).value.journal;
  }
}
