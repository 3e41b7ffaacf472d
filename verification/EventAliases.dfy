/**
 The idempotency key contains the event type as received, and two event types
 stand for each event that is processed: when the same body is processed again
 under the other type, and when that takes effect a second time.
 */
module EventAliases {
  import opened Options
  import opened PaymentStates
  import opened LedgerBounds
  import opened Transactions
  import opened AuditTrail
  import opened WebhookRefunds
  import opened Sessions
  import opened Serialisability
  import opened Deliveries
  import opened Matching
  import opened SetUp
  import opened Completion
  import CachedResponse

  // ---- Which deliveries share a key

  /** PSP names contain no colon, and the digest is a UUID in its canonical form. */
  predicate Canonical(d: Delivery) {
    ':' !in d.psp && |d.payload.digest| == 36
  }

  lemma KeyParts(psp: string, eventType: string, digest: string)
    requires ':' !in psp
    ensures var key := psp + ":" + eventType + ":" + digest;
            && CachedResponse.Index(key, ':') == |psp| && key[..|psp|] == psp
            && key[|psp| + 1..] == eventType + ":" + digest
  {
    var key := psp + ":" + eventType + ":" + digest;
    assert key == psp + [':'] + (eventType + ":" + digest);
    CachedResponse.IndexAfter(psp, eventType + ":" + digest, ':');
  }

  lemma SuffixParts(a: string, x: string, b: string, y: string)
    requires |x| == |y| && a + ":" + x == b + ":" + y
    ensures a == b && x == y
  {
    assert a == (a + ":" + x)[..|a|] && x == (a + ":" + x)[|a| + 1..];
    assert b == (b + ":" + y)[..|b|] && y == (b + ":" + y)[|b| + 1..];
  }

  /** Two deliveries share an idempotency key exactly when PSP, event type and digest all agree. */
  lemma SameKeyIff(d: Delivery, e: Delivery)
    requires Canonical(d) && Canonical(e)
    ensures KeyOf(d) == KeyOf(e) <==>
              d.psp == e.psp && d.eventType == e.eventType && d.payload.digest == e.payload.digest
  {
    if KeyOf(d) == KeyOf(e) {
      KeyParts(d.psp, d.eventType, d.payload.digest);
      KeyParts(e.psp, e.eventType, e.payload.digest);
      SuffixParts(d.eventType, d.payload.digest, e.eventType, e.payload.digest);
    }
  }

  // ---- Two event types, one refund, two effects

  /** The service is idle, and the delivery is a new refund of a payment that can take it. */
  ghost predicate Deliverable(w: World, d: Delivery, payment: string) {
    && w.sessions == map[]
    && d.eventType in {"refund.created", "refund.processed"} && 0 < d.payload.refund
    && KeyOf(d) !in w.events && Names(d, w.db.payments, payment)
    && w.db.payments[payment].status in {Captured, PartiallyRefunded}
  }

  lemma RefundAsks(d: Delivery, payment: string)
    requires d.eventType in {"refund.created", "refund.processed"} && 0 < d.payload.refund
    ensures AsksFor(d, payment, HookRefund(payment, d.payload.refund))
  {
    assert d.eventType[0] == 'r' && "payment"[0] == 'p';
  }

  lemma RefundCommits(steps: seq<Step>, payment: string, amount: int)
    requires Run(steps).Some? && payment in Run(steps).value.db.payments && 0 < amount
    requires Run(steps).value.db.payments[payment].status in {Captured, PartiallyRefunded}
    ensures Exec(Run(steps).value.db, HookRefund(payment, amount)).Some?
  {
    EveryRunIsSerial(steps);
    RefundHookCommitsIff(Txs(Run(steps).value.history), payment, amount);
  }

  /** A deliverable refund is processed, and leaves the service idle. */
  lemma DeliverRefund(steps: seq<Step>, d: Delivery, payment: string) returns (longer: seq<Step>)
    requires Run(steps).Some? && Deliverable(Run(steps).value, d, payment)
    ensures Run(longer).Some?
    ensures var w, after, tx := Run(steps).value, Run(longer).value, HookRefund(payment, d.payload.refund);
            && after.sessions == map[] && after.events.Keys == w.events.Keys + {KeyOf(d)}
            && after.history == w.history + [Commit(tx, Some(d))]
            && Exec(w.db, tx) == Some(after.db)
  {
    RefundAsks(d, payment);
    RefundCommits(steps, payment, d.payload.refund);
    longer := HookCompletes(steps, d, payment, HookRefund(payment, d.payload.refund));
  }

  /** A partial refund leaves another one of the payment deliverable. */
  lemma StaysDeliverable(w: World, after: World, d: Delivery, e: Delivery, payment: string)
    requires Deliverable(w, d, payment) && Deliverable(w, e, payment) && KeyOf(d) != KeyOf(e)
    requires d.payload.refund < w.db.payments[payment].amount && RefundCheck(w.db.payments[payment])
    requires after.sessions == map[] && after.events.Keys == w.events.Keys + {KeyOf(d)}
    requires Exec(w.db, HookRefund(payment, d.payload.refund)) == Some(after.db)
    ensures Deliverable(after, e, payment)
  {
    ExecRefundHook(w.db, payment, d.payload.refund);
  }

  /** One refund delivered under two event types, as two keys, is committed and booked twice whenever it is
      smaller than the amount. */
  lemma AliasesBothCommit(steps: seq<Step>, d: Delivery, e: Delivery, payment: string) returns (longer: seq<Step>)
    requires Run(steps).Some? && Deliverable(Run(steps).value, d, payment)
    requires Deliverable(Run(steps).value, e, payment) && KeyOf(d) != KeyOf(e)
    requires e.psp == d.psp && e.payload == d.payload
    requires d.payload.refund < Run(steps).value.db.payments[payment].amount
    ensures Run(longer).Some?
    ensures var tx := HookRefund(payment, d.payload.refund);
            Run(longer).value.history == Run(steps).value.history + [Commit(tx, Some(d)), Commit(tx, Some(e))]
  {
    var once := DeliverRefund(steps, d, payment);
    EveryRunIsSerial(steps);
    ReplayKeepsCap(Txs(Run(steps).value.history));
    StaysDeliverable(Run(steps).value, Run(once).value, d, e, payment);
    longer := DeliverRefund(once, e, payment);
  }

  // ---- Such a state and such deliveries

  /** For every payment and every smaller refund there is a run in which one body, delivered as refund.created
      and as refund.processed, is refunded twice. */
  lemma OneBodyRefundedTwice(payment: string, amount: int, psp: string, payload: Payload) returns (steps: seq<Step>)
    requires Validated(amount) && 0 < payload.refund < amount && payload.reference != ""
    requires ':' !in psp && |payload.digest| == 36
    ensures Run(steps).Some?
    ensures var d, e := Delivery(psp, "refund.created", payload), Delivery(psp, "refund.processed", payload);
            var tx := HookRefund(payment, payload.refund);
            exists before :: Run(steps).value.history == before + [Commit(tx, Some(d)), Commit(tx, Some(e))]
  {
    var d, e := Delivery(psp, "refund.created", payload), Delivery(psp, "refund.processed", payload);
    assert d.eventType[7] != e.eventType[7];
    SameKeyIff(d, e);
    var captured := CapturedRun([], payment, amount, psp, payload.reference);
    steps := AliasesBothCommit(captured, d, e, payment);
  }
}
