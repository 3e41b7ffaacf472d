/** At-most-once processing of webhooks: the UNIQUE idempotency key against every interleaving of deliveries. */
module Deliveries {
  import opened Options
  import opened PaymentStates
  import opened Transactions
  import opened Sessions
  import opened Isolation

  /** A transaction has committed for a delivery with this key. */
  ghost predicate TookEffect(history: seq<Commit>, key: Key) {
    exists i :: 0 <= i < |history| && Keyed(history[i], key)
  }

  ghost predicate Keyed(c: Commit, key: Key) {
    c.delivery.Some? && KeyOf(c.delivery.value) == key
  }

  /** No key owns two commits, and each commit does to its payment what its event asks for. */
  ghost predicate EffectsOk(history: seq<Commit>, events: map<Key, EventRow>) {
    && (forall i :: 0 <= i < |history| && history[i].delivery.Some? ==> KeyOf(history[i].delivery.value) in events)
    && (forall i, j :: 0 <= i < j < |history| && history[i].delivery.Some? ==>
      !Keyed(history[j], KeyOf(history[i].delivery.value)))
    && (forall i :: 0 <= i < |history| ==> EffectFits(history[i]))
  }

  ghost predicate EffectFits(c: Commit) {
    if IsHook(c.tx)
    then c.delivery.Some? && Process(c.delivery.value, Some(c.tx.payment)) == InTx(c.tx, Begun)
    else c.delivery.None?
  }

  /** A request past its insert owns the row of its key, whose transaction has not committed before it. */
  ghost predicate OwnsEvent(sid: Sid, s: Session, events: map<Key, EventRow>, history: seq<Commit>) {
    s.job.HookJob? && (s.pc.InTx? || s.pc.Marking?) ==>
      && KeyOf(s.job.delivery) in events
      && events[KeyOf(s.job.delivery)].owner == sid
      && (s.pc.InTx? ==> !TookEffect(history, KeyOf(s.job.delivery)))
  }

  ghost predicate DeliveriesOk(w: World) {
    && EffectsOk(w.history, w.events)
    && forall sid :: sid in w.sessions ==> OwnsEvent(sid, w.sessions[sid], w.events, w.history)
  }

  lemma TookEffectGrows(history: seq<Commit>, c: Commit, key: Key)
    ensures TookEffect(history + [c], key) <==> TookEffect(history, key) || Keyed(c, key)
  {
    var longer := history + [c];
    assert longer[|history|] == c;
    assert forall i :: 0 <= i < |history| ==> longer[i] == history[i];
  }

  lemma CommitKeepsEffects(history: seq<Commit>, events: map<Key, EventRow>, c: Commit)
    requires EffectsOk(history, events) && EffectFits(c)
    requires c.delivery.Some? ==>
               KeyOf(c.delivery.value) in events && !TookEffect(history, KeyOf(c.delivery.value))
    ensures EffectsOk(history + [c], events)
  {
    var longer := history + [c];
    assert forall i :: 0 <= i < |history| ==> longer[i] == history[i];
  }

  lemma CommitKeepsDeliveries(w: World, sid: Sid, seen: bool)
    requires DeliveriesOk(w) && sid in w.sessions && PcFits(w.sessions[sid])
    requires w.sessions[sid].pc.InTx? && w.sessions[sid].pc.phase.Working?
    requires DoCommit(w, sid, w.sessions[sid].pc.tx, w.sessions[sid].pc.phase, seen).Some?
    ensures DeliveriesOk(DoCommit(w, sid, w.sessions[sid].pc.tx, w.sessions[sid].pc.phase, seen).value)
  {
    var s := w.sessions[sid];
    var after := DoCommit(w, sid, s.pc.tx, s.pc.phase, seen).value;
    var c := Commit(s.pc.tx, DeliveryOf(s.job));
    assert OwnsEvent(sid, s, w.events, w.history);
    CommitKeepsEffects(w.history, w.events, c);
    forall b | b in after.sessions
      ensures OwnsEvent(b, after.sessions[b], after.events, after.history)
    {
      assert OwnsEvent(b, w.sessions[b], w.events, w.history);
      if b != sid && w.sessions[b].job.HookJob? {
        TookEffectGrows(w.history, c, KeyOf(w.sessions[b].job.delivery));
      }
    }
  }

  lemma InsertKeepsDeliveries(w: World, sid: Sid)
    requires DeliveriesOk(w) && sid in w.sessions
    requires DoInsertEvent(w, sid, w.sessions[sid]).Some?
    ensures DeliveriesOk(DoInsertEvent(w, sid, w.sessions[sid]).value)
  {
    var s := w.sessions[sid];
    var after := DoInsertEvent(w, sid, s).value;
    forall b | b in after.sessions
      ensures OwnsEvent(b, after.sessions[b], after.events, after.history)
    {
      assert OwnsEvent(b, w.sessions[b], w.events, w.history);
    }
  }

  lemma IdleKeepsDeliveries(w: World, step: Step)
    requires DeliveriesOk(w) && step.sid in w.sessions && !w.sessions[step.sid].pc.InTx? && !step.InsertEvent?
    requires PcFits(w.sessions[step.sid]) && IdleNext(w, step, w.sessions[step.sid]).Some?
    ensures DeliveriesOk(IdleNext(w, step, w.sessions[step.sid]).value)
  {
    var after := IdleNext(w, step, w.sessions[step.sid]).value;
    forall b | b in after.sessions
      ensures OwnsEvent(b, after.sessions[b], after.events, after.history)
    {
      assert OwnsEvent(b, w.sessions[b], w.events, w.history);
    }
  }

  lemma TxKeepsDeliveries(w: World, step: Step)
    requires DeliveriesOk(w) && step.sid in w.sessions && w.sessions[step.sid].pc.InTx? && !step.CommitTx?
    requires TxNext(w, step, w.sessions[step.sid].pc).Some?
    ensures DeliveriesOk(TxNext(w, step, w.sessions[step.sid].pc).value)
  {
    var after := TxNext(w, step, w.sessions[step.sid].pc).value;
    forall b | b in after.sessions
      ensures OwnsEvent(b, after.sessions[b], after.events, after.history)
    {
      assert OwnsEvent(b, w.sessions[b], w.events, w.history);
    }
  }

  lemma StepKeepsDeliveries(w: World, step: Step)
    requires DeliveriesOk(w) && FlowsOk(w.sessions, w.issued) && Next(w, step).Some?
    ensures DeliveriesOk(Next(w, step).value)
  {
    if !step.Start? && !step.Vanish? {
      if w.sessions[step.sid].pc.InTx? {
        if step.CommitTx? {
          CommitKeepsDeliveries(w, step.sid, step.acknowledged);
        } else {
          TxKeepsDeliveries(w, step);
        }
      } else if step.InsertEvent? {
        InsertKeepsDeliveries(w, step.sid);
      } else {
        IdleKeepsDeliveries(w, step);
      }
    }
  }

  lemma {:induction false} RunDelivers(steps: seq<Step>)
    requires Run(steps).Some?
    ensures DeliveriesOk(Run(steps).value) && FlowsOk(Run(steps).value.sessions, Run(steps).value.issued)
    decreases |steps|
  {
    if steps != [] {
      var w := Run(steps[..|steps| - 1]).value;
      RunDelivers(steps[..|steps| - 1]);
      StepKeepsFlows(w, steps[|steps| - 1]);
      StepKeepsDeliveries(w, steps[|steps| - 1]);
    }
  }

  /** The transaction a delivery asks for on the payment it was matched to, by its event type as received. */
  ghost predicate AsksFor(d: Delivery, payment: string, tx: Tx) {
    if d.eventType in {"payment.captured", "payment_intent.succeeded"} then tx == HookCapture(payment)
    else if d.eventType in {"payment.failed", "payment_intent.payment_failed"} then tx == HookFailure(payment)
    else
      && d.eventType in {"refund.created", "refund.processed"} && 0 < d.payload.refund
      && tx == HookRefund(payment, d.payload.refund)
  }

  /** What becomes of a delivery after its insert: the transaction it asks for on a matched payment; or else its
      row is marked at once, as failed for a capture without a payment and for a matched refund that is not
      positive. */
  lemma ProcessMeans(d: Delivery, payment: string, tx: Tx, failed: bool)
    ensures Process(d, Some(payment)) == InTx(tx, Begun) <==> AsksFor(d, payment, tx)
    ensures Process(d, Some(payment)) == Marking(failed) <==>
              if d.eventType in {"refund.created", "refund.processed"} then failed && d.payload.refund <= 0
              else
                && d.eventType !in {"payment.captured", "payment_intent.succeeded",
                                    "payment.failed", "payment_intent.payment_failed"}
                && !failed
    ensures Process(d, None) == Marking(d.eventType in {"payment.captured", "payment_intent.succeeded"})
  {
  }

  /** However often and however concurrently webhooks are delivered, at most one transaction ever commits
      for each idempotency key; a committed webhook transaction always belongs to a recorded delivery and is
      the one its event asks for. */
  lemma AtMostOncePerKey(steps: seq<Step>, i: nat, j: nat)
    requires Run(steps).Some? && i < |Run(steps).value.history| && j < |Run(steps).value.history|
    ensures var w := Run(steps).value;
            && (IsHook(w.history[i].tx) <==> w.history[i].delivery.Some?)
            && (w.history[i].delivery.Some? ==>
              var d := w.history[i].delivery.value;
              && KeyOf(d) in w.events
              && AsksFor(d, w.history[i].tx.payment, w.history[i].tx)
              && (Keyed(w.history[j], KeyOf(d)) ==> i == j))
  {
    RunDelivers(steps);
    var c := Run(steps).value.history[i];
    assert EffectFits(c);
    if c.delivery.Some? {
      ProcessMeans(c.delivery.value, c.tx.payment, c.tx, false);
    }
  }

  /** The step ends a webhook's transaction in an event marked as processed: it commits, and the commit is
      acknowledged, or there was nothing to do for a payment that had ended, or was captured already. */
  ghost predicate EndsWell(s: Session, end: Step) {
    && s.pc.InTx?
    && (|| (end.CommitTx? && end.acknowledged)
        || (&& end.RollBack? && s.pc.phase.RowLocked?
            && var status := s.pc.phase.row.status;
            && ((s.pc.tx.HookCapture? && status == Captured) ||
                (s.pc.tx.HookFailure? && status in {Failed, Cancelled, Refunded}))))
  }

  ghost predicate IsMarked(w: World, sid: Sid, key: Key, status: EventStatus) {
    && Next(w, MarkEvent(sid)).Some?
    && key in Next(w, MarkEvent(sid)).value.events
    && Next(w, MarkEvent(sid)).value.events[key].status == status
  }

  lemma EndIsMarked(w: World, sid: Sid, end: Step)
    requires sid in w.sessions && w.sessions[sid].job.HookJob? && w.sessions[sid].pc.InTx? && PcFits(w.sessions[sid])
    requires KeyOf(w.sessions[sid].job.delivery) in w.events
    requires end == RollBack(sid) || end == CommitTx(sid, true) || end == CommitTx(sid, false)
    requires Next(w, end).Some?
    ensures IsMarked(Next(w, end).value, sid, KeyOf(w.sessions[sid].job.delivery),
                     if EndsWell(w.sessions[sid], end) then EventProcessed else EventFailed)
  {
    if end.RollBack? && w.sessions[sid].pc.phase.RowLocked? {
      IdleIff(w.sessions[sid].pc.tx, w.sessions[sid].pc.phase.row);
    }
  }

  /** In every run the event of a webhook whose transaction ends can be marked next: as processed exactly when the
      transaction ends well, as failed otherwise. */
  lemma HookIsMarked(steps: seq<Step>, sid: Sid, end: Step)
    requires Run(steps).Some? && sid in Run(steps).value.sessions
    requires Run(steps).value.sessions[sid].job.HookJob? && Run(steps).value.sessions[sid].pc.InTx?
    requires end == RollBack(sid) || end == CommitTx(sid, true) || end == CommitTx(sid, false)
    requires Next(Run(steps).value, end).Some?
    ensures var w := Run(steps).value;
            IsMarked(Next(w, end).value, sid, KeyOf(w.sessions[sid].job.delivery),
                     if EndsWell(w.sessions[sid], end) then EventProcessed else EventFailed)
  {
    RunDelivers(steps);
    var w := Run(steps).value;
    assert OwnsEvent(sid, w.sessions[sid], w.events, w.history) && PcFits(w.sessions[sid]);
    EndIsMarked(w, sid, end);
  }

  lemma IdleIff(tx: Tx, row: Payment)
    requires IsHook(tx)
    ensures Decide(tx, Some(row)).NoOp? <==>
              || (tx.HookCapture? && row.status == Captured)
              || (tx.HookFailure? && row.status in {Failed, Cancelled, Refunded})
  {
  }
}
