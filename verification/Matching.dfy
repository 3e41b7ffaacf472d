/** Webhooks act on the payment they name, and keep doing so: a PSP reference is never changed or lost. */
module Matching {
  import opened Options
  import opened Transactions
  import opened AuditTrail
  import opened Sessions
  import opened Isolation
  import opened Serialisability
  import opened CreateRace

  /** The delivery names the payment, by its PSP and its PSP reference. */
  ghost predicate Names(d: Delivery, payments: Payments, payment: string) {
    && payment in payments
    && payments[payment].psp == d.psp
    && payments[payment].reference == Some(d.payload.reference)
  }

  ghost predicate HasReference(payments: Payments, payment: string, reference: string) {
    payment in payments && payments[payment].reference == Some(reference)
  }

  /** A webhook in flight holds a payment its delivery names, a cancellation the reference of its payment. */
  ghost predicate Bound(payments: Payments, s: Session) {
    match s.job
    case HookJob(d) =>
      && (s.pc.Inserting? && s.pc.found.Some? ==> Names(d, payments, s.pc.found.value))
      && (s.pc.InTx? && IsHook(s.pc.tx) ==> Names(d, payments, s.pc.tx.payment))
    case CancelJob(p) =>
      && (s.pc.Cancelling? ==> HasReference(payments, p, s.pc.reference))
      && (s.pc.InTx? && s.pc.tx.Move? ==> HasReference(payments, s.pc.tx.payment, s.pc.tx.reference))
    case _ => true
  }

  ghost predicate CommitNames(payments: Payments, c: Commit) {
    c.delivery.Some? ==> IsHook(c.tx) && Names(c.delivery.value, payments, c.tx.payment)
  }

  ghost predicate Matched(w: World) {
    && (forall sid :: sid in w.sessions ==> Bound(w.db.payments, w.sessions[sid]))
    && (forall i :: 0 <= i < |w.history| ==> CommitNames(w.db.payments, w.history[i]))
  }

  /** Every payment with a reference keeps it, and its PSP. */
  ghost predicate ReferencesKept(before: Payments, after: Payments) {
    forall p :: p in before && before[p].reference.Some? ==>
      p in after && after[p].psp == before[p].psp && after[p].reference == before[p].reference
  }

  /** A writer leaves a reference that is set alone, even when it writes one itself. */
  lemma WriterKeepsReference(payments: Payments, s: Session, row: Payment)
    requires PcFits(s) && s.pc.InTx? && Target(s.pc.tx).Some? && Decide(s.pc.tx, Some(row)).Write?
    requires s.pc.tx.payment in payments && payments[s.pc.tx.payment] == row && RowOk(row) && Bound(payments, s)
    ensures var rows := Decide(s.pc.tx, Some(row)).writes.rows;
            && s.pc.tx.payment in rows && rows[s.pc.tx.payment].psp == row.psp
            && (row.reference.Some? ==> rows[s.pc.tx.payment].reference == row.reference)
  {
    WritersFollowTable(s.pc.tx, row);
  }

  lemma CommitKeepsReferences(db: Db, s: Session)
    requires PcFits(s) && s.pc.InTx? && Exec(db, s.pc.tx).Some? && Bound(db.payments, s)
    requires forall p :: p in db.payments ==> RowOk(db.payments[p])
    ensures ReferencesKept(db.payments, Exec(db, s.pc.tx).value.payments)
  {
    var tx := s.pc.tx;
    if Target(tx).Some? {
      ExecTarget(db, tx);
      WriterKeepsReference(db.payments, s, db.payments[tx.payment]);
    } else if tx.InsertPayment? {
      ExecInsert(db, tx);
    } else {
      assert Exec(db, tx).value.payments == db.payments;
    }
  }

  lemma BoundStays(before: Payments, after: Payments, s: Session)
    requires Bound(before, s) && ReferencesKept(before, after)
    ensures Bound(after, s)
  {
  }

  lemma LeavingIsBound(payments: Payments, w: World, sid: Sid, seen: bool)
    requires sid in w.sessions && w.sessions[sid].pc.InTx? && PcFits(w.sessions[sid])
    requires sid in Leave(w, sid, seen).sessions
    ensures Bound(payments, Leave(w, sid, seen).sessions[sid])
  {
  }

  lemma CommitMatches(before: Payments, after: Payments, history: seq<Commit>, s: Session)
    requires forall i :: 0 <= i < |history| ==> CommitNames(before, history[i])
    requires ReferencesKept(before, after) && s.pc.InTx? && PcFits(s) && Bound(before, s)
    ensures var longer := history + [Commit(s.pc.tx, DeliveryOf(s.job))];
            forall i :: 0 <= i < |longer| ==> CommitNames(after, longer[i])
  {
    assert CommitNames(after, Commit(s.pc.tx, DeliveryOf(s.job)));
    assert forall i :: 0 <= i < |history| ==> CommitNames(after, history[i]);
  }

  lemma CommitKeepsMatched(w: World, sid: Sid, seen: bool)
    requires Matched(w) && RaceFree(w) && Sound(w) && sid in w.sessions
    requires w.sessions[sid].pc.InTx? && w.sessions[sid].pc.phase.Working?
    requires DoCommit(w, sid, w.sessions[sid].pc.tx, w.sessions[sid].pc.phase, seen).Some?
    ensures var after := DoCommit(w, sid, w.sessions[sid].pc.tx, w.sessions[sid].pc.phase, seen).value;
            Matched(after) && ReferencesKept(w.db.payments, after.db.payments)
  {
    var s := w.sessions[sid];
    var after := DoCommit(w, sid, s.pc.tx, s.pc.phase, seen).value;
    assert TxOk(w.db, s.pc.tx, s.pc.phase) && PcFits(s);
    CommitIsSerial(w.db, s.pc.tx, s.pc.phase);
    CommitKeepsReferences(w.db, s);
    CommitMatches(w.db.payments, after.db.payments, w.history, s);
    forall b | b in after.sessions
      ensures Bound(after.db.payments, after.sessions[b])
    {
      if b != sid {
        BoundStays(w.db.payments, after.db.payments, w.sessions[b]);
      } else {
        LeavingIsBound(after.db.payments, w, sid, seen);
      }
    }
  }

  lemma TxKeepsMatched(w: World, step: Step)
    requires Matched(w) && step.sid in w.sessions && w.sessions[step.sid].pc.InTx? && !step.CommitTx?
    requires TxNext(w, step, w.sessions[step.sid].pc).Some?
    ensures var after := TxNext(w, step, w.sessions[step.sid].pc).value;
            Matched(after) && after.db == w.db
  {
    var after := TxNext(w, step, w.sessions[step.sid].pc).value;
    forall b | b in after.sessions
      ensures Bound(after.db.payments, after.sessions[b])
    {
      assert Bound(w.db.payments, w.sessions[b]);
    }
  }

  lemma IdleKeepsMatched(w: World, step: Step)
    requires Matched(w) && step.sid in w.sessions && !w.sessions[step.sid].pc.InTx?
    requires IdleNext(w, step, w.sessions[step.sid]).Some?
    ensures var after := IdleNext(w, step, w.sessions[step.sid]).value;
            Matched(after) && after.db == w.db
  {
    var after := IdleNext(w, step, w.sessions[step.sid]).value;
    forall b | b in after.sessions
      ensures Bound(after.db.payments, after.sessions[b])
    {
      assert Bound(w.db.payments, w.sessions[b]);
    }
  }

  lemma StartKeepsMatched(w: World, sid: Sid, job: Job)
    requires Matched(w) && DoStart(w, sid, job).Some?
    ensures var after := DoStart(w, sid, job).value;
            Matched(after) && after.db == w.db
  {
  }

  /** Every step keeps the matches in flight and in the history, and every reference. */
  lemma StepKeepsMatched(w: World, step: Step)
    requires Matched(w) && RaceFree(w) && Sound(w) && Next(w, step).Some?
    ensures Matched(Next(w, step).value) && ReferencesKept(w.db.payments, Next(w, step).value.db.payments)
  {
    if step.Start? {
      StartKeepsMatched(w, step.sid, step.job);
    } else if !step.Vanish? {
      if !w.sessions[step.sid].pc.InTx? {
        IdleKeepsMatched(w, step);
      } else if step.CommitTx? {
        CommitKeepsMatched(w, step.sid, step.acknowledged);
      } else {
        TxKeepsMatched(w, step);
      }
    }
  }

  lemma {:induction false} RunMatches(steps: seq<Step>)
    requires Run(steps).Some?
    ensures Matched(Run(steps).value) && RaceFree(Run(steps).value) && Sound(Run(steps).value)
    decreases |steps|
  {
    RunIsRaceFree(steps);
    if steps != [] {
      RunMatches(steps[..|steps| - 1]);
      StepKeepsMatched(Run(steps[..|steps| - 1]).value, steps[|steps| - 1]);
    }
  }

  /** In every run each transaction committed for a delivery was the webhook's, on a payment of the PSP that sent
      it with the reference it carries. */
  lemma CommitsActOnTheirPayment(steps: seq<Step>, i: nat)
    requires Run(steps).Some? && i < |Run(steps).value.history| && Run(steps).value.history[i].delivery.Some?
    ensures var w := Run(steps).value;
            IsHook(w.history[i].tx) && Names(w.history[i].delivery.value, w.db.payments, w.history[i].tx.payment)
  {
    RunMatches(steps);
    assert CommitNames(Run(steps).value.db.payments, Run(steps).value.history[i]);
  }

  /** Once a payment has a PSP reference it keeps it, and its PSP, in every continuation of the run. */
  lemma {:induction false} ReferencesLast(steps: seq<Step>, n: nat)
    requires n <= |steps| && Run(steps).Some?
    ensures Run(steps[..n]).Some?
    ensures ReferencesKept(Run(steps[..n]).value.db.payments, Run(steps).value.db.payments)
    decreases |steps|
  {
    if n == |steps| {
      assert steps[..n] == steps;
    } else {
      var most := steps[..|steps| - 1];
      assert most[..n] == steps[..n];
      ReferencesLast(most, n);
      RunMatches(most);
      StepKeepsMatched(Run(most).value, steps[|steps| - 1]);
    }
  }
}
