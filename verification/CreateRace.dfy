/** CreatePayment's closing optimistic update never finds its payment changed. */
module CreateRace {
  import opened Options
  import opened PaymentStates
  import opened Transactions
  import opened AuditTrail
  import opened Sessions
  import opened Isolation
  import opened Serialisability

  type Payments = map<string, Payment>

  /** A created payment has no PSP reference yet, nothing is ever pending, and no reference is the empty string. */
  ghost predicate RowsOk(payments: Payments, issued: set<string>) {
    forall p :: p in payments ==> p in issued && RowOk(payments[p])
  }

  ghost predicate RowOk(row: Payment) {
    && (row.status == Created ==> row.reference.None?)
    && row.status != Pending
    && row.reference != Some("")
  }

  ghost predicate LeftCreated(payments: Payments, p: string) {
    p in payments && payments[p].status != Created
  }

  /** The payment of a CreatePayment in flight is still as it left it, and the payments that
      webhooks in flight have looked up have already left created. */
  ghost predicate Undisturbed(payments: Payments, s: Session) {
    match s.job
    case CreateJob(p, _, _) =>
      if s.pc.InTx? && s.pc.tx.InsertPayment? then p !in payments
      else p in payments && payments[p].status == Created
    case HookJob(_) =>
      && (s.pc.Inserting? && s.pc.found.Some? ==> LeftCreated(payments, s.pc.found.value))
      && (s.pc.InTx? && IsHook(s.pc.tx) ==> LeftCreated(payments, s.pc.tx.payment))
    case _ => true
  }

  ghost predicate RaceFree(w: World) {
    && RowsOk(w.db.payments, w.issued)
    && forall sid :: sid in w.sessions ==> Undisturbed(w.db.payments, w.sessions[sid])
  }

  // ---- Commits

  /** Who may write a payment that is still created: the request that created it. */
  lemma OnlyItsCreator(payments: Payments, s: Session, row: Payment)
    requires PcFits(s) && s.pc.InTx? && Target(s.pc.tx).Some? && Decide(s.pc.tx, Some(row)).Write?
    requires s.pc.tx.payment in payments && payments[s.pc.tx.payment] == row
    requires Undisturbed(payments, s) && row.status == Created
    ensures s.job.CreateJob? && s.job.payment == s.pc.tx.payment
  {
  }

  lemma WriterKeepsRow(s: Session, row: Payment)
    requires PcFits(s) && s.pc.InTx? && Target(s.pc.tx).Some? && Decide(s.pc.tx, Some(row)).Write? && RowOk(row)
    ensures var rows := Decide(s.pc.tx, Some(row)).writes.rows;
            s.pc.tx.payment in rows && RowOk(rows[s.pc.tx.payment]) && rows[s.pc.tx.payment].status != Created
  {
    WritersFollowTable(s.pc.tx, row);
  }

  /** What a commit does to the payments of the requests that go on. */
  lemma CommitLeavesUndisturbed(db: Db, s: Session, t: Session)
    requires PcFits(s) && s.pc.InTx? && Exec(db, s.pc.tx).Some?
    requires Undisturbed(db.payments, s) && Undisturbed(db.payments, t) && !SamePayment(s.job, t.job)
    requires forall p :: p in db.payments ==> RowOk(db.payments[p])
    ensures Undisturbed(Exec(db, s.pc.tx).value.payments, t)
  {
    var tx := s.pc.tx;
    if Target(tx).Some? {
      ExecTarget(db, tx);
      WriterKeepsRow(s, db.payments[tx.payment]);
      if db.payments[tx.payment].status == Created {
        OnlyItsCreator(db.payments, s, db.payments[tx.payment]);
      }
    } else if tx.InsertPayment? {
      ExecInsert(db, tx);
    } else {
      assert Exec(db, tx).value.payments == db.payments;
    }
  }

  lemma CommitKeepsRows(db: Db, s: Session, issued: set<string>)
    requires PcFits(s) && s.pc.InTx? && Exec(db, s.pc.tx).Some? && RowsOk(db.payments, issued)
    requires s.job.CreateJob? ==> s.job.payment in issued
    ensures RowsOk(Exec(db, s.pc.tx).value.payments, issued)
  {
    var tx := s.pc.tx;
    if Target(tx).Some? {
      ExecTarget(db, tx);
      WriterKeepsRow(s, db.payments[tx.payment]);
      OneRowOk(db.payments, tx.payment, Decide(tx, Some(db.payments[tx.payment])).writes.rows[tx.payment], issued);
    } else if tx.InsertPayment? {
      ExecInsert(db, tx);
      OneRowOk(db.payments, tx.payment, Payment(tx.amount, tx.psp, Created, None, 0), issued);
    } else {
      assert Exec(db, tx).value.payments == db.payments;
    }
  }

  lemma OneRowOk(payments: Payments, payment: string, row: Payment, issued: set<string>)
    requires RowsOk(payments, issued) && payment in issued && RowOk(row)
    ensures RowsOk(payments[payment := row], issued)
  {
  }

  /** After its first commit CreatePayment finds the row it inserted. */
  lemma InsertLeavesCreated(db: Db, s: Session)
    requires s.job.CreateJob? && s.pc.InTx? && s.pc.tx.InsertPayment? && PcFits(s) && Exec(db, s.pc.tx).Some?
    ensures Undisturbed(Exec(db, s.pc.tx).value.payments, s.(pc := CallingPsp))
  {
    ExecInsert(db, s.pc.tx);
  }

  lemma CommitKeepsRaceFree(w: World, sid: Sid, seen: bool)
    requires RaceFree(w) && Sound(w) && sid in w.sessions
    requires w.sessions[sid].pc.InTx? && w.sessions[sid].pc.phase.Working?
    requires DoCommit(w, sid, w.sessions[sid].pc.tx, w.sessions[sid].pc.phase, seen).Some?
    ensures RaceFree(DoCommit(w, sid, w.sessions[sid].pc.tx, w.sessions[sid].pc.phase, seen).value)
  {
    var s := w.sessions[sid];
    var after := DoCommit(w, sid, s.pc.tx, s.pc.phase, seen).value;
    assert TxOk(w.db, s.pc.tx, s.pc.phase);
    CommitIsSerial(w.db, s.pc.tx, s.pc.phase);
    CommitKeepsRows(w.db, s, w.issued);
    forall b | b in after.sessions
      ensures Undisturbed(after.db.payments, after.sessions[b])
    {
      if b != sid {
        assert Undisturbed(w.db.payments, w.sessions[b]);
        assert !SamePayment(s.job, w.sessions[b].job);
        CommitLeavesUndisturbed(w.db, s, w.sessions[b]);
      } else if s.job.CreateJob? {
        InsertLeavesCreated(w.db, s);
      }
    }
  }

  // ---- The other statements

  lemma StartKeepsRaceFree(w: World, sid: Sid, job: Job)
    requires RaceFree(w) && DoStart(w, sid, job).Some?
    ensures RaceFree(DoStart(w, sid, job).value)
  {
  }

  lemma TxKeepsRaceFree(w: World, step: Step)
    requires RaceFree(w) && step.sid in w.sessions && w.sessions[step.sid].pc.InTx? && !step.CommitTx?
    requires TxNext(w, step, w.sessions[step.sid].pc).Some?
    ensures RaceFree(TxNext(w, step, w.sessions[step.sid].pc).value)
  {
    var after := TxNext(w, step, w.sessions[step.sid].pc).value;
    forall b | b in after.sessions
      ensures Undisturbed(after.db.payments, after.sessions[b])
    {
      assert Undisturbed(w.db.payments, w.sessions[b]);
    }
  }

  lemma IdleKeepsRaceFree(w: World, step: Step)
    requires RaceFree(w) && step.sid in w.sessions && !w.sessions[step.sid].pc.InTx?
    requires IdleNext(w, step, w.sessions[step.sid]).Some?
    ensures RaceFree(IdleNext(w, step, w.sessions[step.sid]).value)
  {
    var after := IdleNext(w, step, w.sessions[step.sid]).value;
    forall b | b in after.sessions
      ensures Undisturbed(after.db.payments, after.sessions[b])
    {
      assert Undisturbed(w.db.payments, w.sessions[b]);
      if step.LookUp? && b == step.sid && step.found.Some? {
        assert RowOk(w.db.payments[step.found.value]);
      }
    }
  }

  lemma StepKeepsRaceFree(w: World, step: Step)
    requires RaceFree(w) && Sound(w) && Next(w, step).Some?
    ensures RaceFree(Next(w, step).value)
  {
    if step.Start? {
      StartKeepsRaceFree(w, step.sid, step.job);
    } else if !step.Vanish? {
      if !w.sessions[step.sid].pc.InTx? {
        IdleKeepsRaceFree(w, step);
      } else if step.CommitTx? {
        CommitKeepsRaceFree(w, step.sid, step.acknowledged);
      } else {
        TxKeepsRaceFree(w, step);
      }
    }
  }

  lemma {:induction false} RunIsRaceFree(steps: seq<Step>)
    requires Run(steps).Some?
    ensures RaceFree(Run(steps).value) && Sound(Run(steps).value)
    decreases |steps|
  {
    RunIsSound(steps);
    if steps != [] {
      RunIsRaceFree(steps[..|steps| - 1]);
      StepKeepsRaceFree(Run(steps[..|steps| - 1]).value, steps[|steps| - 1]);
    }
  }

  lemma ClosingUpdateSucceeds(w: World, sid: Sid)
    requires RaceFree(w) && Sound(w) && sid in w.sessions
    requires var s := w.sessions[sid]; s.job.CreateJob? && s.pc.InTx? && s.pc.tx.Move? && s.pc.phase.RowLocked?
    requires forall p :: p in w.db.payments ==> RefundCheck(w.db.payments[p])
    ensures Next(w, WriteRows(sid)).Some?
  {
    var s := w.sessions[sid];
    assert TxOk(w.db, s.pc.tx, s.pc.phase) && PcFits(s) && Undisturbed(w.db.payments, s);
    MoveDecided(s.pc.tx, s.pc.phase.row);
  }

  lemma MoveDecided(tx: Tx, row: Payment)
    requires tx.Move? && tx.from == Created && (tx.to == Authorized || tx.to == Failed)
    requires row.status == Created && RefundCheck(row)
    ensures Decide(tx, Some(row)).Write?
  {
  }

  /** The request has inserted its payment and not yet recorded the PSP's answer. */
  ghost predicate AwaitsAnswer(w: World, sid: Sid) {
    && sid in w.sessions
    && w.sessions[sid].job.CreateJob?
    && (w.sessions[sid].pc.CallingPsp? || (w.sessions[sid].pc.InTx? && w.sessions[sid].pc.tx.Move?))
  }

  /** In every reachable state the payment of a CreatePayment that waits for the PSP, or is about to record
      its answer, is still created, and its closing update succeeds as soon as it has the row. */
  lemma CreateNeverLosesTheRace(steps: seq<Step>, sid: Sid)
    requires Run(steps).Some? && AwaitsAnswer(Run(steps).value, sid)
    ensures var w := Run(steps).value;
            var s := w.sessions[sid];
            && s.job.payment in w.db.payments
            && w.db.payments[s.job.payment].status == Created
            && (s.pc.InTx? && s.pc.phase.RowLocked? ==> Next(w, WriteRows(sid)).Some?)
  {
    RunIsRaceFree(steps);
    var w := Run(steps).value;
    assert Undisturbed(w.db.payments, w.sessions[sid]);
    if w.sessions[sid].pc.InTx? && w.sessions[sid].pc.phase.RowLocked? {
      ReplayKeepsCap(Txs(w.history));
      ClosingUpdateSucceeds(w, sid);
    }
  }

  /** No payment is ever pending, and one that is still created has no PSP reference. */
  lemma PendingIsUnreachable(steps: seq<Step>, payment: string)
    requires Run(steps).Some? && payment in Run(steps).value.db.payments
    ensures var row := Run(steps).value.db.payments[payment];
            row.status != Pending && (row.status == Created ==> row.reference == None)
  {
    RunIsRaceFree(steps);
    assert RowOk(Run(steps).value.db.payments[payment]);
  }
}
