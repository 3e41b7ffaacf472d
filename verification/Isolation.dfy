/** What every statement keeps: locks have one holder, and a transaction's reads stay true until it ends. */
module Isolation {
  import opened Options
  import opened PaymentStates
  import opened Ledger
  import opened LedgerBounds
  import opened Transactions
  import opened Sessions

  // ---- Locks

  /** The lock table and the sessions agree on who holds what. */
  ghost predicate LocksOk(locks: map<Resource, Sid>, sessions: map<Sid, Session>) {
    && (forall r :: r in locks ==> locks[r] in sessions && Holds(sessions[locks[r]], r))
    && (forall sid, r :: sid in sessions && Holds(sessions[sid], r) ==> r in locks && locks[r] == sid)
  }

  ghost predicate HoldsNothing(s: Session) {
    forall r :: !Holds(s, r)
  }

  lemma LocksKept(locks: map<Resource, Sid>, sessions: map<Sid, Session>, sid: Sid, s: Session)
    requires LocksOk(locks, sessions) && sid in sessions
    requires forall r :: Holds(s, r) <==> Holds(sessions[sid], r)
    ensures LocksOk(locks, sessions[sid := s])
  {
  }

  lemma LockTaken(locks: map<Resource, Sid>, sessions: map<Sid, Session>, sid: Sid, s: Session, r: Resource)
    requires LocksOk(locks, sessions) && sid in sessions && r !in locks
    requires forall q :: Holds(s, q) <==> Holds(sessions[sid], q) || q == r
    ensures LocksOk(locks[r := sid], sessions[sid := s])
  {
  }

  lemma LocksReleased(locks: map<Resource, Sid>, sessions: map<Sid, Session>, sid: Sid, s: Session)
    requires LocksOk(locks, sessions) && HoldsNothing(s)
    ensures LocksOk(Release(locks, sid), sessions[sid := s])
    ensures LocksOk(Release(locks, sid), sessions - {sid})
  {
  }

  lemma LeaveKeepsLocks(w: World, sid: Sid, committed: bool)
    requires LocksOk(w.locks, w.sessions) && sid in w.sessions && w.sessions[sid].pc.InTx?
    ensures LocksOk(Leave(w, sid, committed).locks, Leave(w, sid, committed).sessions)
  {
    var s := w.sessions[sid];
    if s.job.HookJob? {
      LocksReleased(w.locks, w.sessions, sid, s.(pc := Marking(!committed && !NothingToDo(s.pc))));
    } else {
      LocksReleased(w.locks, w.sessions, sid, s.(pc := CallingPsp));
    }
  }

  lemma TxKeepsLocks(w: World, step: Step)
    requires LocksOk(w.locks, w.sessions) && step.sid in w.sessions && w.sessions[step.sid].pc.InTx?
    requires TxNext(w, step, w.sessions[step.sid].pc).Some?
    ensures var after := TxNext(w, step, w.sessions[step.sid].pc).value;
            LocksOk(after.locks, after.sessions)
  {
    var sid, s := step.sid, w.sessions[step.sid];
    var after := TxNext(w, step, s.pc).value;
    match step
    case LockPayment(_) =>
      LockTaken(w.locks, w.sessions, sid, after.sessions[sid], PaymentRow(Target(s.pc.tx).value));
    case WriteRows(_) =>
      LocksKept(w.locks, w.sessions, sid, after.sessions[sid]);
    case LockAccount(_) =>
      var code := s.pc.phase.writes.lines[|s.pc.phase.entries|].code;
      if code in s.pc.phase.seen {
        LocksKept(w.locks, w.sessions, sid, after.sessions[sid]);
      } else {
        assert !Holds(s, AccountRow(code));
        LockTaken(w.locks, w.sessions, sid, after.sessions[sid], AccountRow(code));
      }
    case PostEntry(_) =>
      LocksKept(w.locks, w.sessions, sid, after.sessions[sid]);
    case CommitTx(_, acknowledged) =>
      LeaveKeepsLocks(w, sid, acknowledged);
    case RollBack(_) =>
      LeaveKeepsLocks(w, sid, false);
    case _ =>
  }

  lemma IdleKeepsLocks(w: World, step: Step)
    requires LocksOk(w.locks, w.sessions) && step.sid in w.sessions && !w.sessions[step.sid].pc.InTx?
    requires IdleNext(w, step, w.sessions[step.sid]).Some?
    ensures var after := IdleNext(w, step, w.sessions[step.sid]).value;
            LocksOk(after.locks, after.sessions)
  {
    var sid, s := step.sid, w.sessions[step.sid];
    var after := IdleNext(w, step, s).value;
    if step.MarkEvent? {
      LocksReleased(w.locks, w.sessions, sid, s);
    } else {
      LocksKept(w.locks, w.sessions, sid, after.sessions[sid]);
    }
  }

  lemma StepKeepsLocks(w: World, step: Step)
    requires LocksOk(w.locks, w.sessions) && Next(w, step).Some?
    ensures LocksOk(Next(w, step).value.locks, Next(w, step).value.sessions)
  {
    if step.Start? {
      LocksStart(w.locks, w.sessions, step.sid, Session(step.job, FirstPc(step.job)));
    } else if step.Vanish? {
      LocksReleased(w.locks, w.sessions, step.sid, w.sessions[step.sid].(pc := CallingPsp));
    } else if w.sessions[step.sid].pc.InTx? {
      TxKeepsLocks(w, step);
    } else {
      IdleKeepsLocks(w, step);
    }
  }

  lemma LocksStart(locks: map<Resource, Sid>, sessions: map<Sid, Session>, sid: Sid, s: Session)
    requires LocksOk(locks, sessions) && sid !in sessions && HoldsNothing(s)
    ensures LocksOk(locks, sessions[sid := s])
  {
  }

  // ---- Requests stay inside their Go function

  /** The program points of each Go function, and the transactions it runs there. */
  ghost predicate PcFits(s: Session) {
    match s.job
    case CreateJob(p, amount, psp) =>
      || s.pc.CallingPsp?
      || (s.pc.InTx? && s.pc.tx == InsertPayment(p, amount, psp))
      || (s.pc.InTx? && s.pc.tx.Move? && s.pc.tx.payment == p && s.pc.tx.from == Created &&
          (s.pc.tx.to == Authorized || s.pc.tx.to == Failed))
    case CaptureJob(p) => s.pc.InTx? && s.pc.tx == ApiCapture(p)
    case RefundJob(p, amount) => s.pc.InTx? && s.pc.tx == ApiRefund(p, amount) && Validated(amount)
    case CancelJob(p) =>
      || s.pc.ReadingPayment?
      || s.pc.Cancelling?
      || (s.pc.InTx? && s.pc.tx.Move? && s.pc.tx.payment == p && s.pc.tx.from == Authorized && s.pc.tx.to == Cancelled)
    case HookJob(delivery) =>
      || s.pc.CheckingDuplicate? || s.pc.LookingUp? || s.pc.Inserting? || s.pc.Marking?
      || (s.pc.InTx? && IsHook(s.pc.tx) && Process(delivery, Some(s.pc.tx.payment)) == InTx(s.pc.tx, Begun))
    case PostJob(header, lines) => s.pc.InTx? && s.pc.tx == PostLedger(header, lines)
  }

  predicate IsHook(tx: Tx) {
    tx.HookCapture? || tx.HookFailure? || tx.HookRefund?
  }

  /** Payment ids are fresh: no two requests create the same payment. */
  ghost predicate FlowsOk(sessions: map<Sid, Session>, issued: set<string>) {
    && (forall sid :: sid in sessions ==> PcFits(sessions[sid]))
    && (forall sid :: sid in sessions && sessions[sid].job.CreateJob? ==>
      sessions[sid].job.payment in issued && Validated(sessions[sid].job.amount))
    && (forall a, b :: a in sessions && b in sessions && SamePayment(sessions[a].job, sessions[b].job) ==> a == b)
  }

  ghost predicate SamePayment(a: Job, b: Job) {
    a.CreateJob? && b.CreateJob? && a.payment == b.payment
  }

  /** A step other than Start moves at most one session, and that one stays in its function. */
  ghost predicate OneMoves(before: World, after: World, sid: Sid) {
    && sid in before.sessions
    && after.issued == before.issued
    && (|| after.sessions == before.sessions - {sid}
        || (&& sid in after.sessions
            && after.sessions == before.sessions[sid := after.sessions[sid]]
            && after.sessions[sid].job == before.sessions[sid].job
            && (PcFits(before.sessions[sid]) ==> PcFits(after.sessions[sid]))))
  }

  lemma LeaveMovesOne(w: World, sid: Sid, committed: bool)
    requires sid in w.sessions && w.sessions[sid].pc.InTx?
    ensures OneMoves(w, Leave(w, sid, committed), sid)
  {
  }

  lemma TxMovesOne(w: World, step: Step)
    requires step.sid in w.sessions && w.sessions[step.sid].pc.InTx?
    requires TxNext(w, step, w.sessions[step.sid].pc).Some?
    ensures OneMoves(w, TxNext(w, step, w.sessions[step.sid].pc).value, step.sid)
  {
    match step
    case CommitTx(_, acknowledged) => LeaveMovesOne(w, step.sid, acknowledged);
    case RollBack(_) => LeaveMovesOne(w, step.sid, false);
    case _ =>
  }

  lemma IdleMovesOne(w: World, step: Step)
    requires step.sid in w.sessions && !w.sessions[step.sid].pc.InTx?
    requires IdleNext(w, step, w.sessions[step.sid]).Some?
    ensures OneMoves(w, IdleNext(w, step, w.sessions[step.sid]).value, step.sid)
  {
  }

  lemma StepMovesOne(w: World, step: Step)
    requires Next(w, step).Some? && !step.Start?
    ensures OneMoves(w, Next(w, step).value, step.sid)
  {
    if !step.Vanish? {
      if w.sessions[step.sid].pc.InTx? {
        TxMovesOne(w, step);
      } else {
        IdleMovesOne(w, step);
      }
    }
  }

  lemma MoveKeepsFlows(before: World, after: World, sid: Sid)
    requires FlowsOk(before.sessions, before.issued) && OneMoves(before, after, sid)
    ensures FlowsOk(after.sessions, after.issued)
  {
  }

  lemma StartKeepsFlows(w: World, sid: Sid, job: Job)
    requires FlowsOk(w.sessions, w.issued) && DoStart(w, sid, job).Some?
    ensures FlowsOk(DoStart(w, sid, job).value.sessions, DoStart(w, sid, job).value.issued)
  {
    assert PcFits(Session(job, FirstPc(job)));
  }

  lemma StepKeepsFlows(w: World, step: Step)
    requires FlowsOk(w.sessions, w.issued) && Next(w, step).Some?
    ensures FlowsOk(Next(w, step).value.sessions, Next(w, step).value.issued)
  {
    if step.Start? {
      StartKeepsFlows(w, step.sid, step.job);
    } else {
      StepMovesOne(w, step);
      MoveKeepsFlows(w, Next(w, step).value, step.sid);
    }
  }

  // ---- Transactions

  /** What a running transaction may rely on: the row it locked and the accounts it read are still the
      committed ones, its decision would be taken again now, and its private account rows and entries
      are exactly what posting its lines so far on those accounts gives. */
  ghost predicate TxOk(db: Db, tx: Tx, phase: Phase) {
    match phase
    case Begun => true
    case RowLocked(row) =>
      Target(tx).Some? && Read(db, tx) == Some(row)
    case Working(writes, seen, view, entries, holding) =>
      && Decide(tx, Read(db, tx)) == Write(writes)
      && |entries| <= |writes.lines|
      && PostLines(seen, writes.lines[..|entries|]) == Posted(view, entries)
      && (holding ==> |entries| < |writes.lines| && writes.lines[|entries|].code in seen)
      && Current(db, seen)
  }

  ghost predicate Current(db: Db, seen: Accounts) {
    forall c :: c in seen ==> c in db.accounts && db.accounts[c] == seen[c]
  }

  ghost predicate TxsOk(db: Db, sessions: map<Sid, Session>) {
    forall sid :: sid in sessions && sessions[sid].pc.InTx? ==>
      TxOk(db, sessions[sid].pc.tx, sessions[sid].pc.phase)
  }

  lemma OneMoreAccount(seen: Accounts, lines: seq<Line>, view: Accounts, entries: seq<Entry>,
                       code: string, row: Account)
    requires PostLines(seen, lines) == Posted(view, entries) && code !in seen
    ensures PostLines(seen[code := row], lines) == Posted(view[code := row], entries)
  {
    PostingFrame(seen, map[code := row], lines);
    PostingShape(seen, lines);
    assert map[code := row] + seen == seen[code := row];
    assert map[code := row] + view == view[code := row];
  }

  lemma LockAccountKeepsTx(db: Db, tx: Tx, phase: Phase, code: string)
    requires phase.Working? && TxOk(db, tx, phase) && !phase.holding && |phase.entries| < |phase.writes.lines|
    requires code == phase.writes.lines[|phase.entries|].code
    requires code !in phase.seen && code in db.accounts
    ensures TxOk(db, tx, phase.(seen := phase.seen[code := db.accounts[code]],
                                view := phase.view[code := db.accounts[code]], holding := true))
  {
    var lines := phase.writes.lines[..|phase.entries|];
    OneMoreAccount(phase.seen, lines, phase.view, phase.entries, code, db.accounts[code]);
  }

  lemma PostEntryKeepsTx(db: Db, tx: Tx, phase: Phase)
    requires phase.Working? && TxOk(db, tx, phase) && phase.holding
    requires PostLine(phase.view, phase.entries, phase.writes.lines[|phase.entries|]).Posted?
    ensures var done := PostLine(phase.view, phase.entries, phase.writes.lines[|phase.entries|]);
            TxOk(db, tx, phase.(view := done.accounts, entries := done.entries, holding := false))
  {
    PostOneMore(phase.seen, phase.writes.lines, |phase.entries|);
  }
}
