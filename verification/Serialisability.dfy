/** Under every interleaving, the committed tables are those of a serial run in commit order. */
module Serialisability {
  import opened Options
  import opened Ledger
  import opened Transactions
  import opened AuditTrail
  import opened Sessions
  import opened Isolation

  function Txs(history: seq<Commit>): seq<Tx> {
    seq(|history|, i requires 0 <= i < |history| => history[i].tx)
  }

  lemma TxsAppend(history: seq<Commit>, c: Commit)
    ensures Txs(history + [c]) == Txs(history) + [c.tx]
  {
  }

  /** The invariant of the running system. */
  ghost predicate Sound(w: World) {
    && FlowsOk(w.sessions, w.issued)
    && LocksOk(w.locks, w.sessions)
    && TxsOk(w.db, w.sessions)
    && Replay(Txs(w.history)) == Some(w.db)
  }

  // ---- The committing transaction

  /** Posting on the accounts it has locked is posting on the whole chart of accounts. */
  lemma PostingLocally(accounts: Accounts, seen: Accounts, view: Accounts, entries: seq<Entry>, lines: seq<Line>)
    requires PostLines(seen, lines) == Posted(view, entries)
    requires forall c :: c in seen ==> c in accounts && accounts[c] == seen[c]
    ensures PostLines(accounts, lines) == Posted(accounts + view, entries)
  {
    var others := accounts - seen.Keys;
    PostingFrame(seen, others, lines);
    PostingShape(seen, lines);
    assert others + seen == accounts;
    assert others + view == accounts + view;
  }

  /** The private rows of a finished transaction are what running it alone, now, would write. */
  lemma CommitIsSerial(db: Db, tx: Tx, phase: Phase)
    requires phase.Working? && TxOk(db, tx, phase) && |phase.entries| == |phase.writes.lines|
    ensures Exec(db, tx) == Some(Publish(db, phase.writes, db.accounts + phase.view, phase.entries))
  {
    assert phase.writes.lines[..|phase.entries|] == phase.writes.lines;
    PostingLocally(db.accounts, phase.seen, phase.view, phase.entries, phase.writes.lines);
  }

  // ---- The transactions it runs beside

  /** A commit that writes neither the row nor the accounts another transaction holds leaves it sound. */
  lemma CommitLeavesOther(db: Db, writes: Writes, view: Accounts, entries: seq<Entry>, tx: Tx, phase: Phase)
    requires TxOk(db, tx, phase)
    requires phase.Begun? || tx.PostLedger? || tx.payment !in writes.rows
    requires phase.Working? ==> phase.seen.Keys !! view.Keys
    ensures TxOk(Publish(db, writes, db.accounts + view, entries), tx, phase)
  {
    var after := Publish(db, writes, db.accounts + view, entries);
    if phase.Working? {
      if tx.PostLedger? {
        assert Read(db, tx).Some? ==> Read(after, tx).Some?;
      } else {
        assert Read(after, tx) == Read(db, tx);
      }
    }
  }

  lemma WritesOneRow(db: Db, tx: Tx, writes: Writes, payment: string)
    requires Decide(tx, Read(db, tx)) == Write(writes) && payment in writes.rows
    ensures !tx.PostLedger? && payment == tx.payment
    ensures tx.InsertPayment? ==> payment !in db.payments
    ensures !tx.InsertPayment? ==> Target(tx) == Some(payment) && payment in db.payments
  {
    if Target(tx).Some? {
      WritersFollowTable(tx, Read(db, tx).value);
    }
  }

  lemma OneHolder(locks: map<Resource, Sid>, sessions: map<Sid, Session>, a: Sid, b: Sid, r: Resource)
    requires LocksOk(locks, sessions) && a in sessions && b in sessions
    requires Holds(sessions[a], r) && Holds(sessions[b], r)
    ensures a == b
  {
    assert locks[r] == a;
  }

  /** Row locks, and fresh ids for the rows being inserted, keep two running transactions apart. */
  lemma RowsApart(db: Db, s: Session, t: Session, payment: string)
    requires PcFits(s) && s.pc.InTx? && s.pc.phase.Working? && TxOk(db, s.pc.tx, s.pc.phase)
    requires PcFits(t) && t.pc.InTx? && !t.pc.phase.Begun? && TxOk(db, t.pc.tx, t.pc.phase)
    requires !t.pc.tx.PostLedger? && payment == t.pc.tx.payment
    requires !SamePayment(s.job, t.job)
    requires !(Holds(s, PaymentRow(payment)) && Holds(t, PaymentRow(payment)))
    ensures payment !in s.pc.phase.writes.rows
  {
    if payment in s.pc.phase.writes.rows {
      WritesOneRow(db, s.pc.tx, s.pc.phase.writes, payment);
    }
  }

  lemma HoldersApart(w: World, a: Sid, b: Sid)
    requires Sound(w) && a in w.sessions && b in w.sessions && a != b
    requires w.sessions[a].pc.InTx? && w.sessions[a].pc.phase.Working?
    requires w.sessions[b].pc.InTx? && !w.sessions[b].pc.phase.Begun? && !w.sessions[b].pc.tx.PostLedger?
    ensures w.sessions[b].pc.tx.payment !in w.sessions[a].pc.phase.writes.rows
  {
    var s, t := w.sessions[a], w.sessions[b];
    var r := PaymentRow(t.pc.tx.payment);
    if Holds(s, r) && Holds(t, r) {
      OneHolder(w.locks, w.sessions, a, b, r);
    }
    RowsApart(w.db, s, t, t.pc.tx.payment);
  }

  lemma AccountsApart(w: World, a: Sid, b: Sid)
    requires LocksOk(w.locks, w.sessions) && TxsOk(w.db, w.sessions) && a in w.sessions && b in w.sessions && a != b
    requires w.sessions[a].pc.InTx? && w.sessions[a].pc.phase.Working?
    requires w.sessions[b].pc.InTx? && w.sessions[b].pc.phase.Working?
    ensures w.sessions[b].pc.phase.seen.Keys !! w.sessions[a].pc.phase.view.Keys
  {
    var s, t := w.sessions[a].pc.phase, w.sessions[b].pc.phase;
    assert TxOk(w.db, w.sessions[a].pc.tx, s);
    PostingShape(s.seen, s.writes.lines[..|s.entries|]);
    forall c | c in t.seen
      ensures c !in s.seen
    {
      if c in s.seen {
        OneHolder(w.locks, w.sessions, a, b, AccountRow(c));
      }
    }
  }

  lemma CommitKeepsOthers(w: World, sid: Sid)
    requires Sound(w) && sid in w.sessions && w.sessions[sid].pc.InTx? && w.sessions[sid].pc.phase.Working?
    ensures var phase := w.sessions[sid].pc.phase;
            TxsOk(Publish(w.db, phase.writes, w.db.accounts + phase.view, phase.entries), w.sessions - {sid})
  {
    var phase := w.sessions[sid].pc.phase;
    forall b | b in w.sessions - {sid} && w.sessions[b].pc.InTx?
      ensures TxOk(Publish(w.db, phase.writes, w.db.accounts + phase.view, phase.entries),
                   w.sessions[b].pc.tx, w.sessions[b].pc.phase)
    {
      if !w.sessions[b].pc.phase.Begun? && !w.sessions[b].pc.tx.PostLedger? {
        HoldersApart(w, sid, b);
      }
      if w.sessions[b].pc.phase.Working? {
        AccountsApart(w, sid, b);
      }
      CommitLeavesOther(w.db, phase.writes, phase.view, phase.entries, w.sessions[b].pc.tx, w.sessions[b].pc.phase);
    }
  }

  lemma CommitExtendsHistory(w: World, sid: Sid, seen: bool)
    requires Sound(w) && sid in w.sessions && w.sessions[sid].pc.InTx? && w.sessions[sid].pc.phase.Working?
    requires DoCommit(w, sid, w.sessions[sid].pc.tx, w.sessions[sid].pc.phase, seen).Some?
    ensures var after := DoCommit(w, sid, w.sessions[sid].pc.tx, w.sessions[sid].pc.phase, seen).value;
            Replay(Txs(after.history)) == Some(after.db)
  {
    var tx, phase := w.sessions[sid].pc.tx, w.sessions[sid].pc.phase;
    var after := DoCommit(w, sid, tx, phase, seen).value;
    assert TxOk(w.db, tx, phase);
    CommitIsSerial(w.db, tx, phase);
    TxsAppend(w.history, after.history[|w.history|]);
    ReplayOneMore(Txs(w.history), tx);
  }

  lemma CommitStep(w: World, sid: Sid, seen: bool)
    requires Sound(w) && sid in w.sessions && w.sessions[sid].pc.InTx? && w.sessions[sid].pc.phase.Working?
    requires DoCommit(w, sid, w.sessions[sid].pc.tx, w.sessions[sid].pc.phase, seen).Some?
    ensures var after := DoCommit(w, sid, w.sessions[sid].pc.tx, w.sessions[sid].pc.phase, seen).value;
            TxsOk(after.db, after.sessions)
  {
    var after := DoCommit(w, sid, w.sessions[sid].pc.tx, w.sessions[sid].pc.phase, seen).value;
    CommitKeepsOthers(w, sid);
    assert forall b :: b in after.sessions && after.sessions[b].pc.InTx? ==>
             b in w.sessions - {sid} && after.sessions[b] == w.sessions[b];
  }

  // ---- All other statements

  lemma LeaveKeepsTxs(w: World, sid: Sid, committed: bool)
    requires TxsOk(w.db, w.sessions) && sid in w.sessions && w.sessions[sid].pc.InTx?
    ensures TxsOk(w.db, Leave(w, sid, committed).sessions)
    ensures Leave(w, sid, committed).db == w.db && Leave(w, sid, committed).history == w.history
  {
  }

  lemma TxKeepsTxs(w: World, step: Step)
    requires TxsOk(w.db, w.sessions) && step.sid in w.sessions && w.sessions[step.sid].pc.InTx? && !step.CommitTx?
    requires TxNext(w, step, w.sessions[step.sid].pc).Some?
    ensures var after := TxNext(w, step, w.sessions[step.sid].pc).value;
            && TxsOk(w.db, after.sessions)
            && after.db == w.db && after.history == w.history
  {
    var sid, pc := step.sid, w.sessions[step.sid].pc;
    assert TxOk(w.db, pc.tx, pc.phase);
    match step
    case WriteRows(_) =>
      WriteRowsIsSound(w, sid);
    case LockAccount(_) =>
      var code := pc.phase.writes.lines[|pc.phase.entries|].code;
      if code !in pc.phase.seen {
        LockAccountKeepsTx(w.db, pc.tx, pc.phase, code);
      }
    case PostEntry(_) =>
      PostEntryKeepsTx(w.db, pc.tx, pc.phase);
    case RollBack(_) =>
      LeaveKeepsTxs(w, sid, false);
    case _ =>
  }

  lemma WriteRowsIsSound(w: World, sid: Sid)
    requires sid in w.sessions && w.sessions[sid].pc.InTx?
    requires TxOk(w.db, w.sessions[sid].pc.tx, w.sessions[sid].pc.phase)
    requires DoWriteRows(w, sid, w.sessions[sid].pc.tx, w.sessions[sid].pc.phase).Some?
    ensures var pc := DoWriteRows(w, sid, w.sessions[sid].pc.tx, w.sessions[sid].pc.phase).value.sessions[sid].pc;
            pc.InTx? && TxOk(w.db, pc.tx, pc.phase)
  {
    var pc := w.sessions[sid].pc;
    var read := if pc.phase.RowLocked? then Some(pc.phase.row) else Read(w.db, pc.tx);
    assert read == Read(w.db, pc.tx);
  }

  lemma IdleKeepsTxs(w: World, step: Step)
    requires TxsOk(w.db, w.sessions) && step.sid in w.sessions && !w.sessions[step.sid].pc.InTx?
    requires IdleNext(w, step, w.sessions[step.sid]).Some?
    ensures var after := IdleNext(w, step, w.sessions[step.sid]).value;
            && TxsOk(w.db, after.sessions)
            && after.db == w.db && after.history == w.history
  {
  }

  lemma StepKeepsSound(w: World, step: Step)
    requires Sound(w) && Next(w, step).Some?
    ensures Sound(Next(w, step).value)
  {
    StepKeepsFlows(w, step);
    StepKeepsLocks(w, step);
    if !step.Start? && !step.Vanish? {
      if !w.sessions[step.sid].pc.InTx? {
        IdleKeepsTxs(w, step);
      } else if step.CommitTx? {
        CommitStep(w, step.sid, step.acknowledged);
        CommitExtendsHistory(w, step.sid, step.acknowledged);
      } else {
        TxKeepsTxs(w, step);
      }
    }
  }

  lemma {:induction false} RunIsSound(steps: seq<Step>)
    requires Run(steps).Some?
    ensures Sound(Run(steps).value)
    decreases |steps|
  {
    if steps == [] {
      assert Txs([]) == [];
    } else {
      RunIsSound(steps[..|steps| - 1]);
      StepKeepsSound(Run(steps[..|steps| - 1]).value, steps[|steps| - 1]);
    }
  }

  /** However the requests interleave, fail or crash, the committed tables equal those of running the
      committed transactions one after the other, in commit order, and nothing else. */
  lemma EveryRunIsSerial(steps: seq<Step>)
    requires Run(steps).Some?
    ensures Replay(Txs(Run(steps).value.history)) == Some(Run(steps).value.db)
  {
    RunIsSound(steps);
  }
}
