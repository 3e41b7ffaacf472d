/** Driving one request of the service statement by statement, while the others stand still. */
module Driving {
  import opened Options
  import opened Ledger
  import opened Transactions
  import opened Sessions
  import opened Isolation
  import opened Serialisability

  lemma RunOneMore(steps: seq<Step>, step: Step)
    requires Run(steps).Some?
    ensures Run(steps + [step]) == Next(Run(steps).value, step)
  {
    assert (steps + [step])[..|steps|] == steps;
  }

  /** Where a request is. */
  ghost predicate Place(w: World, sid: Sid, job: Job, pc: Pc) {
    sid in w.sessions && w.sessions[sid] == Session(job, pc)
  }

  /** Nothing has been committed, and no other request has moved. */
  ghost predicate OnlyThis(w: World, after: World, sid: Sid) {
    && after.db == w.db && after.history == w.history && after.issued == w.issued
    && sid in after.sessions && after.sessions == w.sessions[sid := after.sessions[sid]]
  }

  lemma OnlyThisTwice(a: World, b: World, c: World, sid: Sid)
    requires OnlyThis(a, b, sid) && OnlyThis(b, c, sid)
    ensures OnlyThis(a, c, sid)
  {
  }

  // ---- A new request

  lemma Starts(w: World, sid: Sid, job: Job)
    requires sid !in w.sessions && !job.CreateJob? && Admissible(w, job)
    ensures Next(w, Start(sid, job)).Some?
    ensures var after := Next(w, Start(sid, job)).value;
            Place(after, sid, job, FirstPc(job)) && OnlyThis(w, after, sid) && after.events == w.events
  {
  }

  lemma PassesCheck(w: World, sid: Sid, d: Delivery)
    requires Place(w, sid, HookJob(d), CheckingDuplicate) && KeyOf(d) !in w.events
    ensures Next(w, FindNoDuplicate(sid)).Some?
    ensures var after := Next(w, FindNoDuplicate(sid)).value;
            Place(after, sid, HookJob(d), LookingUp) && OnlyThis(w, after, sid) && after.events == w.events
  {
  }

  lemma FindsPayment(w: World, sid: Sid, d: Delivery, payment: string)
    requires Place(w, sid, HookJob(d), LookingUp) && payment in w.db.payments && Matches(w.db.payments[payment], d)
    ensures Next(w, LookUp(sid, Some(payment))).Some?
    ensures var after := Next(w, LookUp(sid, Some(payment))).value;
            && Place(after, sid, HookJob(d), Inserting(Some(payment)))
            && OnlyThis(w, after, sid) && after.events == w.events
  {
  }

  lemma InsertsEvent(w: World, sid: Sid, d: Delivery, payment: string)
    requires Place(w, sid, HookJob(d), Inserting(Some(payment))) && KeyOf(d) !in w.events
    ensures Next(w, InsertEvent(sid)).Some?
    ensures var after := Next(w, InsertEvent(sid)).value;
            && Place(after, sid, HookJob(d), Process(d, Some(payment)))
            && OnlyThis(w, after, sid) && after.events.Keys == w.events.Keys + {KeyOf(d)}
  {
  }

  /** A delivery with an unrecorded key gets as far as its transaction. */
  lemma Receive(steps: seq<Step>, sid: Sid, d: Delivery, payment: string) returns (longer: seq<Step>)
    requires Run(steps).Some? && sid !in Run(steps).value.sessions && KeyOf(d) !in Run(steps).value.events
    requires payment in Run(steps).value.db.payments && Matches(Run(steps).value.db.payments[payment], d)
    ensures Run(longer).Some?
    ensures var w, after := Run(steps).value, Run(longer).value;
            && Place(after, sid, HookJob(d), Process(d, Some(payment)))
            && OnlyThis(w, after, sid) && after.events.Keys == w.events.Keys + {KeyOf(d)}
  {
    var w := Run(steps).value;
    Starts(w, sid, HookJob(d));
    RunOneMore(steps, Start(sid, HookJob(d)));
    var started := steps + [Start(sid, HookJob(d))];
    PassesCheck(Run(started).value, sid, d);
    RunOneMore(started, FindNoDuplicate(sid));
    var checked := started + [FindNoDuplicate(sid)];
    FindsPayment(Run(checked).value, sid, d, payment);
    RunOneMore(checked, LookUp(sid, Some(payment)));
    var matched := checked + [LookUp(sid, Some(payment))];
    InsertsEvent(Run(matched).value, sid, d, payment);
    RunOneMore(matched, InsertEvent(sid));
    longer := matched + [InsertEvent(sid)];
    OnlyThisTwice(w, Run(started).value, Run(checked).value, sid);
    OnlyThisTwice(w, Run(checked).value, Run(matched).value, sid);
    OnlyThisTwice(w, Run(matched).value, Run(longer).value, sid);
  }

  // ---- The beginning of its transaction

  lemma LocksRow(w: World, sid: Sid, job: Job, tx: Tx)
    requires Place(w, sid, job, InTx(tx, Begun)) && Target(tx).Some? && tx.payment in w.db.payments
    requires PaymentRow(tx.payment) !in w.locks
    ensures Next(w, LockPayment(sid)).Some?
    ensures var after := Next(w, LockPayment(sid)).value;
            && Place(after, sid, job, InTx(tx, RowLocked(w.db.payments[tx.payment])))
            && OnlyThis(w, after, sid) && after.events == w.events
  {
  }

  lemma WritesRow(w: World, sid: Sid, job: Job, tx: Tx, row: Payment)
    requires Place(w, sid, job, InTx(tx, RowLocked(row))) && Decide(tx, Some(row)).Write?
    ensures Next(w, WriteRows(sid)).Some?
    ensures var after := Next(w, WriteRows(sid)).value;
            && Place(after, sid, job, InTx(tx, Working(Decide(tx, Some(row)).writes, map[], map[], [], false)))
            && OnlyThis(w, after, sid) && after.events == w.events
  {
  }

  /** A request whose guards pass gets as far as its first line. */
  lemma LockAndWrite(steps: seq<Step>, sid: Sid, job: Job, tx: Tx) returns (longer: seq<Step>)
    requires Run(steps).Some? && Place(Run(steps).value, sid, job, InTx(tx, Begun)) && Target(tx).Some?
    requires tx.payment in Run(steps).value.db.payments && PaymentRow(tx.payment) !in Run(steps).value.locks
    requires Decide(tx, Some(Run(steps).value.db.payments[tx.payment])).Write?
    ensures Run(longer).Some?
    ensures var w, after := Run(steps).value, Run(longer).value;
            var writes := Decide(tx, Some(w.db.payments[tx.payment])).writes;
            && Place(after, sid, job, InTx(tx, Working(writes, map[], map[], [], false)))
            && OnlyThis(w, after, sid) && after.events == w.events
  {
    var w := Run(steps).value;
    LocksRow(w, sid, job, tx);
    RunOneMore(steps, LockPayment(sid));
    var once := steps + [LockPayment(sid)];
    WritesRow(Run(once).value, sid, job, tx, w.db.payments[tx.payment]);
    RunOneMore(once, WriteRows(sid));
    longer := once + [WriteRows(sid)];
    OnlyThisTwice(w, Run(once).value, Run(longer).value, sid);
  }

  // ---- Its lines

  /** Ready to lock the account of its n-th line. */
  ghost predicate At(w: World, sid: Sid, lines: seq<Line>, n: nat) {
    && sid in w.sessions
    && var pc := w.sessions[sid].pc;
    && pc.InTx? && pc.phase.Working? && !pc.phase.holding
    && pc.phase.writes.lines == lines && |pc.phase.entries| == n <= |lines|
  }

  /** Between the two statements of its n-th line. */
  ghost predicate Between(w: World, sid: Sid, lines: seq<Line>, n: nat) {
    && sid in w.sessions
    && var pc := w.sessions[sid].pc;
    && pc.InTx? && pc.phase.Working? && pc.phase.holding
    && pc.phase.writes.lines == lines && |pc.phase.entries| == n < |lines|
  }

  /** The request is further on in the lines of its transaction. */
  ghost predicate OnlyMoved(w: World, after: World, sid: Sid) {
    && OnlyThis(w, after, sid) && after.events == w.events
    && sid in w.sessions && SameWork(w.sessions[sid], after.sessions[sid])
  }

  ghost predicate SameWork(before: Session, after: Session) {
    && after.job == before.job
    && before.pc.InTx? && after.pc.InTx? && after.pc.tx == before.pc.tx
    && before.pc.phase.Working? && after.pc.phase.Working? && after.pc.phase.writes == before.pc.phase.writes
  }

  lemma LockOne(w: World, sid: Sid, lines: seq<Line>, n: nat)
    requires At(w, sid, lines, n) && n < |lines| && lines[n].code in w.db.accounts
    requires Free(w, sid, AccountRow(lines[n].code))
    ensures Next(w, LockAccount(sid)).Some?
    ensures var after := Next(w, LockAccount(sid)).value;
            Between(after, sid, lines, n) && OnlyMoved(w, after, sid)
  {
  }

  lemma PostOne(w: World, sid: Sid, lines: seq<Line>, n: nat)
    requires TxsOk(w.db, w.sessions) && Between(w, sid, lines, n) && RowCheck(lines[n].debit, lines[n].credit)
    ensures Next(w, PostEntry(sid)).Some?
    ensures var after := Next(w, PostEntry(sid)).value;
            At(after, sid, lines, n + 1) && OnlyMoved(w, after, sid)
  {
    var pc := w.sessions[sid].pc;
    assert TxOk(w.db, pc.tx, pc.phase);
    PostingShape(pc.phase.seen, lines[..n]);
  }

  lemma MovedTwice(a: World, b: World, c: World, sid: Sid)
    requires OnlyMoved(a, b, sid) && OnlyMoved(b, c, sid)
    ensures OnlyMoved(a, c, sid)
  {
  }

  lemma PostOneLine(steps: seq<Step>, sid: Sid, lines: seq<Line>, n: nat) returns (longer: seq<Step>)
    requires Run(steps).Some? && At(Run(steps).value, sid, lines, n) && n < |lines|
    requires lines[n].code in Run(steps).value.db.accounts && RowCheck(lines[n].debit, lines[n].credit)
    requires Free(Run(steps).value, sid, AccountRow(lines[n].code))
    ensures Run(longer).Some?
    ensures At(Run(longer).value, sid, lines, n + 1) && OnlyMoved(Run(steps).value, Run(longer).value, sid)
  {
    LockOne(Run(steps).value, sid, lines, n);
    RunOneMore(steps, LockAccount(sid));
    var once := steps + [LockAccount(sid)];
    RunIsSound(once);
    PostOne(Run(once).value, sid, lines, n);
    RunOneMore(once, PostEntry(sid));
    longer := once + [PostEntry(sid)];
    MovedTwice(Run(steps).value, Run(once).value, Run(longer).value, sid);
  }

  /** The first m lines can be posted and no other request holds their accounts. */
  ghost predicate ClearAhead(w: World, sid: Sid, lines: seq<Line>, m: nat)
    requires m <= |lines|
  {
    && (forall k :: 0 <= k < m ==> lines[k].code in w.db.accounts && RowCheck(lines[k].debit, lines[k].credit))
    && (forall other, k :: other in w.sessions && other != sid && 0 <= k < m ==>
      !Holds(w.sessions[other], AccountRow(lines[k].code)))
  }

  lemma StaysClear(w: World, after: World, sid: Sid, lines: seq<Line>, m: nat)
    requires m <= |lines| && ClearAhead(w, sid, lines, m) && OnlyMoved(w, after, sid)
    ensures ClearAhead(after, sid, lines, m)
  {
  }

  lemma FreeIfClear(w: World, sid: Sid, lines: seq<Line>, n: nat)
    requires LocksOk(w.locks, w.sessions) && n < |lines| && ClearAhead(w, sid, lines, n + 1)
    ensures Free(w, sid, AccountRow(lines[n].code))
  {
    var r := AccountRow(lines[n].code);
    if r in w.locks {
      assert Holds(w.sessions[w.locks[r]], r);
    }
  }

  /** Running one request ahead to its m-th line. */
  lemma {:induction false} PostAhead(steps: seq<Step>, sid: Sid, lines: seq<Line>, m: nat)
    returns (longer: seq<Step>)
    requires Run(steps).Some? && At(Run(steps).value, sid, lines, 0) && m <= |lines|
    requires ClearAhead(Run(steps).value, sid, lines, m)
    ensures Run(longer).Some?
    ensures At(Run(longer).value, sid, lines, m) && OnlyMoved(Run(steps).value, Run(longer).value, sid)
    decreases m
  {
    if m == 0 {
      longer := steps;
    } else {
      var most := PostAhead(steps, sid, lines, m - 1);
      RunIsSound(most);
      StaysClear(Run(steps).value, Run(most).value, sid, lines, m);
      FreeIfClear(Run(most).value, sid, lines, m - 1);
      longer := PostOneLine(most, sid, lines, m - 1);
      MovedTwice(Run(steps).value, Run(most).value, Run(longer).value, sid);
    }
  }

  // ---- A request on its own

  /** The only request in flight. */
  ghost predicate Alone(w: World, job: Job, pc: Pc) {
    w.sessions == map[0 := Session(job, pc)]
  }

  lemma NoLocks(w: World)
    requires LocksOk(w.locks, w.sessions) && forall sid, r :: sid in w.sessions ==> !Holds(w.sessions[sid], r)
    ensures w.locks == map[]
  {
  }

  /** What is left of the request once its transaction has committed. */
  function Rest(job: Job): map<Sid, Session> {
    if job.HookJob? then map[0 := Session(job, Marking(false))] else map[]
  }

  lemma Committed(w: World, job: Job, tx: Tx, lines: seq<Line>)
    requires w.sessions.Keys == {0} && At(w, 0, lines, |lines|) && w.sessions[0].job == job
    requires w.sessions[0].pc.tx == tx && Target(tx).Some?
    ensures Next(w, CommitTx(0, true)).Some?
    ensures var after := Next(w, CommitTx(0, true)).value;
            && after.sessions == Rest(job) && after.events == w.events && after.issued == w.issued
            && after.history == w.history + [Commit(tx, DeliveryOf(job))]
  {
  }

  /** A run that has appended one transaction. */
  lemma AppendedIsExec(steps: seq<Step>, longer: seq<Step>, c: Commit)
    requires Run(steps).Some? && Run(longer).Some?
    requires Run(longer).value.history == Run(steps).value.history + [c]
    ensures Exec(Run(steps).value.db, c.tx) == Some(Run(longer).value.db)
  {
    var history := Run(steps).value.history;
    EveryRunIsSerial(steps);
    EveryRunIsSerial(longer);
    TxsAppend(history, c);
    ReplayOneMore(Txs(history), c.tx);
  }

  ghost predicate LinesPostable(db: Db, tx: Tx, row: Payment) {
    Decide(tx, Some(row)).Write? &&
    forall k :: 0 <= k < |Decide(tx, Some(row)).writes.lines| ==>
      var line := Decide(tx, Some(row)).writes.lines[k];
      line.code in db.accounts && RowCheck(line.debit, line.credit)
  }

  lemma AtTheEnd(steps: seq<Step>, job: Job, tx: Tx) returns (longer: seq<Step>)
    requires Run(steps).Some? && Alone(Run(steps).value, job, InTx(tx, Begun)) && Target(tx).Some?
    requires tx.payment in Run(steps).value.db.payments
    requires LinesPostable(Run(steps).value.db, tx, Run(steps).value.db.payments[tx.payment])
    ensures Run(longer).Some?
    ensures var w, after := Run(steps).value, Run(longer).value;
            var lines := Decide(tx, Some(w.db.payments[tx.payment])).writes.lines;
            && after.sessions.Keys == {0} && At(after, 0, lines, |lines|) && after.sessions[0].job == job
            && after.sessions[0].pc.tx == tx && OnlyThis(w, after, 0) && after.events == w.events
  {
    var w := Run(steps).value;
    var lines := Decide(tx, Some(w.db.payments[tx.payment])).writes.lines;
    RunIsSound(steps);
    NoLocks(w);
    var written := LockAndWrite(steps, 0, job, tx);
    longer := PostAhead(written, 0, lines, |lines|);
    OnlyThisTwice(w, Run(written).value, Run(longer).value, 0);
  }

  /** A request alone in the service runs its transaction to the commit. */
  lemma RunTx(steps: seq<Step>, job: Job, tx: Tx) returns (longer: seq<Step>)
    requires Run(steps).Some? && Alone(Run(steps).value, job, InTx(tx, Begun)) && Target(tx).Some?
    requires tx.payment in Run(steps).value.db.payments
    requires LinesPostable(Run(steps).value.db, tx, Run(steps).value.db.payments[tx.payment])
    ensures Run(longer).Some?
    ensures var w, after := Run(steps).value, Run(longer).value;
            && after.sessions == Rest(job) && after.events == w.events && after.issued == w.issued
            && after.history == w.history + [Commit(tx, DeliveryOf(job))]
            && Exec(w.db, tx) == Some(after.db)
  {
    var lines := Decide(tx, Some(Run(steps).value.db.payments[tx.payment])).writes.lines;
    var posted := AtTheEnd(steps, job, tx);
    Committed(Run(posted).value, job, tx, lines);
    RunOneMore(posted, CommitTx(0, true));
    longer := posted + [CommitTx(0, true)];
    AppendedIsExec(steps, longer, Commit(tx, DeliveryOf(job)));
  }
}
