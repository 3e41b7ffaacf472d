/** Runs that leave an idle service with one more payment. */
module SetUp {
  import opened Options
  import opened PaymentStates
  import opened LedgerBounds
  import opened Transactions
  import opened AuditTrail
  import opened BookKeeping
  import opened Sessions
  import opened CreateRace
  import opened Driving

  /** The service is idle, and one payment more has been created. */
  ghost predicate Added(w: World, after: World, payment: string, row: Payment) {
    && after.sessions == map[] && after.events == w.events && after.issued == w.issued + {payment}
    && after.db.payments == w.db.payments[payment := row] && after.db.accounts == w.db.accounts
  }

  lemma PlainKeepsAccounts(db: Db, tx: Tx)
    requires Exec(db, tx).Some? && !tx.PostLedger? && !tx.HookCapture? && !tx.HookRefund?
    ensures Exec(db, tx).value.accounts == db.accounts
  {
    ExecPosts(db, tx);
    LinesAre(db, tx);
  }

  lemma Opens(w: World, payment: string, amount: int, psp: string)
    requires w.sessions == map[] && payment !in w.issued && Validated(amount)
    ensures var job := CreateJob(payment, amount, psp);
            && Next(w, Start(0, job)).Some?
            && var after := Next(w, Start(0, job)).value;
            && Alone(after, job, InTx(InsertPayment(payment, amount, psp), Begun))
            && after.db == w.db && after.history == w.history && after.events == w.events
            && after.issued == w.issued + {payment}
  {
  }

  lemma InsertsRow(w: World, job: Job, tx: Tx)
    requires Alone(w, job, InTx(tx, Begun)) && tx.InsertPayment? && Decide(tx, Read(w.db, tx)).Write?
    ensures Next(w, WriteRows(0)).Some?
    ensures var after := Next(w, WriteRows(0)).value;
            && Alone(after, job, InTx(tx, Working(Decide(tx, Read(w.db, tx)).writes, map[], map[], [], false)))
            && OnlyThis(w, after, 0) && after.events == w.events
  {
  }

  lemma CommitsRow(w: World, job: Job, tx: Tx, writes: Writes)
    requires Alone(w, job, InTx(tx, Working(writes, map[], map[], [], false))) && writes.lines == []
    requires job.CreateJob? && tx.InsertPayment?
    ensures Next(w, CommitTx(0, true)).Some?
    ensures var after := Next(w, CommitTx(0, true)).value;
            && Alone(after, job, CallingPsp) && after.events == w.events && after.issued == w.issued
            && after.history == w.history + [Commit(tx, None)]
  {
  }

  lemma PspAgrees(w: World, payment: string, amount: int, psp: string, reference: string)
    requires Alone(w, CreateJob(payment, amount, psp), CallingPsp)
    ensures var job := CreateJob(payment, amount, psp);
            && Next(w, PspAnswers(0, Some(reference))).Some?
            && var after := Next(w, PspAnswers(0, Some(reference))).value;
            && Alone(after, job, InTx(Move(payment, Created, Authorized, reference), Begun))
            && OnlyThis(w, after, 0) && after.events == w.events
  {
  }

  lemma FreshIsAbsent(steps: seq<Step>, payment: string)
    requires Run(steps).Some? && payment !in Run(steps).value.issued
    ensures payment !in Run(steps).value.db.payments
  {
    RunIsRaceFree(steps);
  }

  lemma CreateRun(steps: seq<Step>, payment: string, amount: int, psp: string) returns (longer: seq<Step>)
    requires Run(steps).Some? && Run(steps).value.sessions == map[]
    requires payment !in Run(steps).value.issued && Validated(amount)
    ensures Run(longer).Some?
    ensures var w, after := Run(steps).value, Run(longer).value;
            && Alone(after, CreateJob(payment, amount, psp), CallingPsp)
            && after.events == w.events && after.issued == w.issued + {payment}
            && after.db.payments == w.db.payments[payment := Payment(amount, psp, Created, None, 0)]
            && after.db.accounts == w.db.accounts
  {
    var w, job, tx := Run(steps).value, CreateJob(payment, amount, psp), InsertPayment(payment, amount, psp);
    FreshIsAbsent(steps, payment);
    Opens(w, payment, amount, psp);
    RunOneMore(steps, Start(0, job));
    var begun := steps + [Start(0, job)];
    InsertsRow(Run(begun).value, job, tx);
    RunOneMore(begun, WriteRows(0));
    var written := begun + [WriteRows(0)];
    CommitsRow(Run(written).value, job, tx, Decide(tx, None).writes);
    RunOneMore(written, CommitTx(0, true));
    longer := written + [CommitTx(0, true)];
    AppendedIsExec(written, longer, Commit(tx, None));
    ExecInsert(w.db, tx);
    PlainKeepsAccounts(w.db, tx);
  }

  ghost predicate Replaces(tx: Tx, before: Payment, after: Payment)
    requires Target(tx).Some?
  {
    && Decide(tx, Some(before)).Write?
    && Decide(tx, Some(before)).writes.rows == map[tx.payment := after]
    && Decide(tx, Some(before)).writes.lines == []
  }

  lemma AuthorizeDecides(payment: string, amount: int, psp: string, reference: string)
    requires Validated(amount) && reference != ""
    ensures Replaces(Move(payment, Created, Authorized, reference), Payment(amount, psp, Created, None, 0),
                     Payment(amount, psp, Authorized, Some(reference), 0))
  {
  }

  lemma CaptureDecides(payment: string, amount: int, psp: string, reference: string)
    requires Validated(amount)
    ensures Replaces(ApiCapture(payment), Payment(amount, psp, Authorized, Some(reference), 0),
                     Payment(amount, psp, Captured, Some(reference), 0))
  {
  }

  lemma RowReplaced(db: Db, tx: Tx, after: Payment)
    requires Exec(db, tx).Some? && (tx.Move? || tx.ApiCapture?) && tx.payment in db.payments
    requires Replaces(tx, db.payments[tx.payment], after)
    ensures Exec(db, tx).value.payments == db.payments[tx.payment := after]
    ensures Exec(db, tx).value.accounts == db.accounts
  {
    ExecTarget(db, tx);
    PlainKeepsAccounts(db, tx);
  }

  lemma SameKey(payments: map<string, Payment>, payment: string, first: Payment, second: Payment)
    ensures payments[payment := first][payment := second] == payments[payment := second]
  {
  }

  lemma AuthorizedRun(steps: seq<Step>, payment: string, amount: int, psp: string, reference: string)
    returns (longer: seq<Step>)
    requires Run(steps).Some? && Run(steps).value.sessions == map[]
    requires payment !in Run(steps).value.issued && Validated(amount) && reference != ""
    ensures Run(longer).Some?
    ensures Added(Run(steps).value, Run(longer).value, payment, Payment(amount, psp, Authorized, Some(reference), 0))
  {
    var created := CreateRun(steps, payment, amount, psp);
    PspAgrees(Run(created).value, payment, amount, psp, reference);
    RunOneMore(created, PspAnswers(0, Some(reference)));
    var answered := created + [PspAnswers(0, Some(reference))];
    var tx := Move(payment, Created, Authorized, reference);
    AuthorizeDecides(payment, amount, psp, reference);
    longer := RunTx(answered, CreateJob(payment, amount, psp), tx);
    RowReplaced(Run(answered).value.db, tx, Payment(amount, psp, Authorized, Some(reference), 0));
    SameKey(Run(steps).value.db.payments, payment, Payment(amount, psp, Created, None, 0),
            Payment(amount, psp, Authorized, Some(reference), 0));
  }

  lemma CaptureStarts(steps: seq<Step>, payment: string) returns (longer: seq<Step>)
    requires Run(steps).Some? && Run(steps).value.sessions == map[]
    ensures Run(longer).Some?
    ensures var w, after := Run(steps).value, Run(longer).value;
            && Alone(after, CaptureJob(payment), InTx(ApiCapture(payment), Begun))
            && after.db == w.db && after.events == w.events && after.issued == w.issued
  {
    Starts(Run(steps).value, 0, CaptureJob(payment));
    RunOneMore(steps, Start(0, CaptureJob(payment)));
    longer := steps + [Start(0, CaptureJob(payment))];
  }

  /** An idle service reaches one with a further captured payment. */
  lemma CapturedRun(steps: seq<Step>, payment: string, amount: int, psp: string, reference: string)
    returns (longer: seq<Step>)
    requires Run(steps).Some? && Run(steps).value.sessions == map[]
    requires payment !in Run(steps).value.issued && Validated(amount) && reference != ""
    ensures Run(longer).Some?
    ensures Added(Run(steps).value, Run(longer).value, payment, Payment(amount, psp, Captured, Some(reference), 0))
  {
    var authorized := AuthorizedRun(steps, payment, amount, psp, reference);
    var started := CaptureStarts(authorized, payment);
    CaptureDecides(payment, amount, psp, reference);
    longer := RunTx(started, CaptureJob(payment), ApiCapture(payment));
    RowReplaced(Run(started).value.db, ApiCapture(payment), Payment(amount, psp, Captured, Some(reference), 0));
    SameKey(Run(steps).value.db.payments, payment, Payment(amount, psp, Authorized, Some(reference), 0),
            Payment(amount, psp, Captured, Some(reference), 0));
  }
}
