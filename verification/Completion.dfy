/** Whatever the serial step allows, an idle service can bring to its end. */
module Completion {
  import opened Options
  import opened PaymentStates
  import opened Ledger
  import opened LedgerBounds
  import opened Transactions
  import opened Sessions
  import opened Serialisability
  import opened Deliveries
  import opened Driving
  import opened SetUp
  import opened Effects
  import Matching

  /** The request of the API that runs this transaction on a payment. */
  ghost predicate Requests(db: Db, job: Job, tx: Tx) {
    match job
    case CaptureJob(payment) => tx == ApiCapture(payment)
    case RefundJob(payment, amount) => tx == ApiRefund(payment, amount) && 1 <= amount <= 999_999_999_999
    case CancelJob(payment) =>
      && payment in db.payments && db.payments[payment].reference.Some?
      && tx == Move(payment, Authorized, Cancelled, db.payments[payment].reference.value)
    case _ => false
  }

  /** What commits can be posted. */
  lemma ExecIsPostable(db: Db, tx: Tx)
    requires Target(tx).Some? && tx.payment in db.payments && Exec(db, tx).Some?
    ensures LinesPostable(db, tx, db.payments[tx.payment])
  {
    PostsIff(db.accounts, Decide(tx, Some(db.payments[tx.payment])).writes.lines);
  }

  lemma RunsToCommit(steps: seq<Step>, job: Job, tx: Tx) returns (longer: seq<Step>)
    requires Run(steps).Some? && Alone(Run(steps).value, job, InTx(tx, Begun)) && Target(tx).Some?
    requires Exec(Run(steps).value.db, tx).Some?
    ensures Run(longer).Some?
    ensures var w, after := Run(steps).value, Run(longer).value;
            && after.sessions == Rest(job) && after.events == w.events && after.issued == w.issued
            && after.history == w.history + [Commit(tx, DeliveryOf(job))]
            && Exec(w.db, tx) == Some(after.db)
  {
    AbsentIsNotRun(Run(steps).value.db, tx);
    ExecIsPostable(Run(steps).value.db, tx);
    longer := RunTx(steps, job, tx);
  }

  lemma AbsentIsNotRun(db: Db, tx: Tx)
    requires Target(tx).Some? && Exec(db, tx).Some?
    ensures tx.payment in db.payments
  {
    if tx.payment !in db.payments {
      AbsentIsRefused(db, tx);
    }
  }

  // ---- Requests of the API

  lemma CancelReads(w: World, payment: string, reference: string)
    requires Place(w, 0, CancelJob(payment), ReadingPayment) && payment in w.db.payments
    requires w.db.payments[payment].status == Authorized && w.db.payments[payment].reference == Some(reference)
    ensures Next(w, ReadPayment(0)).Some?
    ensures var after := Next(w, ReadPayment(0)).value;
            && Place(after, 0, CancelJob(payment), Cancelling(reference))
            && OnlyThis(w, after, 0) && after.events == w.events
  {
  }

  lemma CancelAsks(w: World, payment: string, reference: string)
    requires Place(w, 0, CancelJob(payment), Cancelling(reference))
    ensures Next(w, PspCancels(0)).Some?
    ensures var after := Next(w, PspCancels(0)).value;
            && Place(after, 0, CancelJob(payment), InTx(Move(payment, Authorized, Cancelled, reference), Begun))
            && OnlyThis(w, after, 0) && after.events == w.events
  {
  }

  lemma CancelBegins(steps: seq<Step>, payment: string, reference: string) returns (longer: seq<Step>)
    requires Run(steps).Some? && Place(Run(steps).value, 0, CancelJob(payment), ReadingPayment)
    requires payment in Run(steps).value.db.payments
    requires Run(steps).value.db.payments[payment].status == Authorized
    requires Run(steps).value.db.payments[payment].reference == Some(reference)
    ensures Run(longer).Some?
    ensures var w, after := Run(steps).value, Run(longer).value;
            && Place(after, 0, CancelJob(payment), InTx(Move(payment, Authorized, Cancelled, reference), Begun))
            && OnlyThis(w, after, 0) && after.events == w.events
  {
    CancelReads(Run(steps).value, payment, reference);
    RunOneMore(steps, ReadPayment(0));
    var read := steps + [ReadPayment(0)];
    CancelAsks(Run(read).value, payment, reference);
    RunOneMore(read, PspCancels(0));
    longer := read + [PspCancels(0)];
    OnlyThisTwice(Run(steps).value, Run(read).value, Run(longer).value, 0);
  }

  lemma MoveNeeds(db: Db, payment: string, from: Status, to: Status, reference: string)
    requires Exec(db, Move(payment, from, to, reference)).Some?
    ensures payment in db.payments && db.payments[payment].status == from
  {
  }

  /** The request gets as far as its transaction. */
  lemma JobBegins(steps: seq<Step>, job: Job, tx: Tx) returns (longer: seq<Step>)
    requires Run(steps).Some? && Run(steps).value.sessions == map[]
    requires Requests(Run(steps).value.db, job, tx) && Exec(Run(steps).value.db, tx).Some?
    ensures Run(longer).Some?
    ensures var w, after := Run(steps).value, Run(longer).value;
            && Place(after, 0, job, InTx(tx, Begun)) && OnlyThis(w, after, 0) && after.events == w.events
  {
    var w := Run(steps).value;
    Starts(w, 0, job);
    RunOneMore(steps, Start(0, job));
    longer := steps + [Start(0, job)];
    if job.CancelJob? {
      MoveNeeds(w.db, tx.payment, Authorized, Cancelled, tx.reference);
      var started := longer;
      longer := CancelBegins(started, job.payment, tx.reference);
      OnlyThisTwice(w, Run(started).value, Run(longer).value, 0);
    }
  }

  lemma OnlyOne(w: World, after: World, job: Job, pc: Pc)
    requires w.sessions == map[] && Place(after, 0, job, pc) && OnlyThis(w, after, 0)
    ensures Alone(after, job, pc)
  {
  }

  /** From every idle state a capture, refund or cancellation that the serial step allows can be carried through,
      and has its effect. */
  lemma ApiJobCompletes(steps: seq<Step>, job: Job, tx: Tx) returns (longer: seq<Step>)
    requires Run(steps).Some? && Run(steps).value.sessions == map[]
    requires Requests(Run(steps).value.db, job, tx) && Exec(Run(steps).value.db, tx).Some?
    ensures Run(longer).Some?
    ensures var w, after := Run(steps).value, Run(longer).value;
            && after.sessions == map[] && after.events == w.events
            && after.history == w.history + [Commit(tx, None)]
            && Exec(w.db, tx) == Some(after.db)
  {
    var begun := JobBegins(steps, job, tx);
    OnlyOne(Run(steps).value, Run(begun).value, job, InTx(tx, Begun));
    longer := RunsToCommit(begun, job, tx);
  }

  // ---- Webhooks

  lemma MarksProcessed(w: World, d: Delivery)
    requires Alone(w, HookJob(d), Marking(false)) && KeyOf(d) in w.events
    ensures Next(w, MarkEvent(0)).Some?
    ensures var after := Next(w, MarkEvent(0)).value;
            && after.sessions == map[] && after.events.Keys == w.events.Keys
            && after.events[KeyOf(d)].status == EventProcessed
            && after.db == w.db && after.history == w.history
  {
  }

  lemma HookReceived(steps: seq<Step>, d: Delivery, payment: string, tx: Tx) returns (longer: seq<Step>)
    requires Run(steps).Some? && Run(steps).value.sessions == map[] && KeyOf(d) !in Run(steps).value.events
    requires Matching.Names(d, Run(steps).value.db.payments, payment) && AsksFor(d, payment, tx)
    ensures Run(longer).Some?
    ensures var w, after := Run(steps).value, Run(longer).value;
            && Alone(after, HookJob(d), InTx(tx, Begun)) && OnlyThis(w, after, 0)
            && after.events.Keys == w.events.Keys + {KeyOf(d)}
  {
    ProcessMeans(d, payment, tx, false);
    longer := Receive(steps, 0, d, payment);
    OnlyOne(Run(steps).value, Run(longer).value, HookJob(d), InTx(tx, Begun));
  }

  lemma HookTargets(d: Delivery, payment: string, tx: Tx)
    requires AsksFor(d, payment, tx)
    ensures Target(tx) == Some(payment)
  {
  }

  /** From every idle state a delivery with a new key that names a payment can have the effect its event type asks
      for, if the serial step allows it, and is marked as processed. */
  lemma HookCompletes(steps: seq<Step>, d: Delivery, payment: string, tx: Tx) returns (longer: seq<Step>)
    requires Run(steps).Some? && Run(steps).value.sessions == map[] && KeyOf(d) !in Run(steps).value.events
    requires Matching.Names(d, Run(steps).value.db.payments, payment) && AsksFor(d, payment, tx)
    requires Exec(Run(steps).value.db, tx).Some?
    ensures Run(longer).Some?
    ensures var w, after := Run(steps).value, Run(longer).value;
            && after.sessions == map[] && after.events.Keys == w.events.Keys + {KeyOf(d)}
            && after.events[KeyOf(d)].status == EventProcessed
            && after.history == w.history + [Commit(tx, Some(d))]
            && Exec(w.db, tx) == Some(after.db)
  {
    HookTargets(d, payment, tx);
    var received := HookReceived(steps, d, payment, tx);
    var ran := RunsToCommit(received, HookJob(d), tx);
    MarksProcessed(Run(ran).value, d);
    RunOneMore(ran, MarkEvent(0));
    longer := ran + [MarkEvent(0)];
  }

  // ---- CreatePayment

  lemma PspAnswered(w: World, payment: string, amount: int, psp: string, answer: Option<string>)
    requires Alone(w, CreateJob(payment, amount, psp), CallingPsp)
    ensures var tx := match answer
                      case Some(id) => Move(payment, Created, Authorized, id)
                      case None => Move(payment, Created, Failed, "");
            && Next(w, PspAnswers(0, answer)).Some?
            && var after := Next(w, PspAnswers(0, answer)).value;
            && Alone(after, CreateJob(payment, amount, psp), InTx(tx, Begun))
            && OnlyThis(w, after, 0) && after.events == w.events
  {
  }

  lemma Closes(db: Db, payment: string, amount: int, psp: string, answer: Option<string>)
    requires Validated(amount) && payment in db.payments
    requires db.payments[payment] == Payment(amount, psp, Created, None, 0)
    ensures var to, id := if answer.Some? then Authorized else Failed, if answer.Some? then answer.value else "";
            var closed := Payment(amount, psp, to, if id == "" then None else Some(id), 0);
            var done := Exec(db, Move(payment, Created, to, id));
            done.Some? && done.value.payments == db.payments[payment := closed]
  {
    var to, id := if answer.Some? then Authorized else Failed, if answer.Some? then answer.value else "";
    LegalChanges(Created, to);
    PlainCommits(db, Move(payment, Created, to, id),
                 Payment(amount, psp, to, if id == "" then None else Some(id), 0));
  }

  /** From every idle state a payment with a new id and an amount within the limits can be created, whatever its
      PSP answers. */
  lemma CreateCompletes(steps: seq<Step>, payment: string, amount: int, psp: string, answer: Option<string>)
    returns (longer: seq<Step>)
    requires Run(steps).Some? && Run(steps).value.sessions == map[]
    requires payment !in Run(steps).value.issued && 1 <= amount <= 999_999_999_999
    ensures Run(longer).Some?
    ensures var w, after := Run(steps).value, Run(longer).value;
            var to, id := if answer.Some? then Authorized else Failed, if answer.Some? then answer.value else "";
            && after.sessions == map[] && after.events == w.events
            && after.db.payments ==
               w.db.payments[payment := Payment(amount, psp, to, if id == "" then None else Some(id), 0)]
  {
    var to, id := if answer.Some? then Authorized else Failed, if answer.Some? then answer.value else "";
    var created := CreateRun(steps, payment, amount, psp);
    PspAnswered(Run(created).value, payment, amount, psp, answer);
    RunOneMore(created, PspAnswers(0, answer));
    var answered := created + [PspAnswers(0, answer)];
    Closes(Run(answered).value.db, payment, amount, psp, answer);
    longer := RunsToCommit(answered, CreateJob(payment, amount, psp), Move(payment, Created, to, id));
    SameKey(Run(steps).value.db.payments, payment, Payment(amount, psp, Created, None, 0),
            Payment(amount, psp, to, if id == "" then None else Some(id), 0));
  }

  // ---- Requests that do not complete

  /** A request may disappear at any point and roll back or lose the acknowledgement of its commit at any point of
      its transaction; only a commit leaves a trace in the tables and the history. */
  lemma FailureLeavesNothing(w: World, sid: Sid)
    requires sid in w.sessions
    ensures && Next(w, Vanish(sid)).Some? && sid !in Next(w, Vanish(sid)).value.sessions
            && var after := Next(w, Vanish(sid)).value;
            && after.db == w.db && after.history == w.history
            && forall r :: r in after.locks ==> after.locks[r] != sid
    ensures w.sessions[sid].pc.InTx? ==>
              && Next(w, RollBack(sid)).Some?
              && var after := Next(w, RollBack(sid)).value;
              && after.db == w.db && after.history == w.history
              && forall r :: r in after.locks ==> after.locks[r] != sid
    ensures Next(w, CommitTx(sid, true)).Some? ==>
              && Next(w, CommitTx(sid, false)).Some?
              && Next(w, CommitTx(sid, false)).value.db == Next(w, CommitTx(sid, true)).value.db
              && Next(w, CommitTx(sid, false)).value.history == Next(w, CommitTx(sid, true)).value.history
  {
  }
}
