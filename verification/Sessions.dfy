/**
 The service as a concurrent system: requests run the Go functions of
 internal/service statement by statement, interleaved in any way, each on its own
 READ COMMITTED transaction with row locks held until it ends. Writes stay
 private until the commit; a request may fail or disappear before any statement.
 */
module Sessions {
  import opened Options
  import opened PaymentStates
  import opened Ledger
  import opened LedgerBounds
  import opened Transactions

  type Sid = nat

  datatype Resource = PaymentRow(payment: string) | AccountRow(code: string)

  /** A delivered webhook, with the event type exactly as received. */
  datatype Delivery = Delivery(psp: string, eventType: string, payload: Payload)

  /** The SHA-1 UUID of the raw bytes, and what extractPSPPaymentID and extractRefundAmount find in them. */
  datatype Payload = Payload(digest: string, reference: string, refund: int)

  /** What is done about an event; two event types come to each of the first three. */
  datatype Event = CaptureEvent | FailureEvent | RefundEvent | OtherEvent

  function Classify(eventType: string): Event {
    if eventType == "payment.captured" || eventType == "payment_intent.succeeded" then CaptureEvent
    else if eventType == "payment.failed" || eventType == "payment_intent.payment_failed" then FailureEvent
    else if eventType == "refund.created" || eventType == "refund.processed" then RefundEvent
    else OtherEvent
  }

  /** The UNIQUE idempotency_key. */
  type Key = string

  function KeyOf(d: Delivery): Key {
    d.psp + ":" + d.eventType + ":" + d.payload.digest
  }

  /** A row of webhook_events. The owner is the request that inserted it. */
  datatype EventRow = EventRow(owner: Sid, status: EventStatus)

  datatype EventStatus = EventProcessing | EventProcessed | EventFailed

  /** What a request was asked to do. */
  datatype Job =
    | CreateJob(payment: string, amount: int, psp: string)
    | CaptureJob(payment: string)
    | RefundJob(payment: string, amount: int)
    | CancelJob(payment: string)
    | HookJob(delivery: Delivery)
    | PostJob(header: Header, lines: seq<Line>)

  /** Where a request is. */
  datatype Pc =
    | CallingPsp                                   // CreatePayment, between its two transactions
    | ReadingPayment                               // CancelPayment, before GetPayment
    | Cancelling(reference: string)                // CancelPayment, the PSP has been asked
    | CheckingDuplicate                            // ingestWebhookInternal, step 3
    | LookingUp                                    // step 5
    | Inserting(found: Option<string>)             // step 6
    | InTx(tx: Tx, phase: Phase)
    | Marking(failed: bool)                        // step 8

  datatype Phase =
    | Begun
    | RowLocked(row: Payment)
    | Working(writes: Writes, seen: Accounts, view: Accounts, entries: seq<Entry>, holding: bool)

  datatype Session = Session(job: Job, pc: Pc)

  /** A committed transaction, and the delivery it belongs to. */
  datatype Commit = Commit(tx: Tx, delivery: Option<Delivery>)

  datatype World = World(
    db: Db,                                        // the committed rows
    events: map<Key, EventRow>,                    // webhook_events, one autocommitted statement at a time
    locks: map<Resource, Sid>,
    sessions: map<Sid, Session>,
    history: seq<Commit>,                          // in commit order
    issued: set<string>)                           // payment ids generated so far

  const START := World(SEED, map[], map[], map[], [], {})

  datatype Step =
    | Start(sid: Sid, job: Job)
    | LockPayment(sid: Sid)
    | WriteRows(sid: Sid)
    | LockAccount(sid: Sid)
    | PostEntry(sid: Sid)
    | CommitTx(sid: Sid, acknowledged: bool)
    | RollBack(sid: Sid)
    | Vanish(sid: Sid)
    | PspAnswers(sid: Sid, reference: Option<string>)
    | ReadPayment(sid: Sid)
    | PspCancels(sid: Sid)
    | FindNoDuplicate(sid: Sid)
    | LookUp(sid: Sid, found: Option<string>)
    | InsertEvent(sid: Sid)
    | MarkEvent(sid: Sid)

  // ---- Locks

  predicate Holds(s: Session, r: Resource) {
    && s.pc.InTx?
    && match r
       case PaymentRow(p) => Target(s.pc.tx) == Some(p) && !s.pc.phase.Begun?
       case AccountRow(c) => s.pc.phase.Working? && c in s.pc.phase.seen
  }

  /** The lock the session's next statement asks for, if it asks for one. */
  function Wants(s: Session): Option<Resource> {
    if !s.pc.InTx? then None
    else
      match s.pc.phase
      case Begun => if Target(s.pc.tx).Some? then Some(PaymentRow(Target(s.pc.tx).value)) else None
      case RowLocked(_) => None
      case Working(writes, _, _, entries, holding) =>
        if !holding && |entries| < |writes.lines| then Some(AccountRow(writes.lines[|entries|].code)) else None
  }

  predicate Free(w: World, sid: Sid, r: Resource) {
    r !in w.locks || w.locks[r] == sid
  }

  function Release(locks: map<Resource, Sid>, sid: Sid): map<Resource, Sid> {
    map r | r in locks && locks[r] != sid :: locks[r]
  }

  // ---- Moving one session

  function Put(w: World, sid: Sid, pc: Pc): World
    requires sid in w.sessions
  {
    w.(sessions := w.sessions[sid := w.sessions[sid].(pc := pc)])
  }

  function Remove(w: World, sid: Sid): World {
    w.(sessions := w.sessions - {sid}, locks := Release(w.locks, sid))
  }

  /** The transaction of a request is over, committed as far as the Go function knows: its locks are gone and
      the function goes on. */
  function Leave(w: World, sid: Sid, committed: bool): World
    requires sid in w.sessions && w.sessions[sid].pc.InTx?
  {
    var s := w.sessions[sid];
    if s.job.HookJob? then
      Put(w, sid, Marking(!committed && !NothingToDo(s.pc))).(locks := Release(w.locks, sid))
    else if s.job.CreateJob? && s.pc.tx.InsertPayment? && committed then
      Put(w, sid, CallingPsp).(locks := Release(w.locks, sid))
    else
      Remove(w, sid)
  }

  /** The transaction ends in a nil return although it writes nothing. */
  predicate NothingToDo(pc: Pc)
    requires pc.InTx?
  {
    pc.phase.RowLocked? && Decide(pc.tx, Some(pc.phase.row)).NoOp?
  }

  predicate Admissible(w: World, job: Job) {
    match job
    case CreateJob(p, amount, _) => p !in w.issued && Validated(amount)
    case RefundJob(_, amount) => Validated(amount)
    case _ => true
  }

  function FirstPc(job: Job): Pc {
    match job
    case CreateJob(p, amount, psp) => InTx(InsertPayment(p, amount, psp), Begun)
    case CaptureJob(p) => InTx(ApiCapture(p), Begun)
    case RefundJob(p, amount) => InTx(ApiRefund(p, amount), Begun)
    case CancelJob(_) => ReadingPayment
    case HookJob(_) => CheckingDuplicate
    case PostJob(header, lines) => InTx(PostLedger(header, lines), Begun)
  }

  function DoStart(w: World, sid: Sid, job: Job): Option<World> {
    if sid in w.sessions || !Admissible(w, job) then None
    else
      Some(w.(sessions := w.sessions[sid := Session(job, FirstPc(job))],
              issued := if job.CreateJob? then w.issued + {job.payment} else w.issued))
  }

  // ---- Statements inside a transaction

  /** SELECT ... FROM payments ... FOR UPDATE */
  function DoLockPayment(w: World, sid: Sid, tx: Tx): Option<World>
    requires sid in w.sessions
  {
    match Target(tx)
    case None => None
    case Some(p) =>
      if p !in w.db.payments || PaymentRow(p) in w.locks then None
      else Some(Put(w, sid, InTx(tx, RowLocked(w.db.payments[p]))).(locks := w.locks[PaymentRow(p) := sid]))
  }

  /** The guards, the call to the PSP, and the payment, transition and header rows. */
  function DoWriteRows(w: World, sid: Sid, tx: Tx, phase: Phase): Option<World>
    requires sid in w.sessions
  {
    if phase.Working? || (phase.Begun? && Target(tx).Some?) then None
    else
      var decision := Decide(tx, if phase.RowLocked? then Some(phase.row) else Read(w.db, tx));
      if !decision.Write? then None
      else Some(Put(w, sid, InTx(tx, Working(decision.writes, map[], map[], [], false))))
  }

  /** SELECT ... FROM ledger_accounts ... FOR UPDATE */
  function DoLockAccount(w: World, sid: Sid, tx: Tx, phase: Phase): Option<World>
    requires sid in w.sessions && phase.Working?
  {
    if phase.holding || |phase.entries| >= |phase.writes.lines| then None
    else
      var code := phase.writes.lines[|phase.entries|].code;
      if code !in w.db.accounts || !Free(w, sid, AccountRow(code)) then None
      else if code in phase.seen then Some(Put(w, sid, InTx(tx, phase.(holding := true))))
      else
        var row := w.db.accounts[code];
        Some(Put(w, sid, InTx(tx, phase.(seen := phase.seen[code := row], view := phase.view[code := row],
                                         holding := true)))
             .(locks := w.locks[AccountRow(code) := sid]))
  }

  /** UPDATE ledger_accounts and INSERT INTO ledger_entries */
  function DoPostEntry(w: World, sid: Sid, tx: Tx, phase: Phase): Option<World>
    requires sid in w.sessions && phase.Working?
  {
    if !phase.holding || |phase.entries| >= |phase.writes.lines| then None
    else
      var done := PostLine(phase.view, phase.entries, phase.writes.lines[|phase.entries|]);
      if done.Refused? then None
      else Some(Put(w, sid, InTx(tx, phase.(view := done.accounts, entries := done.entries, holding := false))))
  }

  function DeliveryOf(job: Job): Option<Delivery> {
    if job.HookJob? then Some(job.delivery) else None
  }

  /** The private rows become visible all at once, and the locks are released. When the acknowledgement is
      lost the Go function takes the commit for failed. */
  function DoCommit(w: World, sid: Sid, tx: Tx, phase: Phase, acknowledged: bool): Option<World>
    requires sid in w.sessions && w.sessions[sid].pc == InTx(tx, phase) && phase.Working?
  {
    if phase.holding || |phase.entries| != |phase.writes.lines| then None
    else
      Some(Leave(w, sid, acknowledged)
           .(db := Publish(w.db, phase.writes, w.db.accounts + phase.view, phase.entries),
             history := w.history + [Commit(tx, DeliveryOf(w.sessions[sid].job))]))
  }

  // ---- Statements outside a transaction

  /** retry.Do has returned: Some is the PSP's payment id, None the last error. */
  function DoPspAnswers(w: World, sid: Sid, s: Session, reference: Option<string>): Option<World>
    requires sid in w.sessions
  {
    if !s.pc.CallingPsp? || !s.job.CreateJob? then None
    else
      var tx := match reference
                case Some(id) => Move(s.job.payment, Created, Authorized, id)
                case None => Move(s.job.payment, Created, Failed, "");
      Some(Put(w, sid, InTx(tx, Begun)))
  }

  function DoReadPayment(w: World, sid: Sid, s: Session): Option<World>
    requires sid in w.sessions
  {
    if !s.pc.ReadingPayment? || !s.job.CancelJob? || s.job.payment !in w.db.payments then None
    else
      var row := w.db.payments[s.job.payment];
      if row.reference.None? || row.status != Authorized then None
      else Some(Put(w, sid, Cancelling(row.reference.value)))
  }

  function DoPspCancels(w: World, sid: Sid, s: Session): Option<World>
    requires sid in w.sessions
  {
    if !s.pc.Cancelling? || !s.job.CancelJob? then None
    else Some(Put(w, sid, InTx(Move(s.job.payment, Authorized, Cancelled, s.pc.reference), Begun)))
  }

  function DoFindNoDuplicate(w: World, sid: Sid, s: Session): Option<World>
    requires sid in w.sessions
  {
    if !s.pc.CheckingDuplicate? || !s.job.HookJob? || KeyOf(s.job.delivery) in w.events then None
    else Some(Put(w, sid, LookingUp))
  }

  predicate Matches(row: Payment, delivery: Delivery) {
    row.psp == delivery.psp && row.reference == Some(delivery.payload.reference)
  }

  /** Any row with this PSP reference; None also stands for a failed query. */
  function DoLookUp(w: World, sid: Sid, s: Session, found: Option<string>): Option<World>
    requires sid in w.sessions
  {
    if !s.pc.LookingUp? || !s.job.HookJob? then None
    else if found.None? then Some(Put(w, sid, Inserting(None)))
    else if found.value !in w.db.payments then None
    else
      var row := w.db.payments[found.value];
      if !Matches(row, s.job.delivery) then None
      else Some(Put(w, sid, Inserting(found)))
  }

  /** What a delivery makes of the payment it was matched to. */
  function Process(delivery: Delivery, found: Option<string>): Pc {
    match Classify(delivery.eventType)
    case CaptureEvent => if found.Some? then InTx(HookCapture(found.value), Begun) else Marking(true)
    case FailureEvent => if found.Some? then InTx(HookFailure(found.value), Begun) else Marking(false)
    case RefundEvent =>
      if found.None? then Marking(false)
      else if delivery.payload.refund <= 0 then Marking(true)
      else InTx(HookRefund(found.value, delivery.payload.refund), Begun)
    case OtherEvent => Marking(false)
  }

  /** INSERT INTO webhook_events; the key is UNIQUE. */
  function DoInsertEvent(w: World, sid: Sid, s: Session): Option<World>
    requires sid in w.sessions
  {
    if !s.pc.Inserting? || !s.job.HookJob? || KeyOf(s.job.delivery) in w.events then None
    else
      Some(Put(w, sid, Process(s.job.delivery, s.pc.found))
           .(events := w.events[KeyOf(s.job.delivery) := EventRow(sid, EventProcessing)]))
  }

  function DoMarkEvent(w: World, sid: Sid, s: Session): Option<World>
    requires sid in w.sessions
  {
    if !s.pc.Marking? || !s.job.HookJob? || KeyOf(s.job.delivery) !in w.events then None
    else
      var status := if s.pc.failed then EventFailed else EventProcessed;
      var row := w.events[KeyOf(s.job.delivery)].(status := status);
      Some(Remove(w, sid).(events := w.events[KeyOf(s.job.delivery) := row]))
  }

  // ---- The transition relation

  /** The world after a step, or None when the step cannot be taken. */
  function Next(w: World, step: Step): Option<World> {
    if step.Start? then DoStart(w, step.sid, step.job)
    else if step.sid !in w.sessions then None
    else if step.Vanish? then Some(Remove(w, step.sid))
    else if w.sessions[step.sid].pc.InTx? then TxNext(w, step, w.sessions[step.sid].pc)
    else IdleNext(w, step, w.sessions[step.sid])
  }

  function TxNext(w: World, step: Step, pc: Pc): Option<World>
    requires step.sid in w.sessions && w.sessions[step.sid].pc == pc && pc.InTx?
  {
    match step
    case LockPayment(sid) => if pc.phase.Begun? then DoLockPayment(w, sid, pc.tx) else None
    case WriteRows(sid) => DoWriteRows(w, sid, pc.tx, pc.phase)
    case LockAccount(sid) => if pc.phase.Working? then DoLockAccount(w, sid, pc.tx, pc.phase) else None
    case PostEntry(sid) => if pc.phase.Working? then DoPostEntry(w, sid, pc.tx, pc.phase) else None
    case CommitTx(sid, acknowledged) =>
      if pc.phase.Working? then DoCommit(w, sid, pc.tx, pc.phase, acknowledged) else None
    case RollBack(sid) => Some(Leave(w, sid, false))
    case _ => None
  }

  function IdleNext(w: World, step: Step, s: Session): Option<World>
    requires step.sid in w.sessions && w.sessions[step.sid] == s
  {
    match step
    case PspAnswers(sid, reference) => DoPspAnswers(w, sid, s, reference)
    case ReadPayment(sid) => DoReadPayment(w, sid, s)
    case PspCancels(sid) => DoPspCancels(w, sid, s)
    case FindNoDuplicate(sid) => DoFindNoDuplicate(w, sid, s)
    case LookUp(sid, found) => DoLookUp(w, sid, s, found)
    case InsertEvent(sid) => DoInsertEvent(w, sid, s)
    case MarkEvent(sid) => DoMarkEvent(w, sid, s)
    case _ => None
  }

  /** The world after a run from the start; None when some step could not be taken. */
  function Run(steps: seq<Step>): Option<World> {
    if steps == [] then Some(START)
    else
      var before := Run(steps[..|steps| - 1]);
      if before.None? then None else Next(before.value, steps[|steps| - 1])
  }
}
