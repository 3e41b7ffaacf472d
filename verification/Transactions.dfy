/**
 The database transactions of internal/service/payment.go, webhook.go and
 ledger.go, each as one serial step on the tables.
 */
module Transactions {
  import opened Options
  import opened PaymentStates
  import opened Ledger

  /** A row of payments. The reference is psp_payment_id; None is NULL. */
  datatype Payment = Payment(
    amount: int,
    psp: string,
    status: Status,
    reference: Option<string>,
    totalRefunded: int)

  /** A row of payment_state_transitions. */
  datatype Transition = Transition(payment: string, edge: Edge)

  datatype Header = Header(payment: Option<string>, kind: string)

  /** A row of ledger_transactions together with its ledger_entries rows. */
  datatype LedgerTx = LedgerTx(header: Header, entries: seq<Entry>)

  datatype Db = Db(
    payments: map<string, Payment>,
    log: seq<Transition>,
    accounts: Accounts,
    journal: seq<LedgerTx>)

  /** The chart of accounts seeded by the migration, and no other row. */
  const SEED := Db(
    map[],
    [],
    map[
      "MERCHANT_RECV" := Account(Asset, 0),
      "PSP_SETTLEMENT" := Account(Asset, 0),
      "CUSTOMER_DEP" := Account(Liability, 0),
      "MERCHANT_PAY" := Account(Liability, 0),
      "FEE_PAYABLE" := Account(Liability, 0),
      "PLATFORM_FEE" := Account(Revenue, 0),
      "PROCESSING_FEE" := Account(Revenue, 0),
      "PSP_FEE_EXP" := Account(Expense, 0),
      "REFUND_EXP" := Account(Expense, 0)
    ],
    [])

  datatype Tx =
    | InsertPayment(payment: string, amount: int, psp: string)
    | Move(payment: string, from: Status, to: Status, reference: string)
    | ApiCapture(payment: string)
    | ApiRefund(payment: string, amount: int)
    | HookCapture(payment: string)
    | HookFailure(payment: string)
    | HookRefund(payment: string, amount: int)
    | PostLedger(header: Header, lines: seq<Line>)

  /** What a transaction writes once its guards have passed. */
  datatype Writes = Writes(
    rows: map<string, Payment>,
    log: seq<Transition>,
    header: Option<Header>,
    lines: seq<Line>)

  /** Reject is an error return, NoOp a nil return; both roll back. */
  datatype Decision = Reject | NoOp | Write(writes: Writes)

  /** The table constraint chk_refund_cap. */
  predicate RefundCheck(row: Payment) {
    0 <= row.totalRefunded <= row.amount
  }

  function Change(payment: string, row: Payment, from: Status, header: Option<Header>, lines: seq<Line>): Decision {
    if RefundCheck(row)
    then Write(Writes(map[payment := row], [Transition(payment, Edge(Some(from), row.status))], header, lines))
    else Reject
  }

  function CaptureLines(amount: int): seq<Line> {
    [Line(PSP_SETTLEMENT, amount, 0), Line(MERCHANT_PAY, 0, amount)]
  }

  function RefundLines(amount: int): seq<Line> {
    [Line(MERCHANT_PAY, amount, 0), Line(REFUND_EXP, 0, amount)]
  }

  function NewReference(reference: string, row: Payment): Option<string> {
    if reference == "" then row.reference else Some(reference)
  }

  /** The guards and the new rows of a transaction, given the payment row it reads. */
  function Decide(tx: Tx, read: Option<Payment>): Decision {
    match tx
    case InsertPayment(p, amount, psp) =>
      if read.Some? then Reject
      else
        var row := Payment(amount, psp, Created, None, 0);
        if RefundCheck(row)
        then Write(Writes(map[p := row], [Transition(p, Edge(None, Created))], None, []))
        else Reject
    case PostLedger(header, lines) =>
      if !Acceptable(lines) || (header.payment.Some? && read.None?) then Reject
      else Write(Writes(map[], [], Some(header), lines))
    case _ =>
      if read.None? then Reject else DecideRow(tx, read.value)
  }

  /** The guards the Go functions check, without the table constraint. */
  predicate GuardsFail(tx: Tx, row: Payment)
    requires !tx.InsertPayment? && !tx.PostLedger?
  {
    match tx
    case Move(_, from, to, _) => !CanTransition(from, to) || row.status != from
    case ApiCapture(_) => row.reference.None? || row.status != Authorized
    case ApiRefund(_, amount) =>
      || row.reference.None?
      || (row.status != Captured && row.status != PartiallyRefunded)
      || amount > row.amount - row.totalRefunded
    case HookCapture(_) => row.status != Captured && !CanTransition(row.status, Captured)
    case HookFailure(_) => !IsTerminal(row.status) && !CanTransition(row.status, Failed)
    case HookRefund(_, amount) =>
      amount <= 0 || !CanTransition(row.status, if amount < row.amount then PartiallyRefunded else Refunded)
  }

  function DecideRow(tx: Tx, row: Payment): Decision
    requires !tx.InsertPayment? && !tx.PostLedger?
  {
    if GuardsFail(tx, row) then Reject
    else
      match tx
      case Move(p, from, to, reference) =>
        Change(p, row.(status := to, reference := NewReference(reference, row)), from, None, [])
      case ApiCapture(p) => Change(p, row.(status := Captured), Authorized, None, [])
      case ApiRefund(p, amount) =>
        var total := row.totalRefunded + amount;
        var status := if total >= row.amount then Refunded else PartiallyRefunded;
        Change(p, row.(status := status, totalRefunded := total), row.status, None, [])
      case HookCapture(p) =>
        if row.status == Captured then NoOp
        else
          Change(p, row.(status := Captured), row.status,
                 Some(Header(Some(p), "payment_capture")), CaptureLines(row.amount))
      case HookFailure(p) =>
        if IsTerminal(row.status) then NoOp else Change(p, row.(status := Failed), row.status, None, [])
      case HookRefund(p, amount) =>
        Change(p, row.(status := if amount < row.amount then PartiallyRefunded else Refunded), row.status,
               Some(Header(Some(p), "refund")), RefundLines(amount))
  }

  /** The payment row a transaction reads: its target, or the one its foreign key names. */
  function Named(tx: Tx): Option<string> {
    if tx.PostLedger? then tx.header.payment else Some(tx.payment)
  }

  function Read(db: Db, tx: Tx): Option<Payment> {
    match Named(tx)
    case None => None
    case Some(p) => if p in db.payments then Some(db.payments[p]) else None
  }

  /** The payment row a transaction locks with SELECT ... FOR UPDATE or UPDATE. */
  function Target(tx: Tx): Option<string> {
    if tx.InsertPayment? || tx.PostLedger? then None else Some(tx.payment)
  }

  function Journalled(header: Option<Header>, entries: seq<Entry>): seq<LedgerTx> {
    if header.None? then [] else [LedgerTx(header.value, entries)]
  }

  function Publish(db: Db, writes: Writes, accounts: Accounts, entries: seq<Entry>): Db {
    Db(db.payments + writes.rows, db.log + writes.log, accounts,
       db.journal + Journalled(writes.header, entries))
  }

  /** Running one transaction alone; None when it does not commit. */
  function Exec(db: Db, tx: Tx): Option<Db> {
    var decision := Decide(tx, Read(db, tx));
    if !decision.Write? then None
    else
      var done := PostLines(db.accounts, decision.writes.lines);
      if done.Refused? then None
      else Some(Publish(db, decision.writes, done.accounts, done.entries))
  }

  /** Running committed transactions one after the other on the seeded tables. */
  function Replay(history: seq<Tx>): Option<Db> {
    if history == [] then Some(SEED)
    else
      var before := Replay(history[..|history| - 1]);
      if before.None? then None else Exec(before.value, history[|history| - 1])
  }

  lemma ReplayOneMore(history: seq<Tx>, tx: Tx)
    ensures Replay(history + [tx]) == if Replay(history).None? then None else Exec(Replay(history).value, tx)
  {
    assert (history + [tx])[..|history|] == history;
  }

  lemma LastOf(history: seq<Tx>)
    requires history != []
    ensures history[..|history| - 1] + [history[|history| - 1]] == history
  {
  }

  /** Every prefix of a serial history is one. */
  lemma {:induction false} PrefixReplays(history: seq<Tx>, n: nat)
    requires n <= |history| && Replay(history).Some?
    ensures Replay(history[..n]).Some?
    decreases |history|
  {
    if n < |history| {
      PrefixReplays(history[..|history| - 1], n);
      assert history[..|history| - 1][..n] == history[..n];
    } else {
      assert history[..n] == history;
    }
  }
}
