/** CreatePayment (internal/service/payment.go) run alone, from routing to the recorded answer. */
module PaymentCreation {
  import opened Options
  import opened PaymentStates
  import opened Ledger
  import opened LedgerBounds
  import opened Transactions
  import opened Services
  import Retry
  import Router
  import CB = CircuitBreaker

  datatype CreateError =
    | AllPspsUnavailable
    | PspGaveUp(failure: Retry.Failure)
    | ReadBackFailed                               // GetPayment cannot scan a NULL psp_payment_id

  /** retry.DefaultConfig */
  const MAX_ATTEMPTS := 3

  /** The row CreatePayment leaves, given what the retry loop returned. */
  function Recorded(req: Router.Request, psp: string, answer: Retry.Result<string>): Payment {
    match answer
    case Done(reference) =>
      Payment(req.amount, psp, Authorized, if reference == "" then None else Some(reference), 0)
    case Gave(_) => Payment(req.amount, psp, Failed, None, 0)
  }

  /** The breaker of the PSP has learned of the answer, and no other. */
  ghost predicate Learned(cfg: CB.Config, before: Router.Views, after: Router.Views, psp: string, done: bool,
                          later: int)
    requires psp in before
  {
    && (done ==> after == before[psp := CB.After(cfg, before[psp], CB.Succeeded(later))])
    && (!done ==> after == before[psp := CB.After(cfg, before[psp], CB.Failed(later))])
  }

  /** Inserting under a fresh id with a validated amount always succeeds. */
  lemma Inserted(before: Db, id: string, amount: int, psp: string, after: Db, r: Services.Result)
    requires id !in before.payments && Validated(amount) && Ran(before, InsertPayment(id, amount, psp), after, r)
    ensures r.Pass?
    ensures after == before.(payments := before.payments[id := Payment(amount, psp, Created, None, 0)],
                             log := before.log + [Transition(id, Edge(None, Created))])
  {
    assert PostLines(before.accounts, []) == Posted(before.accounts, []);
    assert before.journal + [] == before.journal;
    assert before.payments + map[id := Payment(amount, psp, Created, None, 0)] ==
           before.payments[id := Payment(amount, psp, Created, None, 0)];
  }

  /** The closing update of a row that is still created always succeeds. */
  lemma Closed(before: Db, id: string, to: Status, reference: string, after: Db, r: Services.Result)
    requires id in before.payments && before.payments[id].status == Created && RefundCheck(before.payments[id])
    requires (to == Authorized || to == Failed) && Ran(before, Move(id, Created, to, reference), after, r)
    ensures r.Pass?
    ensures var row := before.payments[id];
            var closed := row.(status := to, reference := NewReference(reference, row));
            after == before.(payments := before.payments[id := closed],
                             log := before.log + [Transition(id, Edge(Some(Created), to))])
  {
    PlainChange(before, Move(id, Created, to, reference));
  }

  /** The PSP call with retries, and the one breaker outcome recorded after all of them. */
  method AskPsp(router: Router.PaymentRouter, name: string, psp: nat -> Retry.Attempt<string>,
                cancelled: nat -> bool, later: int)
    returns (answer: Retry.Result<string>, calls: nat)
    requires router.Valid() && name in router.Views()
    modifies router.Repr()
    ensures router.Valid() && Retry.IsRun(MAX_ATTEMPTS, psp, cancelled, calls, answer)
    ensures Learned(router.cfg, old(router.Views()), router.Views(), name, answer.Done?, later)
  {
    answer, calls := Retry.Do(MAX_ATTEMPTS, psp, cancelled);
    if answer.Done? {
      router.RecordSuccess(name, later);
    } else {
      router.RecordFailure(name, later);
    }
  }

  /** The breaker of the PSP that was asked at `now` has learned at `later` whether it answered; the others have
      learned nothing. */
  ghost predicate AskedAndLearned(cfg: CB.Config, before: Router.Views, after: Router.Views, psp: string, now: int,
                                  done: bool, later: int) {
    && psp in before && psp in after
    && var probed := CB.After(cfg, before[psp], CB.Asked(now));
    && after[psp] == CB.After(cfg, probed, if done then CB.Succeeded(later) else CB.Failed(later))
    && after == before[psp := after[psp]]
  }

  lemma LearnedAll(cfg: CB.Config, before: Router.Views, between: Router.Views, after: Router.Views, psp: string,
                   now: int, done: bool, later: int)
    requires psp in before && between == Router.Probed(cfg, before, psp, now)
    requires Learned(cfg, between, after, psp, done, later)
    ensures AskedAndLearned(cfg, before, after, psp, now, done, later)
    ensures done ==> after[psp].consecutiveFails == 0
    ensures !done ==> after[psp].consecutiveFails == before[psp].consecutiveFails + 1
  {
  }

  /** The two transactions of the call: the payment is new, and has the reference the PSP gave when it is
      authorized; nothing else changes. */
  ghost predicate Stored(before: Db, after: Db, id: string, req: Router.Request, psp: string,
                         answer: Retry.Result<string>) {
    && id in after.payments
    && var row := after.payments[id];
    && row.amount == req.amount && row.psp == psp && row.totalRefunded == 0
    && (answer.Done? ==>
      row.status == Authorized && row.reference == if answer.value == "" then None else Some(answer.value))
    && (answer.Gave? ==> row.status == Failed && row.reference == None)
    && after == before.(payments := before.payments[id := row],
                        log := before.log + [Transition(id, Edge(None, Created)),
                                             Transition(id, Edge(Some(Created), row.status))])
  }

  lemma BothStored(before: Db, inserted: Db, after: Db, id: string, req: Router.Request, psp: string,
                   answer: Retry.Result<string>)
    requires inserted == before.(payments := before.payments[id := Payment(req.amount, psp, Created, None, 0)],
                                 log := before.log + [Transition(id, Edge(None, Created))])
    requires var row := Recorded(req, psp, answer);
             after == inserted.(payments := inserted.payments[id := row],
                                log := inserted.log + [Transition(id, Edge(Some(Created), row.status))])
    ensures Stored(before, after, id, req, psp, answer)
  {
  }

  method Close(db: Database, id: string, req: Router.Request, name: string, answer: Retry.Result<string>)
    returns (r: Services.Result)
    requires id in db.payments && db.payments[id] == Payment(req.amount, name, Created, None, 0)
    requires Validated(req.amount)
    modifies db
    ensures r.Pass?
    ensures var row := Recorded(req, name, answer);
            db.Tables() == old(db.Tables()).(payments := old(db.payments)[id := row],
                                             log := old(db.log) + [Transition(id, Edge(Some(Created), row.status))])
  {
    var finalStatus, reference := Authorized, "";
    match answer {
      case Gave(_) => finalStatus := Failed;
      case Done(pspPaymentID) => reference := pspPaymentID;
    }
    r := db.UpdatePaymentState(id, Created, finalStatus, reference);
    Closed(old(db.Tables()), id, finalStatus, reference, db.Tables(), r);
  }

  /** Everything after the first commit. */
  method AskAndClose(db: Database, router: Router.PaymentRouter, id: string, req: Router.Request, name: string,
                     psp: nat -> Retry.Attempt<string>, cancelled: nat -> bool, later: int)
    returns (answer: Retry.Result<string>, calls: nat)
    requires router.Valid() && name in router.Views()
    requires id in db.payments && db.payments[id] == Payment(req.amount, name, Created, None, 0)
    requires Validated(req.amount)
    modifies db, router.Repr()
    ensures router.Valid() && Retry.IsRun(MAX_ATTEMPTS, psp, cancelled, calls, answer)
    ensures Learned(router.cfg, old(router.Views()), router.Views(), name, answer.Done?, later)
    ensures var row := Recorded(req, name, answer);
            db.Tables() == old(db.Tables()).(payments := old(db.payments)[id := row],
                                             log := old(db.log) + [Transition(id, Edge(Some(Created), row.status))])
  {
    answer, calls := AskPsp(router, name, psp, cancelled, later);
    ghost var views := router.Views();
    var closed := Close(db, id, req, name, answer);
    assert router.Views() == views;
  }

  /** Everything after the routing decision. */
  method StoreAndAsk(db: Database, router: Router.PaymentRouter, id: string, req: Router.Request, name: string,
                     psp: nat -> Retry.Attempt<string>, cancelled: nat -> bool, later: int)
    returns (answer: Retry.Result<string>, calls: nat)
    requires router.Valid() && name in router.Views() && id !in db.payments && Validated(req.amount)
    modifies db, router.Repr()
    ensures router.Valid() && Retry.IsRun(MAX_ATTEMPTS, psp, cancelled, calls, answer)
    ensures Learned(router.cfg, old(router.Views()), router.Views(), name, answer.Done?, later)
    ensures Stored(old(db.Tables()), db.Tables(), id, req, name, answer)
  {
    ghost var views := router.Views();
    var stored := db.InsertCreated(id, req.amount, name);
    Inserted(old(db.Tables()), id, req.amount, name, db.Tables(), stored);
    assert router.Views() == views;
    ghost var inserted := db.Tables();
    answer, calls := AskAndClose(db, router, id, req, name, psp, cancelled, later);
    BothStored(old(db.Tables()), inserted, db.Tables(), id, req, name, answer);
  }

  /** A routed call inserts its payment, asks the PSP through the retry loop, records exactly one outcome on the
      breaker of the selected PSP and no other, and leaves the payment authorized with the PSP's reference
      exactly when that outcome is a success, failed otherwise. */
  method CreatePayment(db: Database, router: Router.PaymentRouter, id: string, req: Router.Request,
                       psp: nat -> Retry.Attempt<string>, cancelled: nat -> bool, now: int, later: int)
    returns (r: Outcome<CreateError>, selected: Option<Router.Decision>, answer: Retry.Result<string>, calls: nat)
    requires router.Valid() && id !in db.payments && Validated(req.amount)
    modifies db, router.Repr()
    ensures router.Valid()
    ensures Router.Chosen(router.cfg, old(router.Views()), now, router.rules, req, selected)
    ensures selected.None? ==>
              r == Fail(AllPspsUnavailable) && db.Tables() == old(db.Tables()) && router.Views() == old(router.Views())
    ensures selected.Some? ==>
              && Retry.IsRun(3, psp, cancelled, calls, answer)
              && (r.Pass? <==> answer.Done? && answer.value != "")
              && (r == Fail(ReadBackFailed) <==> answer == Retry.Done(""))
              && (answer.Gave? ==> r == Fail(PspGaveUp(answer.failure)))
    ensures selected.Some? ==>
              && Stored(old(db.Tables()), db.Tables(), id, req, selected.value.psp, answer)
              && (db.payments[id].status == Authorized <==> answer.Done?)
              && (db.payments[id].status == Failed <==> answer.Gave?)
    ensures selected.Some? ==>
              var psp, before, after := selected.value.psp, old(router.Views()), router.Views();
              && AskedAndLearned(router.cfg, before, after, psp, now, answer.Done?, later)
              && (answer.Done? ==> after[psp].consecutiveFails == 0)
              && (answer.Gave? ==> after[psp].consecutiveFails == before[psp].consecutiveFails + 1)
  {
    answer, calls := Retry.Gave(Retry.Failure.Cancelled), 0;
    selected := router.Route(req, now);
    if selected.None? {
      return Fail(AllPspsUnavailable), selected, answer, calls;
    }
    ghost var between := router.Views();
    answer, calls := StoreAndAsk(db, router, id, req, selected.value.psp, psp, cancelled, later);
    LearnedAll(router.cfg, old(router.Views()), between, router.Views(), selected.value.psp, now, answer.Done?, later);
    if answer.Gave? {
      return Fail(PspGaveUp(answer.failure)), selected, answer, calls;
    }
    r := if answer.value == "" then Fail(ReadBackFailed) else Pass;
  }
}
