/**
 Lock ordering. A transaction locks its payment row first, and then accounts in
 the order of its lines; the webhooks' lines go PSP_SETTLEMENT, MERCHANT_PAY,
 REFUND_EXP. That order rules deadlock out among the API and webhook requests;
 with generic postings, any order of the accounts that extends it does, provided
 they list their lines in it too.
 */
module Deadlock {
  import opened Options
  import opened Ledger
  import opened Transactions
  import opened Sessions
  import opened Isolation
  import opened Serialisability

  type Order = string -> nat

  ghost predicate ExtendsHooks(order: Order) {
    order(PSP_SETTLEMENT) < order(MERCHANT_PAY) < order(REFUND_EXP)
  }

  /** Later lines name later accounts, or the same one again. */
  ghost predicate InOrder(lines: seq<Line>, order: Order) {
    forall i, j :: 0 <= i < j < |lines| ==>
      order(lines[i].code) < order(lines[j].code) || lines[i].code == lines[j].code
  }

  /** Every generic posting in progress lists its lines in the order. */
  ghost predicate PostingsInOrder(w: World, order: Order) {
    forall sid :: sid in w.sessions && w.sessions[sid].job.PostJob? ==> InOrder(w.sessions[sid].job.lines, order)
  }

  function Level(r: Resource, order: Order): nat {
    match r
    case PaymentRow(_) => 0
    case AccountRow(c) => 1 + order(c)
  }

  // ---- Locked accounts are named by the lines reached so far

  function Reached(phase: Phase): nat
    requires phase.Working?
  {
    |phase.entries| + if phase.holding then 1 else 0
  }

  ghost predicate SeenIsReached(pc: Pc) {
    pc.InTx? && pc.phase.Working? ==>
      && Reached(pc.phase) <= |pc.phase.writes.lines|
      && forall c :: c in pc.phase.seen <==>
                     exists i :: 0 <= i < Reached(pc.phase) && pc.phase.writes.lines[i].code == c
  }

  ghost predicate AllReached(sessions: map<Sid, Session>) {
    forall sid :: sid in sessions ==> SeenIsReached(sessions[sid].pc)
  }

  lemma LockReaches(phase: Phase, tx: Tx, row: Account)
    requires phase.Working? && !phase.holding && |phase.entries| < |phase.writes.lines|
    requires SeenIsReached(InTx(tx, phase))
    ensures var code := phase.writes.lines[|phase.entries|].code;
            && SeenIsReached(InTx(tx, phase.(seen := phase.seen[code := row], view := phase.view[code := row],
                                             holding := true)))
            && (code in phase.seen ==> SeenIsReached(InTx(tx, phase.(holding := true))))
  {
    var code := phase.writes.lines[|phase.entries|].code;
    var after := phase.(seen := phase.seen[code := row], holding := true);
    forall c
      ensures c in after.seen <==> exists i :: 0 <= i < Reached(after) && after.writes.lines[i].code == c
    {
      if c == code {
        assert after.writes.lines[|phase.entries|].code == c;
      }
    }
  }

  lemma TxKeepsReached(w: World, step: Step)
    requires AllReached(w.sessions) && step.sid in w.sessions && w.sessions[step.sid].pc.InTx?
    requires TxNext(w, step, w.sessions[step.sid].pc).Some?
    requires !step.CommitTx? && !step.RollBack?
    ensures AllReached(TxNext(w, step, w.sessions[step.sid].pc).value.sessions)
  {
    var pc := w.sessions[step.sid].pc;
    assert SeenIsReached(pc);
    if step.LockAccount? {
      var code := pc.phase.writes.lines[|pc.phase.entries|].code;
      LockReaches(pc.phase, pc.tx, w.db.accounts[code]);
    }
  }

  lemma StepKeepsReached(w: World, step: Step)
    requires AllReached(w.sessions) && Next(w, step).Some?
    ensures AllReached(Next(w, step).value.sessions)
  {
    if !step.Start? && !step.Vanish? {
      if !w.sessions[step.sid].pc.InTx? {
        IdleMovesOne(w, step);
      } else if step.CommitTx? || step.RollBack? {
        LeaveMovesOne(w, step.sid, step.CommitTx? && step.acknowledged);
      } else {
        TxKeepsReached(w, step);
      }
    }
  }

  lemma {:induction false} RunReaches(steps: seq<Step>)
    requires Run(steps).Some?
    ensures AllReached(Run(steps).value.sessions)
    decreases |steps|
  {
    if steps != [] {
      RunReaches(steps[..|steps| - 1]);
      StepKeepsReached(Run(steps[..|steps| - 1]).value, steps[|steps| - 1]);
    }
  }

  // ---- Waiting

  /** a's next statement needs a lock that b holds. */
  ghost predicate Waits(w: World, a: Sid, b: Sid) {
    && a in w.sessions && b in w.sessions && a != b
    && Wants(w.sessions[a]).Some?
    && Wants(w.sessions[a]).value in w.locks
    && w.locks[Wants(w.sessions[a]).value] == b
  }

  /** The level of the lock a session asks for, 0 if it asks for none. */
  function WantLevel(w: World, order: Order, sid: Sid): nat {
    if sid in w.sessions && Wants(w.sessions[sid]).Some? then Level(Wants(w.sessions[sid]).value, order) else 0
  }

  ghost predicate Safe(w: World, order: Order) {
    && Sound(w) && AllReached(w.sessions) && ExtendsHooks(order) && PostingsInOrder(w, order)
  }

  lemma LinesInOrder(w: World, order: Order, sid: Sid)
    requires Safe(w, order) && sid in w.sessions && w.sessions[sid].pc.InTx? && w.sessions[sid].pc.phase.Working?
    ensures InOrder(w.sessions[sid].pc.phase.writes.lines, order)
  {
    var s := w.sessions[sid];
    assert TxOk(w.db, s.pc.tx, s.pc.phase) && PcFits(s);
    DecidedLines(w.db, s.pc.tx, s.pc.phase.writes, order);
  }

  lemma DecidedLines(db: Db, tx: Tx, writes: Writes, order: Order)
    requires Decide(tx, Read(db, tx)) == Write(writes) && ExtendsHooks(order)
    ensures if tx.PostLedger? then writes.lines == tx.lines else InOrder(writes.lines, order)
  {
  }

  /** Whatever a transaction wants lies above everything else it holds. */
  lemma WantsAbove(w: World, order: Order, sid: Sid, held: Resource)
    requires Safe(w, order) && sid in w.sessions && Wants(w.sessions[sid]).Some? && Holds(w.sessions[sid], held)
    requires held != Wants(w.sessions[sid]).value
    ensures Level(held, order) < Level(Wants(w.sessions[sid]).value, order)
  {
    var pc := w.sessions[sid].pc;
    if held.AccountRow? {
      LinesInOrder(w, order, sid);
      assert SeenIsReached(pc);
      var i :| 0 <= i < Reached(pc.phase) && pc.phase.writes.lines[i].code == held.code;
      assert pc.phase.writes.lines[i].code != pc.phase.writes.lines[|pc.phase.entries|].code;
    }
  }

  lemma WaitsClimb(w: World, order: Order, a: Sid, b: Sid, c: Sid)
    requires Safe(w, order) && Waits(w, a, b) && Waits(w, b, c)
    ensures WantLevel(w, order, a) < WantLevel(w, order, b)
  {
    WantsAbove(w, order, b, Wants(w.sessions[a]).value);
  }

  ghost predicate WaitChain(w: World, chain: seq<Sid>) {
    forall i :: 0 <= i < |chain| - 1 ==> Waits(w, chain[i], chain[i + 1])
  }

  lemma {:induction false} ChainClimbs(w: World, order: Order, chain: seq<Sid>, n: nat)
    requires Safe(w, order) && WaitChain(w, chain) && 0 < n < |chain| - 1
    ensures WantLevel(w, order, chain[0]) < WantLevel(w, order, chain[n])
    decreases n
  {
    assert Waits(w, chain[n - 1], chain[n]) && Waits(w, chain[n], chain[n + 1]);
    WaitsClimb(w, order, chain[n - 1], chain[n], chain[n + 1]);
    if 1 < n {
      ChainClimbs(w, order, chain, n - 1);
    }
  }

  /** No reachable state has a circle of waiting transactions. */
  lemma NoDeadlock(steps: seq<Step>, order: Order, chain: seq<Sid>)
    requires Run(steps).Some? && ExtendsHooks(order) && PostingsInOrder(Run(steps).value, order)
    requires 2 <= |chain| && chain[0] == chain[|chain| - 1]
    ensures !WaitChain(Run(steps).value, chain)
  {
    var w := Run(steps).value;
    RunIsSound(steps);
    RunReaches(steps);
    if WaitChain(w, chain) {
      var n := |chain| - 2;
      assert Waits(w, chain[0], chain[1]) && Waits(w, chain[n], chain[n + 1]);
      WaitsClimb(w, order, chain[n], chain[0], chain[1]);
      if 0 < n {
        ChainClimbs(w, order, chain, n);
      }
    }
  }

  // ---- Some request can always go on

  ghost predicate Blocked(w: World, sid: Sid) {
    exists b :: Waits(w, sid, b)
  }

  /** Following the wait-for edges from any request ends at one that is not waiting. */
  lemma {:induction false} FindRunnable(w: World, order: Order, a: Sid) returns (free: Sid)
    requires Safe(w, order) && a in w.sessions
    ensures free in w.sessions && !Blocked(w, free)
    decreases set sid | sid in w.sessions && Blocked(w, sid) && WantLevel(w, order, sid) > WantLevel(w, order, a)
  {
    if !Blocked(w, a) {
      free := a;
    } else {
      var b :| Waits(w, a, b);
      if !Blocked(w, b) {
        free := b;
      } else {
        var c :| Waits(w, b, c);
        WaitsClimb(w, order, a, b, c);
        var above := set sid | sid in w.sessions && Blocked(w, sid) &&
                               WantLevel(w, order, sid) > WantLevel(w, order, a);
        assert b in above;
        free := FindRunnable(w, order, b);
      }
    }
  }

  /** The next statement of a request's Go function: the one whose failure is an error
      return stands for that return, RollBack inside a transaction and Vanish outside. */
  function Forward(w: World, sid: Sid): Step
    requires sid in w.sessions
  {
    var s := w.sessions[sid];
    match s.pc
    case CallingPsp => PspAnswers(sid, None)
    case ReadingPayment => if DoReadPayment(w, sid, s).Some? then ReadPayment(sid) else Vanish(sid)
    case Cancelling(_) => PspCancels(sid)
    case CheckingDuplicate => if DoFindNoDuplicate(w, sid, s).Some? then FindNoDuplicate(sid) else Vanish(sid)
    case LookingUp => LookUp(sid, None)
    case Inserting(_) => if DoInsertEvent(w, sid, s).Some? then InsertEvent(sid) else Vanish(sid)
    case Marking(_) => if DoMarkEvent(w, sid, s).Some? then MarkEvent(sid) else Vanish(sid)
    case InTx(tx, phase) => ForwardTx(w, sid, tx, phase)
  }

  function ForwardTx(w: World, sid: Sid, tx: Tx, phase: Phase): Step
    requires sid in w.sessions
  {
    match phase
    case Begun =>
      if Target(tx).Some? then
        if Target(tx).value in w.db.payments then LockPayment(sid) else RollBack(sid)
      else if Decide(tx, Read(w.db, tx)).Write? then WriteRows(sid) else RollBack(sid)
    case RowLocked(row) =>
      if Decide(tx, Some(row)).Write? then WriteRows(sid) else RollBack(sid)
    case Working(writes, _, view, entries, holding) =>
      if |entries| >= |writes.lines| then CommitTx(sid, true)
      else
        var line := writes.lines[|entries|];
        if holding then
          if PostLine(view, entries, line).Posted? then PostEntry(sid) else RollBack(sid)
        else if line.code in w.db.accounts then LockAccount(sid) else RollBack(sid)
  }

  lemma RunnableIdle(w: World, sid: Sid)
    requires sid in w.sessions && !w.sessions[sid].pc.InTx? && PcFits(w.sessions[sid])
    ensures Next(w, Forward(w, sid)).Some?
  {
  }

  lemma RunnableTx(w: World, sid: Sid)
    requires sid in w.sessions && w.sessions[sid].pc.InTx?
    requires TxOk(w.db, w.sessions[sid].pc.tx, w.sessions[sid].pc.phase)
    requires Wants(w.sessions[sid]).Some? ==>
               && Free(w, sid, Wants(w.sessions[sid]).value)
               && (w.sessions[sid].pc.phase.Begun? ==> Wants(w.sessions[sid]).value !in w.locks)
    ensures var pc := w.sessions[sid].pc; TxNext(w, ForwardTx(w, sid, pc.tx, pc.phase), pc).Some?
  {
  }

  /** A request that is not waiting can execute its next statement. */
  lemma RunnableSteps(w: World, sid: Sid)
    requires Sound(w) && sid in w.sessions && !Blocked(w, sid)
    ensures Next(w, Forward(w, sid)).Some?
  {
    var s := w.sessions[sid];
    if s.pc.InTx? {
      if Wants(s).Some? {
        NotBlocked(w, sid);
      }
      RunnableTx(w, sid);
    } else {
      RunnableIdle(w, sid);
    }
  }

  lemma NotBlocked(w: World, sid: Sid)
    requires LocksOk(w.locks, w.sessions) && sid in w.sessions && !Blocked(w, sid) && Wants(w.sessions[sid]).Some?
    ensures Free(w, sid, Wants(w.sessions[sid]).value)
    ensures w.sessions[sid].pc.phase.Begun? ==> Wants(w.sessions[sid]).value !in w.locks
  {
    HeldBlocks(w, sid);
  }

  lemma HeldBlocks(w: World, sid: Sid)
    requires LocksOk(w.locks, w.sessions) && sid in w.sessions && Wants(w.sessions[sid]).Some?
    ensures Free(w, sid, Wants(w.sessions[sid]).value) || Blocked(w, sid)
  {
    var r := Wants(w.sessions[sid]).value;
    if !Free(w, sid, r) {
      assert Waits(w, sid, w.locks[r]);
    }
  }

  /** As long as requests are in flight, one of them can execute its next statement. */
  lemma SomeRequestSteps(steps: seq<Step>, order: Order) returns (sid: Sid)
    requires Run(steps).Some? && ExtendsHooks(order) && PostingsInOrder(Run(steps).value, order)
    requires Run(steps).value.sessions != map[]
    ensures sid in Run(steps).value.sessions
    ensures Next(Run(steps).value, Forward(Run(steps).value, sid)).Some?
  {
    var w := Run(steps).value;
    RunIsSound(steps);
    RunReaches(steps);
    var a :| a in w.sessions;
    sid := FindRunnable(w, order, a);
    RunnableSteps(w, sid);
  }

  // ---- API and webhook requests alone

  /** The order in which the webhook handlers lock the accounts. */
  function HookOrder(code: string): nat {
    if code == PSP_SETTLEMENT then 0 else if code == MERCHANT_PAY then 1 else 2
  }

  lemma HookOrderExtends()
    ensures ExtendsHooks(HookOrder)
  {
    assert |PSP_SETTLEMENT| == 14 && |MERCHANT_PAY| == 12 && |REFUND_EXP| == 10;
  }

  ghost predicate NoPostsInFlight(w: World) {
    forall sid :: sid in w.sessions ==> !w.sessions[sid].job.PostJob?
  }

  /** No reachable state without generic postings in flight has a circle of waiting transactions. */
  lemma ApiAndHooksNeverDeadlock(steps: seq<Step>, chain: seq<Sid>)
    requires Run(steps).Some? && NoPostsInFlight(Run(steps).value)
    requires 2 <= |chain| && chain[0] == chain[|chain| - 1]
    ensures !WaitChain(Run(steps).value, chain)
  {
    HookOrderExtends();
    NoDeadlock(steps, HookOrder, chain);
  }

  /** There, as long as requests are in flight, one of them can execute its next statement. */
  lemma ApiOrHookSteps(steps: seq<Step>) returns (sid: Sid)
    requires Run(steps).Some? && NoPostsInFlight(Run(steps).value) && Run(steps).value.sessions != map[]
    ensures sid in Run(steps).value.sessions
    ensures Next(Run(steps).value, Forward(Run(steps).value, sid)).Some?
  {
    HookOrderExtends();
    sid := SomeRequestSteps(steps, HookOrder);
  }
}
