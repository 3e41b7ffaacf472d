/** Every request takes a bounded number of statements, and those in flight can always be run to their end. */
module Progress {
  import opened Options
  import opened Transactions
  import opened Sessions
  import opened Isolation
  import opened Serialisability
  import opened Deadlock
  import opened Driving

  /** The ledger lines a request can still post. */
  function LinesAhead(job: Job): nat {
    match job
    case PostJob(_, lines) => |lines|
    case HookJob(_) => 2
    case _ => 0
  }

  /** An upper bound on the statements a request still has to execute. */
  function Remaining(s: Session): nat {
    match s.pc
    case CallingPsp => 4
    case ReadingPayment => 5
    case Cancelling(_) => 4
    case CheckingDuplicate => 11
    case LookingUp => 10
    case Inserting(_) => 9
    case Marking(_) => 1
    case InTx(tx, phase) => TxWork(s.job, phase) + Afterwards(s.job, tx)
  }

  function TxWork(job: Job, phase: Phase): nat {
    match phase
    case Begun => 2 * LinesAhead(job) + 3
    case RowLocked(_) => 2 * LinesAhead(job) + 2
    case Working(writes, _, _, entries, holding) =>
      if |entries| >= |writes.lines| then 1
      else 2 * (|writes.lines| - |entries|) + 1 - if holding then 1 else 0
  }

  function Afterwards(job: Job, tx: Tx): nat {
    if job.HookJob? then 1 else if job.CreateJob? && tx.InsertPayment? then 4 else 0
  }

  ghost predicate Shortened(before: Session, sessions: map<Sid, Session>, sid: Sid) {
    sid in sessions ==> Remaining(sessions[sid]) < Remaining(before)
  }

  lemma WritesFewLines(s: Session, read: Option<Payment>)
    requires PcFits(s) && s.pc.InTx? && Decide(s.pc.tx, read).Write?
    ensures |Decide(s.pc.tx, read).writes.lines| <= LinesAhead(s.job)
  {
  }

  lemma TxShortens(w: World, step: Step)
    requires step.sid in w.sessions && w.sessions[step.sid].pc.InTx? && PcFits(w.sessions[step.sid])
    requires TxNext(w, step, w.sessions[step.sid].pc).Some?
    ensures Shortened(w.sessions[step.sid], TxNext(w, step, w.sessions[step.sid].pc).value.sessions, step.sid)
  {
    match step
    case WriteRows(sid) => WriteShortens(w, sid);
    case CommitTx(sid, acknowledged) => LeaveShortens(w, sid, acknowledged);
    case RollBack(sid) => LeaveShortens(w, sid, false);
    case _ =>
  }

  lemma WriteShortens(w: World, sid: Sid)
    requires sid in w.sessions && w.sessions[sid].pc.InTx? && PcFits(w.sessions[sid])
    requires DoWriteRows(w, sid, w.sessions[sid].pc.tx, w.sessions[sid].pc.phase).Some?
    ensures Shortened(w.sessions[sid],
                      DoWriteRows(w, sid, w.sessions[sid].pc.tx, w.sessions[sid].pc.phase).value.sessions, sid)
  {
    var s := w.sessions[sid];
    WritesFewLines(s, if s.pc.phase.RowLocked? then Some(s.pc.phase.row) else Read(w.db, s.pc.tx));
  }

  lemma LeaveShortens(w: World, sid: Sid, committed: bool)
    requires sid in w.sessions && w.sessions[sid].pc.InTx?
    ensures Shortened(w.sessions[sid], Leave(w, sid, committed).sessions, sid)
  {
  }

  lemma IdleShortens(w: World, step: Step)
    requires step.sid in w.sessions && !w.sessions[step.sid].pc.InTx? && PcFits(w.sessions[step.sid])
    requires IdleNext(w, step, w.sessions[step.sid]).Some?
    ensures Shortened(w.sessions[step.sid], IdleNext(w, step, w.sessions[step.sid]).value.sessions, step.sid)
  {
  }

  /** Every statement of a request brings it nearer to its end, whatever the others do. */
  lemma StatementsRunOut(w: World, step: Step)
    requires FlowsOk(w.sessions, w.issued) && Next(w, step).Some? && !step.Start?
    ensures step.sid in w.sessions
    ensures Shortened(w.sessions[step.sid], Next(w, step).value.sessions, step.sid)
  {
    assert PcFits(w.sessions[step.sid]);
    if !step.Vanish? {
      if w.sessions[step.sid].pc.InTx? {
        TxShortens(w, step);
      } else {
        IdleShortens(w, step);
      }
    }
  }

  // ---- Draining the system

  /** The work of all requests with an id below n. */
  function Total(sessions: map<Sid, Session>, n: nat): nat {
    if n == 0 then 0
    else Total(sessions, n - 1) + if n - 1 in sessions then 1 + Remaining(sessions[n - 1]) else 0
  }

  lemma {:induction false} TotalShrinks(before: map<Sid, Session>, after: map<Sid, Session>, sid: Sid, n: nat)
    requires sid in before && Shortened(before[sid], after, sid)
    requires forall other :: other != sid ==> (other in after <==> other in before)
    requires forall other :: other != sid && other in after ==> after[other] == before[other]
    ensures Total(after, n) <= Total(before, n)
    ensures sid < n ==> Total(after, n) < Total(before, n)
    decreases n
  {
    if 0 < n {
      TotalShrinks(before, after, sid, n - 1);
    }
  }

  lemma StepShrinks(w: World, step: Step, n: nat)
    requires FlowsOk(w.sessions, w.issued) && Next(w, step).Some? && !step.Start? && step.sid < n
    ensures Total(Next(w, step).value.sessions, n) < Total(w.sessions, n)
  {
    StatementsRunOut(w, step);
    StepMovesOne(w, step);
    TotalShrinks(w.sessions, Next(w, step).value.sessions, step.sid, n);
  }

  /** From the n-th step on, every step is the next statement of a request in flight. */
  ghost predicate OnlyForward(steps: seq<Step>, n: nat) {
    forall i :: n <= i < |steps| ==>
      && Run(steps[..i]).Some?
      && steps[i].sid in Run(steps[..i]).value.sessions
      && steps[i] == Forward(Run(steps[..i]).value, steps[i].sid)
  }

  lemma OneMoreForward(steps: seq<Step>, step: Step, longer: seq<Step>)
    requires Run(steps).Some? && step.sid in Run(steps).value.sessions && step == Forward(Run(steps).value, step.sid)
    requires steps + [step] <= longer && OnlyForward(longer, |steps| + 1)
    ensures OnlyForward(longer, |steps|)
  {
    assert longer[..|steps|] == steps && longer[|steps|] == (steps + [step])[|steps|];
  }

  /** From every reachable state, executing next statements of the requests in flight, and nothing
      else, leads to a state with none left. */
  lemma {:induction false} CanAlwaysDrain(steps: seq<Step>, order: Order, n: nat) returns (longer: seq<Step>)
    requires Run(steps).Some? && ExtendsHooks(order) && PostingsInOrder(Run(steps).value, order)
    requires forall sid :: sid in Run(steps).value.sessions ==> sid < n
    ensures steps <= longer && Run(longer).Some? && Run(longer).value.sessions == map[]
    ensures OnlyForward(longer, |steps|)
    decreases Total(Run(steps).value.sessions, n)
  {
    var w := Run(steps).value;
    if w.sessions == map[] {
      longer := steps;
    } else {
      var sid := SomeRequestSteps(steps, order);
      var step := Forward(w, sid);
      RunIsSound(steps);
      RunOneMore(steps, step);
      ForwardMoves(w, sid);
      StepShrinks(w, step, n);
      StepMovesOne(w, step);
      longer := CanAlwaysDrain(steps + [step], order, n);
      OneMoreForward(steps, step, longer);
    }
  }

  /** In particular from every reachable state without generic postings in flight. */
  lemma ApiAndHooksDrain(steps: seq<Step>, n: nat) returns (longer: seq<Step>)
    requires Run(steps).Some? && NoPostsInFlight(Run(steps).value)
    requires forall sid :: sid in Run(steps).value.sessions ==> sid < n
    ensures steps <= longer && Run(longer).Some? && Run(longer).value.sessions == map[]
    ensures OnlyForward(longer, |steps|)
  {
    HookOrderExtends();
    longer := CanAlwaysDrain(steps, HookOrder, n);
  }

  lemma ForwardMoves(w: World, sid: Sid)
    requires sid in w.sessions
    ensures Forward(w, sid).sid == sid && !Forward(w, sid).Start?
  {
  }
}
