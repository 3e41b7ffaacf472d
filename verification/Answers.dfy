/** What a PSP answers to CreatePayment is what its closing update records, in every run. */
module Answers {
  import opened Options
  import opened PaymentStates
  import opened Transactions
  import opened Sessions
  import opened Isolation
  import opened Serialisability
  import opened Guarantees

  /** At step n the PSP has answered the request that created the payment, and the update records the answer:
      authorized under the id it gave, failed when it gave none. */
  ghost predicate AnsweredAt(steps: seq<Step>, n: nat, tx: Tx)
    requires n < |steps|
  {
    && steps[n].PspAnswers?
    && Run(steps[..n]).Some?
    && steps[n].sid in Run(steps[..n]).value.sessions
    && Run(steps[..n]).value.sessions[steps[n].sid].job.CreateJob?
    && Run(steps[..n]).value.sessions[steps[n].sid].pc == CallingPsp
    && var payment := Run(steps[..n]).value.sessions[steps[n].sid].job.payment;
    && tx == match steps[n].reference
             case Some(id) => Move(payment, Created, Authorized, id)
             case None => Move(payment, Created, Failed, "")
  }

  ghost predicate Answered(steps: seq<Step>, tx: Tx) {
    exists n :: 0 <= n < |steps| && AnsweredAt(steps, n, tx)
  }

  ghost predicate Told(steps: seq<Step>, s: Session) {
    s.job.CreateJob? && s.pc.InTx? && s.pc.tx.Move? ==> Answered(steps, s.pc.tx)
  }

  ghost predicate AllTold(steps: seq<Step>, w: World) {
    && (forall sid :: sid in w.sessions ==> Told(steps, w.sessions[sid]))
    && (forall i :: 0 <= i < |w.history| && w.history[i].tx.Move? && w.history[i].tx.from == Created ==>
      Answered(steps, w.history[i].tx))
  }

  lemma AnsweredStays(steps: seq<Step>, step: Step, tx: Tx)
    requires Answered(steps, tx)
    ensures Answered(steps + [step], tx)
  {
    var n :| 0 <= n < |steps| && AnsweredAt(steps, n, tx);
    assert (steps + [step])[..n] == steps[..n];
    assert AnsweredAt(steps + [step], n, tx);
  }

  lemma MoveComesFrom(w: World, step: Step)
    requires Next(w, step).Some? && step.sid in Next(w, step).value.sessions
    ensures var s := Next(w, step).value.sessions[step.sid];
            s.job.CreateJob? && s.pc.InTx? && s.pc.tx.Move? && !step.PspAnswers? ==>
              && step.sid in w.sessions && w.sessions[step.sid].job == s.job
              && w.sessions[step.sid].pc.InTx? && w.sessions[step.sid].pc.tx == s.pc.tx
  {
  }

  lemma AnswerTells(steps: seq<Step>, w: World, step: Step)
    requires Run(steps) == Some(w) && step.PspAnswers? && Next(w, step).Some?
    ensures step.sid in Next(w, step).value.sessions && Told(steps + [step], Next(w, step).value.sessions[step.sid])
  {
    assert (steps + [step])[..|steps|] == steps;
    assert AnsweredAt(steps + [step], |steps|, Next(w, step).value.sessions[step.sid].pc.tx);
  }

  lemma OtherTold(steps: seq<Step>, step: Step, s: Session)
    requires Told(steps, s)
    ensures Told(steps + [step], s)
  {
    if s.job.CreateJob? && s.pc.InTx? && s.pc.tx.Move? {
      AnsweredStays(steps, step, s.pc.tx);
    }
  }

  lemma MoverIsTold(steps: seq<Step>, w: World, step: Step)
    requires Run(steps) == Some(w) && AllTold(steps, w) && Next(w, step).Some?
    requires step.sid in Next(w, step).value.sessions
    ensures Told(steps + [step], Next(w, step).value.sessions[step.sid])
  {
    MoveComesFrom(w, step);
    if step.PspAnswers? {
      AnswerTells(steps, w, step);
    } else if step.sid in w.sessions {
      OtherTold(steps, step, w.sessions[step.sid]);
    }
  }

  lemma SessionsTold(steps: seq<Step>, w: World, step: Step)
    requires Run(steps) == Some(w) && AllTold(steps, w) && Next(w, step).Some?
    ensures var after := Next(w, step).value;
            forall sid :: sid in after.sessions ==> Told(steps + [step], after.sessions[sid])
  {
    var after := Next(w, step).value;
    if !step.Start? {
      StepMovesOne(w, step);
    }
    forall sid | sid in after.sessions
      ensures Told(steps + [step], after.sessions[sid])
    {
      if sid == step.sid {
        MoverIsTold(steps, w, step);
      } else {
        OtherTold(steps, step, w.sessions[sid]);
      }
    }
  }

  lemma HistoryTold(steps: seq<Step>, w: World, step: Step)
    requires Run(steps) == Some(w) && AllTold(steps, w) && Next(w, step).Some? && FlowsOk(w.sessions, w.issued)
    ensures var history := Next(w, step).value.history;
            forall i :: 0 <= i < |history| && history[i].tx.Move? && history[i].tx.from == Created ==>
              Answered(steps + [step], history[i].tx)
  {
    var history := Next(w, step).value.history;
    StepExtendsHistory(w, step);
    forall i | 0 <= i < |history| && history[i].tx.Move? && history[i].tx.from == Created
      ensures Answered(steps + [step], history[i].tx)
    {
      if i < |w.history| {
        assert history[i] == w.history[i];
      } else {
        assert PcFits(w.sessions[step.sid]) && Told(steps, w.sessions[step.sid]);
      }
      AnsweredStays(steps, step, history[i].tx);
    }
  }

  lemma {:induction false} RunIsTold(steps: seq<Step>)
    requires Run(steps).Some?
    ensures AllTold(steps, Run(steps).value)
    decreases |steps|
  {
    if steps != [] {
      var most, step := steps[..|steps| - 1], steps[|steps| - 1];
      RunIsTold(most);
      RunIsSound(most);
      SessionsTold(most, Run(most).value, step);
      HistoryTold(most, Run(most).value, step);
      assert most + [step] == steps;
    }
  }

  /** In every run a committed closing update records what the PSP has answered for this payment: it is authorized
      only under an id that the PSP gave, and failed only after an error. */
  lemma AnswersAreRecorded(steps: seq<Step>, i: nat) returns (n: nat)
    requires Run(steps).Some? && i < |Run(steps).value.history|
    requires Run(steps).value.history[i].tx.Move? && Run(steps).value.history[i].tx.from == Created
    ensures n < |steps| && AnsweredAt(steps, n, Run(steps).value.history[i].tx)
  {
    RunIsTold(steps);
    n :| 0 <= n < |steps| && AnsweredAt(steps, n, Run(steps).value.history[i].tx);
  }
}
