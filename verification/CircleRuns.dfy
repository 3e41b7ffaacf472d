/** Driving any circular posters into a circle of waiting requests. */
module CircleRuns {
  import opened Options
  import opened PaymentStates
  import opened Ledger
  import opened Transactions
  import opened WebhookRefunds
  import opened Sessions
  import opened Isolation
  import opened Serialisability
  import opened Deadlock
  import opened Driving
  import opened SetUp
  import opened WaitCircles
  import Deliveries
  import EventAliases

  // ---- A payment and a delivery for each webhook

  /** The k-th name. */
  function Name(k: nat): (name: string)
    ensures |name| == k + 1 && ':' !in name
  {
    if k == 0 then "x" else Name(k - 1) + "x"
  }

  lemma NamesApart(k: nat, m: nat)
    requires k != m
    ensures Name(k) != Name(m)
  {
    assert |Name(k)| != |Name(m)|;
  }

  function DeliveryFor(p: Poster, k: nat): Delivery {
    Delivery(Name(k), if p.Capture? then "payment.captured" else "refund.created",
             Payload("", Name(k), if p.Refund? then p.amount else 0))
  }

  function RowFor(p: Poster, k: nat): Payment {
    Payment(if p.Capture? then p.amount else 1, Name(k), if p.Capture? then Authorized else Captured, Some(Name(k)), 0)
  }

  function TxFor(p: Poster, k: nat): Tx
    requires !p.Posting?
  {
    if p.Capture? then HookCapture(Name(k)) else HookRefund(Name(k), p.amount)
  }

  function JobFor(p: Poster, k: nat): Job {
    if p.Posting? then PostJob(Header(None, "settlement"), p.lines) else HookJob(DeliveryFor(p, k))
  }

  lemma KeysApart(p: Poster, k: nat, q: Poster, m: nat)
    requires k != m
    ensures KeyOf(DeliveryFor(p, k)) != KeyOf(DeliveryFor(q, m))
  {
    var d, e := DeliveryFor(p, k), DeliveryFor(q, m);
    EventAliases.KeyParts(d.psp, d.eventType, d.payload.digest);
    EventAliases.KeyParts(e.psp, e.eventType, e.payload.digest);
  }

  lemma DeliveryRuns(p: Poster, k: nat)
    requires Possible(p) && !p.Posting?
    ensures Process(DeliveryFor(p, k), Some(Name(k))) == InTx(TxFor(p, k), Begun)
    ensures Matches(RowFor(p, k), DeliveryFor(p, k))
  {
    Deliveries.ProcessMeans(DeliveryFor(p, k), Name(k), TxFor(p, k), false);
  }

  lemma WebhookDecides(p: Poster, k: nat)
    requires Possible(p) && !p.Posting?
    ensures Decide(TxFor(p, k), Some(RowFor(p, k))).Write?
    ensures Decide(TxFor(p, k), Some(RowFor(p, k))).writes.lines == LinesBy(p)
  {
    assert CanTransition(Authorized, Captured);
    if p.Refund? {
      RefundHookDecides(Name(k), p.amount, RowFor(p, k));
    }
  }

  // ---- The payments

  ghost predicate Prepared(w: World, posters: seq<Poster>, n: nat)
    requires n <= |posters|
  {
    forall m: nat :: m < n && !posters[m].Posting? ==>
      Name(m) in w.db.payments && w.db.payments[Name(m)] == RowFor(posters[m], m)
  }

  ghost predicate Idle(w: World, posters: seq<Poster>, n: nat)
    requires n <= |posters|
  {
    && w.sessions == map[] && w.events == map[] && w.db.accounts == SEED.accounts
    && Prepared(w, posters, n) && forall m: nat :: n <= m ==> Name(m) !in w.issued
  }

  lemma AddedKeepsIdle(w: World, after: World, posters: seq<Poster>, n: nat)
    requires n < |posters| && Idle(w, posters, n) && Added(w, after, Name(n), RowFor(posters[n], n))
    ensures Idle(after, posters, n + 1)
  {
    forall m: nat | m != n
      ensures Name(m) != Name(n)
    {
      NamesApart(m, n);
    }
  }

  lemma PrepareOne(before: seq<Step>, posters: seq<Poster>, n: nat) returns (steps: seq<Step>)
    requires Run(before).Some? && n < |posters| && Idle(Run(before).value, posters, n) && Possible(posters[n])
    ensures Run(steps).Some? && Idle(Run(steps).value, posters, n + 1)
  {
    match posters[n]
    case Posting(_) => steps := before;
    case Capture(amount) =>
      steps := AuthorizedRun(before, Name(n), amount, Name(n), Name(n));
      AddedKeepsIdle(Run(before).value, Run(steps).value, posters, n);
    case Refund(_) =>
      steps := CapturedRun(before, Name(n), 1, Name(n), Name(n));
      AddedKeepsIdle(Run(before).value, Run(steps).value, posters, n);
  }

  lemma {:induction false} Prepare(posters: seq<Poster>, n: nat) returns (steps: seq<Step>)
    requires n <= |posters| && AllPossible(posters)
    ensures Run(steps).Some? && Idle(Run(steps).value, posters, n)
    decreases n
  {
    if n == 0 {
      steps := [];
    } else {
      var before := Prepare(posters, n - 1);
      steps := PrepareOne(before, posters, n - 1);
    }
  }

  // ---- The requests before their first lines

  /** The k-th request is before its n-th line. */
  ghost predicate Stands(w: World, posters: seq<Poster>, k: nat, n: nat)
    requires k < |posters|
  {
    && At(w, k, LinesBy(posters[k]), n) && RunsAs(w, k, posters[k])
    && Target(w.sessions[k].pc.tx) in {None, Some(Name(k))}
  }

  /** The first n requests are before their first lines, the others have not come. */
  ghost predicate LinedUp(w: World, posters: seq<Poster>, n: nat)
    requires n <= |posters|
  {
    && (forall sid: Sid :: sid in w.sessions <==> sid < n)
    && (forall m: nat :: m < n ==> Stands(w, posters, m, 0))
    && w.db.accounts == SEED.accounts && Prepared(w, posters, |posters|)
    && (forall m: nat :: n <= m < |posters| ==> KeyOf(DeliveryFor(posters[m], m)) !in w.events)
  }

  lemma OthersStand(w: World, after: World, posters: seq<Poster>, k: nat, m: nat, n: nat)
    requires OnlyThis(w, after, k) && m < |posters| && m != k && Stands(w, posters, m, n)
    ensures Stands(after, posters, m, n)
  {
  }

  lemma ArrivalKeepsLine(w: World, after: World, posters: seq<Poster>, n: nat)
    requires n < |posters| && LinedUp(w, posters, n) && OnlyThis(w, after, n) && Stands(after, posters, n, 0)
    requires after.events.Keys <= w.events.Keys + {KeyOf(DeliveryFor(posters[n], n))}
    ensures LinedUp(after, posters, n + 1)
  {
    forall m: nat | m < n
      ensures Stands(after, posters, m, 0)
    {
      OthersStand(w, after, posters, n, m, 0);
    }
    forall m: nat | n + 1 <= m < |posters|
      ensures KeyOf(DeliveryFor(posters[m], m)) !in after.events
    {
      KeysApart(posters[m], m, posters[n], n);
    }
  }

  lemma PostingBegins(w: World, sid: Sid, header: Header, lines: seq<Line>)
    requires Place(w, sid, PostJob(header, lines), InTx(PostLedger(header, lines), Begun))
    requires Acceptable(lines) && header.payment.None?
    ensures Next(w, WriteRows(sid)).Some?
    ensures var after := Next(w, WriteRows(sid)).value;
            && At(after, sid, lines, 0) && after.sessions[sid].pc.tx == PostLedger(header, lines)
            && OnlyThis(w, after, sid) && after.events == w.events
  {
  }

  lemma PostingArrives(steps: seq<Step>, posters: seq<Poster>, n: nat) returns (longer: seq<Step>)
    requires Run(steps).Some? && n < |posters| && LinedUp(Run(steps).value, posters, n)
    requires posters[n].Posting? && Possible(posters[n])
    ensures Run(longer).Some? && LinedUp(Run(longer).value, posters, n + 1)
  {
    var w, header, lines := Run(steps).value, Header(None, "settlement"), posters[n].lines;
    Starts(w, n, PostJob(header, lines));
    RunOneMore(steps, Start(n, PostJob(header, lines)));
    var started := steps + [Start(n, PostJob(header, lines))];
    PostingBegins(Run(started).value, n, header, lines);
    RunOneMore(started, WriteRows(n));
    longer := started + [WriteRows(n)];
    OnlyThisTwice(w, Run(started).value, Run(longer).value, n);
    ArrivalKeepsLine(w, Run(longer).value, posters, n);
  }

  /** No request of the line holds the row of the n-th payment. */
  lemma RowIsFree(w: World, after: World, posters: seq<Poster>, n: nat)
    requires n < |posters| && LinedUp(w, posters, n) && OnlyThis(w, after, n)
    requires LocksOk(after.locks, after.sessions) && after.sessions[n].pc.InTx? && after.sessions[n].pc.phase.Begun?
    ensures PaymentRow(Name(n)) !in after.locks
  {
    if PaymentRow(Name(n)) in after.locks {
      var holder := after.locks[PaymentRow(Name(n))];
      assert Holds(after.sessions[holder], PaymentRow(Name(n))) && holder < n;
      assert Stands(w, posters, holder, 0);
      NamesApart(holder, n);
    }
  }

  lemma WebhookStands(w: World, posters: seq<Poster>, n: nat)
    requires n < |posters| && Possible(posters[n]) && !posters[n].Posting?
    requires Prepared(w, posters, |posters|)
    requires var writes := Decide(TxFor(posters[n], n), Some(RowFor(posters[n], n)));
             writes.Write? && Place(w, n, JobFor(posters[n], n),
                                    InTx(TxFor(posters[n], n), Working(writes.writes, map[], map[], [], false)))
    ensures Stands(w, posters, n, 0)
  {
    WebhookDecides(posters[n], n);
  }

  lemma WebhookArrives(steps: seq<Step>, posters: seq<Poster>, n: nat) returns (longer: seq<Step>)
    requires Run(steps).Some? && n < |posters| && LinedUp(Run(steps).value, posters, n)
    requires !posters[n].Posting? && Possible(posters[n])
    ensures Run(longer).Some? && LinedUp(Run(longer).value, posters, n + 1)
  {
    var w, p := Run(steps).value, posters[n];
    DeliveryRuns(p, n);
    WebhookDecides(p, n);
    var received := Receive(steps, n, DeliveryFor(p, n), Name(n));
    RunIsSound(received);
    RowIsFree(w, Run(received).value, posters, n);
    longer := LockAndWrite(received, n, JobFor(p, n), TxFor(p, n));
    OnlyThisTwice(w, Run(received).value, Run(longer).value, n);
    WebhookStands(Run(longer).value, posters, n);
    ArrivalKeepsLine(w, Run(longer).value, posters, n);
  }

  lemma {:induction false} LineUp(posters: seq<Poster>, n: nat) returns (steps: seq<Step>)
    requires n <= |posters| && AllPossible(posters)
    ensures Run(steps).Some? && LinedUp(Run(steps).value, posters, n)
    decreases n
  {
    if n == 0 {
      steps := Prepare(posters, |posters|);
    } else {
      var before := LineUp(posters, n - 1);
      if posters[n - 1].Posting? {
        steps := PostingArrives(before, posters, n - 1);
      } else {
        steps := WebhookArrives(before, posters, n - 1);
      }
    }
  }

  // ---- Into the circle

  function Turn(at: seq<nat>, n: nat, m: nat): nat
    requires m < |at|
  {
    if m < n then at[m] else 0
  }

  /** The first n requests are where the circle closes, the others before their first lines. */
  ghost predicate Advanced(w: World, posters: seq<Poster>, at: seq<nat>, n: nat)
    requires n <= |posters| == |at|
  {
    && (forall sid: Sid :: sid in w.sessions <==> sid < |posters|)
    && (forall m: nat :: m < |posters| ==> Stands(w, posters, m, Turn(at, n, m)))
    && w.db.accounts == SEED.accounts
  }

  lemma StandsAtTurn(w: World, posters: seq<Poster>, at: seq<nat>, n: nat, m: nat)
    requires n <= |posters| == |at| && Advanced(w, posters, at, n) && m < |posters|
    ensures Stands(w, posters, m, if m < n then at[m] else 0)
  {
    assert Stands(w, posters, m, Turn(at, n, m));
  }

  lemma NamesLess(lines: seq<Line>, m: nat, n: nat, code: string)
    requires m <= n && Names(lines, m, code)
    ensures Names(lines, n, code)
  {
  }

  lemma WayIsClear(w: World, posters: seq<Poster>, at: seq<nat>, n: nat)
    requires Circular(posters, at) && n < |posters| && Advanced(w, posters, at, n) && AllReached(w.sessions)
    ensures at[n] <= |LinesBy(posters[n])| && ClearAhead(w, n, LinesBy(posters[n]), at[n])
  {
    var lines := LinesBy(posters[n]);
    assert Links(posters, at, n);
    forall other, k | other in w.sessions && other != n && 0 <= k < at[n]
      ensures !Holds(w.sessions[other], AccountRow(lines[k].code))
    {
      var turn := Turn(at, n, other);
      assert Stands(w, posters, other, turn) && Apart(posters, at, n, other);
      HoldsPosted(w, other, LinesBy(posters[other]), turn);
      assert Names(lines, at[n], lines[k].code);
      if Names(LinesBy(posters[other]), turn, lines[k].code) {
        NamesLess(LinesBy(posters[other]), turn, at[other], lines[k].code);
      }
    }
    forall k | 0 <= k < at[n]
      ensures lines[k].code in w.db.accounts && RowCheck(lines[k].debit, lines[k].credit)
    {
      assert Postable(lines[k]);
    }
  }

  lemma AdvanceKeeps(w: World, after: World, posters: seq<Poster>, at: seq<nat>, n: nat, next: nat)
    requires n < |posters| == |at| && next == n + 1 && Advanced(w, posters, at, n)
    requires OnlyMoved(w, after, n) && At(after, n, LinesBy(posters[n]), at[n])
    ensures Advanced(after, posters, at, next)
  {
    StandsAtTurn(w, posters, at, n, n);
    forall m: nat | m < |posters|
      ensures Stands(after, posters, m, Turn(at, next, m))
    {
      if m != n {
        OthersStand(w, after, posters, n, m, Turn(at, n, m));
      }
    }
  }

  ghost predicate RunAdvances(steps: seq<Step>, posters: seq<Poster>, at: seq<nat>, n: nat)
    requires n <= |posters| == |at|
  {
    Run(steps).Some? && Advanced(Run(steps).value, posters, at, n)
  }

  lemma AdvanceOne(before: seq<Step>, posters: seq<Poster>, at: seq<nat>, n: nat, next: nat)
    returns (steps: seq<Step>)
    requires Circular(posters, at) && n < |posters| && next == n + 1
    requires RunAdvances(before, posters, at, n)
    ensures RunAdvances(steps, posters, at, next)
  {
    RunReaches(before);
    WayIsClear(Run(before).value, posters, at, n);
    StandsAtTurn(Run(before).value, posters, at, n, n);
    steps := PostAhead(before, n, LinesBy(posters[n]), at[n]);
    AdvanceKeeps(Run(before).value, Run(steps).value, posters, at, n, next);
  }

  lemma LineIsAdvanced(w: World, posters: seq<Poster>, at: seq<nat>)
    requires |posters| == |at| && LinedUp(w, posters, |posters|)
    ensures Advanced(w, posters, at, 0)
  {
  }

  lemma AdvanceNone(posters: seq<Poster>, at: seq<nat>) returns (steps: seq<Step>)
    requires |posters| == |at| && AllPossible(posters)
    ensures RunAdvances(steps, posters, at, 0)
  {
    steps := LineUp(posters, |posters|);
    LineIsAdvanced(Run(steps).value, posters, at);
  }

  lemma {:induction false} Advance(posters: seq<Poster>, at: seq<nat>, n: nat) returns (steps: seq<Step>)
    requires Circular(posters, at) && n <= |posters| && AllPossible(posters)
    ensures RunAdvances(steps, posters, at, n)
    decreases n
  {
    if n == 0 {
      steps := AdvanceNone(posters, at);
    } else {
      var most: nat := n - 1;
      var before := Advance(posters, at, most);
      steps := AdvanceOne(before, posters, at, most, n);
    }
  }

  function UpTo(n: nat): (sids: seq<Sid>)
    ensures |sids| == n && forall k :: 0 <= k < n ==> sids[k] == k
  {
    if n == 0 then [] else UpTo(n - 1) + [n - 1]
  }

  lemma StandsWaits(w: World, posters: seq<Poster>, at: seq<nat>, k: nat)
    requires Circular(posters, at) && k < |posters| && Advanced(w, posters, at, |posters|)
    requires AllReached(w.sessions) && LocksOk(w.locks, w.sessions)
    ensures Waits(w, k, Following(k, |posters|)) && RunsAs(w, k, posters[k])
  {
    var next := Following(k, |posters|);
    assert Links(posters, at, k);
    StandsAtTurn(w, posters, at, |posters|, k);
    StandsAtTurn(w, posters, at, |posters|, next);
    HoldsPosted(w, next, LinesBy(posters[next]), at[next]);
    assert Holds(w.sessions[next], AccountRow(LinesBy(posters[k])[at[k]].code));
  }

  /** Circular posters can be driven into a circle of waiting requests, numbered from 0 on. */
  lemma CircularCloses(posters: seq<Poster>, at: seq<nat>) returns (steps: seq<Step>)
    requires Circular(posters, at) && AllPossible(posters)
    ensures Run(steps).Some?
    ensures InCircle(Run(steps).value, UpTo(|posters|)) && AllRunAs(Run(steps).value, UpTo(|posters|), posters)
  {
    steps := Advance(posters, at, |posters|);
    RunIsSound(steps);
    RunReaches(steps);
    AllWait(Run(steps).value, posters, at);
  }

  lemma AllWait(w: World, posters: seq<Poster>, at: seq<nat>)
    requires Circular(posters, at) && Advanced(w, posters, at, |posters|)
    requires AllReached(w.sessions) && LocksOk(w.locks, w.sessions)
    ensures InCircle(w, UpTo(|posters|)) && AllRunAs(w, UpTo(|posters|), posters)
  {
    forall k | 0 <= k < |posters|
      ensures Waits(w, k, Following(k, |posters|)) && RunsAs(w, k, posters[k])
    {
      StandsWaits(w, posters, at, k);
    }
  }

  /** A run in which requests of these kinds wait for each other in a circle, in this order. */
  ghost predicate CanDeadlock(posters: seq<Poster>) {
    exists steps, sids ::
      Run(steps).Some? && InCircle(Run(steps).value, sids) && AllRunAs(Run(steps).value, sids, posters)
  }

  /** Any mix of postings, capture webhooks and refund webhooks can come to wait for each other in a circle, in
      this order, exactly when it is circular. */
  lemma DeadlockIffCircular(posters: seq<Poster>)
    requires AllPossible(posters)
    ensures CanDeadlock(posters) <==> exists at :: Circular(posters, at)
  {
    if steps, sids :| Run(steps).Some? && InCircle(Run(steps).value, sids) &&
                      AllRunAs(Run(steps).value, sids, posters) {
      RunIsRegular(steps);
      CircleIsCircular(Run(steps).value, sids, posters);
    }
    if at :| Circular(posters, at) {
      var steps := CircularCloses(posters, at);
    }
  }
}
