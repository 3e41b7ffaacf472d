/**
 Generic postings choose the order of their lines. What the exact condition for a circle of waiting requests
 says about two postings, about three, and about one posting and one webhook.
 */
module PostingDeadlock {
  import opened Ledger
  import opened LedgerBounds
  import opened Transactions
  import opened BookKeeping
  import opened Sessions
  import opened Isolation
  import opened Deadlock
  import opened WaitCircles
  import opened CircleRuns

  // ---- Two postings

  /** The i-th line of one names an account that the other has named before its j-th, and the other way round;
      both can get there, and name no common account before. */
  ghost predicate Crosses(a: seq<Line>, b: seq<Line>, i: nat, j: nat) {
    && i < |a| && j < |b|
    && (forall k :: 0 <= k < i ==> Postable(a[k])) && (forall k :: 0 <= k < j ==> Postable(b[k]))
    && Names(b, j, a[i].code)
    && Names(a, i, b[j].code)
    && forall c :: !(Names(a, i, c) && Names(b, j, c))
  }

  ghost predicate Posts(w: World, sid: Sid, lines: seq<Line>) {
    && sid in w.sessions
    && w.sessions[sid].job.PostJob?
    && w.sessions[sid].job.lines == lines
  }

  /** Two requests posting these lines wait for each other. */
  ghost predicate Embrace(w: World, x: Sid, y: Sid, a: seq<Line>, b: seq<Line>) {
    Posts(w, x, a) && Posts(w, y, b) && Waits(w, x, y) && Waits(w, y, x)
  }

  lemma PostsRuns(w: World, sid: Sid, lines: seq<Line>)
    requires sid in w.sessions && PcFits(w.sessions[sid])
    ensures Posts(w, sid, lines) <==> RunsAs(w, sid, Posting(lines))
  {
  }

  lemma TwoInCircle(w: World, sids: seq<Sid>)
    requires |sids| == 2
    ensures InCircle(w, sids) <==> Waits(w, sids[0], sids[1]) && Waits(w, sids[1], sids[0])
  {
    if InCircle(w, sids) {
      assert Waits(w, sids[0], sids[Following(0, 2)]) && Waits(w, sids[1], sids[Following(1, 2)]);
    }
  }

  lemma TwoRunAs(w: World, sids: seq<Sid>, posters: seq<Poster>)
    requires |sids| == |posters| == 2
    ensures AllRunAs(w, sids, posters) <==> RunsAs(w, sids[0], posters[0]) && RunsAs(w, sids[1], posters[1])
  {
  }

  lemma EmbraceIsCircle(w: World, x: Sid, y: Sid, a: seq<Line>, b: seq<Line>)
    requires FlowsOk(w.sessions, w.issued)
    ensures Embrace(w, x, y, a, b) <==>
              InCircle(w, [x, y]) && AllRunAs(w, [x, y], [Posting(a), Posting(b)])
  {
    TwoInCircle(w, [x, y]);
    TwoRunAs(w, [x, y], [Posting(a), Posting(b)]);
    if x in w.sessions && y in w.sessions {
      PostsRuns(w, x, a);
      PostsRuns(w, y, b);
    }
  }

  lemma CrossesIsCircular(a: seq<Line>, b: seq<Line>, i: nat, j: nat)
    ensures Crosses(a, b, i, j) <==> Circular([Posting(a), Posting(b)], [i, j])
  {
    var posters, at := [Posting(a), Posting(b)], [i, j];
    assert posters[0] == Posting(a) && posters[1] == Posting(b);
    if Circular(posters, at) {
      assert Links(posters, at, 0) && Links(posters, at, 1) && Apart(posters, at, 0, 1);
    }
    if Crosses(a, b, i, j) {
      assert Links(posters, at, 0) && Links(posters, at, 1);
      assert Apart(posters, at, 0, 1) && Apart(posters, at, 1, 0);
    }
  }

  lemma TwoLong(at: seq<nat>)
    requires |at| == 2
    ensures at == [at[0], at[1]]
  {
  }

  lemma CrossingEmbraces(a: seq<Line>, b: seq<Line>, i: nat, j: nat) returns (steps: seq<Step>)
    requires Acceptable(a) && Acceptable(b) && Crosses(a, b, i, j)
    ensures Run(steps).Some? && Embrace(Run(steps).value, 0, 1, a, b)
  {
    CrossesIsCircular(a, b, i, j);
    steps := CircularCloses([Posting(a), Posting(b)], [i, j]);
    RunIsRegular(steps);
    assert UpTo(2) == [0, 1];
    EmbraceIsCircle(Run(steps).value, 0, 1, a, b);
  }

  lemma EmbraceCrosses(w: World, x: Sid, y: Sid, a: seq<Line>, b: seq<Line>) returns (i: nat, j: nat)
    requires Regular(w) && Embrace(w, x, y, a, b)
    ensures Crosses(a, b, i, j)
  {
    EmbraceIsCircle(w, x, y, a, b);
    CircleIsCircular(w, [x, y], [Posting(a), Posting(b)]);
    var at := AllPosted(w, [x, y]);
    TwoLong(at);
    i, j := at[0], at[1];
    CrossesIsCircular(a, b, i, j);
  }

  /** Two postings that pass validation can deadlock exactly when their lines cross. */
  lemma DeadlockIffCrossing(a: seq<Line>, b: seq<Line>)
    requires Acceptable(a) && Acceptable(b)
    ensures (exists steps, x, y :: Run(steps).Some? && Embrace(Run(steps).value, x, y, a, b)) <==>
            (exists i, j :: Crosses(a, b, i, j))
  {
    if steps, x, y :| Run(steps).Some? && Embrace(Run(steps).value, x, y, a, b) {
      RunIsRegular(steps);
      var i, j := EmbraceCrosses(Run(steps).value, x, y, a, b);
    }
    if i, j :| Crosses(a, b, i, j) {
      var steps := CrossingEmbraces(a, b, i, j);
    }
  }

  /** A posting of 1 from one account to another. */
  function Transfer(x: string, y: string): seq<Line> {
    [Line(x, 1, 0), Line(y, 0, 1)]
  }

  lemma TransferIsPossible(x: string, y: string)
    requires x in SEED.accounts && y in SEED.accounts
    ensures Acceptable(Transfer(x, y)) && Postable(Transfer(x, y)[0])
    ensures forall c :: Names(Transfer(x, y), 1, c) <==> c == x
  {
    TwoLineTotals(Line(x, 1, 0), Line(y, 0, 1));
    assert Transfer(x, y)[0].code == x;
  }

  /** Two balanced postings over the same two accounts in opposite orders do deadlock in some run. */
  lemma OppositePostingsDeadlock(x: string, y: string) returns (steps: seq<Step>)
    requires x != y && x in SEED.accounts && y in SEED.accounts
    ensures Run(steps).Some?
    ensures Embrace(Run(steps).value, 0, 1, [Line(x, 1, 0), Line(y, 0, 1)], [Line(y, 1, 0), Line(x, 0, 1)])
  {
    TransferIsPossible(x, y);
    TransferIsPossible(y, x);
    steps := CrossingEmbraces(Transfer(x, y), Transfer(y, x), 1, 1);
  }

  // ---- Three postings

  function Ring(x: string, y: string, z: string): seq<Poster> {
    [Posting(Transfer(x, y)), Posting(Transfer(y, z)), Posting(Transfer(z, x))]
  }

  lemma TransferLinks(posters: seq<Poster>, at: seq<nat>, k: nat, x: string, y: string, z: string)
    requires k < |posters| == |at| && posters[k] == Posting(Transfer(x, y)) && at[k] == 1
    requires var next := Following(k, |posters|); posters[next] == Posting(Transfer(y, z)) && at[next] == 1
    requires x in SEED.accounts && y in SEED.accounts && z in SEED.accounts
    ensures Links(posters, at, k)
  {
    TransferIsPossible(x, y);
    TransferIsPossible(y, z);
  }

  lemma TransfersApart(posters: seq<Poster>, at: seq<nat>, k: nat, m: nat, x: string, y: string, z: string)
    requires k < |posters| == |at| && posters[k] == Posting(Transfer(x, y)) && at[k] == 1
    requires m < |posters| && posters[m] == Posting(Transfer(y, z)) && at[m] == 1
    requires x != y && x in SEED.accounts && y in SEED.accounts && z in SEED.accounts
    ensures Apart(posters, at, k, m) && Apart(posters, at, m, k)
  {
    TransferIsPossible(x, y);
    TransferIsPossible(y, z);
  }

  lemma TransfersAreCircular(x: string, y: string, z: string)
    requires x != y && y != z && x != z && x in SEED.accounts && y in SEED.accounts && z in SEED.accounts
    ensures Circular(Ring(x, y, z), [1, 1, 1]) && AllPossible(Ring(x, y, z))
  {
    TransferIsPossible(x, y);
    TransferIsPossible(y, z);
    TransferIsPossible(z, x);
    var posters, at := Ring(x, y, z), [1, 1, 1];
    TransferLinks(posters, at, 0, x, y, z);
    TransferLinks(posters, at, 1, y, z, x);
    TransferLinks(posters, at, 2, z, x, y);
    TransfersApart(posters, at, 0, 1, x, y, z);
    TransfersApart(posters, at, 1, 2, y, z, x);
    TransfersApart(posters, at, 2, 0, z, x, y);
  }

  lemma NeverCross(x: string, y: string, z: string)
    requires x != y && y != z && x != z
    ensures !exists i, j :: Crosses(Transfer(x, y), Transfer(y, z), i, j)
  {
  }

  /** Three postings of which no two cross can deadlock. */
  lemma ThreePostingsDeadlock(x: string, y: string, z: string) returns (steps: seq<Step>)
    requires x != y && y != z && x != z && x in SEED.accounts && y in SEED.accounts && z in SEED.accounts
    ensures !exists i, j :: Crosses(Transfer(x, y), Transfer(y, z), i, j)
    ensures !exists i, j :: Crosses(Transfer(y, z), Transfer(z, x), i, j)
    ensures !exists i, j :: Crosses(Transfer(z, x), Transfer(x, y), i, j)
    ensures Run(steps).Some? && InCircle(Run(steps).value, UpTo(3))
    ensures AllRunAs(Run(steps).value, UpTo(3), Ring(x, y, z))
  {
    NeverCross(x, y, z);
    NeverCross(y, z, x);
    NeverCross(z, x, y);
    TransfersAreCircular(x, y, z);
    steps := CircularCloses(Ring(x, y, z), [1, 1, 1]);
  }

  // ---- A posting and a webhook

  /** The posting names the second account before it first names the first one. */
  ghost predicate Reverses(lines: seq<Line>, first: string, second: string, i: nat) {
    && i < |lines| && lines[i].code == first
    && (forall k :: 0 <= k < i ==> Postable(lines[k]))
    && Names(lines, i, second) && !Names(lines, i, first)
  }

  lemma TwoLineCircle(lines: seq<Line>, q: Poster, i: nat, j: nat)
    requires |LinesBy(q)| == 2 && LinesBy(q)[0].code != LinesBy(q)[1].code && Postable(LinesBy(q)[0])
    ensures Circular([Posting(lines), q], [i, j]) <==>
              j == 1 && Reverses(lines, LinesBy(q)[0].code, LinesBy(q)[1].code, i)
  {
    var posters, at := [Posting(lines), q], [i, j];
    assert posters[0] == Posting(lines) && posters[1] == q;
    assert forall c :: Names(LinesBy(q), 1, c) <==> c == LinesBy(q)[0].code;
    if Circular(posters, at) {
      assert Links(posters, at, 0) && Links(posters, at, 1) && Apart(posters, at, 0, 1);
      assert Names(LinesBy(q), 1, LinesBy(q)[0].code);
    }
    if j == 1 && Reverses(lines, LinesBy(q)[0].code, LinesBy(q)[1].code, i) {
      assert Links(posters, at, 0) && Links(posters, at, 1);
      assert Apart(posters, at, 0, 1) && Apart(posters, at, 1, 0);
    }
  }

  lemma TwoLineDeadlock(lines: seq<Line>, q: Poster)
    requires Acceptable(lines) && Possible(q)
    requires |LinesBy(q)| == 2 && LinesBy(q)[0].code != LinesBy(q)[1].code && Postable(LinesBy(q)[0])
    ensures CanDeadlock([Posting(lines), q]) <==>
            exists i :: Reverses(lines, LinesBy(q)[0].code, LinesBy(q)[1].code, i)
  {
    DeadlockIffCircular([Posting(lines), q]);
    if at :| Circular([Posting(lines), q], at) {
      TwoLong(at);
      TwoLineCircle(lines, q, at[0], at[1]);
    }
    if i :| Reverses(lines, LinesBy(q)[0].code, LinesBy(q)[1].code, i) {
      TwoLineCircle(lines, q, i, 1);
    }
  }

  /** A posting can deadlock with a capture webhook exactly when it names MERCHANT_PAY before PSP_SETTLEMENT. */
  lemma PostingAgainstCapture(lines: seq<Line>, amount: int)
    requires Acceptable(lines) && Validated(amount)
    ensures CanDeadlock([Posting(lines), Capture(amount)]) <==>
            exists i :: Reverses(lines, PSP_SETTLEMENT, MERCHANT_PAY, i)
  {
    HookAccounts();
    TwoLineDeadlock(lines, Capture(amount));
  }

  /** And with a refund webhook exactly when it names REFUND_EXP before MERCHANT_PAY. */
  lemma PostingAgainstRefund(lines: seq<Line>, amount: int)
    requires Acceptable(lines) && 0 < amount
    ensures CanDeadlock([Posting(lines), Refund(amount)]) <==>
            exists i :: Reverses(lines, MERCHANT_PAY, REFUND_EXP, i)
  {
    HookAccounts();
    TwoLineDeadlock(lines, Refund(amount));
  }
}
