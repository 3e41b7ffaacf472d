/**
 Exactly when transactions that lock ledger accounts can come to wait for each other in a circle, whatever
 mix of generic postings, capture webhooks and refund webhooks they are.
 */
module WaitCircles {
  import opened Options
  import opened Ledger
  import opened LedgerBounds
  import opened Transactions
  import opened BookKeeping
  import opened Sessions
  import opened Isolation
  import opened Serialisability
  import opened Deadlock
  import opened Guarantees
  import opened CappedRequests
  import opened Driving

  /** A request that posts to the ledger. */
  datatype Poster = Posting(lines: seq<Line>) | Capture(amount: int) | Refund(amount: int)

  /** What validation lets through, and the amounts of payments and refunds there can be. */
  predicate Possible(p: Poster) {
    match p
    case Posting(lines) => Acceptable(lines)
    case Capture(amount) => Validated(amount)
    case Refund(amount) => 0 < amount
  }

  ghost predicate AllPossible(posters: seq<Poster>) {
    forall k :: 0 <= k < |posters| ==> Possible(posters[k])
  }

  function LinesBy(p: Poster): seq<Line> {
    match p
    case Posting(lines) => lines
    case Capture(amount) => CaptureLines(amount)
    case Refund(amount) => RefundLines(amount)
  }

  ghost predicate RunsAs(w: World, sid: Sid, p: Poster) {
    && sid in w.sessions && w.sessions[sid].pc.InTx?
    && var tx := w.sessions[sid].pc.tx;
       match p
       case Posting(lines) => tx.PostLedger? && tx.lines == lines
       case Capture(amount) =>
         tx.HookCapture? && tx.payment in w.db.payments && w.db.payments[tx.payment].amount == amount
       case Refund(amount) => tx.HookRefund? && tx.amount == amount
  }

  function Following(k: nat, n: nat): nat {
    if k + 1 == n then 0 else k + 1
  }

  /** The requests wait in a circle. */
  ghost predicate InCircle(w: World, sids: seq<Sid>) {
    && 2 <= |sids|
    && (forall k :: 0 <= k < |sids| ==> Waits(w, sids[k], sids[Following(k, |sids|)]))
    && (forall k, m :: 0 <= k < m < |sids| ==> sids[k] != sids[m])
  }

  ghost predicate AllRunAs(w: World, sids: seq<Sid>, posters: seq<Poster>) {
    && |sids| == |posters|
    && forall k :: 0 <= k < |sids| ==> RunsAs(w, sids[k], posters[k])
  }

  /** Some of the first n lines name the account. */
  ghost predicate Names(lines: seq<Line>, n: nat, code: string) {
    exists i :: 0 <= i < n && i < |lines| && lines[i].code == code
  }

  /** The line can be posted on the seeded accounts. */
  predicate Postable(line: Line) {
    line.code in SEED.accounts && RowCheck(line.debit, line.credit)
  }

  /** The k-th poster can get to its given line, whose account one of the lines before the given one of the
      next poster names. */
  ghost predicate Links(posters: seq<Poster>, at: seq<nat>, k: nat)
    requires k < |posters| == |at|
  {
    var lines, next := LinesBy(posters[k]), Following(k, |posters|);
    && at[k] < |lines|
    && (forall i :: 0 <= i < at[k] ==> Postable(lines[i]))
    && Names(LinesBy(posters[next]), at[next], lines[at[k]].code)
  }

  ghost predicate Apart(posters: seq<Poster>, at: seq<nat>, k: nat, m: nat)
    requires k < |posters| == |at| && m < |posters|
  {
    forall c :: !(Names(LinesBy(posters[k]), at[k], c) && Names(LinesBy(posters[m]), at[m], c))
  }

  /** Each poster has a line whose account is named before the line of the next, in a circle, and no two have
      named a common account before theirs. */
  ghost predicate Circular(posters: seq<Poster>, at: seq<nat>) {
    && 2 <= |posters| == |at|
    && (forall k :: 0 <= k < |posters| ==> Links(posters, at, k))
    && (forall k, m :: 0 <= k < |posters| && 0 <= m < |posters| && k != m ==> Apart(posters, at, k, m))
  }

  /** A request holds the accounts of the lines it has posted. */
  lemma HoldsPosted(w: World, sid: Sid, lines: seq<Line>, n: nat)
    requires AllReached(w.sessions) && At(w, sid, lines, n)
    ensures forall c :: Holds(w.sessions[sid], AccountRow(c)) <==> Names(lines, n, c)
  {
    assert SeenIsReached(w.sessions[sid].pc);
  }

  // ---- A circle of waiting requests is circular

  /** What every reachable state offers. */
  ghost predicate Regular(w: World) {
    Sound(w) && AllReached(w.sessions) && w.db.accounts.Keys == SEED.accounts.Keys
  }

  lemma RunIsRegular(steps: seq<Step>)
    requires Run(steps).Some?
    ensures Regular(Run(steps).value)
  {
    RunIsSound(steps);
    RunReaches(steps);
    LedgerReconciles(Txs(Run(steps).value.history));
  }

  /** A request that is waited for and waits itself waits for an account. */
  lemma WaitsForAccount(w: World, a: Sid, b: Sid)
    requires Regular(w) && Waits(w, a, b) && Wants(w.sessions[b]).Some?
    ensures Wants(w.sessions[b]).value.AccountRow? && w.sessions[b].pc.InTx? && w.sessions[b].pc.phase.Working?
  {
    assert Holds(w.sessions[b], Wants(w.sessions[a]).value);
  }

  function Before(k: nat, n: nat): nat
    requires k < n
  {
    if k == 0 then n - 1 else k - 1
  }

  lemma CircleWaitsForAccounts(w: World, sids: seq<Sid>, k: nat)
    requires Regular(w) && InCircle(w, sids) && k < |sids|
    ensures sids[k] in w.sessions
    ensures var s := w.sessions[sids[k]];
            && s.pc.InTx? && s.pc.phase.Working?
            && Wants(s).Some? && Wants(s).value.AccountRow?
  {
    var before := Before(k, |sids|);
    assert Following(before, |sids|) == k;
    assert Waits(w, sids[before], sids[k]) && Waits(w, sids[k], sids[Following(k, |sids|)]);
    WaitsForAccount(w, sids[before], sids[k]);
  }

  /** How many lines a request has posted. */
  function Posted(w: World, sid: Sid): nat {
    if sid in w.sessions && w.sessions[sid].pc.InTx? && w.sessions[sid].pc.phase.Working?
    then |w.sessions[sid].pc.phase.entries|
    else 0
  }

  lemma PostedWerePostable(seen: Accounts, lines: seq<Line>, n: nat)
    requires n <= |lines| && PostLines(seen, lines[..n]).Posted? && seen.Keys <= SEED.accounts.Keys
    ensures forall i :: 0 <= i < n ==> Postable(lines[i])
  {
    PostingShape(seen, lines[..n]);
    assert forall i :: 0 <= i < n ==> lines[..n][i] == lines[i];
  }

  lemma WaiterIsAt(w: World, sid: Sid, p: Poster)
    requires Regular(w) && RunsAs(w, sid, p) && w.sessions[sid].pc.phase.Working? && Wants(w.sessions[sid]).Some?
    ensures var n, lines := Posted(w, sid), LinesBy(p);
            && At(w, sid, lines, n) && n < |lines|
            && Wants(w.sessions[sid]).value == AccountRow(lines[n].code)
            && forall i :: 0 <= i < n ==> Postable(lines[i])
  {
    var pc := w.sessions[sid].pc;
    assert TxOk(w.db, pc.tx, pc.phase);
    assert pc.phase.writes.lines == LinesBy(p);
    PostedWerePostable(pc.phase.seen, pc.phase.writes.lines, |pc.phase.entries|);
  }

  lemma LinkOf(w: World, a: Sid, b: Sid, p: Poster, q: Poster)
    requires Regular(w) && Waits(w, a, b) && RunsAs(w, a, p) && RunsAs(w, b, q)
    requires w.sessions[a].pc.phase.Working? && w.sessions[b].pc.phase.Working? && Wants(w.sessions[b]).Some?
    ensures Posted(w, a) < |LinesBy(p)|
    ensures Names(LinesBy(q), Posted(w, b), LinesBy(p)[Posted(w, a)].code)
  {
    WaiterIsAt(w, a, p);
    WaiterIsAt(w, b, q);
    HoldsPosted(w, b, LinesBy(q), Posted(w, b));
    assert Holds(w.sessions[b], Wants(w.sessions[a]).value);
  }

  lemma HeldApart(w: World, a: Sid, b: Sid, p: Poster, q: Poster)
    requires Regular(w) && a != b && RunsAs(w, a, p) && RunsAs(w, b, q)
    requires At(w, a, LinesBy(p), Posted(w, a)) && At(w, b, LinesBy(q), Posted(w, b))
    ensures forall c :: !(Names(LinesBy(p), Posted(w, a), c) && Names(LinesBy(q), Posted(w, b), c))
  {
    HoldsPosted(w, a, LinesBy(p), Posted(w, a));
    HoldsPosted(w, b, LinesBy(q), Posted(w, b));
    forall c
      ensures !(Names(LinesBy(p), Posted(w, a), c) && Names(LinesBy(q), Posted(w, b), c))
    {
      if Names(LinesBy(p), Posted(w, a), c) && Names(LinesBy(q), Posted(w, b), c) {
        OneHolder(w.locks, w.sessions, a, b, AccountRow(c));
      }
    }
  }

  function AllPosted(w: World, sids: seq<Sid>): (at: seq<nat>)
    ensures |at| == |sids| && forall k :: 0 <= k < |sids| ==> at[k] == Posted(w, sids[k])
  {
    if sids == [] then [] else AllPosted(w, sids[..|sids| - 1]) + [Posted(w, sids[|sids| - 1])]
  }

  lemma CircleIsCircular(w: World, sids: seq<Sid>, posters: seq<Poster>)
    requires Regular(w) && InCircle(w, sids) && AllRunAs(w, sids, posters)
    ensures Circular(posters, AllPosted(w, sids))
  {
    var at := AllPosted(w, sids);
    forall k | 0 <= k < |posters|
      ensures Links(posters, at, k)
    {
      var next := Following(k, |sids|);
      CircleWaitsForAccounts(w, sids, k);
      CircleWaitsForAccounts(w, sids, next);
      assert Waits(w, sids[k], sids[next]);
      WaiterIsAt(w, sids[k], posters[k]);
      LinkOf(w, sids[k], sids[next], posters[k], posters[next]);
    }
    forall k, m | 0 <= k < |posters| && 0 <= m < |posters| && k != m
      ensures Apart(posters, at, k, m)
    {
      CircleWaitsForAccounts(w, sids, k);
      CircleWaitsForAccounts(w, sids, m);
      WaiterIsAt(w, sids[k], posters[k]);
      WaiterIsAt(w, sids[m], posters[m]);
      HeldApart(w, sids[k], sids[m], posters[k], posters[m]);
    }
  }

  /** What a waiting request posts. */
  function PosterOf(w: World, sid: Sid): Poster {
    if sid in w.sessions && w.sessions[sid].pc.InTx? then
      var tx := w.sessions[sid].pc.tx;
      if tx.PostLedger? then Posting(tx.lines)
      else if tx.HookRefund? then Refund(tx.amount)
      else if tx.HookCapture? && tx.payment in w.db.payments then Capture(w.db.payments[tx.payment].amount)
      else Posting([])
    else Posting([])
  }

  lemma WaiterIsPoster(w: World, sid: Sid)
    requires Regular(w) && CappedPayments(w.db.payments) && sid in w.sessions && w.sessions[sid].pc.InTx?
    requires w.sessions[sid].pc.phase.Working? && Wants(w.sessions[sid]).Some?
    ensures RunsAs(w, sid, PosterOf(w, sid)) && Possible(PosterOf(w, sid))
  {
    var pc := w.sessions[sid].pc;
    assert TxOk(w.db, pc.tx, pc.phase);
    OnlyPostersHaveLines(pc.tx, Read(w.db, pc.tx));
  }

  lemma OnlyPostersHaveLines(tx: Tx, read: Option<Payment>)
    requires Decide(tx, read).Write? && Decide(tx, read).writes.lines != []
    ensures tx.PostLedger? || tx.HookCapture? || (tx.HookRefund? && 0 < tx.amount)
    ensures tx.PostLedger? ==> Acceptable(tx.lines)
    ensures !tx.PostLedger? ==> read.Some?
  {
  }

  function PostersOf(w: World, sids: seq<Sid>): (posters: seq<Poster>)
    ensures |posters| == |sids| && forall k :: 0 <= k < |sids| ==> posters[k] == PosterOf(w, sids[k])
  {
    if sids == [] then [] else PostersOf(w, sids[..|sids| - 1]) + [PosterOf(w, sids[|sids| - 1])]
  }

  /** Every circle of waiting requests in a reachable state is one of posters, and they are circular: nothing
      else ever deadlocks. */
  lemma EveryCircleIsCircular(steps: seq<Step>, sids: seq<Sid>)
    requires Run(steps).Some? && InCircle(Run(steps).value, sids)
    ensures var w := Run(steps).value;
            && AllRunAs(w, sids, PostersOf(w, sids))
            && AllPossible(PostersOf(w, sids))
            && Circular(PostersOf(w, sids), AllPosted(w, sids))
  {
    var w := Run(steps).value;
    RunIsRegular(steps);
    EveryRunIsSerial(steps);
    HistoryIsHandled(steps);
    PaymentsAreValidated(Txs(w.history));
    forall k | 0 <= k < |sids|
      ensures RunsAs(w, sids[k], PostersOf(w, sids)[k]) && Possible(PostersOf(w, sids)[k])
    {
      CircleWaitsForAccounts(w, sids, k);
      WaiterIsPoster(w, sids[k]);
    }
    CircleIsCircular(w, sids, PostersOf(w, sids));
  }
}
