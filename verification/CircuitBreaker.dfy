/**
 internal/pkg/circuitbreaker/circuitbreaker.go. A breaker is described by the
 timestamped history of the calls made to it; times are the clock readings the
 methods take.
 */
module CircuitBreaker {
  datatype State = Closed | Open | HalfOpen

  datatype Config = Config(failureThreshold: int, successThreshold: int, openTimeout: int)

  const DEFAULT_CONFIG := Config(5, 2, 30_000_000_000)

  /** A call of Allow, RecordSuccess or RecordFailure at a clock reading. */
  datatype Event = Asked(at: int) | Succeeded(at: int) | Failed(at: int)

  datatype View = View(state: State, consecutiveFails: nat, consecutiveOK: nat, openedAt: int)

  const FRESH := View(Closed, 0, 0, 0)

  function After(cfg: Config, v: View, e: Event): View {
    match e
    case Asked(now) =>
      if v.state == Open && now - v.openedAt >= cfg.openTimeout then v.(state := HalfOpen, consecutiveOK := 0) else v
    case Succeeded(_) =>
      var ok := if v.state == HalfOpen then v.consecutiveOK + 1 else v.consecutiveOK;
      var closes := v.state == HalfOpen && ok >= cfg.successThreshold;
      View(if closes then Closed else v.state, 0, ok, v.openedAt)
    case Failed(now) =>
      var opens := v.state == HalfOpen || (v.state == Closed && v.consecutiveFails + 1 >= cfg.failureThreshold);
      View(if opens then Open else v.state, v.consecutiveFails + 1, 0, if opens then now else v.openedAt)
  }

  function Replay(cfg: Config, history: seq<Event>): View {
    if history == [] then FRESH
    else After(cfg, Replay(cfg, history[..|history| - 1]), history[|history| - 1])
  }

  lemma ReplayOneMore(cfg: Config, history: seq<Event>, e: Event)
    ensures Replay(cfg, history + [e]) == After(cfg, Replay(cfg, history), e)
  {
    assert (history + [e])[..|history|] == history;
  }

  class Breaker {
    const cfg: Config
    var state: State
    var consecutiveFails: nat
    var consecutiveOK: nat
    var totalRequests: nat
    var totalFailures: nat
    var openedAt: int
    ghost var history: seq<Event>

    function Now(): View
      reads this
    {
      View(state, consecutiveFails, consecutiveOK, openedAt)
    }

    /** The fields are what the history makes of them. */
    ghost predicate Valid()
      reads this
    {
      && Now() == Replay(cfg, history)
      && totalRequests == Outcomes(history)
      && totalFailures == Failures(history)
    }

    constructor (cfg: Config)
      ensures Valid() && history == [] && this.cfg == cfg && Now() == View(Closed, 0, 0, 0)
    {
      this.cfg := cfg;
      state, consecutiveFails, consecutiveOK, openedAt := Closed, 0, 0, 0;
      totalRequests, totalFailures := 0, 0;
      history := [];
    }

    method Allow(now: int) returns (allowed: bool)
      requires Valid()
      modifies this
      ensures Valid() && history == old(history) + [Asked(now)]
      ensures allowed <==> old(state) != Open || old(openedAt) + cfg.openTimeout <= now
      ensures Now() == if old(state) == Open && allowed then View(HalfOpen, old(consecutiveFails), 0, old(openedAt))
                       else old(Now())
    {
      ReplayOneMore(cfg, history, Asked(now));
      history := history + [Asked(now)];
      match state
      case Closed =>
        allowed := true;
      case Open =>
        if now - openedAt >= cfg.openTimeout {
          state := HalfOpen;
          consecutiveOK := 0;
          allowed := true;
        } else {
          allowed := false;
        }
      case HalfOpen =>
        allowed := true;
    }

    method RecordSuccess(now: int)
      requires Valid()
      modifies this
      ensures Valid() && history == old(history) + [Succeeded(now)]
      ensures consecutiveFails == 0 && openedAt == old(openedAt)
      ensures totalRequests == old(totalRequests) + 1 && totalFailures == old(totalFailures)
    {
      ReplayOneMore(cfg, history, Succeeded(now));
      history := history + [Succeeded(now)];
      totalRequests := totalRequests + 1;
      consecutiveFails := 0;
      if state == HalfOpen {
        consecutiveOK := consecutiveOK + 1;
        if consecutiveOK >= cfg.successThreshold {
          state := Closed;
        }
      }
    }

    method RecordFailure(now: int)
      requires Valid()
      modifies this
      ensures Valid() && history == old(history) + [Failed(now)]
      ensures consecutiveFails == old(consecutiveFails) + 1 && consecutiveOK == 0
      ensures totalRequests == old(totalRequests) + 1 && totalFailures == old(totalFailures) + 1
    {
      ReplayOneMore(cfg, history, Failed(now));
      history := history + [Failed(now)];
      totalRequests := totalRequests + 1;
      totalFailures := totalFailures + 1;
      consecutiveFails := consecutiveFails + 1;
      consecutiveOK := 0;
      if state == HalfOpen {
        state := Open;
        openedAt := now;
        return;
      }
      if state == Closed && consecutiveFails >= cfg.failureThreshold {
        state := Open;
        openedAt := now;
      }
    }
  }

  function Outcomes(history: seq<Event>): nat {
    if history == [] then 0
    else Outcomes(history[..|history| - 1]) + if history[|history| - 1].Asked? then 0 else 1
  }

  function Failures(history: seq<Event>): nat {
    if history == [] then 0
    else Failures(history[..|history| - 1]) + if history[|history| - 1].Failed? then 1 else 0
  }

  // ---- The four changes of state

  /** A breaker opens on the failure that reaches FailureThreshold, or on any failure while half-open, and notes the
      time; turns half-open on a request OpenTimeout after that; and closes on the success that reaches
      SuccessThreshold while half-open. Nothing else changes its state. */
  lemma StateChanges(cfg: Config, history: seq<Event>, e: Event)
    ensures var v, after := Replay(cfg, history), Replay(cfg, history + [e]);
            && (v.state == Closed ==>
              after.state == if e.Failed? && v.consecutiveFails + 1 >= cfg.failureThreshold then Open else Closed)
            && (v.state == Open ==>
              after.state == if e.Asked? && e.at >= v.openedAt + cfg.openTimeout then HalfOpen else Open)
            && (v.state == HalfOpen ==>
              after.state == if e.Failed? then Open
                             else if e.Succeeded? && v.consecutiveOK + 1 >= cfg.successThreshold then Closed
                             else HalfOpen)
            && after.openedAt == if v.state != Open && after.state == Open then e.at else v.openedAt
  {
    ReplayOneMore(cfg, history, e);
  }

  /** A success ends the failures in a row and, while half-open, is one more; a failure is one more in a row and ends
      the successes; a request that turns the breaker half-open starts to count these afresh. */
  lemma CounterChanges(cfg: Config, history: seq<Event>, e: Event)
    ensures var v, after := Replay(cfg, history), Replay(cfg, history + [e]);
            match e
            case Succeeded(_) =>
              && after.consecutiveFails == 0
              && after.consecutiveOK == v.consecutiveOK + if v.state == HalfOpen then 1 else 0
            case Failed(_) => after.consecutiveFails == v.consecutiveFails + 1 && after.consecutiveOK == 0
            case Asked(_) =>
              && after.consecutiveFails == v.consecutiveFails
              && after.consecutiveOK == if v.state == Open && after.state == HalfOpen then 0 else v.consecutiveOK
  {
    ReplayOneMore(cfg, history, e);
  }

  // ---- What the states mean over a whole history

  ghost predicate Positive(cfg: Config) {
    0 < cfg.failureThreshold && 0 < cfg.successThreshold && 0 <= cfg.openTimeout
  }

  ghost predicate Monotone(history: seq<Event>) {
    forall i, j :: 0 <= i <= j < |history| ==> history[i].at <= history[j].at
  }

  /** The number of failures recorded since the last success. */
  function FailureSuffix(history: seq<Event>): nat {
    if history == [] then 0
    else
      match history[|history| - 1]
      case Asked(_) => FailureSuffix(history[..|history| - 1])
      case Succeeded(_) => 0
      case Failed(_) => FailureSuffix(history[..|history| - 1]) + 1
  }

  /** consecutiveFails counts the failures since the last success, and bounds are kept: closed means
      fewer than FailureThreshold of them, half-open fewer than SuccessThreshold successes. */
  lemma {:induction false} Counters(cfg: Config, history: seq<Event>)
    requires Positive(cfg)
    ensures var v := Replay(cfg, history);
            && v.consecutiveFails == FailureSuffix(history)
            && (v.state == Closed ==> v.consecutiveFails < cfg.failureThreshold)
            && (v.state == HalfOpen ==> v.consecutiveOK < cfg.successThreshold)
    decreases |history|
  {
    if history != [] {
      Counters(cfg, history[..|history| - 1]);
    }
  }

  /** A closed breaker opens exactly on the failure that makes FailureThreshold of them in a row. */
  lemma OpensOnThreshold(cfg: Config, history: seq<Event>, e: Event)
    requires Positive(cfg) && Replay(cfg, history).state == Closed
    ensures Replay(cfg, history + [e]).state == Open <==>
              e.Failed? && FailureSuffix(history + [e]) == cfg.failureThreshold
    ensures Replay(cfg, history + [e]).state != HalfOpen
  {
    Counters(cfg, history);
    ReplayOneMore(cfg, history, e);
    assert (history + [e])[..|history|] == history;
  }

  /** The last n outcomes of the history are all failures. */
  ghost predicate LastAllFailed(history: seq<Event>, n: nat)
    decreases |history|
  {
    n == 0 ||
    (history != [] &&
     match history[|history| - 1]
     case Asked(_) => LastAllFailed(history[..|history| - 1], n)
     case Succeeded(_) => false
     case Failed(_) => LastAllFailed(history[..|history| - 1], n - 1))
  }

  lemma {:induction false} SuffixIsLastAllFailed(history: seq<Event>, n: nat)
    ensures LastAllFailed(history, n) <==> n <= FailureSuffix(history)
    decreases |history|
  {
    if history != [] {
      SuffixIsLastAllFailed(history[..|history| - 1], n);
      if 0 < n {
        SuffixIsLastAllFailed(history[..|history| - 1], n - 1);
      }
    }
  }

  /** From index m on the breaker has been half-open, and every outcome was a success. */
  ghost predicate ProbingSince(cfg: Config, history: seq<Event>, m: nat)
    requires 0 < m <= |history|
  {
    && history[m - 1].Asked? && Replay(cfg, history[..m - 1]).state == Open
    && (forall i :: m <= i <= |history| ==> Replay(cfg, history[..i]).state == HalfOpen)
    && (forall i :: m <= i < |history| ==> !history[i].Failed?)
  }

  lemma {:induction false} OutcomesSplit(a: seq<Event>, e: Event)
    ensures Outcomes(a + [e]) == Outcomes(a) + if e.Asked? then 0 else 1
    ensures Failures(a + [e]) == Failures(a) + if e.Failed? then 1 else 0
  {
    assert (a + [e])[..|a|] == a;
  }

  /** A half-open breaker was entered by a permitted probe after an opening, and consecutiveOK counts
      the outcomes recorded since, all successes. */
  lemma {:induction false} HalfOpenRun(cfg: Config, history: seq<Event>) returns (m: nat)
    requires Positive(cfg) && Replay(cfg, history).state == HalfOpen
    ensures 0 < m <= |history| && ProbingSince(cfg, history, m)
    ensures Replay(cfg, history).consecutiveOK == Outcomes(history[m..])
    decreases |history|
  {
    var most, last := history[..|history| - 1], history[|history| - 1];
    if Replay(cfg, most).state == HalfOpen {
      m := HalfOpenRun(cfg, most);
      assert history[m..] == most[m..] + [last];
      OutcomesSplit(most[m..], last);
      forall i | m <= i <= |history|
        ensures Replay(cfg, history[..i]).state == HalfOpen
      {
        if i < |history| {
          assert history[..i] == most[..i];
        } else {
          assert history[..i] == history;
        }
      }
      assert history[..m - 1] == most[..m - 1];
    } else {
      m := |history|;
      assert history[..m] == history;
      assert history[m..] == [];
    }
  }

  /** A breaker closes only on the success that completes SuccessThreshold successes since it became
      half-open, with no failure among them. */
  lemma ClosesAfterSuccesses(cfg: Config, history: seq<Event>, e: Event) returns (m: nat)
    requires Positive(cfg) && Replay(cfg, history).state != Closed && Replay(cfg, history + [e]).state == Closed
    ensures e.Succeeded? && 0 < m <= |history| && ProbingSince(cfg, history, m)
    ensures Outcomes(history[m..] + [e]) == cfg.successThreshold
  {
    ReplayOneMore(cfg, history, e);
    Counters(cfg, history);
    m := HalfOpenRun(cfg, history);
    OutcomesSplit(history[m..], e);
  }

  /** While the breaker is half-open consecutiveOK counts the outcomes since the probe. */
  lemma {:induction false} ProbeCounts(cfg: Config, history: seq<Event>, m: nat)
    requires 0 < m <= |history| && ProbingSince(cfg, history, m)
    ensures Replay(cfg, history).consecutiveOK == Outcomes(history[m..])
    decreases |history|
  {
    assert history[..|history|] == history;
    if m == |history| {
      assert history[m..] == [];
    } else {
      var most, last := history[..|history| - 1], history[|history| - 1];
      assert forall i :: 0 <= i <= |most| ==> most[..i] == history[..i];
      ProbeCounts(cfg, most, m);
      assert history[m..] == most[m..] + [last];
      OutcomesSplit(most[m..], last);
      assert Replay(cfg, history[..|history| - 1]).state == HalfOpen;
    }
  }

  /** A half-open breaker closes exactly on the success that completes SuccessThreshold successes since the probe,
      and opens exactly on a failure, from whose time OpenTimeout counts anew. */
  lemma LeavesHalfOpen(cfg: Config, history: seq<Event>, m: nat, e: Event)
    requires Positive(cfg) && 0 < m <= |history| && ProbingSince(cfg, history, m)
    ensures var after := Replay(cfg, history + [e]);
            && (after.state == Closed <==>
                e.Succeeded? && Outcomes(history[m..] + [e]) == cfg.successThreshold)
            && (after.state == Open <==> e.Failed?)
            && (e.Failed? ==> after.openedAt == e.at)
  {
    assert history[..|history|] == history;
    ProbeCounts(cfg, history, m);
    Counters(cfg, history);
    StateChanges(cfg, history, e);
    OutcomesSplit(history[m..], e);
  }

  // ---- Nothing passes while the breaker is open

  /** The breaker opened at index n: before it was not open, after it is, and the event is a failure. */
  ghost predicate OpenedAt(cfg: Config, history: seq<Event>, n: nat)
    requires n < |history|
  {
    Replay(cfg, history[..n]).state != Open && Replay(cfg, history[..n + 1]).state == Open
  }

  /** No request asked between n and k came OpenTimeout after the opening at n. */
  ghost predicate NoneLate(cfg: Config, history: seq<Event>, n: nat, k: nat)
    requires n < k <= |history|
  {
    forall i :: n < i < k && history[i].Asked? ==> history[i].at < history[n].at + cfg.openTimeout
  }

  /** Until a request comes OpenTimeout after the opening, the breaker stays open with that opening time, whatever is
      recorded meanwhile. */
  lemma {:induction false} StaysOpen(cfg: Config, history: seq<Event>, n: nat, k: nat)
    requires n < k <= |history| && OpenedAt(cfg, history, n) && NoneLate(cfg, history, n, k)
    ensures Replay(cfg, history[..k]).state == Open && Replay(cfg, history[..k]).openedAt == history[n].at
    decreases k
  {
    assert history[..k][..k - 1] == history[..k - 1];
    if k == n + 1 {
      assert history[..n + 1][..n] == history[..n];
    } else {
      StaysOpen(cfg, history, n, k - 1);
    }
  }

  /** The first request that comes OpenTimeout after an opening, or later, turns the breaker half-open, with no
      success counted. */
  lemma TurnsHalfOpen(cfg: Config, history: seq<Event>, n: nat, k: nat)
    requires n < k < |history| && OpenedAt(cfg, history, n) && NoneLate(cfg, history, n, k)
    requires history[k].Asked? && history[n].at + cfg.openTimeout <= history[k].at
    ensures Replay(cfg, history[..k + 1]).state == HalfOpen && Replay(cfg, history[..k + 1]).consecutiveOK == 0
    ensures ProbingSince(cfg, history[..k + 1], k + 1)
  {
    StaysOpen(cfg, history, n, k);
    assert history[..k] + [history[k]] == history[..k + 1];
    StateChanges(cfg, history[..k], history[k]);
    CounterChanges(cfg, history[..k], history[k]);
    assert history[..k + 1][..k] == history[..k] && history[..k + 1][..k + 1] == history[..k + 1];
  }

  /** Allow says no: the breaker is open and OpenTimeout has not passed. */
  ghost predicate Refuses(cfg: Config, history: seq<Event>, now: int) {
    var v := Replay(cfg, history);
    v.state == Open && now < v.openedAt + cfg.openTimeout
  }

  /** Every request asked between an opening and OpenTimeout later is refused. */
  lemma RefusedWhileOpen(cfg: Config, history: seq<Event>, n: nat, k: nat)
    requires Monotone(history) && n < k < |history| && OpenedAt(cfg, history, n)
    requires history[k].at < history[n].at + cfg.openTimeout
    ensures Refuses(cfg, history[..k], history[k].at)
  {
    StaysOpen(cfg, history, n, k);
  }

  /** A refusal is always explained by an opening failure less than OpenTimeout ago. */
  lemma {:induction false} RefusalHasCause(cfg: Config, history: seq<Event>, now: int) returns (n: nat)
    requires Refuses(cfg, history, now)
    ensures n < |history| && OpenedAt(cfg, history, n) && history[n].Failed?
    ensures now < history[n].at + cfg.openTimeout
    decreases |history|
  {
    var most := history[..|history| - 1];
    if Replay(cfg, most).state == Open {
      n := RefusalHasCause(cfg, most, now);
      assert history[..n] == most[..n] && history[..n + 1] == most[..n + 1];
    } else {
      n := |history| - 1;
      assert history[..n + 1] == history;
    }
  }

  /** When time does not run backwards, a request is refused exactly when the breaker opened, on a failure, less
      than OpenTimeout before. */
  lemma RefusedIff(cfg: Config, history: seq<Event>, now: int)
    requires Monotone(history) && forall i :: 0 <= i < |history| ==> history[i].at <= now
    ensures Refuses(cfg, history, now) <==>
            exists n: nat :: n < |history| && OpenedAt(cfg, history, n) && now < history[n].at + cfg.openTimeout
  {
    assert history[..|history|] == history;
    if Refuses(cfg, history, now) {
      var n := RefusalHasCause(cfg, history, now);
    }
    if n: nat :| n < |history| && OpenedAt(cfg, history, n) && now < history[n].at + cfg.openTimeout {
      StaysOpen(cfg, history, n, |history|);
    }
  }
}
