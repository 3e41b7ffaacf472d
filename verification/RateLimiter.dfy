/** internal/middleware/ratelimit.go: the token bucket per client, and its background cleanup. Times are in
    nanoseconds. */
module RateLimiter {
  import opened Options

  datatype Bucket = Bucket(tokens: int, lastFill: int)

  type Visitors = map<string, Bucket>

  datatype Config = Config(rate: int, interval: int, burst: int)

  /** What the constructor's caller passes: a positive interval and at least one token. */
  predicate Proper(cfg: Config) {
    0 <= cfg.rate && 0 < cfg.interval && 1 <= cfg.burst
  }

  /** Ten minutes. */
  const STALE := 600_000_000_000

  /** int(elapsed / interval) * rate; the quotient truncates, but elapsed is never negative. */
  function Refill(cfg: Config, elapsed: int): int
    requires Proper(cfg)
  {
    (elapsed / cfg.interval) * cfg.rate
  }

  function Filled(cfg: Config, b: Bucket, now: int): Bucket
    requires Proper(cfg)
  {
    var refill := Refill(cfg, now - b.lastFill);
    if refill > 0
    then Bucket(if b.tokens + refill > cfg.burst then cfg.burst else b.tokens + refill, now)
    else b
  }

  /** The decision on a request, and the bucket it leaves. */
  function Decide(cfg: Config, bucket: Option<Bucket>, now: int): (bool, Bucket)
    requires Proper(cfg)
  {
    match bucket
    case None => (true, Bucket(cfg.burst - 1, now))
    case Some(b) =>
      var filled := Filled(cfg, b, now);
      if filled.tokens <= 0 then (false, filled) else (true, filled.(tokens := filled.tokens - 1))
  }

  function Get(visitors: Visitors, key: string): Option<Bucket> {
    if key in visitors then Some(visitors[key]) else None
  }

  function Swept(visitors: Visitors, now: int): Visitors {
    map k | k in visitors && !(visitors[k].lastFill < now - STALE) :: visitors[k]
  }

  // ---- Whole runs

  /** A request of a client, or a cleanup, at a clock reading. */
  datatype Event = Request(key: string, at: int) | Cleanup(at: int)

  ghost predicate Monotone(events: seq<Event>) {
    forall i, j :: 0 <= i <= j < |events| ==> events[i].at <= events[j].at
  }

  function Stepped(cfg: Config, before: Visitors, e: Event): Visitors
    requires Proper(cfg)
  {
    match e
    case Request(key, now) => before[key := Decide(cfg, Get(before, key), now).1]
    case Cleanup(now) => Swept(before, now)
  }

  function Table(cfg: Config, events: seq<Event>): Visitors
    requires Proper(cfg)
  {
    if events == [] then map[] else Stepped(cfg, Table(cfg, events[..|events| - 1]), events[|events| - 1])
  }

  /** The decisions on the requests, in order. */
  function Decisions(cfg: Config, events: seq<Event>): seq<bool>
    requires Proper(cfg)
  {
    if events == [] then []
    else
      var most, last := events[..|events| - 1], events[|events| - 1];
      match last
      case Request(key, now) => Decisions(cfg, most) + [Decide(cfg, Get(Table(cfg, most), key), now).0]
      case Cleanup(_) => Decisions(cfg, most)
  }

  lemma OneMore(cfg: Config, events: seq<Event>, e: Event)
    requires Proper(cfg)
    ensures Table(cfg, events + [e]) == Stepped(cfg, Table(cfg, events), e)
    ensures Decisions(cfg, events + [e]) ==
            Decisions(cfg, events) +
            if e.Request? then [Decide(cfg, Get(Table(cfg, events), e.key), e.at).0] else []
  {
    assert (events + [e])[..|events|] == events;
  }

  class Limiter {
    const cfg: Config
    var visitors: Visitors
    ghost var history: seq<Event>

    /** The table is what the history of requests and cleanups makes of it. */
    ghost predicate Valid()
      reads this
    {
      Proper(cfg) && visitors == Table(cfg, history)
    }

    constructor (cfg: Config)
      requires Proper(cfg)
      ensures Valid() && this.cfg == cfg && history == []
    {
      this.cfg := cfg;
      visitors := map[];
      history := [];
    }

    method Allow(key: string, now: int) returns (allowed: bool)
      requires Valid()
      modifies this
      ensures Valid() && history == old(history) + [Request(key, now)]
      ensures Decisions(cfg, history) == Decisions(cfg, old(history)) + [allowed]
      ensures visitors == old(visitors)[key := Decide(cfg, Get(old(visitors), key), now).1]
    {
      OneMore(cfg, history, Request(key, now));
      history := history + [Request(key, now)];
      if key !in visitors {
        visitors := visitors[key := Bucket(cfg.burst - 1, now)];
        return true;
      }
      var b := visitors[key];
      var elapsed := now - b.lastFill;
      var refill := (elapsed / cfg.interval) * cfg.rate;
      if refill > 0 {
        b := b.(tokens := b.tokens + refill);
        if b.tokens > cfg.burst {
          b := b.(tokens := cfg.burst);
        }
        b := b.(lastFill := now);
        visitors := visitors[key := b];
      }
      if b.tokens <= 0 {
        return false;
      }
      visitors := visitors[key := b.(tokens := b.tokens - 1)];
      allowed := true;
    }

    method Cleanup(now: int)
      requires Valid()
      modifies this
      ensures Valid() && history == old(history) + [Event.Cleanup(now)]
      ensures visitors == map k | k in old(visitors) && old(visitors)[k].lastFill >= now - 600_000_000_000 ::
                            old(visitors)[k]
    {
      OneMore(cfg, history, Event.Cleanup(now));
      history := history + [Event.Cleanup(now)];
      var cutoff := now - STALE;
      var left := visitors.Keys;
      while left != {}
        invariant left <= visitors.Keys && history == old(history) + [Event.Cleanup(now)]
        invariant visitors == map k | k in old(visitors) && (k in left || !(old(visitors)[k].lastFill < cutoff)) ::
                                old(visitors)[k]
      {
        var key :| key in left;
        if visitors[key].lastFill < cutoff {
          visitors := visitors - {key};
        }
        left := left - {key};
      }
    }
  }

  /** The same requests with no cleanup ever run. */
  function Requests(events: seq<Event>): seq<Event> {
    if events == [] then []
    else
      Requests(events[..|events| - 1]) + if events[|events| - 1].Request? then [events[|events| - 1]] else []
  }

  ghost predicate BucketOk(cfg: Config, b: Bucket, now: int) {
    0 <= b.tokens <= cfg.burst && b.lastFill <= now
  }

  lemma RefillMonotone(cfg: Config, a: int, b: int)
    requires Proper(cfg) && a <= b
    ensures Refill(cfg, a) <= Refill(cfg, b)
  {
    QuotientMonotone(a, b, cfg.interval);
    ProductMonotone(a / cfg.interval, b / cfg.interval, cfg.rate);
  }

  lemma QuotientMonotone(a: int, b: int, d: int)
    requires a <= b && 0 < d
    ensures a / d <= b / d
  {
    var x, y := a / d, b / d;
    assert a == d * x + a % d && b == d * y + b % d;
    if y < x {
      ProductMonotone(y + 1, x, d);
    }
  }

  lemma ProductMonotone(x: int, y: int, r: int)
    requires x <= y && 0 <= r
    ensures x * r <= y * r
  {
    assert 0 <= (y - x) * r;
  }

  lemma DecideKeepsBucket(cfg: Config, bucket: Option<Bucket>, now: int)
    requires Proper(cfg) && (bucket.Some? ==> BucketOk(cfg, bucket.value, now))
    ensures BucketOk(cfg, Decide(cfg, bucket, now).1, now)
  {
  }

  /** Tokens stay within [0, burst] and no bucket was filled in the future. */
  lemma {:induction false} TokensInRange(cfg: Config, events: seq<Event>, now: int)
    requires Proper(cfg) && Monotone(events)
    requires forall i :: 0 <= i < |events| ==> events[i].at <= now
    ensures forall k :: k in Table(cfg, events) ==> BucketOk(cfg, Table(cfg, events)[k], now)
    decreases |events|
  {
    if events != [] {
      var most, last := events[..|events| - 1], events[|events| - 1];
      TokensInRange(cfg, most, last.at);
      if last.Request? {
        DecideKeepsBucket(cfg, Get(Table(cfg, most), last.key), last.at);
      }
    }
  }

  /** A client missing from the swept table would have a full bucket by now anyway. */
  ghost predicate Alike(swept: Visitors, kept: Visitors, now: int) {
    && (forall k :: k in swept ==> k in kept && swept[k] == kept[k])
    && (forall k :: k in kept && k !in swept ==> kept[k].lastFill < now - STALE)
  }

  /** A bucket has refilled completely by the time a sweep may drop it. */
  predicate RefillsWhenStale(cfg: Config)
    requires Proper(cfg)
  {
    (600_000_000_001 / cfg.interval) * cfg.rate >= cfg.burst
  }

  lemma StaleIsFresh(cfg: Config, b: Bucket, now: int)
    requires Proper(cfg) && RefillsWhenStale(cfg) && BucketOk(cfg, b, now) && b.lastFill < now - STALE
    ensures Decide(cfg, Some(b), now) == Decide(cfg, None, now)
  {
    RefillMonotone(cfg, STALE + 1, now - b.lastFill);
  }

  /** With and without cleanups the tables stay alike and the decisions equal. */
  lemma {:induction false} SameDecisions(cfg: Config, events: seq<Event>, now: int)
    requires Proper(cfg) && (600_000_000_001 / cfg.interval) * cfg.rate >= cfg.burst && Monotone(events)
    requires forall i :: 0 <= i < |events| ==> events[i].at <= now
    ensures Alike(Table(cfg, events), Table(cfg, Requests(events)), now)
    ensures Decisions(cfg, events) == Decisions(cfg, Requests(events))
    decreases |events|
  {
    if events != [] {
      var most, last := events[..|events| - 1], events[|events| - 1];
      SameDecisions(cfg, most, last.at);
      if last.Request? {
        assert Requests(events)[..|Requests(most)|] == Requests(most);
        RequestsInOrder(most, last.at);
        TokensInRange(cfg, Requests(most), last.at);
        SameDecision(cfg, Table(cfg, most), Table(cfg, Requests(most)), last.key, last.at);
      } else {
        assert Requests(most) + [] == Requests(most);
      }
    }
  }

  lemma SameDecision(cfg: Config, swept: Visitors, kept: Visitors, key: string, now: int)
    requires Proper(cfg) && RefillsWhenStale(cfg) && Alike(swept, kept, now)
    requires forall k :: k in kept ==> BucketOk(cfg, kept[k], now)
    ensures Decide(cfg, Get(swept, key), now) == Decide(cfg, Get(kept, key), now)
  {
    if key in kept && key !in swept {
      StaleIsFresh(cfg, kept[key], now);
    }
  }

  lemma {:induction false} RequestsInOrder(events: seq<Event>, now: int)
    requires Monotone(events) && forall i :: 0 <= i < |events| ==> events[i].at <= now
    ensures Monotone(Requests(events)) && forall i :: 0 <= i < |Requests(events)| ==> Requests(events)[i].at <= now
    decreases |events|
  {
    if events != [] {
      RequestsInOrder(events[..|events| - 1], events[|events| - 1].at);
    }
  }

  // ---- Many requests at one instant

  function Burst(key: string, at: int, n: nat): seq<Event> {
    if n == 0 then [] else Burst(key, at, n - 1) + [Request(key, at)]
  }

  lemma OneRequest(cfg: Config, events: seq<Event>, key: string, at: int)
    requires Proper(cfg)
    ensures Table(cfg, events + [Request(key, at)]) ==
            Table(cfg, events)[key := Decide(cfg, Get(Table(cfg, events), key), at).1]
    ensures Decisions(cfg, events + [Request(key, at)]) ==
            Decisions(cfg, events) + [Decide(cfg, Get(Table(cfg, events), key), at).0]
  {
    assert (events + [Request(key, at)])[..|events|] == events;
  }

  lemma TakeOne(cfg: Config, b: Bucket, at: int)
    requires Proper(cfg) && b.lastFill == at
    ensures Decide(cfg, Some(b), at) == if b.tokens <= 0 then (false, b) else (true, b.(tokens := b.tokens - 1))
  {
    assert Refill(cfg, 0) == 0;
  }

  lemma BurstStep(cfg: Config, events: seq<Event>, key: string, at: int, n: nat)
    requires Proper(cfg) && 0 < n
    ensures Table(cfg, events + Burst(key, at, n)) ==
            var before := Table(cfg, events + Burst(key, at, n - 1));
            before[key := Decide(cfg, Get(before, key), at).1]
  {
    Append(events, Burst(key, at, n - 1), Request(key, at));
    OneRequest(cfg, events + Burst(key, at, n - 1), key, at);
  }

  /** The bucket after r requests at one instant: the first refills it, the others take one token each. */
  lemma {:induction false} AfterRequests(cfg: Config, events: seq<Event>, key: string, at: int, first: Bucket, r: nat)
    requires Proper(cfg) && 0 < r
    requires first == Decide(cfg, Get(Table(cfg, events), key), at).1 && first.lastFill == at && r - 1 <= first.tokens
    ensures Get(Table(cfg, events + Burst(key, at, r)), key) == Some(Bucket(first.tokens - (r - 1), at))
    decreases r
  {
    if r == 1 {
      BurstStep(cfg, events, key, at, 1);
      assert events + [] == events;
    } else {
      AfterRequests(cfg, events, key, at, first, r - 1);
      OneMoreOf(cfg, events, key, at, first.tokens - (r - 2), r);
    }
  }

  lemma OneMoreOf(cfg: Config, events: seq<Event>, key: string, at: int, tokens: nat, r: nat)
    requires Proper(cfg) && 1 < r && 0 < tokens
    requires Get(Table(cfg, events + Burst(key, at, r - 1)), key) == Some(Bucket(tokens, at))
    ensures Get(Table(cfg, events + Burst(key, at, r)), key) == Some(Bucket(tokens - 1, at))
  {
    BurstStep(cfg, events, key, at, r);
    TakeOne(cfg, Bucket(tokens, at), at);
  }

  /** After one burst from a fresh client the bucket is empty. */
  lemma BurstEmpties(cfg: Config, key: string, at: int)
    requires Proper(cfg)
    ensures Get(Table(cfg, Burst(key, at, cfg.burst)), key) == Some(Bucket(0, at))
  {
    AfterRequests(cfg, [], key, at, Bucket(cfg.burst - 1, at), cfg.burst);
    assert [] + Burst(key, at, cfg.burst) == Burst(key, at, cfg.burst);
  }

  ghost predicate UpTo(events: seq<Event>, at: int) {
    Monotone(events) && forall i :: 0 <= i < |events| ==> events[i].at <= at
  }

  lemma {:induction false} BurstInOrder(events: seq<Event>, key: string, at: int, n: nat)
    requires UpTo(events, at)
    ensures UpTo(events + Burst(key, at, n), at)
    decreases n
  {
    if n == 0 {
      assert events + [] == events;
    } else {
      BurstInOrder(events, key, at, n - 1);
      Append(events, Burst(key, at, n - 1), Request(key, at));
    }
  }

  lemma Append(a: seq<Event>, b: seq<Event>, e: Event)
    ensures a + (b + [e]) == a + b + [e]
  {
  }

  lemma RequestsOneMore(events: seq<Event>, e: Event)
    ensures Requests(events + [e]) == Requests(events) + if e.Request? then [e] else []
  {
    assert (events + [e])[..|events|] == events;
  }

  lemma {:induction false} BurstIsRequests(events: seq<Event>, key: string, at: int, n: nat)
    ensures Requests(events + Burst(key, at, n)) == Requests(events) + Burst(key, at, n)
    decreases n
  {
    if n == 0 {
      assert events + [] == events && Requests(events) + [] == Requests(events);
    } else {
      BurstIsRequests(events, key, at, n - 1);
      RequestAtEnd(events, Burst(key, at, n - 1), Request(key, at));
    }
  }

  lemma RequestAtEnd(events: seq<Event>, burst: seq<Event>, e: Event)
    requires e.Request? && Requests(events + burst) == Requests(events) + burst
    ensures Requests(events + (burst + [e])) == Requests(events) + (burst + [e])
  {
    RequestsOneMore(events + burst, e);
    Append(events, burst, e);
    Append(Requests(events), burst, e);
  }

  // ---- Exactly what one client is served at one instant

  /** The first k of n requests are served. */
  function FirstServed(n: nat, k: int): seq<bool> {
    seq(n, i => i < k)
  }

  /** The tokens a client finds. */
  function Offered(cfg: Config, bucket: Option<Bucket>, now: int): int
    requires Proper(cfg)
  {
    match bucket
    case None => cfg.burst
    case Some(b) =>
      var tokens := b.tokens + Refill(cfg, now - b.lastFill);
      if tokens > cfg.burst then cfg.burst else tokens
  }

  /** The bucket holds so many tokens, and there is nothing more to fill in. */
  ghost predicate Settled(cfg: Config, bucket: Option<Bucket>, now: int, tokens: int)
    requires Proper(cfg)
  {
    bucket.Some? && Refill(cfg, now - bucket.value.lastFill) == 0 && bucket.value.tokens == tokens
  }

  lemma FirstTake(cfg: Config, bucket: Option<Bucket>, now: int)
    requires Proper(cfg) && (bucket.Some? ==> BucketOk(cfg, bucket.value, now))
    ensures var d, offered := Decide(cfg, bucket, now), Offered(cfg, bucket, now);
            (d.0 <==> 0 < offered) && Settled(cfg, Some(d.1), now, if 0 < offered then offered - 1 else 0)
  {
    assert Refill(cfg, 0) == 0;
    if bucket.Some? {
      ProductMonotone(0, (now - bucket.value.lastFill) / cfg.interval, cfg.rate);
    }
  }

  lemma NextTake(cfg: Config, bucket: Option<Bucket>, now: int, tokens: nat)
    requires Proper(cfg) && Settled(cfg, bucket, now, tokens)
    ensures var d := Decide(cfg, bucket, now);
            (d.0 <==> 0 < tokens) && Settled(cfg, Some(d.1), now, if 0 < tokens then tokens - 1 else 0)
  {
  }

  /** The bucket after n requests at one instant, the first of which may refill it, and the decision on one more. */
  lemma {:induction false} AfterBurst(cfg: Config, events: seq<Event>, key: string, now: int, n: nat)
    requires Proper(cfg) && UpTo(events, now)
    ensures var offered, b := Offered(cfg, Get(Table(cfg, events), key), now),
                              Get(Table(cfg, events + Burst(key, now, n)), key);
            && (0 < n ==> Settled(cfg, b, now, if n < offered then offered - n else 0))
            && (Decide(cfg, b, now).0 <==> n < offered)
    decreases n
  {
    var bucket := Get(Table(cfg, events), key);
    TokensInRange(cfg, events, now);
    FirstTake(cfg, bucket, now);
    if n == 0 {
      assert events + [] == events;
    } else {
      AfterBurst(cfg, events, key, now, n - 1);
      BucketAfterBurst(cfg, events, key, now, n);
      SettledAfter(cfg, bucket, Get(Table(cfg, events + Burst(key, now, n - 1)), key),
                   Get(Table(cfg, events + Burst(key, now, n)), key), now, n);
    }
  }

  lemma BucketAfterBurst(cfg: Config, events: seq<Event>, key: string, now: int, n: nat)
    requires Proper(cfg) && 0 < n
    ensures var before := Get(Table(cfg, events + Burst(key, now, n - 1)), key);
            && Get(Table(cfg, events + Burst(key, now, n)), key) == Some(Decide(cfg, before, now).1)
            && (n == 1 ==> before == Get(Table(cfg, events), key))
  {
    BurstStep(cfg, events, key, now, n);
    assert events + [] == events;
  }

  lemma SettledAfter(cfg: Config, first: Option<Bucket>, before: Option<Bucket>, after: Option<Bucket>, now: int,
                     n: nat)
    requires Proper(cfg) && 0 < n && (first.Some? ==> BucketOk(cfg, first.value, now))
    requires after == Some(Decide(cfg, before, now).1)
    requires n == 1 ==> before == first
    requires var offered := Offered(cfg, first, now);
             1 < n ==> Settled(cfg, before, now, if n - 1 < offered then offered - (n - 1) else 0)
    ensures var offered := Offered(cfg, first, now);
            && Settled(cfg, after, now, if n < offered then offered - n else 0)
            && (Decide(cfg, after, now).0 <==> n < offered)
  {
    var offered := Offered(cfg, first, now);
    if n == 1 {
      FirstTake(cfg, first, now);
    } else {
      NextTake(cfg, before, now, if n - 1 < offered then offered - (n - 1) else 0);
    }
    NextTake(cfg, after, now, if n < offered then offered - n else 0);
  }

  lemma ServedOneMore(before: seq<bool>, decisions: seq<bool>, n: nat, k: int)
    requires decisions == before + FirstServed(n, k)
    ensures decisions + [n < k] == before + FirstServed(n + 1, k)
  {
    assert FirstServed(n + 1, k) == FirstServed(n, k) + [n < k];
  }

  lemma BurstDecides(cfg: Config, events: seq<Event>, key: string, now: int, n: nat)
    requires Proper(cfg) && 0 < n
    ensures Decisions(cfg, events + Burst(key, now, n)) ==
            var before := events + Burst(key, now, n - 1);
            Decisions(cfg, before) + [Decide(cfg, Get(Table(cfg, before), key), now).0]
  {
    Append(events, Burst(key, now, n - 1), Request(key, now));
    OneRequest(cfg, events + Burst(key, now, n - 1), key, now);
  }

  lemma {:induction false} BurstServed(cfg: Config, events: seq<Event>, key: string, now: int, n: nat)
    requires Proper(cfg) && UpTo(events, now)
    ensures Decisions(cfg, events + Burst(key, now, n)) ==
            Decisions(cfg, events) + FirstServed(n, Offered(cfg, Get(Table(cfg, events), key), now))
    decreases n
  {
    if n == 0 {
      assert events + [] == events;
    } else {
      BurstServed(cfg, events, key, now, n - 1);
      AfterBurst(cfg, events, key, now, n - 1);
      BurstDecides(cfg, events, key, now, n);
      ServedOneMore(Decisions(cfg, events), Decisions(cfg, events + Burst(key, now, n - 1)), n - 1,
                    Offered(cfg, Get(Table(cfg, events), key), now));
    }
  }

  function Min(a: int, b: int): int {
    if b < a then b else a
  }

  lemma OfferedIs(cfg: Config, b: Bucket, now: int)
    requires Proper(cfg)
    ensures Offered(cfg, Some(b), now) == Min(cfg.burst, b.tokens + ((now - b.lastFill) / cfg.interval) * cfg.rate)
  {
  }

  lemma ServedWhenOffered(cfg: Config, events: seq<Event>, key: string, now: int, n: nat, served: int)
    requires Proper(cfg) && UpTo(events, now) && served == Offered(cfg, Get(Table(cfg, events), key), now)
    ensures Decisions(cfg, events + Burst(key, now, n)) == Decisions(cfg, events) + FirstServed(n, served)
  {
    BurstServed(cfg, events, key, now, n);
  }

  /** What a request leaves of its client's bucket. A fill notes its time, whatever part of an interval is lost by
      it; without one the time stays. */
  lemma BucketAfterRequest(cfg: Config, events: seq<Event>, key: string, now: int)
    requires Proper(cfg) && UpTo(events, now)
    ensures var before, after := Get(Table(cfg, events), key), Get(Table(cfg, events + [Request(key, now)]), key);
            match before
            case None => after == Some(Bucket(cfg.burst - 1, now))
            case Some(b) =>
              var fill := ((now - b.lastFill) / cfg.interval) * cfg.rate;
              && after.Some?
              && after.value.lastFill == (if 0 < fill then now else b.lastFill)
              && (b.tokens + fill <= cfg.burst ==>
                after.value.tokens == if 0 < b.tokens + fill then b.tokens + fill - 1 else 0)
              && (b.tokens + fill > cfg.burst ==> after.value.tokens == cfg.burst - 1)
  {
    OneRequest(cfg, events, key, now);
    TokensInRange(cfg, events, now);
    var bucket := Get(Table(cfg, events), key);
    if bucket.Some? {
      ProductMonotone(0, (now - bucket.value.lastFill) / cfg.interval, cfg.rate);
    }
  }

  /** Whatever came before, a client whose bucket was last filled at some time with some tokens is served, of any
      number of requests at one instant, exactly the first min(burst, tokens + rate * floor(elapsed / interval)). */
  lemma ServedExactly(cfg: Config, events: seq<Event>, key: string, now: int, n: nat, served: int)
    requires Proper(cfg) && UpTo(events, now) && key in Table(cfg, events)
    requires var b := Table(cfg, events)[key];
             served == Min(cfg.burst, b.tokens + ((now - b.lastFill) / cfg.interval) * cfg.rate)
    ensures Decisions(cfg, events + Burst(key, now, n)) == Decisions(cfg, events) + FirstServed(n, served)
  {
    OfferedIs(cfg, Table(cfg, events)[key], now);
    ServedWhenOffered(cfg, events, key, now, n, served);
  }

  lemma BurstAllServed(cfg: Config, key: string, start: int)
    requires Proper(cfg)
    ensures Decisions(cfg, Burst(key, start, cfg.burst)) == FirstServed(cfg.burst, cfg.burst)
  {
    BurstServed(cfg, [], key, start, cfg.burst);
    assert [] + Burst(key, start, cfg.burst) == Burst(key, start, cfg.burst);
    assert [] + FirstServed(cfg.burst, cfg.burst) == FirstServed(cfg.burst, cfg.burst);
  }

  lemma BurstUpTo(key: string, start: int, now: int, n: nat)
    requires start <= now
    ensures UpTo(Burst(key, start, n), now)
  {
    BurstInOrder([], key, start, n);
    assert [] + Burst(key, start, n) == Burst(key, start, n);
  }

  lemma Drained(cfg: Config, key: string, start: int, now: int, served: int)
    requires Proper(cfg) && start <= now && served == Min(cfg.burst, ((now - start) / cfg.interval) * cfg.rate)
    ensures served == Offered(cfg, Get(Table(cfg, Burst(key, start, cfg.burst)), key), now)
  {
    BurstEmpties(cfg, key, start);
    OfferedIs(cfg, Bucket(0, start), now);
  }

  /** A new client is served a whole burst, and at any later instant exactly the first
      min(burst, rate * floor(elapsed / interval)) of its requests. */
  lemma DrainedThenServed(cfg: Config, key: string, start: int, now: int, n: nat, served: int)
    requires Proper(cfg) && start <= now && served == Min(cfg.burst, ((now - start) / cfg.interval) * cfg.rate)
    ensures Decisions(cfg, Burst(key, start, cfg.burst) + Burst(key, now, n)) ==
            FirstServed(cfg.burst, cfg.burst) + FirstServed(n, served)
  {
    BurstAllServed(cfg, key, start);
    BurstUpTo(key, start, now, cfg.burst);
    Drained(cfg, key, start, now, served);
    ServedWhenOffered(cfg, Burst(key, start, cfg.burst), key, now, n, served);
  }

  // ---- When cleanups are visible

  lemma ServedApart(x: seq<bool>, y: seq<bool>, before: seq<bool>, r: nat, k: int)
    requires r < k && x == before + FirstServed(r + 1, k) && y == before + FirstServed(r + 1, r)
    ensures x != y
  {
    assert x[|before| + r] && !y[|before| + r];
  }

  lemma SweptServes(cfg: Config, drained: seq<Event>, key: string, late: int, n: nat)
    requires Proper(cfg) && late == STALE + 1 && UpTo(drained, 0) && Get(Table(cfg, drained), key) == Some(Bucket(0, 0))
    ensures Decisions(cfg, drained + [Cleanup(late)] + Burst(key, late, n)) ==
            Decisions(cfg, drained) + FirstServed(n, cfg.burst)
  {
    SweptTable(cfg, drained, key, late);
    SweepInOrder(drained, late);
    ServedWhenOffered(cfg, drained + [Cleanup(late)], key, late, n, cfg.burst);
    OneMore(cfg, drained, Cleanup(late));
  }

  lemma KeptServes(cfg: Config, key: string, late: int, n: nat)
    requires Proper(cfg) && 0 <= late && Refill(cfg, late) < cfg.burst
    ensures Decisions(cfg, Burst(key, 0, cfg.burst) + Burst(key, late, n)) ==
            Decisions(cfg, Burst(key, 0, cfg.burst)) + FirstServed(n, Refill(cfg, late))
  {
    Drained(cfg, key, 0, late, Refill(cfg, late));
    BurstUpTo(key, 0, late, cfg.burst);
    ServedWhenOffered(cfg, Burst(key, 0, cfg.burst), key, late, n, Refill(cfg, late));
  }

  lemma DecidedApart(cfg: Config, drained: seq<Event>, key: string, late: int, r: nat)
    requires Proper(cfg) && late == STALE + 1 && r == Refill(cfg, late) < cfg.burst
    requires drained == Burst(key, 0, cfg.burst) && UpTo(drained, 0)
    requires Get(Table(cfg, drained), key) == Some(Bucket(0, 0))
    ensures Decisions(cfg, drained + [Cleanup(late)] + Burst(key, late, r + 1)) !=
            Decisions(cfg, drained + Burst(key, late, r + 1))
  {
    SweptServes(cfg, drained, key, late, r + 1);
    KeptServes(cfg, key, late, r + 1);
    ServedApart(Decisions(cfg, drained + [Cleanup(late)] + Burst(key, late, r + 1)),
                Decisions(cfg, drained + Burst(key, late, r + 1)), Decisions(cfg, drained), r, cfg.burst);
  }

  /** If a stale bucket has not refilled, a run tells the limiters apart: a client drains its bucket, the
      sweep drops it, and the client is served one request too many. */
  lemma SweepShows(cfg: Config) returns (events: seq<Event>)
    requires Proper(cfg) && (600_000_000_001 / cfg.interval) * cfg.rate < cfg.burst
    ensures Monotone(events) && Decisions(cfg, events) != Decisions(cfg, Requests(events))
  {
    var key, late := "client", STALE + 1;
    ProductMonotone(0, late / cfg.interval, cfg.rate);
    var r: nat := Refill(cfg, late);
    SweepRun(cfg, key, late, r + 1);
    BurstEmpties(cfg, key, 0);
    BurstUpTo(key, 0, 0, cfg.burst);
    DecidedApart(cfg, Burst(key, 0, cfg.burst), key, late, r);
    events := Burst(key, 0, cfg.burst) + [Cleanup(late)] + Burst(key, late, r + 1);
  }

  lemma SweptTable(cfg: Config, drained: seq<Event>, key: string, late: int)
    requires Proper(cfg) && late == STALE + 1 && Get(Table(cfg, drained), key) == Some(Bucket(0, 0))
    ensures Get(Table(cfg, drained + [Cleanup(late)]), key) == None
  {
    assert (drained + [Cleanup(late)])[..|drained|] == drained;
  }

  lemma SweepRun(cfg: Config, key: string, late: int, n: nat)
    requires Proper(cfg) && 0 <= late
    ensures var drained := Burst(key, 0, cfg.burst);
            var events := drained + [Cleanup(late)] + Burst(key, late, n);
            Monotone(events) && Requests(events) == drained + Burst(key, late, n)
  {
    var drained := Burst(key, 0, cfg.burst);
    DrainedRun(key, cfg.burst);
    var swept := drained + [Cleanup(late)];
    RequestsOneMore(drained, Cleanup(late));
    assert drained + [] == drained;
    SweepInOrder(drained, late);
    BurstInOrder(swept, key, late, n);
    BurstIsRequests(swept, key, late, n);
  }

  lemma SweepInOrder(events: seq<Event>, late: int)
    requires UpTo(events, 0) && 0 <= late
    ensures UpTo(events + [Cleanup(late)], late)
  {
  }

  lemma DrainedRun(key: string, n: nat)
    ensures UpTo(Burst(key, 0, n), 0) && Requests(Burst(key, 0, n)) == Burst(key, 0, n)
  {
    BurstInOrder([], key, 0, n);
    BurstIsRequests([], key, 0, n);
    assert [] + Burst(key, 0, n) == Burst(key, 0, n);
  }

  /** Cleanups are unobservable exactly when a bucket older than ten minutes has always refilled. */
  lemma CleanupInvisibleIff(cfg: Config)
    requires Proper(cfg)
    ensures (600_000_000_001 / cfg.interval) * cfg.rate >= cfg.burst <==>
            forall events: seq<Event> :: Monotone(events) ==> Decisions(cfg, events) == Decisions(cfg, Requests(events))
  {
    if RefillsWhenStale(cfg) {
      forall events: seq<Event> | Monotone(events)
        ensures Decisions(cfg, events) == Decisions(cfg, Requests(events))
      {
        SameDecisions(cfg, events, if events == [] then 0 else events[|events| - 1].at);
      }
    } else {
      var events := SweepShows(cfg);
    }
  }

  /** The limiter of cmd/server/main.go: 100 requests a second with a burst of 200. */
  lemma DeployedLimiter()
    ensures var cfg := Config(100, 1_000_000_000, 200);
            Proper(cfg) && (600_000_000_001 / cfg.interval) * cfg.rate >= cfg.burst
  {
  }

  /** It serves a new client 200 requests at once, and one second later 100 more and not 101. */
  lemma DeployedRate(key: string, start: int)
    ensures Decisions(Config(100, 1_000_000_000, 200),
                      Burst(key, start, 200) + Burst(key, start + 1_000_000_000, 101)) ==
            FirstServed(200, 200) + FirstServed(101, 100)
  {
    DrainedThenServed(Config(100, 1_000_000_000, 200), key, start, start + 1_000_000_000, 101, 100);
  }

  // ---- How much one client is served

  function Admitted(cfg: Config, events: seq<Event>, key: string): nat
    requires Proper(cfg)
  {
    if events == [] then 0
    else
      var most, last := events[..|events| - 1], events[|events| - 1];
      Admitted(cfg, most, key) +
      if last.Request? && last.key == key && Decide(cfg, Get(Table(cfg, most), key), last.at).0 then 1 else 0
  }

  lemma RefillsAdd(cfg: Config, a: int, b: int)
    requires Proper(cfg)
    ensures Refill(cfg, a) + Refill(cfg, b) <= Refill(cfg, a + b)
  {
    QuotientsAdd(a, b, cfg.interval);
    ProductMonotone(a / cfg.interval + b / cfg.interval, (a + b) / cfg.interval, cfg.rate);
    var x, y := a / cfg.interval, b / cfg.interval;
    assert (x + y) * cfg.rate == x * cfg.rate + y * cfg.rate;
  }

  lemma QuotientsAdd(a: int, b: int, d: int)
    requires 0 < d
    ensures a / d + b / d <= (a + b) / d
  {
    var x, y, z := a / d, b / d, (a + b) / d;
    assert a == d * x + a % d && b == d * y + b % d && a + b == d * z + (a + b) % d;
    if z < x + y {
      ProductMonotone(z + 1, x + y, d);
    }
  }

  /** A client's bucket since the time it was first seen: what was served and what is left never
      exceeds the burst plus the refills of the time between. */
  ghost predicate Served(cfg: Config, events: seq<Event>, key: string, since: int)
    requires Proper(cfg)
  {
    var table := Table(cfg, events);
    if key in table
    then Admitted(cfg, events, key) + table[key].tokens <= cfg.burst + Refill(cfg, table[key].lastFill - since)
    else Admitted(cfg, events, key) == 0
  }

  lemma DecideServes(cfg: Config, b: Bucket, now: int, since: int, admitted: nat)
    requires Proper(cfg) && BucketOk(cfg, b, now)
    requires admitted + b.tokens <= cfg.burst + Refill(cfg, b.lastFill - since)
    ensures var d := Decide(cfg, Some(b), now);
            admitted + (if d.0 then 1 else 0) + d.1.tokens <= cfg.burst + Refill(cfg, d.1.lastFill - since)
  {
    RefillsAdd(cfg, b.lastFill - since, now - b.lastFill);
  }

  /** No request of the client is older than `since`, its first one. */
  ghost predicate SeenSince(events: seq<Event>, key: string, since: int) {
    forall i :: 0 <= i < |events| && events[i].Request? && events[i].key == key ==> since <= events[i].at
  }

  lemma {:induction false} BucketServes(cfg: Config, events: seq<Event>, key: string, since: int)
    requires Proper(cfg) && Monotone(events) && SeenSince(events, key, since)
    requires forall i :: 0 <= i < |events| ==> events[i].Request?
    ensures Served(cfg, events, key, since)
    decreases |events|
  {
    if events != [] {
      var most, last := events[..|events| - 1], events[|events| - 1];
      BucketServes(cfg, most, key, since);
      TokensInRange(cfg, most, last.at);
      if last.key == key {
        if key in Table(cfg, most) {
          DecideServes(cfg, Table(cfg, most)[key], last.at, since, Admitted(cfg, most, key));
        } else {
          RefillMonotone(cfg, 0, last.at - since);
        }
      }
    }
  }

  /** Without cleanups, from its first request on a client is served at most
      burst + rate * floor(elapsed / interval) requests. */
  lemma ServedWithinRate(cfg: Config, events: seq<Event>, key: string, since: int, now: int)
    requires Proper(cfg) && Monotone(events) && SeenSince(events, key, since) && since <= now
    requires forall i :: 0 <= i < |events| ==> events[i].Request? && events[i].at <= now
    ensures Admitted(cfg, events, key) <= cfg.burst + ((now - since) / cfg.interval) * cfg.rate
  {
    BucketServes(cfg, events, key, since);
    TokensInRange(cfg, events, now);
    RefillMonotone(cfg, 0, now - since);
    if key in Table(cfg, events) {
      RefillMonotone(cfg, Table(cfg, events)[key].lastFill - since, now - since);
    }
  }

  /** The same with cleanups at any times, when these are unobservable. */
  lemma AdmissionBound(cfg: Config, events: seq<Event>, key: string, since: int, now: int)
    requires Proper(cfg) && (600_000_000_001 / cfg.interval) * cfg.rate >= cfg.burst
    requires Monotone(events) && SeenSince(events, key, since) && since <= now
    requires forall i :: 0 <= i < |events| ==> events[i].at <= now
    ensures Admitted(cfg, events, key) <= cfg.burst + ((now - since) / cfg.interval) * cfg.rate
  {
    SameAdmissions(cfg, events, key, now);
    RequestsInOrder(events, now);
    OnlyRequests(events, key, since);
    ServedWithinRate(cfg, Requests(events), key, since, now);
  }

  lemma {:induction false} OnlyRequests(events: seq<Event>, key: string, since: int)
    requires SeenSince(events, key, since)
    ensures SeenSince(Requests(events), key, since)
    ensures forall i :: 0 <= i < |Requests(events)| ==> Requests(events)[i].Request?
    decreases |events|
  {
    if events != [] {
      OnlyRequests(events[..|events| - 1], key, since);
    }
  }

  lemma AdmittedOneMore(cfg: Config, events: seq<Event>, e: Event, key: string)
    requires Proper(cfg)
    ensures Admitted(cfg, events + [e], key) ==
            Admitted(cfg, events, key) +
            if e.Request? && e.key == key && Decide(cfg, Get(Table(cfg, events), key), e.at).0 then 1 else 0
  {
    assert (events + [e])[..|events|] == events;
  }

  lemma {:induction false} SameAdmissions(cfg: Config, events: seq<Event>, key: string, now: int)
    requires Proper(cfg) && RefillsWhenStale(cfg) && Monotone(events)
    requires forall i :: 0 <= i < |events| ==> events[i].at <= now
    ensures Admitted(cfg, events, key) == Admitted(cfg, Requests(events), key)
    decreases |events|
  {
    if events != [] {
      var most, last := events[..|events| - 1], events[|events| - 1];
      SameAdmissions(cfg, most, key, last.at);
      AdmittedOneMore(cfg, most, last, key);
      assert most + [last] == events;
      if last.Request? {
        AdmittedOneMore(cfg, Requests(most), last, key);
        SameDecisions(cfg, most, last.at);
        RequestsInOrder(most, last.at);
        TokensInRange(cfg, Requests(most), last.at);
        SameDecision(cfg, Table(cfg, most), Table(cfg, Requests(most)), last.key, last.at);
      } else {
        assert Requests(most) + [] == Requests(most);
      }
    }
  }
}
