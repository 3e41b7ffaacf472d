/** The claim protocol of internal/middleware/idempotency.go on one Redis key, under any interleaving of the
    requests that carry it. Each command to Redis is one atomic step and may fail. */
module Idempotency {
  import opened Options
  import opened CachedResponse

  type Sid = nat

  /** Where a request is: before SET NX, before GET, in the handler, or with its response recorded. */
  datatype Pc = Claiming | Reading | Handling | Finishing(status: int, body: string)

  /** What happened to the key, in order. */
  datatype Mark =
    | Started(sid: Sid)                            // a handler began
    | Orphaned                                     // a claim was set, but its reply was lost
    | Released                                     // DEL after a response outside 2xx
    | Cached(status: int, body: string)            // SET of a 2xx response
    | Expired                                      // the TTL ran out
    | Replayed(status: int, body: string)          // a cached response was sent again

  datatype World = World(store: Option<string>, requests: map<Sid, Pc>, log: seq<Mark>)

  const START := World(None, map[], [])

  datatype Step =
    | Arrive(sid: Sid)
    | Claim(sid: Sid)
    | LoseClaim(sid: Sid)
    | Read(sid: Sid)
    | Return(sid: Sid, status: int, body: string)
    | Finish(sid: Sid, redisOk: bool)
    | Vanish(sid: Sid)                             // 503, 500, a panic or a lost pod
    | Expire

  predicate Success(status: int) {
    200 <= status < 300
  }

  function At(w: World, sid: Sid): Option<Pc> {
    if sid in w.requests then Some(w.requests[sid]) else None
  }

  function Put(w: World, sid: Sid, pc: Pc): World {
    w.(requests := w.requests[sid := pc])
  }

  function Gone(w: World, sid: Sid): World {
    w.(requests := w.requests - {sid})
  }

  function Log(w: World, mark: Mark): World {
    w.(log := w.log + [mark])
  }

  function DoRead(w: World, sid: Sid): World {
    if w.store.None? || w.store.value == MARKER then Gone(w, sid)
    else
      var (status, body) := Parse(w.store.value);
      Log(Gone(w, sid), Replayed(status, body))
  }

  function DoFinish(w: World, sid: Sid, status: int, body: string, redisOk: bool): World {
    if !redisOk then Gone(w, sid)
    else if Success(status) then Log(Gone(w, sid), Cached(status, body)).(store := Some(Encode(status, body)))
    else Log(Gone(w, sid), Released).(store := None)
  }

  function Next(w: World, step: Step): Option<World> {
    match step
    case Arrive(sid) => if sid in w.requests then None else Some(Put(w, sid, Claiming))
    case Claim(sid) =>
      if At(w, sid) != Some(Claiming) then None
      else if w.store.Some? then Some(Put(w, sid, Reading))
      else Some(Log(Put(w, sid, Handling), Started(sid)).(store := Some(MARKER)))
    case LoseClaim(sid) =>
      if At(w, sid) != Some(Claiming) || w.store.Some? then None
      else Some(Log(Gone(w, sid), Orphaned).(store := Some(MARKER)))
    case Read(sid) => if At(w, sid) != Some(Reading) then None else Some(DoRead(w, sid))
    case Return(sid, status, body) =>
      if At(w, sid) != Some(Handling) || !(MIN_INT <= status <= MAX_INT) then None
      else Some(Put(w, sid, Finishing(status, body)))
    case Finish(sid, redisOk) =>
      if sid !in w.requests || !w.requests[sid].Finishing? then None
      else Some(DoFinish(w, sid, w.requests[sid].status, w.requests[sid].body, redisOk))
    case Vanish(sid) => if sid in w.requests then Some(Gone(w, sid)) else None
    case Expire => if w.store.None? then None else Some(Log(w, Expired).(store := None))
  }

  function Run(steps: seq<Step>): Option<World> {
    if steps == [] then Some(START)
    else
      var before := Run(steps[..|steps| - 1]);
      if before.None? then None else Next(before.value, steps[|steps| - 1])
  }

  ghost predicate Active(w: World, sid: Sid) {
    sid in w.requests && (w.requests[sid].Handling? || w.requests[sid].Finishing?)
  }

  /** The TTL of the claim outlives the handler: the key never expires while one is running. */
  ghost predicate Patient(steps: seq<Step>) {
    forall i :: 0 <= i < |steps| && steps[i].Expire? && Run(steps[..i]).Some? ==>
      forall sid :: !Active(Run(steps[..i]).value, sid)
  }

  // ---- What the log says about the key

  datatype Phase = Free | Claimed | Done(status: int, body: string)

  function PhaseOf(log: seq<Mark>): Phase {
    if log == [] then Free
    else
      match log[|log| - 1]
      case Started(_) => Claimed
      case Orphaned => Claimed
      case Released => Free
      case Cached(status, body) => Done(status, body)
      case Expired => Free
      case Replayed(_, _) => PhaseOf(log[..|log| - 1])
  }

  /** Handlers start only on a free key, responses are cached and released only by a claim and cached
      only with a success, and replays repeat what is cached. */
  ghost predicate Allowed(before: Phase, mark: Mark) {
    match mark
    case Started(_) => before == Free
    case Orphaned => before == Free
    case Released => before == Claimed
    case Cached(status, _) => before == Claimed && Success(status)
    case Expired => before != Free
    case Replayed(status, body) => before == Done(status, body)
  }

  ghost predicate Orderly(log: seq<Mark>) {
    forall i :: 0 <= i < |log| ==> Allowed(PhaseOf(log[..i]), log[i])
  }

  ghost predicate Stored(store: Option<string>, phase: Phase) {
    match phase
    case Free => store == None
    case Claimed => store == Some(MARKER)
    case Done(status, body) => store == Some(Encode(status, body)) && Success(status)
  }

  ghost predicate Sound(w: World) {
    && Orderly(w.log)
    && Stored(w.store, PhaseOf(w.log))
    && (forall sid :: Active(w, sid) ==> PhaseOf(w.log) == Claimed)
    && (forall a, b :: Active(w, a) && Active(w, b) ==> a == b)
  }

  lemma LogGrows(log: seq<Mark>, mark: Mark)
    requires Orderly(log) && Allowed(PhaseOf(log), mark)
    ensures Orderly(log + [mark])
    ensures PhaseOf(log + [mark]) == match mark
                                     case Started(_) => Claimed
                                     case Orphaned => Claimed
                                     case Released => Free
                                     case Cached(status, body) => Done(status, body)
                                     case Expired => Free
                                     case Replayed(_, _) => PhaseOf(log)
  {
    var longer := log + [mark];
    assert longer[..|log|] == log;
    forall i | 0 <= i < |longer|
      ensures Allowed(PhaseOf(longer[..i]), longer[i])
    {
      if i < |log| {
        assert longer[..i] == log[..i];
      }
    }
  }

  /** A request that ends takes only itself out of the active ones. */
  lemma LeavingKeepsOthers(w: World, sid: Sid)
    ensures forall b :: Active(Gone(w, sid), b) <==> Active(w, b) && b != sid
  {
  }

  lemma ReadKeepsSound(w: World, sid: Sid)
    requires Sound(w) && At(w, sid) == Some(Reading)
    ensures Sound(DoRead(w, sid))
  {
    LeavingKeepsOthers(w, sid);
    var phase := PhaseOf(w.log);
    if phase.Done? {
      ParseInvertsEncode(phase.status, phase.body);
      LogGrows(w.log, Replayed(phase.status, phase.body));
      assert DoRead(w, sid) == Log(Gone(w, sid), Replayed(phase.status, phase.body));
      assert forall b :: Active(DoRead(w, sid), b) ==> Active(w, b);
    }
  }

  lemma FinishKeepsSound(w: World, sid: Sid, status: int, body: string, redisOk: bool)
    requires Sound(w) && At(w, sid) == Some(Finishing(status, body))
    ensures Sound(DoFinish(w, sid, status, body, redisOk))
  {
    assert Active(w, sid);
    LeavingKeepsOthers(w, sid);
    LogGrows(w.log, if Success(status) then Cached(status, body) else Released);
    assert forall b :: Active(DoFinish(w, sid, status, body, redisOk), b) <==> Active(Gone(w, sid), b);
  }

  lemma MissingMeansFree(store: Option<string>, phase: Phase)
    requires Stored(store, phase) && store.None?
    ensures phase == Free
  {
  }

  /** A claim on a free key, by a request that goes on to its handler or by one that never learns of it. */
  lemma TakingKeepsSound(w: World, mark: Mark, after: World)
    requires Sound(w) && w.store.None? && (mark.Started? || mark.Orphaned?)
    requires after.log == w.log + [mark] && after.store == Some(MARKER)
    requires forall b :: Active(after, b) ==> Active(w, b) || mark == Started(b)
    ensures Sound(after)
  {
    MissingMeansFree(w.store, PhaseOf(w.log));
    LogGrows(w.log, mark);
  }

  lemma ClaimKeepsSound(w: World, sid: Sid)
    requires Sound(w) && Next(w, Claim(sid)).Some?
    ensures Sound(Next(w, Claim(sid)).value)
  {
    var after := Next(w, Claim(sid)).value;
    if w.store.None? {
      TakingKeepsSound(w, Started(sid), after);
    } else {
      QuietKeepsSound(w, after);
    }
  }

  lemma LostClaimKeepsSound(w: World, sid: Sid)
    requires Sound(w) && Next(w, LoseClaim(sid)).Some?
    ensures Sound(Next(w, LoseClaim(sid)).value)
  {
    TakingKeepsSound(w, Orphaned, Next(w, LoseClaim(sid)).value);
  }

  lemma ExpireKeepsSound(w: World)
    requires Sound(w) && Next(w, Expire).Some? && forall sid :: !Active(w, sid)
    ensures Sound(Next(w, Expire).value)
  {
    LogGrows(w.log, Expired);
    assert forall b :: Active(Next(w, Expire).value, b) ==> Active(w, b);
  }

  lemma QuietKeepsSound(w: World, after: World)
    requires Sound(w) && after.log == w.log && after.store == w.store
    requires forall b :: Active(after, b) ==> Active(w, b)
    ensures Sound(after)
  {
  }

  lemma StepKeepsSound(w: World, step: Step)
    requires Sound(w) && Next(w, step).Some?
    requires step.Expire? ==> forall sid :: !Active(w, sid)
    ensures Sound(Next(w, step).value)
  {
    match step
    case Claim(sid) => ClaimKeepsSound(w, sid);
    case LoseClaim(sid) => LostClaimKeepsSound(w, sid);
    case Read(sid) => ReadKeepsSound(w, sid);
    case Finish(sid, redisOk) => FinishKeepsSound(w, sid, w.requests[sid].status, w.requests[sid].body, redisOk);
    case Expire => ExpireKeepsSound(w);
    case Return(sid, _, _) =>
      assert Active(w, sid);
      QuietKeepsSound(w, Next(w, step).value);
    case Arrive(_) => QuietKeepsSound(w, Next(w, step).value);
    case Vanish(_) => QuietKeepsSound(w, Next(w, step).value);
  }

  lemma PatientPrefix(steps: seq<Step>)
    requires Patient(steps) && steps != []
    ensures Patient(steps[..|steps| - 1])
  {
    var most := steps[..|steps| - 1];
    forall i | 0 <= i < |most| && most[i].Expire? && Run(most[..i]).Some?
      ensures forall sid :: !Active(Run(most[..i]).value, sid)
    {
      assert most[..i] == steps[..i] && most[i] == steps[i];
    }
  }

  lemma {:induction false} RunIsSound(steps: seq<Step>)
    requires Run(steps).Some? && Patient(steps)
    ensures Sound(Run(steps).value)
    decreases |steps|
  {
    if steps != [] {
      PatientPrefix(steps);
      RunIsSound(steps[..|steps| - 1]);
      StepKeepsSound(Run(steps[..|steps| - 1]).value, steps[|steps| - 1]);
    }
  }

  // ---- The guarantees

  /** At most one handler runs at a time. */
  lemma OneHandlerAtATime(steps: seq<Step>, a: Sid, b: Sid)
    requires Run(steps).Some? && Patient(steps)
    requires Active(Run(steps).value, a) && Active(Run(steps).value, b)
    ensures a == b
  {
    RunIsSound(steps);
  }

  /** The i-th mark started a handler, and the key was neither released nor expired after it. */
  ghost predicate Pending(log: seq<Mark>, i: nat) {
    && i < |log| && log[i].Started?
    && forall k :: i < k < |log| ==> log[k] != Released && log[k] != Expired
  }

  /** Between any two runs of the handler the key was released or expired, and after the last it is taken
      unless it was. */
  ghost predicate RunsApart(w: World) {
    && (forall i: nat :: Pending(w.log, i) ==> w.store.Some?)
    && (forall i, j :: 0 <= i < j < |w.log| && w.log[i].Started? && w.log[j].Started? ==> FreedBetween(w.log, i, j))
  }

  ghost predicate FreedBetween(log: seq<Mark>, i: nat, j: nat)
    requires i < j < |log|
  {
    exists k :: i < k < j && (log[k] == Released || log[k] == Expired)
  }

  lemma LogKeepsApart(w: World, mark: Mark, after: World)
    requires RunsApart(w) && after.log == w.log + [mark]
    requires mark.Started? ==> w.store.None?
    requires after.store.None? ==> mark == Released || mark == Expired || w.store.None?
    requires mark.Started? ==> after.store.Some?
    ensures RunsApart(after)
  {
    assert forall k :: 0 <= k < |w.log| ==> after.log[k] == w.log[k];
    forall i: nat | Pending(after.log, i)
      ensures after.store.Some?
    {
      assert after.log[|w.log|] == mark;
      if i < |w.log| {
        assert Pending(w.log, i);
      }
    }
    forall i, j | 0 <= i < j < |after.log| && after.log[i].Started? && after.log[j].Started?
      ensures FreedBetween(after.log, i, j)
    {
      if j < |w.log| {
        assert FreedBetween(w.log, i, j);
        var k :| i < k < j && (w.log[k] == Released || w.log[k] == Expired);
        assert after.log[k] == w.log[k];
      } else {
        assert !Pending(w.log, i);
      }
    }
  }

  lemma StepKeepsApart(w: World, step: Step)
    requires RunsApart(w) && Next(w, step).Some?
    ensures RunsApart(Next(w, step).value)
  {
    var after := Next(w, step).value;
    if after.log != w.log {
      LogKeepsApart(w, after.log[|w.log|], after);
    }
  }

  lemma {:induction false} RunKeepsApart(steps: seq<Step>)
    requires Run(steps).Some?
    ensures RunsApart(Run(steps).value)
    decreases |steps|
  {
    if steps != [] {
      RunKeepsApart(steps[..|steps| - 1]);
      StepKeepsApart(Run(steps[..|steps| - 1]).value, steps[|steps| - 1]);
    }
  }

  /** Before any second run of the handler the key was released after a failed response, or expired, also when
      it expires while a handler is running. */
  lemma SecondRunNeedsRelease(steps: seq<Step>, i: nat, j: nat)
    requires Run(steps).Some?
    requires var log := Run(steps).value.log; i < j < |log| && log[i].Started? && log[j].Started?
    ensures exists k :: i < k < j && (Run(steps).value.log[k] == Released || Run(steps).value.log[k] == Expired)
  {
    RunKeepsApart(steps);
    assert FreedBetween(Run(steps).value.log, i, j);
  }

  /** When a handler's response is recorded, one from 200 to 299 is stored and sent to whoever reads the key next;
      any other frees the key for the next claim. */
  lemma FinishMeans(w: World, sid: Sid, next: Sid)
    requires sid in w.requests && w.requests[sid].Finishing? && next != sid
    requires MIN_INT <= w.requests[sid].status <= MAX_INT
    ensures Next(w, Finish(sid, true)).Some? && Next(w, Finish(sid, false)).Some?
    ensures Next(w, Finish(sid, false)).value.store == w.store
    ensures var status, body := w.requests[sid].status, w.requests[sid].body;
            var after := Next(w, Finish(sid, true)).value;
            && (200 <= status <= 299 ==>
              && after.store.Some?
              && (At(w, next) == Some(Claiming) ==> Next(after, Claim(next)) == Some(Put(after, next, Reading)))
              && (At(w, next) == Some(Reading) ==>
                Next(after, Read(next)) == Some(Log(Gone(after, next), Replayed(status, body)))))
            && (!(200 <= status <= 299) ==>
              && after.store.None?
              && (At(w, next) == Some(Claiming) ==>
                Next(after, Claim(next)).Some? && At(Next(after, Claim(next)).value, next) == Some(Handling)))
  {
    ParseInvertsEncode(w.requests[sid].status, w.requests[sid].body);
  }

  lemma {:induction false} StaysCached(log: seq<Mark>, i: nat, j: nat)
    requires Orderly(log) && i < j <= |log| && log[i].Cached?
    requires forall k :: i < k < j ==> log[k] != Expired
    ensures PhaseOf(log[..j]) == Done(log[i].status, log[i].body)
    decreases j
  {
    assert log[..j][..j - 1] == log[..j - 1];
    if i < j - 1 {
      StaysCached(log, i, j - 1);
      assert Allowed(PhaseOf(log[..j - 1]), log[j - 1]);
    }
  }

  /** Once a success is cached, until it expires no handler starts and every request that reads the key
      is sent exactly that status and body. */
  lemma CachedUntilExpiry(steps: seq<Step>, i: nat, sid: Sid)
    requires Run(steps).Some? && Patient(steps)
    requires var log := Run(steps).value.log;
             i < |log| && log[i].Cached? && forall k :: i < k < |log| ==> log[k] != Expired
    ensures var w := Run(steps).value;
            && 200 <= w.log[i].status <= 299
            && (forall k :: i < k < |w.log| ==> w.log[k] == Replayed(w.log[i].status, w.log[i].body))
            && (At(w, sid) == Some(Claiming) ==> Next(w, Claim(sid)) == Some(Put(w, sid, Reading)))
            && (At(w, sid) == Some(Reading) ==>
              Next(w, Read(sid)) == Some(Log(Gone(w, sid), Replayed(w.log[i].status, w.log[i].body))))
  {
    RunIsSound(steps);
    var w := Run(steps).value;
    CachedIsReplayed(w.log, i);
    ServingReplays(w, sid, w.log[i].status, w.log[i].body);
  }

  lemma CachedIsReplayed(log: seq<Mark>, i: nat)
    requires Orderly(log) && i < |log| && log[i].Cached? && forall k :: i < k < |log| ==> log[k] != Expired
    ensures 200 <= log[i].status <= 299 && PhaseOf(log) == Done(log[i].status, log[i].body)
    ensures forall k :: i < k < |log| ==> log[k] == Replayed(log[i].status, log[i].body)
  {
    forall k | i < k < |log|
      ensures log[k] == Replayed(log[i].status, log[i].body)
    {
      StaysCached(log, i, k);
      assert Allowed(PhaseOf(log[..k]), log[k]);
    }
    StaysCached(log, i, |log|);
    assert log[..|log|] == log;
    assert Allowed(PhaseOf(log[..i]), log[i]);
  }

  lemma RunOneMore(steps: seq<Step>, step: Step)
    requires Run(steps).Some?
    ensures Run(steps + [step]) == Next(Run(steps).value, step)
  {
    assert (steps + [step])[..|steps|] == steps;
  }

  /** Patience is needed wherever a handler runs: if its claim expires then, the next request with the
      key starts a second handler beside it. */
  lemma ExpiryAdmitsSecond(steps: seq<Step>, a: Sid, b: Sid) returns (longer: seq<Step>)
    requires Run(steps).Some? && Patient(steps) && Active(Run(steps).value, a) && b !in Run(steps).value.requests
    ensures longer == steps + [Expire] + [Arrive(b)] + [Claim(b)]
    ensures Run(longer).Some? && Active(Run(longer).value, a) && Active(Run(longer).value, b) && a != b
  {
    RunIsSound(steps);
    RunOneMore(steps, Expire);
    RunOneMore(steps + [Expire], Arrive(b));
    RunOneMore(steps + [Expire] + [Arrive(b)], Claim(b));
    longer := steps + [Expire] + [Arrive(b)] + [Claim(b)];
  }

  // ---- How long a cached response lasts

  ghost predicate Serving(w: World, status: int, body: string) {
    Success(status) && w.store == Some(Encode(status, body))
  }

  /** A request that can still put something else in the place of the cached response: its handler is running,
      or has answered differently. */
  ghost predicate Threat(w: World, sid: Sid, status: int, body: string) {
    && sid in w.requests
    && (w.requests[sid].Handling? ||
        (w.requests[sid].Finishing? && (w.requests[sid].status, w.requests[sid].body) != (status, body)))
  }

  ghost predicate NoExpiry(steps: seq<Step>) {
    forall i :: 0 <= i < |steps| ==> !steps[i].Expire?
  }

  lemma ServingStays(w: World, step: Step, status: int, body: string)
    requires Serving(w, status, body) && Next(w, step).Some? && !step.Expire?
    requires forall sid :: !Threat(w, sid, status, body)
    ensures Serving(Next(w, step).value, status, body)
    ensures forall sid :: !Threat(Next(w, step).value, sid, status, body)
  {
    ParseInvertsEncode(status, body);
    var after := Next(w, step).value;
    assert !Threat(w, step.sid, status, body);
    forall sid: Sid
      ensures !Threat(after, sid, status, body)
    {
      assert !Threat(w, sid, status, body);
    }
  }

  lemma {:induction false} RunServes(steps: seq<Step>, more: seq<Step>, status: int, body: string)
    requires Run(steps).Some? && Run(steps + more).Some? && NoExpiry(more)
    requires Serving(Run(steps).value, status, body)
    requires forall sid :: !Threat(Run(steps).value, sid, status, body)
    ensures Serving(Run(steps + more).value, status, body)
    ensures forall sid :: !Threat(Run(steps + more).value, sid, status, body)
    decreases |more|
  {
    if more == [] {
      assert steps + more == steps;
    } else {
      var most, last := more[..|more| - 1], more[|more| - 1];
      LastStep(steps, more);
      RunServes(steps, most, status, body);
      ServingStays(Run(steps + most).value, last, status, body);
    }
  }

  lemma LastStep(steps: seq<Step>, more: seq<Step>)
    requires more != [] && Run(steps + more).Some?
    ensures var most := steps + more[..|more| - 1];
            Run(most).Some? && Next(Run(most).value, more[|more| - 1]) == Run(steps + more)
  {
    assert (steps + more)[..|steps + more| - 1] == steps + more[..|more| - 1];
  }

  lemma EncodeIsInjective(status: int, body: string, status': int, body': string)
    requires Success(status) && Success(status') && Encode(status, body) == Encode(status', body')
    ensures status == status' && body == body'
  {
    ParseInvertsEncode(status, body);
    ParseInvertsEncode(status', body');
  }

  lemma FinishDrops(steps: seq<Step>, sid: Sid, status: int, body: string)
    requires Run(steps).Some? && sid in Run(steps).value.requests && Run(steps).value.requests[sid].Finishing?
    requires Success(status) && Threat(Run(steps).value, sid, status, body)
    ensures Run(steps + [Finish(sid, true)]).Some?
    ensures Run(steps + [Finish(sid, true)]).value.store != Some(Encode(status, body))
  {
    var pc := Run(steps).value.requests[sid];
    RunOneMore(steps, Finish(sid, true));
    if Success(pc.status) && Encode(pc.status, pc.body) == Encode(status, body) {
      EncodeIsInjective(status, body, pc.status, pc.body);
    }
  }

  /** A threat can be carried out: without any expiry the cached response is gone. */
  lemma ThreatDrops(steps: seq<Step>, sid: Sid, status: int, body: string) returns (more: seq<Step>)
    requires Run(steps).Some? && Success(status) && Threat(Run(steps).value, sid, status, body)
    ensures Run(steps + more).Some? && NoExpiry(more)
    ensures Run(steps + more).value.store != Some(Encode(status, body))
  {
    if Run(steps).value.requests[sid].Handling? {
      RunOneMore(steps, Return(sid, 500, ""));
      FinishDrops(steps + [Return(sid, 500, "")], sid, status, body);
      more := [Return(sid, 500, "")] + [Finish(sid, true)];
      assert steps + more == steps + [Return(sid, 500, "")] + [Finish(sid, true)];
    } else {
      FinishDrops(steps, sid, status, body);
      more := [Finish(sid, true)];
    }
  }

  ghost predicate Lasts(steps: seq<Step>, status: int, body: string) {
    forall more ::
      Run(steps + more).Some? && NoExpiry(more) ==> Serving(Run(steps + more).value, status, body)
  }

  /** A cached response stays until it expires, in every continuation, exactly when no other handler is running
      and none that has ended has answered differently. */
  lemma CacheLastsIff(steps: seq<Step>, status: int, body: string)
    requires Run(steps).Some? && Serving(Run(steps).value, status, body)
    ensures Lasts(steps, status, body) <==> forall sid :: !Threat(Run(steps).value, sid, status, body)
  {
    if forall sid :: !Threat(Run(steps).value, sid, status, body) {
      forall more | Run(steps + more).Some? && NoExpiry(more)
        ensures Serving(Run(steps + more).value, status, body)
      {
        RunServes(steps, more, status, body);
      }
    } else {
      var sid :| Threat(Run(steps).value, sid, status, body);
      var more := ThreatDrops(steps, sid, status, body);
    }
  }

  /** While it stays, no handler starts and every request is sent exactly that status and body. */
  lemma ServingReplays(w: World, sid: Sid, status: int, body: string)
    requires Serving(w, status, body)
    ensures At(w, sid) == Some(Claiming) ==> Next(w, Claim(sid)) == Some(Put(w, sid, Reading))
    ensures At(w, sid) == Some(Claiming) ==> Next(w, LoseClaim(sid)) == None
    ensures At(w, sid) == Some(Reading) ==> Next(w, Read(sid)) == Some(Log(Gone(w, sid), Replayed(status, body)))
  {
    ParseInvertsEncode(status, body);
  }

  lemma Second(w: World, sid: Sid)
    requires sid !in w.requests && w.store.None?
    ensures Next(w, Arrive(sid)).Some? && Next(Next(w, Arrive(sid)).value, Claim(sid)).Some?
    ensures var after := Next(Next(w, Arrive(sid)).value, Claim(sid)).value;
            && after.requests == w.requests[sid := Handling] && after.store == Some(MARKER)
  {
  }

  lemma StartHandler(steps: seq<Step>, sid: Sid) returns (longer: seq<Step>)
    requires Run(steps).Some? && sid !in Run(steps).value.requests && Run(steps).value.store.None?
    ensures Run(longer).Some? && Run(longer).value.requests == Run(steps).value.requests[sid := Handling]
    ensures Run(longer).value.store == Some(MARKER)
  {
    Second(Run(steps).value, sid);
    RunOneMore(steps, Arrive(sid));
    RunOneMore(steps + [Arrive(sid)], Claim(sid));
    longer := steps + [Arrive(sid)] + [Claim(sid)];
  }

  /** A response that is cached beside a running handler exists: the handler's claim expired, and a second one
      has answered. */
  lemma CachedBesideHandler(a: Sid, b: Sid, status: int, body: string) returns (steps: seq<Step>)
    requires a != b && Success(status)
    ensures Run(steps).Some? && Serving(Run(steps).value, status, body)
    ensures Threat(Run(steps).value, a, status, body)
  {
    var first := StartHandler([], a);
    RunOneMore(first, Expire);
    var second := StartHandler(first + [Expire], b);
    RunOneMore(second, Return(b, status, body));
    var answered := second + [Return(b, status, body)];
    RunOneMore(answered, Finish(b, true));
    steps := answered + [Finish(b, true)];
  }

  // ---- A claim that nobody holds

  /** The key is claimed, but no handler is running that could store a response or release it. */
  ghost predicate Blocked(w: World) {
    w.store == Some(MARKER) && forall sid :: !Active(w, sid)
  }

  lemma BlockedStays(w: World, step: Step)
    requires Blocked(w) && Next(w, step).Some? && !step.Expire?
    ensures Blocked(Next(w, step).value) && Next(w, step).value.log == w.log
  {
    if step.Return? || step.Finish? {
      assert Active(w, step.sid);
    } else {
      var after := Next(w, step).value;
      assert forall sid :: Active(after, sid) ==> Active(w, sid);
    }
  }

  /** Until the key expires no handler starts and nothing is replayed, whatever requests come. */
  lemma {:induction false} BlockedUntilExpiry(steps: seq<Step>, more: seq<Step>)
    requires Run(steps).Some? && Blocked(Run(steps).value)
    requires Run(steps + more).Some? && NoExpiry(more)
    ensures Blocked(Run(steps + more).value) && Run(steps + more).value.log == Run(steps).value.log
    decreases |more|
  {
    if more == [] {
      assert steps + more == steps;
    } else {
      LastStep(steps, more);
      BlockedUntilExpiry(steps, more[..|more| - 1]);
      BlockedStays(Run(steps + more[..|more| - 1]).value, more[|more| - 1]);
    }
  }

  /** In patient runs that is what becomes of a key when the reply to a claim is lost, when the handler's request
      vanishes, and when its response cannot be recorded because Redis is down. */
  lemma LostClaimBlocks(steps: seq<Step>, sid: Sid)
    requires Run(steps).Some? && Patient(steps) && sid in Run(steps).value.requests
    ensures var w := Run(steps).value;
            && (w.requests[sid] == Claiming && w.store.None? ==>
              Next(w, LoseClaim(sid)).Some? && Blocked(Next(w, LoseClaim(sid)).value))
            && (Active(w, sid) ==> Next(w, Vanish(sid)).Some? && Blocked(Next(w, Vanish(sid)).value))
            && (w.requests[sid].Finishing? ==>
              Next(w, Finish(sid, false)).Some? && Blocked(Next(w, Finish(sid, false)).value))
  {
    RunIsSound(steps);
    var w := Run(steps).value;
    if Active(w, sid) {
      HolderGoes(w, Gone(w, sid), sid);
    } else if w.store.None? {
      ReplyIsLost(w, sid);
    }
  }

  lemma HolderGoes(w: World, after: World, sid: Sid)
    requires Sound(w) && Active(w, sid) && after == Gone(w, sid)
    ensures Blocked(after)
  {
    LeavingKeepsOthers(w, sid);
  }

  lemma ReplyIsLost(w: World, sid: Sid)
    requires Sound(w) && w.store.None? && At(w, sid) != None
    ensures Blocked(Log(Gone(w, sid), Orphaned).(store := Some(MARKER)))
  {
    LeavingKeepsOthers(w, sid);
    MissingMeansFree(w.store, PhaseOf(w.log));
    assert forall b :: Active(Log(Gone(w, sid), Orphaned).(store := Some(MARKER)), b) ==> Active(w, b);
  }
}
