/** internal/service/router.go: choosing a PSP by asking the breakers. */
module Router {
  import opened Options
  import CB = CircuitBreaker

  datatype Conditions = Conditions(minAmount: Option<int>, maxAmount: Option<int>, currency: string)

  datatype Rule = Rule(name: string, conditions: Conditions, primary: string, fallback: string)

  datatype Request = Request(amount: int, currency: string, preferred: string)

  datatype Reason = MerchantPreference | RuleMatch | BreakerFallback | LastResort

  datatype Decision = Decision(psp: string, reason: Reason)

  predicate Matches(cond: Conditions, req: Request) {
    && !(cond.minAmount.Some? && req.amount < cond.minAmount.value)
    && !(cond.maxAmount.Some? && req.amount > cond.maxAmount.value)
    && !(cond.currency != "" && req.currency != cond.currency)
  }

  /** The state of every registered breaker at one moment. */
  type Views = map<string, CB.View>

  /** The PSP is registered, and its breaker is not open or has been for OpenTimeout. */
  ghost predicate Available(cfg: CB.Config, views: Views, psp: string, now: int) {
    psp in views && (views[psp].state != CB.Open || views[psp].openedAt + cfg.openTimeout <= now)
  }

  // ---- What Route promises

  /** The amount is within the bounds that are set, and the currency is the one that is set, if any. */
  ghost predicate Applies(rule: Rule, req: Request) {
    && (rule.conditions.minAmount.Some? ==> rule.conditions.minAmount.value <= req.amount)
    && (rule.conditions.maxAmount.Some? ==> req.amount <= rule.conditions.maxAmount.value)
    && (rule.conditions.currency == "" || rule.conditions.currency == req.currency)
  }

  /** The merchant's own choice, if any, is not available. */
  ghost predicate NoPreference(cfg: CB.Config, views: Views, now: int, req: Request) {
    req.preferred == "" || !Available(cfg, views, req.preferred, now)
  }

  /** The rule does not apply, or neither of its PSPs is available. */
  ghost predicate OffersNothing(cfg: CB.Config, views: Views, now: int, rule: Rule, req: Request) {
    Applies(rule, req) ==>
      && !Available(cfg, views, rule.primary, now)
      && (rule.fallback != "" ==> !Available(cfg, views, rule.fallback, now))
  }

  /** The rule selects its primary, or its fallback because the primary is not available. */
  ghost predicate Offers(cfg: CB.Config, views: Views, now: int, rule: Rule, req: Request, d: Decision) {
    && Applies(rule, req) && Available(cfg, views, d.psp, now)
    && match d.reason
       case RuleMatch => d.psp == rule.primary
       case BreakerFallback =>
         rule.fallback != "" && d.psp == rule.fallback && !Available(cfg, views, rule.primary, now)
       case _ => false
  }

  /** The merchant's own choice comes first, then the first rule that offers an available PSP, then any available
      PSP; there is no decision only when none is available. */
  ghost predicate Chosen(cfg: CB.Config, views: Views, now: int, rules: seq<Rule>, req: Request,
                         r: Option<Decision>) {
    match r
    case None => forall p :: !Available(cfg, views, p, now)
    case Some(d) =>
      match d.reason
      case MerchantPreference => req.preferred != "" && d.psp == req.preferred && Available(cfg, views, d.psp, now)
      case LastResort =>
        && NoPreference(cfg, views, now, req) && Available(cfg, views, d.psp, now)
        && forall j :: 0 <= j < |rules| ==> OffersNothing(cfg, views, now, rules[j], req)
      case _ =>
        && NoPreference(cfg, views, now, req)
        && exists i :: 0 <= i < |rules| && SelectedBy(cfg, views, now, rules, req, d, i)
  }

  ghost predicate SelectedBy(cfg: CB.Config, views: Views, now: int, rules: seq<Rule>, req: Request, d: Decision,
                             i: nat)
    requires i < |rules|
  {
    && Offers(cfg, views, now, rules[i], req, d)
    && forall j :: 0 <= j < i ==> OffersNothing(cfg, views, now, rules[j], req)
  }

  /** The breakers, the rules and the request determine the decision, up to which PSP is the last resort. */
  lemma ChoiceIsUnique(cfg: CB.Config, views: Views, now: int, rules: seq<Rule>, req: Request,
                       r: Option<Decision>, r': Option<Decision>)
    requires Chosen(cfg, views, now, rules, req, r) && Chosen(cfg, views, now, rules, req, r')
    ensures r == r' || (r.Some? && r'.Some? && r.value.reason == LastResort == r'.value.reason)
  {
    if r.Some? && r'.Some? && r.value.reason in {RuleMatch, BreakerFallback} {
      var i :| 0 <= i < |rules| && SelectedBy(cfg, views, now, rules, req, r.value, i);
      if r'.value.reason in {RuleMatch, BreakerFallback} {
        var i' :| 0 <= i' < |rules| && SelectedBy(cfg, views, now, rules, req, r'.value, i');
        SameSelection(cfg, views, now, rules, req, r.value, i, r'.value, i');
      }
    }
  }

  lemma SameSelection(cfg: CB.Config, views: Views, now: int, rules: seq<Rule>, req: Request,
                      d: Decision, i: nat, d': Decision, i': nat)
    requires i < |rules| && SelectedBy(cfg, views, now, rules, req, d, i)
    requires i' < |rules| && SelectedBy(cfg, views, now, rules, req, d', i')
    ensures d == d'
  {
  }

  /** The breakers after asking one of them: an open one that lets a probe through becomes half-open. */
  function Probed(cfg: CB.Config, views: Views, psp: string, now: int): Views
    requires psp in views
  {
    views[psp := CB.After(cfg, views[psp], CB.Asked(now))]
  }

  /** What a search leaves behind: nothing but the probe of the PSP it selected. */
  ghost predicate OnlyProbed(cfg: CB.Config, before: Views, after: Views, r: Option<Decision>, now: int) {
    match r
    case None => after == before
    case Some(d) => d.psp in before && after == Probed(cfg, before, d.psp, now)
  }

  /** Being refused leaves a breaker as it was. */
  lemma RefusalChangesNothing(cfg: CB.Config, v: CB.View, now: int)
    requires v.state == CB.Open && now < v.openedAt + cfg.openTimeout
    ensures CB.After(cfg, v, CB.Asked(now)) == v
  {
  }

  class PaymentRouter {
    const cfg: CB.Config
    var adapters: set<string>
    var breakers: map<string, CB.Breaker>
    var rules: seq<Rule>

    ghost function Repr(): set<object>
      reads this
    {
      set psp | psp in breakers :: breakers[psp]
    }

    /** Each registered PSP has an adapter and a breaker of its own. */
    ghost predicate Valid()
      reads this, Repr()
    {
      && breakers.Keys == adapters
      && (forall p :: p in breakers ==> breakers[p].Valid() && breakers[p].cfg == cfg)
      && (forall p, q :: p in breakers && q in breakers && p != q ==> breakers[p] != breakers[q])
    }

    ghost function Views(): Views
      reads this, Repr()
    {
      map p | p in breakers :: breakers[p].Now()
    }

    twostate lemma ViewsMove(psp: string)
      requires psp in breakers && breakers == old(breakers)[psp := breakers[psp]]
      requires forall p :: p in old(breakers) && p != psp ==> breakers[p].Now() == old(breakers[p].Now())
      ensures Views() == old(Views())[psp := breakers[psp].Now()]
    {
      var moved := old(Views())[psp := breakers[psp].Now()];
      assert Views().Keys == moved.Keys;
      forall p | p in moved
        ensures Views()[p] == moved[p]
      {
      }
    }

    twostate lemma StaysValid(psp: string)
      requires old(Valid()) && psp in breakers && breakers[psp].Valid() && breakers[psp].cfg == cfg
      requires adapters == old(adapters) + {psp} && breakers == old(breakers)[psp := breakers[psp]]
      requires forall p :: p in old(breakers) && p != psp ==> breakers[p] != breakers[psp] && unchanged(breakers[p])
      ensures Valid()
    {
    }

    /** One breaker is replaced or moves on, the others stay. */
    twostate lemma OneChanged(psp: string)
      requires old(Valid()) && psp in breakers && breakers[psp].Valid() && breakers[psp].cfg == cfg
      requires adapters == old(adapters) + {psp} && breakers == old(breakers)[psp := breakers[psp]]
      requires forall p :: p in old(breakers) && p != psp ==> breakers[p] != breakers[psp] && unchanged(breakers[p])
      ensures Valid() && Views() == old(Views())[psp := breakers[psp].Now()]
    {
      StaysValid(psp);
      ViewsMove(psp);
    }

    constructor ()
      ensures Valid() && Views() == map[] && rules == [] && cfg == CB.Config(5, 2, 30_000_000_000)
    {
      cfg := CB.DEFAULT_CONFIG;
      adapters, breakers, rules := {}, map[], [];
    }

    /** A PSP registers with a fresh, closed breaker; the others keep theirs. */
    method RegisterAdapter(name: string)
      requires Valid()
      modifies this`adapters, this`breakers
      ensures Valid() && Views() == old(Views())[name := CB.View(CB.Closed, 0, 0, 0)] && rules == old(rules)
      ensures forall p :: p in breakers && p != name ==> p in old(breakers) && breakers[p] == old(breakers)[p]
    {
      var breaker := new CB.Breaker(cfg);
      adapters := adapters + {name};
      breakers := breakers[name := breaker];
      OneChanged(name);
    }

    method LoadRules(newRules: seq<Rule>)
      requires Valid()
      modifies this`rules
      ensures Valid() && Views() == old(Views()) && rules == newRules
      ensures breakers == old(breakers)
    {
      rules := newRules;
    }

    method RecordSuccess(psp: string, now: int)
      requires Valid()
      modifies Repr()
      ensures Valid()
      ensures psp in old(Views()) ==>
                && Views() == old(Views())[psp := CB.After(cfg, old(Views())[psp], CB.Succeeded(now))]
                && Views()[psp].consecutiveFails == 0
      ensures psp !in old(Views()) ==> Views() == old(Views())
    {
      if psp in breakers {
        var cb := breakers[psp];
        CB.ReplayOneMore(cfg, cb.history, CB.Succeeded(now));
        cb.RecordSuccess(now);
        OneChanged(psp);
      }
    }

    method RecordFailure(psp: string, now: int)
      requires Valid()
      modifies Repr()
      ensures Valid()
      ensures psp in old(Views()) ==>
                && Views() == old(Views())[psp := CB.After(cfg, old(Views())[psp], CB.Failed(now))]
                && Views()[psp].consecutiveFails == old(Views())[psp].consecutiveFails + 1
      ensures psp !in old(Views()) ==> Views() == old(Views())
    {
      if psp in breakers {
        var cb := breakers[psp];
        CB.ReplayOneMore(cfg, cb.history, CB.Failed(now));
        cb.RecordFailure(now);
        OneChanged(psp);
      }
    }

    /** isAvailable: a PSP without a breaker counts as available. */
    method IsAvailable(psp: string, now: int) returns (ok: bool)
      requires Valid()
      modifies Repr()
      ensures Valid()
      ensures ok == (psp !in breakers || Available(cfg, old(Views()), psp, now))
      ensures Views() == if psp in breakers then Probed(cfg, old(Views()), psp, now) else old(Views())
      ensures !ok ==> Views() == old(Views())
    {
      if psp !in breakers {
        return true;
      }
      var cb := breakers[psp];
      CB.ReplayOneMore(cfg, cb.history, CB.Asked(now));
      ok := cb.Allow(now);
      OneChanged(psp);
      if !ok {
        RefusalChangesNothing(cfg, old(Views())[psp], now);
      }
    }

    method TryPreferred(req: Request, now: int) returns (r: Option<Decision>)
      requires Valid()
      modifies Repr()
      ensures Valid() && OnlyProbed(cfg, old(Views()), Views(), r, now)
      ensures if r.Some? then Chosen(cfg, old(Views()), now, rules, req, r) && r.value.reason == MerchantPreference
              else NoPreference(cfg, old(Views()), now, req)
    {
      r := None;
      if req.preferred != "" {
        if req.preferred in adapters {
          var ok := IsAvailable(req.preferred, now);
          if ok {
            r := Some(Decision(req.preferred, MerchantPreference));
          }
        }
      }
    }

    /** The body of the rule loop: primary first, then fallback. */
    method TryRule(rule: Rule, req: Request, now: int) returns (r: Option<Decision>)
      requires Valid()
      modifies Repr()
      ensures Valid() && OnlyProbed(cfg, old(Views()), Views(), r, now)
      ensures if r.Some? then Offers(cfg, old(Views()), now, rule, req, r.value)
              else OffersNothing(cfg, old(Views()), now, rule, req)
    {
      if !Matches(rule.conditions, req) {
        return None;
      }
      var ok := IsAvailable(rule.primary, now);
      if ok && rule.primary in adapters {
        r := Some(Decision(rule.primary, RuleMatch));
        return;
      }
      if rule.fallback != "" {
        ok := IsAvailable(rule.fallback, now);
        if ok && rule.fallback in adapters {
          r := Some(Decision(rule.fallback, BreakerFallback));
          return;
        }
      }
      r := None;
    }

    /** The last resort: the adapters in an arbitrary order. */
    method TryAny(now: int) returns (r: Option<Decision>)
      requires Valid()
      modifies Repr()
      ensures Valid() && OnlyProbed(cfg, old(Views()), Views(), r, now)
      ensures if r.Some? then r.value.reason == LastResort && Available(cfg, old(Views()), r.value.psp, now)
              else forall p :: !Available(cfg, old(Views()), p, now)
    {
      ghost var before := Views();
      var left := adapters;
      while left != {}
        invariant left <= adapters && Valid() && Views() == before
        invariant forall p :: p in adapters - left ==> !Available(cfg, before, p, now)
      {
        var name :| name in left;
        var ok := IsAvailable(name, now);
        if ok {
          return Some(Decision(name, LastResort));
        }
        left := left - {name};
      }
      r := None;
    }

    /** The rule loop. */
    method TryRules(req: Request, now: int) returns (r: Option<Decision>)
      requires Valid()
      modifies Repr()
      ensures Valid() && OnlyProbed(cfg, old(Views()), Views(), r, now)
      ensures match r
              case None => forall j :: 0 <= j < |rules| ==> OffersNothing(cfg, old(Views()), now, rules[j], req)
              case Some(d) => exists i :: 0 <= i < |rules| && SelectedBy(cfg, old(Views()), now, rules, req, d, i)
    {
      ghost var before := Views();
      var i := 0;
      while i < |rules|
        invariant 0 <= i <= |rules| && Valid() && Views() == before
        invariant forall j :: 0 <= j < i ==> OffersNothing(cfg, before, now, rules[j], req)
      {
        r := TryRule(rules[i], req, now);
        if r.Some? {
          assert SelectedBy(cfg, before, now, rules, req, r.value, i);
          return;
        }
        i := i + 1;
      }
      r := None;
    }

    /** Route makes the choice of the instant `now`, and changes no breaker but the one it selects. */
    method Route(req: Request, now: int) returns (r: Option<Decision>)
      requires Valid()
      modifies Repr()
      ensures Valid() && OnlyProbed(cfg, old(Views()), Views(), r, now)
      ensures Chosen(cfg, old(Views()), now, rules, req, r)
    {
      r := TryPreferred(req, now);
      if r.None? {
        r := TryRules(req, now);
        if r.None? {
          r := TryAny(now);
        }
      }
    }
  }
}
