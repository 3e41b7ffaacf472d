/** The payment state machine (internal/service/statemachine.go, internal/models/payment.go). */
module PaymentStates {
  import opened Options

  datatype Status =
    | Created
    | Pending
    | Authorized
    | Captured
    | Failed
    | Cancelled
    | Refunded
    | PartiallyRefunded

  predicate IsTerminal(s: Status) {
    s.Failed? || s.Cancelled? || s.Refunded?
  }

  /** validTransitions: None stands for a status that is not a key of the table. */
  function ValidTransitions(s: Status): Option<seq<Status>> {
    match s
    case Created => Some([Pending, Authorized, Failed])
    case Pending => Some([Authorized, Captured, Failed])
    case Authorized => Some([Captured, Cancelled, Failed])
    case Captured => Some([Refunded, PartiallyRefunded])
    case PartiallyRefunded => Some([Refunded, PartiallyRefunded])
    case Failed => None
    case Cancelled => None
    case Refunded => None
  }

  datatype TransitionError =
    | NoTransitionsFrom(terminal: Status)
    | InvalidTransition(from: Status, to: Status)

  function ValidateTransition(from: Status, to: Status): (r: Outcome<TransitionError>)
    ensures r.Pass? ==> !IsTerminal(from) && to != Created
    ensures r == Fail(NoTransitionsFrom(from)) <==> IsTerminal(from)
  {
    match ValidTransitions(from)
    case None => Fail(NoTransitionsFrom(from))
    case Some(allowed) => if to in allowed then Pass else Fail(InvalidTransition(from, to))
  }

  predicate CanTransition(from: Status, to: Status) {
    ValidateTransition(from, to).Pass?
  }

  /** The thirteen legal changes, and the three statuses that nothing follows. */
  lemma LegalChanges(from: Status, to: Status)
    ensures ValidateTransition(from, to).Pass? <==>
              || (from == Created && (to == Pending || to == Authorized || to == Failed))
              || (from == Pending && (to == Authorized || to == Captured || to == Failed))
              || (from == Authorized && (to == Captured || to == Cancelled || to == Failed))
              || (from == Captured && (to == Refunded || to == PartiallyRefunded))
              || (from == PartiallyRefunded && (to == Refunded || to == PartiallyRefunded))
    ensures ValidateTransition(from, to) == Fail(NoTransitionsFrom(from)) <==>
              from == Failed || from == Cancelled || from == Refunded
    ensures IsTerminal(from) <==> from == Failed || from == Cancelled || from == Refunded
  {
  }

  /** How many strict steps are still ahead at most. */
  function Rank(s: Status): nat {
    match s
    case Created => 5
    case Pending => 4
    case Authorized => 3
    case Captured => 2
    case PartiallyRefunded => 1
    case Failed => 0
    case Cancelled => 0
    case Refunded => 0
  }

  /** Every legal change strictly lowers the rank, apart from the partial-refund self-loop. */
  lemma StepLowersRank(from: Status, to: Status)
    requires CanTransition(from, to)
    ensures Rank(to) < Rank(from) || (from == to == PartiallyRefunded)
  {
  }

  /** A row of payment_state_transitions; the empty from_status of the first row is None. */
  datatype Edge = Edge(from: Option<Status>, to: Status)

  ghost predicate Joined(e: Edge, f: Edge) {
    f.from == Some(e.to) && CanTransition(e.to, f.to)
  }

  /** An audit trail: it starts "" -> created and each row continues the one before by a legal change. */
  ghost predicate IsTrail(trail: seq<Edge>) {
    && 0 < |trail|
    && trail[0] == Edge(None, Created)
    && forall i :: 0 <= i < |trail| - 1 ==> Joined(trail[i], trail[i + 1])
  }

  function Last(trail: seq<Edge>): Status
    requires 0 < |trail|
  {
    trail[|trail| - 1].to
  }

  lemma TrailGrows(trail: seq<Edge>, e: Edge)
    requires IsTrail(trail) && Joined(trail[|trail| - 1], e)
    ensures IsTrail(trail + [e]) && Last(trail + [e]) == e.to
  {
    var longer := trail + [e];
    forall i | 0 <= i < |longer| - 1
      ensures Joined(longer[i], longer[i + 1])
    {
      if i < |trail| - 1 {
        assert Joined(trail[i], trail[i + 1]);
      }
    }
  }

  /** Along a trail the rank never rises, and once a status other than
      partially_refunded is left, everything after it ranks strictly lower. */
  lemma {:induction false} TrailRanks(trail: seq<Edge>, i: nat, j: nat)
    requires IsTrail(trail) && i < j < |trail|
    ensures Rank(trail[j].to) <= Rank(trail[i].to)
    ensures trail[i].to != PartiallyRefunded ==> Rank(trail[j].to) < Rank(trail[i].to)
    decreases j
  {
    assert Joined(trail[j - 1], trail[j]);
    StepLowersRank(trail[j - 1].to, trail[j].to);
    if i < j - 1 {
      TrailRanks(trail, i, j - 1);
    }
  }

  /** A terminal status ends its trail, and no status but partially_refunded is entered twice. */
  lemma EnteredOnce(trail: seq<Edge>, i: nat, j: nat)
    requires IsTrail(trail) && i < j < |trail|
    ensures !IsTerminal(trail[i].to)
    ensures trail[i].to == trail[j].to ==> trail[i].to == PartiallyRefunded
  {
    TrailRanks(trail, i, j);
    assert Joined(trail[i], trail[i + 1]);
  }

  /** The number of rows a trail may have that carry no partial refund. */
  lemma {:induction false} TrailLength(trail: seq<Edge>)
    requires IsTrail(trail)
    requires forall i :: 0 <= i < |trail| ==> trail[i].to != PartiallyRefunded
    ensures |trail| + Rank(Last(trail)) <= 6
    decreases |trail|
  {
    if 1 < |trail| {
      var shorter := trail[..|trail| - 1];
      assert IsTrail(shorter);
      TrailLength(shorter);
      TrailRanks(trail, |trail| - 2, |trail| - 1);
    }
  }
}
