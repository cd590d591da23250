/** At-most-once hand-off: over every run, a message enters the native queue at most once,
    plus once for each time the operator replays it while its acceptance is in doubt. */
module HandOff {
  import opened Sequences
  import opened Errors
  import opened Envelopes
  import opened Inbox
  import opened Delivery

  function ReplayOf(d: nat): Decision -> bool {
    (x: Decision) => x == Decision(d, Replay)
  }

  predicate Delivering(s: Sys, d: nat) {
    s.job.Some? && !s.job.value.reconciling && s.job.value.delivery == d && s.calls != []
  }

  /** A row that is pending or dead has nothing on its way to the queue beyond what the
      operator's replays account for; any other row may have one message more, and a row
      being delivered has it just when the running call's message is still possible. */
  function Allowance(s: Sys, d: nat): nat {
    if Delivering(s, d) then if Last(s.calls).Possible() then 1 else 0
    else if d < |s.db.events| && s.db.events[d].state in {Submitting, Unsure, Accepted, Discarded} then 1
    else 0
  }

  ghost predicate Bounded(s: Sys, d: nat) {
    && Count(s.calls, PossibleFor(d)) <= Count(s.doubts, Is(d)) + Allowance(s, d)
    && Count(s.doubts, Is(d)) <= Count(s.db.decisions, ReplayOf(d))
  }

  lemma BoundedIngest(limits: Limits, s: Sys, b: string, env: Envelope, now: real, d: nat)
    requires Consistent(s) && Bounded(s, d)
    ensures Bounded(DoIngest(limits, s, b, env, now), d)
  {
    IngestEffect(s.db, limits, b, env, now);
    if d >= |s.db.events| {
      CountZero(s.calls, PossibleFor(d));
    }
  }

  lemma BoundedResolve(s: Sys, e: nat, verdict: Verdict, reason: string, now: real, d: nat)
    requires Consistent(s) && Bounded(s, d)
    ensures Bounded(DoResolve(s, e, verdict, reason, now), d)
  {
    var t := DoResolve(s, e, verdict, reason, now);
    if s.db.Resolve(e, verdict, reason, now).1.Ok? {
      CountAppend(s.doubts, e, Is(d));
      CountAppend(s.db.decisions, Decision(e, verdict), ReplayOf(d));
      assert t.calls == s.calls && t.db.decisions == s.db.decisions + [Decision(e, verdict)];
      assert t.doubts == if verdict.Replay? && s.db.events[e].state.Unsure? then s.doubts + [e] else s.doubts;
      ResolvedAllowance(s, e, verdict, reason, now, d);
    }
  }

  /** A replay of a row in doubt gives its allowance up to the new doubt. */
  lemma ResolvedAllowance(s: Sys, e: nat, verdict: Verdict, reason: string, now: real, d: nat)
    requires Consistent(s) && s.db.Resolve(e, verdict, reason, now).1.Ok?
    ensures var t := DoResolve(s, e, verdict, reason, now);
      Allowance(s, d) <= Allowance(t, d) + if e == d && verdict.Replay? && s.db.events[e].state.Unsure? then 1 else 0
  {
  }

  /** With calls, doubts and decisions as they were, and no smaller an allowance. */
  lemma SameCallsBounded(s: Sys, t: Sys, d: nat)
    requires Bounded(s, d)
    requires t.calls == s.calls && t.doubts == s.doubts && t.db.decisions == s.db.decisions
    requires Allowance(t, d) >= Allowance(s, d)
    ensures Bounded(t, d)
  {
  }

  lemma NewCallBounded(s: Sys, t: Sys, job: Job, d: nat)
    requires Consistent(s) && Bounded(s, d) && ClaimChange(s, t, Claimed(job)) && !job.reconciling
    ensures Bounded(t, d)
  {
    hide Count;
    CountAppend(s.calls, Last(t.calls), PossibleFor(d));
    if d == job.delivery {
      assert Allowance(s, d) == 0 && Allowance(t, d) == 1;
    } else {
      assert Allowance(t, d) == Allowance(s, d);
    }
  }

  lemma ClaimBounded(s: Sys, t: Sys, r: ClaimResult, d: nat)
    requires Consistent(s) && Bounded(s, d) && ClaimChange(s, t, r)
    ensures Bounded(t, d)
  {
    if r.Claimed? && !r.job.reconciling {
      NewCallBounded(s, t, r.job, d);
    } else {
      SameCallsBounded(s, t, d);
    }
  }

  lemma BoundedClaim(limits: Limits, s: Sys, now: real, age: real, d: nat)
    requires Consistent(s) && Bounded(s, d)
    ensures Bounded(DoClaim(limits, s, now, age), d)
  {
    var r := if s.job.Some? then Idle else s.db.Claim(limits, now, age).1;
    ClaimChanges(limits, s, now, age);
    ClaimBounded(s, DoClaim(limits, s, now, age), r, d);
  }

  lemma SettleBounded(limits: Limits, s: Sys, t: Sys, outcome: Outcome, d: nat)
    requires Consistent(s) && Bounded(s, d) && SettleChange(limits, s, t, outcome)
    ensures Bounded(t, d)
  {
    hide Count;
    if !s.job.value.reconciling {
      CountUpdate(s.calls, |s.calls| - 1, Last(t.calls), PossibleFor(d));
    }
  }

  lemma BoundedSettle(limits: Limits, s: Sys, outcome: Outcome, now: real, d: nat)
    requires Consistent(s) && Bounded(s, d)
    ensures Bounded(DoSettle(limits, s, outcome, now), d)
  {
    var t := DoSettle(limits, s, outcome, now);
    SettleChanges(limits, s, outcome, now);
    if t != s {
      SettleBounded(limits, s, t, outcome, d);
    }
  }

  lemma BoundedFate(s: Sys, k: nat, from: Fate, to: Fate, d: nat)
    requires Consistent(s) && Bounded(s, d)
    requires from.Unsent? || from.OnWire?
    ensures Bounded(SetFate(s, k, from, to), d)
  {
    hide Count;
    if k < |s.calls| {
      CountUpdate(s.calls, k, s.calls[k].(fate := to), PossibleFor(d));
    }
  }

  lemma BoundedCrash(s: Sys, d: nat)
    requires Consistent(s) && Bounded(s, d)
    ensures Bounded(s.(job := None), d)
  {
  }

  lemma BoundedRoute(limits: Limits, s: Sys, a: Action, d: nat)
    requires Consistent(s) && Bounded(s, d) && RouteOnly(a)
    ensures Bounded(Step(limits, s, a), d)
  {
    RouteOnlySteps(limits, s, a);
    SameCallsBounded(s, Step(limits, s, a), d);
  }

  lemma BoundedStep(limits: Limits, s: Sys, a: Action, d: nat)
    requires Consistent(s) && Bounded(s, d)
    ensures Bounded(Step(limits, s, a), d)
  {
    hide Bounded, Consistent, DoIngest, DoResolve, DoClaim, DoSettle, SetFate;
    match a {
      case Ingest(b, env, now) => BoundedIngest(limits, s, b, env, now, d);
      case Resolve(e, verdict, reason, now) => BoundedResolve(s, e, verdict, reason, now, d);
      case Claim(now, age) => BoundedClaim(limits, s, now, age, d);
      case Settle(outcome, now) => BoundedSettle(limits, s, outcome, now, d);
      case Write(k) => BoundedFate(s, k, Unsent, OnWire, d);
      case Arrive(k) => BoundedFate(s, k, OnWire, Queued, d);
      case Vanish(k) => BoundedFate(s, k, OnWire, Refused, d);
      case Crash => BoundedCrash(s, d);
      case _ => BoundedRoute(limits, s, a, d);
    }
  }

  lemma {:induction false} BoundedRun(limits: Limits, actions: seq<Action>, d: nat)
    ensures Bounded(Run(limits, actions), d)
  {
    if actions != [] {
      var s := Run(limits, Front(actions));
      ConsistentRun(limits, Front(actions));
      BoundedRun(limits, Front(actions), d);
      BoundedStep(limits, s, Last(actions), d);
    }
  }

  /** The main result: how often one client id enters the native queue. Replays of dead
      deliveries do not count, because a dead message never was accepted. */
  lemma AtMostOnce(limits: Limits, actions: seq<Action>, d: nat)
    ensures var s := Run(limits, actions);
      && Count(s.calls, QueuedFor(d)) <= 1 + Count(s.doubts, Is(d))
      && Count(s.doubts, Is(d)) <= Count(s.db.decisions, ReplayOf(d))
  {
    var s := Run(limits, actions);
    BoundedRun(limits, actions, d);
    CountMonotone(s.calls, s.calls, QueuedFor(d), PossibleFor(d));
  }

  /** A delivery that is pending or dead for the first time, or again after replays of dead
      rows only, is nowhere in the native queue: retrying it cannot duplicate it. */
  lemma RetryIsSafe(limits: Limits, actions: seq<Action>, d: nat)
    requires var s := Run(limits, actions);
      d < |s.db.events| && s.db.events[d].state in {Pending, Dead} && d !in s.doubts
    ensures forall k | 0 <= k < |Run(limits, actions).calls| ::
      !PossibleFor(d)(Run(limits, actions).calls[k])
  {
    var s := Run(limits, actions);
    ConsistentRun(limits, actions);
    BoundedRun(limits, actions, d);
    CountZero(s.doubts, Is(d));
    forall k | 0 <= k < |s.calls| ensures !PossibleFor(d)(s.calls[k]) {
      if PossibleFor(d)(s.calls[k]) {
        CountAtLeastOne(s.calls, k, PossibleFor(d));
      }
    }
  }

  // ----- `accepted` is never a guess

  ghost predicate Evidence(s: Sys, d: nat) {
    || (exists k | 0 <= k < |s.calls| :: QueuedFor(d)(s.calls[k]))
    || (exists j | 0 <= j < |s.db.decisions| :: s.db.decisions[j] == Decision(d, Accept))
  }

  ghost predicate Grounded(s: Sys, d: nat) {
    d < |s.db.events| && s.db.events[d].state.Accepted? ==> Evidence(s, d)
  }

  lemma QueuedStays(limits: Limits, s: Sys, a: Action, k: nat, d: nat)
    requires Consistent(s) && k < |s.calls| && QueuedFor(d)(s.calls[k])
    ensures var t := Step(limits, s, a); k < |t.calls| && QueuedFor(d)(t.calls[k])
  {
    if RouteOnly(a) {
      RouteOnlySteps(limits, s, a);
    }
  }

  lemma DecisionsStay(limits: Limits, s: Sys, a: Action)
    requires Consistent(s)
    ensures s.db.decisions <= Step(limits, s, a).db.decisions
  {
    if RouteOnly(a) {
      RouteOnlySteps(limits, s, a);
    }
  }

  lemma EvidenceStays(limits: Limits, s: Sys, a: Action, d: nat)
    requires Consistent(s) && Evidence(s, d)
    ensures Evidence(Step(limits, s, a), d)
  {
    var t := Step(limits, s, a);
    if k :| 0 <= k < |s.calls| && QueuedFor(d)(s.calls[k]) {
      QueuedStays(limits, s, a, k, d);
    } else {
      var j :| 0 <= j < |s.db.decisions| && s.db.decisions[j] == Decision(d, Accept);
      DecisionsStay(limits, s, a);
      assert t.db.decisions[j] == Decision(d, Accept);
    }
  }

  lemma GroundedResolve(s: Sys, e: nat, verdict: Verdict, reason: string, now: real, d: nat)
    requires Consistent(s) && Grounded(s, d)
    requires d < |s.db.events| && !s.db.events[d].state.Accepted?
    ensures Grounded(DoResolve(s, e, verdict, reason, now), d)
  {
    var t := DoResolve(s, e, verdict, reason, now);
    if s.db.Resolve(e, verdict, reason, now).1.Ok? && e == d && verdict.Accept? {
      assert t.db.decisions[|s.db.decisions|] == Decision(d, Accept);
    }
  }

  lemma SettleGrounded(limits: Limits, s: Sys, t: Sys, outcome: Outcome, d: nat)
    requires Consistent(s) && SettleChange(limits, s, t, outcome)
    requires d < |s.db.events| && !s.db.events[d].state.Accepted?
    ensures Grounded(t, d)
  {
    if t.db.events[d].state.Accepted? {
      if s.job.value.reconciling {
        var k :| 0 <= k < |s.calls| && QueuedFor(d)(s.calls[k]);
        assert QueuedFor(d)(t.calls[k]);
      } else {
        assert QueuedFor(d)(t.calls[|s.calls| - 1]);
      }
    }
  }

  lemma GroundedSettle(limits: Limits, s: Sys, outcome: Outcome, now: real, d: nat)
    requires Consistent(s)
    requires d < |s.db.events| && !s.db.events[d].state.Accepted?
    ensures Grounded(DoSettle(limits, s, outcome, now), d)
  {
    var t := DoSettle(limits, s, outcome, now);
    SettleChanges(limits, s, outcome, now);
    if t != s {
      SettleGrounded(limits, s, t, outcome, d);
    }
  }

  lemma GroundedStep(limits: Limits, s: Sys, a: Action, d: nat)
    requires Consistent(s) && Grounded(s, d)
    ensures Grounded(Step(limits, s, a), d)
  {
    hide Consistent, Evidence, DoIngest, DoResolve, DoClaim, DoSettle, SetFate;
    if d < |s.db.events| && s.db.events[d].state.Accepted? {
      EvidenceStays(limits, s, a, d);
    } else if d < |s.db.events| {
      match a {
        case Resolve(e, verdict, reason, now) => GroundedResolve(s, e, verdict, reason, now, d);
        case Settle(outcome, now) => GroundedSettle(limits, s, outcome, now, d);
        case _ => OthersAcceptNothing(limits, s, a, d);
      }
    } else {
      NewRowsPend(limits, s, a, d);
    }
  }

  lemma NewRowsPend(limits: Limits, s: Sys, a: Action, d: nat)
    requires d >= |s.db.events|
    ensures Grounded(Step(limits, s, a), d)
  {
    if a.Ingest? {
      IngestEffect(s.db, limits, a.b, a.env, a.now);
    } else {
      NoIntakeKeepsRows(limits, s, a);
    }
  }

  lemma ClaimAcceptsNothing(s: Sys, t: Sys, r: ClaimResult, d: nat)
    requires ClaimChange(s, t, r) && d < |s.db.events| && !s.db.events[d].state.Accepted?
    ensures d < |t.db.events| && !t.db.events[d].state.Accepted?
  {
  }

  lemma OthersAcceptNothing(limits: Limits, s: Sys, a: Action, d: nat)
    requires Consistent(s) && !a.Resolve? && !a.Settle? && d < |s.db.events| && !s.db.events[d].state.Accepted?
    ensures var t := Step(limits, s, a); d < |t.db.events| && !t.db.events[d].state.Accepted?
  {
    assert s.db.Sound();
    hide Consistent, ClaimChange, DoClaim, Db.Sound, Db.Ingest, Db.Claim;
    match a {
      case Ingest(b, env, now) => IngestEffect(s.db, limits, b, env, now);
      case Claim(now, age) =>
        var r := if s.job.Some? then Idle else s.db.Claim(limits, now, age).1;
        ClaimChanges(limits, s, now, age);
        ClaimAcceptsNothing(s, DoClaim(limits, s, now, age), r, d);
      case _ =>
        if RouteOnly(a) {
          RouteOnlySteps(limits, s, a);
        }
    }
  }

  /** An accepted row is in the peer's log, or the operator said so. */
  lemma {:induction false} AcceptedIsGrounded(limits: Limits, actions: seq<Action>, d: nat)
    ensures Grounded(Run(limits, actions), d)
  {
    if actions != [] {
      ConsistentRun(limits, Front(actions));
      AcceptedIsGrounded(limits, Front(actions), d);
      GroundedStep(limits, Run(limits, Front(actions)), Last(actions), d);
    }
  }
}
