/** The attempt budget: what the `attempts` column means, how many `deliver` calls one
    delivery can cost between two decisions of the operator, and how many all of them
    together can still cost when nothing new comes in. */
module Budget {
  import opened Sequences
  import opened Errors
  import opened Envelopes
  import opened Inbox
  import opened Delivery

  /** The bookkeeping of delivery d in its generation g. */
  ghost predicate Budgeted(limits: Limits, s: Sys, d: nat, g: nat) {
    && Count(s.calls, SpentFor(d, g)) <= limits.maxAttempts
    && (forall k | 0 <= k < |s.calls| && s.calls[k].delivery == d :: s.calls[k].generation <= Generation(s.db, d))
    && (d < |s.db.events| && g == Generation(s.db, d) ==> CountsRight(limits, s, d, g))
  }

  /** The column is the number of calls since the last decision that used up an attempt. */
  ghost predicate CountsRight(limits: Limits, s: Sys, d: nat, g: nat)
    requires d < |s.db.events|
  {
    && s.db.events[d].attempts == Count(s.calls, SpentFor(d, g))
    && (s.db.events[d].state.Pending? ==> s.db.events[d].attempts < limits.maxAttempts)
    && (s.job.Some? && !s.job.value.reconciling && s.job.value.delivery == d && s.calls != [] ==>
          Last(s.calls).generation == g)
  }

  lemma BudgetedIngest(limits: Limits, s: Sys, b: string, env: Envelope, now: real, d: nat, g: nat)
    requires Consistent(s) && Budgeted(limits, s, d, g)
    ensures Budgeted(limits, DoIngest(limits, s, b, env, now), d, g)
  {
    IngestEffect(s.db, limits, b, env, now);
    if d >= |s.db.events| {
      CountZero(s.calls, SpentFor(d, g));
    }
  }

  lemma BudgetedResolve(limits: Limits, s: Sys, e: nat, verdict: Verdict, reason: string, now: real, d: nat, g: nat)
    requires Consistent(s) && Budgeted(limits, s, d, g)
    ensures Budgeted(limits, DoResolve(s, e, verdict, reason, now), d, g)
  {
    if s.db.Resolve(e, verdict, reason, now).1.Ok? {
      var t := DoResolve(s, e, verdict, reason, now);
      CountAppend(s.db.decisions, Decision(e, verdict), About(d));
      assert Generation(t.db, d) == Generation(s.db, d) + if e == d then 1 else 0;
      assert t.calls == s.calls && t.job == s.job;
      if g > Generation(s.db, d) {
        CountZero(s.calls, SpentFor(d, g));
      }
    }
  }

  /** With the calls as they were, and no row gaining or losing an attempt. */
  lemma SameCallsBudgeted(limits: Limits, s: Sys, t: Sys, d: nat, g: nat)
    requires Budgeted(limits, s, d, g)
    requires t.calls == s.calls && t.db.decisions == s.db.decisions
    requires |t.db.events| == |s.db.events|
    requires d < |s.db.events| ==>
      && t.db.events[d].attempts == s.db.events[d].attempts
      && (t.db.events[d].state.Pending? ==> s.db.events[d].state.Pending?)
    requires t.job == s.job || t.job.None? || t.job.value.reconciling
    ensures Budgeted(limits, t, d, g)
  {
  }

  /** One more call, for a row that was pending, in its present generation. */
  lemma NewCallBudgeted(limits: Limits, s: Sys, t: Sys, job: Job, d: nat, g: nat)
    requires Consistent(s) && Budgeted(limits, s, d, g)
    requires ClaimChange(s, t, Claimed(job)) && !job.reconciling
    ensures Budgeted(limits, t, d, g)
  {
    hide Consistent, Count;
    CountAppend(s.calls, Last(t.calls), SpentFor(d, g));
    assert t.db.decisions == s.db.decisions && Generation(t.db, d) == Generation(s.db, d);
    assert d != job.delivery && d < |s.db.events| ==> t.db.events[d] == s.db.events[d];
  }

  lemma ClaimBudgeted(limits: Limits, s: Sys, t: Sys, r: ClaimResult, d: nat, g: nat)
    requires Consistent(s) && Budgeted(limits, s, d, g) && ClaimChange(s, t, r)
    ensures Budgeted(limits, t, d, g)
  {
    if r.Claimed? && !r.job.reconciling {
      NewCallBudgeted(limits, s, t, r.job, d, g);
    } else {
      SameCallsBudgeted(limits, s, t, d, g);
    }
  }

  lemma BudgetedClaim(limits: Limits, s: Sys, now: real, age: real, d: nat, g: nat)
    requires Consistent(s) && Budgeted(limits, s, d, g)
    ensures Budgeted(limits, DoClaim(limits, s, now, age), d, g)
  {
    var r := if s.job.Some? then Idle else s.db.Claim(limits, now, age).1;
    ClaimChanges(limits, s, now, age);
    ClaimBudgeted(limits, s, DoClaim(limits, s, now, age), r, d, g);
  }

  lemma SettleBudgeted(limits: Limits, s: Sys, t: Sys, outcome: Outcome, d: nat, g: nat)
    requires Consistent(s) && Budgeted(limits, s, d, g) && SettleChange(limits, s, t, outcome)
    ensures Budgeted(limits, t, d, g)
  {
    if s.job.value.reconciling {
      SameCallsBudgeted(limits, s, t, d, g);
    } else {
      EndedCallBudgeted(limits, s, t, outcome, d, g);
    }
  }

  lemma EndedCallBudgeted(limits: Limits, s: Sys, t: Sys, outcome: Outcome, d: nat, g: nat)
    requires Consistent(s) && Budgeted(limits, s, d, g) && SettleChange(limits, s, t, outcome)
    requires !s.job.value.reconciling
    ensures Budgeted(limits, t, d, g)
  {
    hide Count;
    CountUpdate(s.calls, |s.calls| - 1, Last(t.calls), SpentFor(d, g));
    assert t.db.decisions == s.db.decisions && Generation(t.db, d) == Generation(s.db, d);
    assert d != s.job.value.delivery && d < |s.db.events| ==> t.db.events[d] == s.db.events[d];
  }

  lemma BudgetedSettle(limits: Limits, s: Sys, outcome: Outcome, now: real, d: nat, g: nat)
    requires Consistent(s) && Budgeted(limits, s, d, g)
    ensures Budgeted(limits, DoSettle(limits, s, outcome, now), d, g)
  {
    var t := DoSettle(limits, s, outcome, now);
    SettleChanges(limits, s, outcome, now);
    if t != s {
      SettleBudgeted(limits, s, t, outcome, d, g);
    }
  }

  lemma BudgetedFate(limits: Limits, s: Sys, k: nat, from: Fate, to: Fate, d: nat, g: nat)
    requires Budgeted(limits, s, d, g)
    ensures Budgeted(limits, SetFate(s, k, from, to), d, g)
  {
    if k < |s.calls| {
      CountUpdate(s.calls, k, s.calls[k].(fate := to), SpentFor(d, g));
    }
  }

  lemma BudgetedRoute(limits: Limits, s: Sys, a: Action, d: nat, g: nat)
    requires Consistent(s) && Budgeted(limits, s, d, g) && RouteOnly(a)
    ensures Budgeted(limits, Step(limits, s, a), d, g)
  {
    RouteOnlySteps(limits, s, a);
    SameCallsBudgeted(limits, s, Step(limits, s, a), d, g);
  }

  lemma BudgetedCrash(limits: Limits, s: Sys, d: nat, g: nat)
    requires Budgeted(limits, s, d, g)
    ensures Budgeted(limits, s.(job := None), d, g)
  {
    SameCallsBudgeted(limits, s, s.(job := None), d, g);
  }

  lemma BudgetedStep(limits: Limits, s: Sys, a: Action, d: nat, g: nat)
    requires Consistent(s) && Budgeted(limits, s, d, g)
    ensures Budgeted(limits, Step(limits, s, a), d, g)
  {
    hide Budgeted, Consistent, DoIngest, DoResolve, DoClaim, DoSettle, SetFate;
    match a {
      case Ingest(b, env, now) => BudgetedIngest(limits, s, b, env, now, d, g);
      case Resolve(e, verdict, reason, now) => BudgetedResolve(limits, s, e, verdict, reason, now, d, g);
      case Claim(now, age) => BudgetedClaim(limits, s, now, age, d, g);
      case Settle(outcome, now) => BudgetedSettle(limits, s, outcome, now, d, g);
      case Write(k) => BudgetedFate(limits, s, k, Unsent, OnWire, d, g);
      case Arrive(k) => BudgetedFate(limits, s, k, OnWire, Queued, d, g);
      case Vanish(k) => BudgetedFate(limits, s, k, OnWire, Refused, d, g);
      case Crash => BudgetedCrash(limits, s, d, g);
      case _ => BudgetedRoute(limits, s, a, d, g);
    }
  }

  lemma {:induction false} BudgetedRun(limits: Limits, actions: seq<Action>, d: nat, g: nat)
    ensures Budgeted(limits, Run(limits, actions), d, g)
  {
    if actions != [] {
      ConsistentRun(limits, Front(actions));
      BudgetedRun(limits, Front(actions), d, g);
      BudgetedStep(limits, Run(limits, Front(actions)), Last(actions), d, g);
    }
  }

  /** The main result on one delivery: between two decisions about it at most `maxAttempts`
      calls end other than Unavailable, and the column counts them exactly. */
  lemma AttemptBudget(limits: Limits, actions: seq<Action>, d: nat, g: nat)
    ensures var s := Run(limits, actions);
      && Count(s.calls, SpentFor(d, g)) <= limits.maxAttempts
      && (d < |s.db.events| ==>
            && s.db.events[d].attempts == Count(s.calls, SpentFor(d, Generation(s.db, d))) <= limits.maxAttempts
            && (s.db.events[d].state.Pending? ==> s.db.events[d].attempts < limits.maxAttempts))
  {
    BudgetedRun(limits, actions, d, g);
    BudgetedRun(limits, actions, d, Generation(Run(limits, actions).db, d));
  }

  // ----- how many calls are left

  function Remaining(limits: Limits): Event -> int {
    (e: Event) => if e.state.Pending? then limits.maxAttempts - e.attempts else 0
  }

  /** The claimed delivery may come back for what its column leaves. */
  function InFlight(limits: Limits, s: Sys): int {
    if s.job.Some? && !s.job.value.reconciling && s.job.value.delivery < |s.db.events|
    then limits.maxAttempts - s.db.events[s.job.value.delivery].attempts
    else 0
  }

  /** The deliver calls that can still be made without a new event or decision. */
  function CallsLeft(limits: Limits, s: Sys): int {
    Sum(s.db.events, Remaining(limits)) + InFlight(limits, s)
  }

  function CallsSpent(s: Sys): nat {
    Count(s.calls, Spent())
  }

  ghost predicate AllBudgeted(limits: Limits, s: Sys) {
    forall d, g :: Budgeted(limits, s, d, g)
  }

  lemma InFlightIsNatural(limits: Limits, s: Sys)
    requires Consistent(s) && AllBudgeted(limits, s)
    ensures InFlight(limits, s) >= 0
  {
    if s.job.Some? {
      var d := s.job.value.delivery;
      assert Budgeted(limits, s, d, Generation(s.db, d));
    }
  }

  lemma ClaimSpending(limits: Limits, s: Sys, t: Sys, r: ClaimResult)
    requires Consistent(s) && AllBudgeted(limits, s) && ClaimChange(s, t, r)
    ensures CallsSpent(t) + CallsLeft(limits, t) <= CallsSpent(s) + CallsLeft(limits, s)
  {
    hide Consistent, Count, Sum;
    if !r.Idle? {
      var d := if r.Claimed? then r.job.delivery else r.delivery;
      SumUpdate(s.db.events, d, t.db.events[d], Remaining(limits));
      assert Budgeted(limits, s, d, Generation(s.db, d));
      if r.Claimed? && !r.job.reconciling {
        CountAppend(s.calls, Last(t.calls), Spent());
      }
    }
  }

  lemma SpendingClaim(limits: Limits, s: Sys, now: real, age: real)
    requires Consistent(s) && AllBudgeted(limits, s)
    ensures var t := DoClaim(limits, s, now, age);
      CallsSpent(t) + CallsLeft(limits, t) <= CallsSpent(s) + CallsLeft(limits, s)
  {
    var r := if s.job.Some? then Idle else s.db.Claim(limits, now, age).1;
    ClaimChanges(limits, s, now, age);
    ClaimSpending(limits, s, DoClaim(limits, s, now, age), r);
  }

  lemma SettleSpending(limits: Limits, s: Sys, t: Sys, outcome: Outcome)
    requires Consistent(s) && AllBudgeted(limits, s) && SettleChange(limits, s, t, outcome)
    ensures CallsSpent(t) + CallsLeft(limits, t) <= CallsSpent(s) + CallsLeft(limits, s)
  {
    var job := s.job.value;
    var d := job.delivery;
    InFlightIsNatural(limits, s);
    SumUpdate(s.db.events, d, t.db.events[d], Remaining(limits));
    if !job.reconciling {
      CountUpdate(s.calls, |s.calls| - 1, Last(t.calls), Spent());
    }
  }

  lemma SpendingSettle(limits: Limits, s: Sys, outcome: Outcome, now: real)
    requires Consistent(s) && AllBudgeted(limits, s)
    ensures var t := DoSettle(limits, s, outcome, now);
      CallsSpent(t) + CallsLeft(limits, t) <= CallsSpent(s) + CallsLeft(limits, s)
  {
    var t := DoSettle(limits, s, outcome, now);
    SettleChanges(limits, s, outcome, now);
    if t != s {
      SettleSpending(limits, s, t, outcome);
    }
  }

  lemma SpendingFate(limits: Limits, s: Sys, k: nat, from: Fate, to: Fate)
    ensures var t := SetFate(s, k, from, to);
      CallsSpent(t) + CallsLeft(limits, t) == CallsSpent(s) + CallsLeft(limits, s)
  {
    if k < |s.calls| {
      CountUpdate(s.calls, k, s.calls[k].(fate := to), Spent());
    }
  }

  lemma SpendingRoute(limits: Limits, s: Sys, a: Action)
    requires Consistent(s) && RouteOnly(a)
    ensures var t := Step(limits, s, a);
      CallsSpent(t) + CallsLeft(limits, t) == CallsSpent(s) + CallsLeft(limits, s)
  {
    RouteOnlySteps(limits, s, a);
  }

  lemma SpendingStep(limits: Limits, s: Sys, a: Action)
    requires Consistent(s) && AllBudgeted(limits, s)
    requires !a.Ingest? && !a.Resolve?
    ensures var t := Step(limits, s, a);
      CallsSpent(t) + CallsLeft(limits, t) <= CallsSpent(s) + CallsLeft(limits, s)
  {
    match a {
      case Claim(now, age) => SpendingClaim(limits, s, now, age);
      case Settle(outcome, now) => SpendingSettle(limits, s, outcome, now);
      case Write(k) => SpendingFate(limits, s, k, Unsent, OnWire);
      case Arrive(k) => SpendingFate(limits, s, k, OnWire, Queued);
      case Vanish(k) => SpendingFate(limits, s, k, OnWire, Refused);
      case Crash => InFlightIsNatural(limits, s);
      case _ => SpendingRoute(limits, s, a);
    }
  }

  lemma {:induction false} SpendingRun(limits: Limits, s: Sys, actions: seq<Action>)
    requires Consistent(s) && AllBudgeted(limits, s)
    requires forall i | 0 <= i < |actions| :: !actions[i].Ingest? && !actions[i].Resolve?
    ensures var t := RunFrom(limits, s, actions);
      && Consistent(t) && AllBudgeted(limits, t)
      && CallsSpent(t) + CallsLeft(limits, t) <= CallsSpent(s) + CallsLeft(limits, s)
  {
    if actions != [] {
      SpendingRun(limits, s, Front(actions));
      var m, a := RunFrom(limits, s, Front(actions)), Last(actions);
      assert !a.Ingest? && !a.Resolve?;
      SpendingStep(limits, m, a);
      ConsistentStep(limits, m, a);
      forall d, g ensures Budgeted(limits, Step(limits, m, a), d, g) {
        BudgetedStep(limits, m, a, d, g);
      }
    }
  }

  lemma {:induction false} RemainingIsNatural(limits: Limits, s: Sys, n: nat)
    requires AllBudgeted(limits, s) && n <= |s.db.events|
    ensures Sum(s.db.events[..n], Remaining(limits)) >= 0
  {
    if n > 0 {
      assert Front(s.db.events[..n]) == s.db.events[..n - 1];
      RemainingIsNatural(limits, s, n - 1);
      assert Budgeted(limits, s, n - 1, Generation(s.db, n - 1));
    }
  }

  /** The main result on termination: from any reachable state, any continuation without a
      new event or decision makes at most `CallsLeft` calls that end other than Unavailable
      -- the attempts the pending and claimed rows have left. */
  lemma CallsRunOut(limits: Limits, before: seq<Action>, after: seq<Action>)
    requires forall i | 0 <= i < |after| :: !after[i].Ingest? && !after[i].Resolve?
    ensures var s := Run(limits, before);
      var t := RunFrom(limits, s, after);
      CallsSpent(t) <= CallsSpent(s) + CallsLeft(limits, s)
  {
    var s := Run(limits, before);
    ConsistentRun(limits, before);
    forall d, g ensures Budgeted(limits, s, d, g) {
      BudgetedRun(limits, before, d, g);
    }
    SpendingRun(limits, s, after);
    var t := RunFrom(limits, s, after);
    InFlightIsNatural(limits, t);
    RemainingIsNatural(limits, t, |t.db.events|);
    assert t.db.events[..|t.db.events|] == t.db.events;
  }
}
