/** Admission limits over whole histories: the per-binding rate bound holds for every window
    of true intake times although `resolve` rewrites the column the check reads, and no trace
    identifier is ever admitted more often than its budget. */
module Admission {
  import opened Sequences
  import opened Errors
  import opened Envelopes
  import opened Inbox
  import opened Delivery

  /** Taken in on binding b during the 60 seconds that end at t. */
  function InWindow(b: string, t: real): Intake -> bool {
    (x: Intake) => x.binding == b && t - RATE_WINDOW < x.at <= t
  }

  /** The column never lags behind the true intake time. */
  ghost predicate Stamped(s: Sys) {
    && |s.admitted| == |s.db.events|
    && forall i | 0 <= i < |s.admitted| ::
      s.admitted[i].binding == s.db.events[i].binding && s.admitted[i].at <= s.db.events[i].created
  }

  ghost predicate Limited(limits: Limits, s: Sys) {
    && (s.clockBack || Stamped(s))
    && (!s.clockBack ==> forall b, t :: Count(s.admitted, InWindow(b, t)) <= limits.rateLimit)
    && (forall trace :: Count(s.db.events, Traced(trace)) <= limits.traceLimit)
  }

  lemma WindowAfterIngest(limits: Limits, s: Sys, b: string, env: Envelope, now: real, c: string, t: real)
    requires Limited(limits, s) && !s.clockBack
    requires var r := s.db.Ingest(limits, b, env, now).1; r.Ok? && !r.value.duplicate
    ensures Count(s.admitted + [Intake(b, now)], InWindow(c, t)) <= limits.rateLimit
  {
    var entry := Intake(b, now);
    CountAppend(s.admitted, entry, InWindow(c, t));
    if InWindow(c, t)(entry) {
      // Every row of this window is one the rate check counted.
      AdmittedAsCounted(s, b, t, now);
      assert s.db.FreshRefusal(limits, b, env, now).None?;
    }
  }

  lemma {:induction false} AdmittedAsCounted(s: Sys, b: string, t: real, now: real)
    requires Stamped(s) && now <= t
    ensures Count(s.admitted, InWindow(b, t)) <= Count(s.db.events, CreatedAfter(b, now - RATE_WINDOW))
  {
    CountMixed(s.admitted, s.db.events, b, t, now);
  }

  lemma {:induction false} CountMixed(xs: seq<Intake>, es: seq<Event>, b: string, t: real, now: real)
    requires |xs| == |es| && now <= t
    requires forall i | 0 <= i < |xs| :: xs[i].binding == es[i].binding && xs[i].at <= es[i].created
    ensures Count(xs, InWindow(b, t)) <= Count(es, CreatedAfter(b, now - RATE_WINDOW))
  {
    if xs != [] {
      CountMixed(Front(xs), Front(es), b, t, now);
      assert Last(xs).binding == Last(es).binding && Last(xs).at <= Last(es).created;
    }
  }

  lemma LimitedIngest(limits: Limits, s: Sys, b: string, env: Envelope, now: real)
    requires Consistent(s) && Limited(limits, s)
    ensures Limited(limits, DoIngest(limits, s, b, env, now))
  {
    var u := DoIngest(limits, s, b, env, now);
    var r := s.db.Ingest(limits, b, env, now).1;
    IngestEffect(s.db, limits, b, env, now);
    if r.Ok? && !r.value.duplicate {
      if !s.clockBack {
        forall c, t ensures Count(u.admitted, InWindow(c, t)) <= limits.rateLimit {
          WindowAfterIngest(limits, s, b, env, now, c, t);
        }
      }
      forall trace ensures Count(u.db.events, Traced(trace)) <= limits.traceLimit {
        CountAppend(s.db.events, s.db.NewEvent(b, env, now), Traced(trace));
        assert s.db.FreshRefusal(limits, b, env, now).None?;
      }
    }
  }

  /** Any step that takes nothing in keeps the bounds, as long as it moves no `created`
      below the true intake time unnoticed. */
  lemma LimitedKept(limits: Limits, s: Sys, t: Sys)
    requires Limited(limits, s)
    requires t.admitted == s.admitted && (s.clockBack ==> t.clockBack)
    requires |t.db.events| == |s.db.events|
    requires forall i | 0 <= i < |s.db.events| ::
      t.db.events[i].envelope == s.db.events[i].envelope && t.db.events[i].binding == s.db.events[i].binding
    requires !t.clockBack ==> forall i | 0 <= i < |s.db.events| && i < |s.admitted| ::
      t.db.events[i].created >= s.db.events[i].created || t.db.events[i].created >= s.admitted[i].at
    ensures Limited(limits, t)
  {
    forall trace ensures Count(t.db.events, Traced(trace)) <= limits.traceLimit {
      CountMonotone(t.db.events, s.db.events, Traced(trace), Traced(trace));
    }
  }

  lemma LimitedClaim(limits: Limits, s: Sys, now: real, age: real)
    requires Consistent(s) && Limited(limits, s)
    ensures Limited(limits, DoClaim(limits, s, now, age))
  {
    ClaimChanges(limits, s, now, age);
    LimitedKept(limits, s, DoClaim(limits, s, now, age));
  }

  lemma LimitedSettle(limits: Limits, s: Sys, outcome: Outcome, now: real)
    requires Consistent(s) && Limited(limits, s)
    ensures Limited(limits, DoSettle(limits, s, outcome, now))
  {
    var t := DoSettle(limits, s, outcome, now);
    SettleChanges(limits, s, outcome, now);
    LimitedKept(limits, s, t);
  }

  lemma LimitedResolve(limits: Limits, s: Sys, d: nat, verdict: Verdict, reason: string, now: real)
    requires Consistent(s) && Limited(limits, s)
    ensures Limited(limits, DoResolve(s, d, verdict, reason, now))
  {
    LimitedKept(limits, s, DoResolve(s, d, verdict, reason, now));
  }

  lemma LimitedStep(limits: Limits, s: Sys, a: Action)
    requires Consistent(s) && Limited(limits, s)
    ensures Limited(limits, Step(limits, s, a))
  {
    match a {
      case Ingest(b, env, now) => LimitedIngest(limits, s, b, env, now);
      case Claim(now, age) => LimitedClaim(limits, s, now, age);
      case Settle(outcome, now) => LimitedSettle(limits, s, outcome, now);
      case Resolve(d, verdict, reason, now) => LimitedResolve(limits, s, d, verdict, reason, now);
      case _ => LimitedElse(limits, s, a);
    }
  }

  lemma LimitedElse(limits: Limits, s: Sys, a: Action)
    requires Consistent(s) && Limited(limits, s)
    requires RouteOnly(a) || a.Write? || a.Arrive? || a.Vanish? || a.Crash?
    ensures Limited(limits, Step(limits, s, a))
  {
    var t := Step(limits, s, a);
    if RouteOnly(a) {
      RouteOnlyTables(limits, s, a);
      RouteOnlySteps(limits, s, a);
    }
    assert t.db.events == s.db.events && t.admitted == s.admitted && t.clockBack == s.clockBack;
    LimitedKept(limits, s, t);
  }

  lemma {:induction false} LimitedRun(limits: Limits, actions: seq<Action>)
    ensures Limited(limits, Run(limits, actions))
  {
    if actions == [] {
      forall trace ensures Count(INIT.db.events, Traced(trace)) == 0 {}
    } else {
      ConsistentRun(limits, Front(actions));
      LimitedRun(limits, Front(actions));
      LimitedStep(limits, Run(limits, Front(actions)), Last(actions));
    }
  }

  /** The main result. Intake stamps may come in any order; all that matters is that no
      resolution is stamped earlier than the intake of the event it resolves. */
  lemma RateBound(limits: Limits, actions: seq<Action>, b: string, t: real)
    requires !Run(limits, actions).clockBack
    ensures Count(Run(limits, actions).admitted, InWindow(b, t)) <= limits.rateLimit
  {
    LimitedRun(limits, actions);
  }

  // ----- a clock that never goes back

  /** No resolution is stamped earlier than an intake committed before it. Intakes may commit in
      another order than they read the clock. */
  predicate Monotone(actions: seq<Action>) {
    forall i, j | 0 <= i < j < |actions| && actions[i].Ingest? && actions[j].Resolve? ::
      actions[i].now <= actions[j].now
  }

  /** Every intake is stamped by t. */
  predicate TakenInBy(actions: seq<Action>, t: real) {
    forall i | 0 <= i < |actions| && actions[i].Ingest? :: actions[i].now <= t
  }

  predicate AdmittedBy(s: Sys, t: real) {
    forall k | 0 <= k < |s.admitted| :: s.admitted[k].at <= t
  }

  lemma AdmittedStep(limits: Limits, s: Sys, a: Action, t: real)
    requires AdmittedBy(s, t) && (a.Ingest? ==> a.now <= t)
    ensures AdmittedBy(Step(limits, s, a), t)
  {
    if RouteOnly(a) {
      RouteOnlyTables(limits, s, a);
    }
  }

  lemma {:induction false} AdmittedRun(limits: Limits, actions: seq<Action>, t: real)
    requires TakenInBy(actions, t)
    ensures AdmittedBy(Run(limits, actions), t)
  {
    if actions != [] {
      assert forall i | 0 <= i < |Front(actions)| :: Front(actions)[i] == actions[i];
      AdmittedRun(limits, Front(actions), t);
      AdmittedStep(limits, Run(limits, Front(actions)), Last(actions), t);
    }
  }

  lemma BackStep(limits: Limits, s: Sys, a: Action)
    requires !s.clockBack && (a.Resolve? ==> AdmittedBy(s, a.now))
    ensures !Step(limits, s, a).clockBack
  {
  }

  lemma {:induction false} NeverBack(limits: Limits, actions: seq<Action>)
    requires Monotone(actions)
    ensures !Run(limits, actions).clockBack
  {
    if actions != [] {
      var front, a := Front(actions), Last(actions);
      assert forall i | 0 <= i < |front| :: front[i] == actions[i];
      NeverBack(limits, front);
      if a.Resolve? {
        assert TakenInBy(front, a.now);
        AdmittedRun(limits, front, a.now);
      }
      BackStep(limits, Run(limits, front), a);
    }
  }

  /** The main result with a monotone clock: every window of the true intake times holds at
      most `rateLimit` new events of a binding. */
  lemma MonotoneRateBound(limits: Limits, actions: seq<Action>, b: string, t: real)
    requires Monotone(actions)
    ensures Count(Run(limits, actions).admitted, InWindow(b, t)) <= limits.rateLimit
  {
    NeverBack(limits, actions);
    RateBound(limits, actions, b, t);
  }

  /** The main result on traces: over the whole history at most `traceLimit` events carry one
      trace id. */
  lemma TraceBound(limits: Limits, actions: seq<Action>, trace: string)
    ensures Count(Run(limits, actions).db.events, Traced(trace)) <= limits.traceLimit
  {
    LimitedRun(limits, actions);
  }
}
