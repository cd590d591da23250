/** Reconciliation goes where the message went: while the fate of a delivery is in doubt, its
    route still leads to the thread and endpoint of its last `deliver` call, whatever
    rebinding, pausing or removing happens around an in-flight dispatch. */
module Routing {
  import opened Sequences
  import opened Errors
  import opened Envelopes
  import opened Inbox
  import opened Delivery

  /** The last call for delivery d, if any, went to this thread and endpoint. */
  ghost predicate LastWentTo(calls: seq<Call>, d: nat, thread: string, endpoint: string) {
    if calls == [] then false
    else if Last(calls).delivery == d then Last(calls).thread == thread && Last(calls).endpoint == endpoint
    else LastWentTo(Front(calls), d, thread, endpoint)
  }

  lemma {:induction false} LastWentToUpdate(calls: seq<Call>, k: nat, c: Call, d: nat, thread: string, endpoint: string)
    requires k < |calls|
    requires c.delivery == calls[k].delivery && c.thread == calls[k].thread && c.endpoint == calls[k].endpoint
    ensures LastWentTo(calls[k := c], d, thread, endpoint) == LastWentTo(calls, d, thread, endpoint)
  {
    if k == |calls| - 1 {
      assert Front(calls[k := c]) == Front(calls);
    } else {
      assert Front(calls[k := c]) == Front(calls)[k := c];
      LastWentToUpdate(Front(calls), k, c, d, thread, endpoint);
    }
  }

  ghost predicate Routed(s: Sys, d: nat) {
    d < |s.db.events| && s.db.events[d].InDoubt() && s.db.events[d].binding in s.db.bindings ==>
      var route := s.db.bindings[s.db.events[d].binding];
      LastWentTo(s.calls, d, route.thread, route.endpoint)
  }

  lemma ClaimRouted(s: Sys, t: Sys, r: ClaimResult, d: nat)
    requires Consistent(s) && Consistent(t) && Routed(s, d) && ClaimChange(s, t, r)
    ensures Routed(t, d)
  {
    if r.Claimed? && !r.job.reconciling {
      assert Front(t.calls) == s.calls;
    }
  }

  lemma RoutedClaim(limits: Limits, s: Sys, now: real, age: real, d: nat)
    requires Consistent(s) && Routed(s, d)
    ensures Routed(DoClaim(limits, s, now, age), d)
  {
    var r := if s.job.Some? then Idle else s.db.Claim(limits, now, age).1;
    ClaimChanges(limits, s, now, age);
    ConsistentClaim(limits, s, now, age);
    ClaimRouted(s, DoClaim(limits, s, now, age), r, d);
  }

  lemma SettleRouted(limits: Limits, s: Sys, t: Sys, outcome: Outcome, d: nat)
    requires Consistent(s) && Routed(s, d) && SettleChange(limits, s, t, outcome)
    ensures Routed(t, d)
  {
    if d < |s.db.events| && s.db.events[d].binding in s.db.bindings && !s.job.value.reconciling {
      var route := s.db.bindings[s.db.events[d].binding];
      LastWentToUpdate(s.calls, |s.calls| - 1, Last(t.calls), d, route.thread, route.endpoint);
    }
  }

  lemma RoutedSettle(limits: Limits, s: Sys, outcome: Outcome, now: real, d: nat)
    requires Consistent(s) && Routed(s, d)
    ensures Routed(DoSettle(limits, s, outcome, now), d)
  {
    var t := DoSettle(limits, s, outcome, now);
    SettleChanges(limits, s, outcome, now);
    if t != s {
      SettleRouted(limits, s, t, outcome, d);
    }
  }

  lemma RoutedFate(s: Sys, k: nat, from: Fate, to: Fate, d: nat)
    requires Routed(s, d)
    ensures Routed(SetFate(s, k, from, to), d)
  {
    if k < |s.calls| && d < |s.db.events| && s.db.events[d].binding in s.db.bindings {
      var route := s.db.bindings[s.db.events[d].binding];
      LastWentToUpdate(s.calls, k, s.calls[k].(fate := to), d, route.thread, route.endpoint);
    }
  }

  lemma RoutedIngest(limits: Limits, s: Sys, b: string, env: Envelope, now: real, d: nat)
    requires Consistent(s) && Routed(s, d)
    ensures Routed(DoIngest(limits, s, b, env, now), d)
  {
    IngestEffect(s.db, limits, b, env, now);
  }

  lemma RoutedResolve(s: Sys, e: nat, verdict: Verdict, reason: string, now: real, d: nat)
    requires Consistent(s) && Routed(s, d)
    ensures Routed(DoResolve(s, e, verdict, reason, now), d)
  {
  }

  lemma RoutedRoute(limits: Limits, s: Sys, a: Action, d: nat)
    requires Consistent(s) && Routed(s, d) && RouteOnly(a)
    ensures Routed(Step(limits, s, a), d)
  {
    RouteOnlySteps(limits, s, a);
  }

  lemma RoutedStep(limits: Limits, s: Sys, a: Action, d: nat)
    requires Consistent(s) && Routed(s, d)
    ensures Routed(Step(limits, s, a), d)
  {
    match a {
      case Ingest(b, env, now) => RoutedIngest(limits, s, b, env, now, d);
      case Resolve(e, verdict, reason, now) => RoutedResolve(s, e, verdict, reason, now, d);
      case Claim(now, age) => RoutedClaim(limits, s, now, age, d);
      case Settle(outcome, now) => RoutedSettle(limits, s, outcome, now, d);
      case Write(k) => RoutedFate(s, k, Unsent, OnWire, d);
      case Arrive(k) => RoutedFate(s, k, OnWire, Queued, d);
      case Vanish(k) => RoutedFate(s, k, OnWire, Refused, d);
      case Crash =>
      case _ => RoutedRoute(limits, s, a, d);
    }
  }

  lemma {:induction false} RoutedRun(limits: Limits, actions: seq<Action>, d: nat)
    ensures Routed(Run(limits, actions), d)
  {
    if actions != [] {
      ConsistentRun(limits, Front(actions));
      RoutedRun(limits, Front(actions), d);
      RoutedStep(limits, Run(limits, Front(actions)), Last(actions), d);
    }
  }

  /** The main result: in every reachable state, an event in doubt is routed to where its
      message was sent, and a claimed reconciliation asks exactly there. */
  lemma ReconcilesWhereItWent(limits: Limits, actions: seq<Action>, d: nat)
    ensures var s := Run(limits, actions);
      && (d < |s.db.events| && s.db.events[d].InDoubt() ==>
            && s.db.events[d].binding in s.db.bindings
            && var route := s.db.bindings[s.db.events[d].binding];
               LastWentTo(s.calls, d, route.thread, route.endpoint))
      && (s.job.Some? && s.job.value.reconciling ==>
            LastWentTo(s.calls, s.job.value.delivery, s.job.value.thread, s.job.value.endpoint))
  {
    var s := Run(limits, actions);
    ConsistentRun(limits, actions);
    RoutedRun(limits, actions, d);
    if s.job.Some? {
      RoutedRun(limits, actions, s.job.value.delivery);
    }
  }
}
