/** Per-binding order: over every run, the native submissions of one binding are made in
    inbox order, whatever back-off, pauses, doubts and crashes come between. The one thing
    that can break it is replaying a dead delivery behind a later submission. */
module Ordering {
  import opened Sequences
  import opened Errors
  import opened Envelopes
  import opened Inbox
  import opened Delivery

  /** Nothing of the same binding before a submitted delivery can be dispatched any more. */
  ghost predicate Passed(s: Sys) {
    forall k, e | 0 <= k < |s.calls| && 0 <= e < s.calls[k].delivery < |s.db.events|
                  && s.db.events[e].binding == s.db.events[s.calls[k].delivery].binding ::
      !s.db.events[e].Active()
  }

  /** The submissions of each binding are in nondecreasing inbox order. */
  ghost predicate InOrder(s: Sys) {
    forall j, k | 0 <= j < k < |s.calls| && SameBinding(s, j, k) ::
      s.calls[j].delivery <= s.calls[k].delivery
  }

  ghost predicate SameBinding(s: Sys, j: nat, k: nat)
    requires j < |s.calls| && k < |s.calls|
  {
    && s.calls[j].delivery < |s.db.events|
    && s.calls[k].delivery < |s.db.events|
    && s.db.events[s.calls[j].delivery].binding == s.db.events[s.calls[k].delivery].binding
  }

  ghost predicate Ordered(s: Sys) {
    s.lateReplay || (Passed(s) && InOrder(s))
  }

  lemma OrderedIngest(limits: Limits, s: Sys, b: string, env: Envelope, now: real)
    requires Consistent(s) && Ordered(s)
    ensures Ordered(DoIngest(limits, s, b, env, now))
  {
    IngestEffect(s.db, limits, b, env, now);
    var t := DoIngest(limits, s, b, env, now);
    assert forall j, k | 0 <= j < k < |s.calls| :: SameBinding(t, j, k) == SameBinding(s, j, k);
  }

  lemma OrderedResolve(s: Sys, d: nat, verdict: Verdict, reason: string, now: real)
    requires Consistent(s) && Ordered(s)
    ensures Ordered(DoResolve(s, d, verdict, reason, now))
  {
    var t := DoResolve(s, d, verdict, reason, now);
    assert forall j, k | 0 <= j < k < |s.calls| :: SameBinding(t, j, k) == SameBinding(s, j, k);
  }

  /** Changes that move no row to another binding and make none active keep the order. */
  lemma NothingRevived(s: Sys, t: Sys)
    requires Passed(s) && InOrder(s)
    requires |t.db.events| == |s.db.events| && |t.calls| == |s.calls|
    requires forall i | 0 <= i < |s.db.events| ::
      && t.db.events[i].binding == s.db.events[i].binding
      && (t.db.events[i].Active() ==> s.db.events[i].Active())
    requires forall k | 0 <= k < |s.calls| :: t.calls[k].delivery == s.calls[k].delivery
    ensures Passed(t) && InOrder(t)
  {
    assert forall j, k | 0 <= j < k < |s.calls| :: SameBinding(t, j, k) == SameBinding(s, j, k);
  }

  lemma ClaimOrdered(s: Sys, t: Sys, r: ClaimResult)
    requires Consistent(s) && Passed(s) && InOrder(s) && ClaimChange(s, t, r)
    requires r.Claimed? && !r.job.reconciling ==> Earliest(s, r.job.delivery)
    ensures Passed(t) && InOrder(t)
  {
    if r.Claimed? && !r.job.reconciling {
      assert forall j, k | 0 <= j < k < |s.calls| :: SameBinding(t, j, k) == SameBinding(s, j, k);
    } else {
      NothingRevived(s, t);
    }
  }

  /** Active, and nothing of its binding before it is. */
  ghost predicate Earliest(s: Sys, d: nat) {
    && d < |s.db.events| && s.db.events[d].Active()
    && forall e | 0 <= e < d && s.db.events[e].binding == s.db.events[d].binding :: !s.db.events[e].Active()
  }

  lemma OrderedClaim(limits: Limits, s: Sys, now: real, age: real)
    requires Consistent(s) && Ordered(s)
    ensures Ordered(DoClaim(limits, s, now, age))
  {
    var r := if s.job.Some? then Idle else s.db.Claim(limits, now, age).1;
    ClaimChanges(limits, s, now, age);
    if !s.lateReplay {
      if r.Claimed? {
        ClaimedIsFirst(limits, s, now, age);
      }
      ClaimOrdered(s, DoClaim(limits, s, now, age), r);
    }
  }

  /** The dispatch query passes over nothing active on the binding it picks. */
  lemma ClaimedIsFirst(limits: Limits, s: Sys, now: real, age: real)
    requires s.db.Claim(limits, now, age).1.Claimed?
    ensures var d := s.db.Claim(limits, now, age).1.job.delivery;
      d < |s.db.events| && s.db.events[d].Active()
      && forall e | 0 <= e < d && s.db.events[e].binding == s.db.events[d].binding :: !s.db.events[e].Active()
  {
  }

  lemma OrderedSettle(limits: Limits, s: Sys, outcome: Outcome, now: real)
    requires Consistent(s) && Ordered(s)
    ensures Ordered(DoSettle(limits, s, outcome, now))
  {
    var t := DoSettle(limits, s, outcome, now);
    SettleChanges(limits, s, outcome, now);
    if !s.lateReplay && t != s {
      SettleOrdered(limits, s, t, outcome);
    }
  }

  lemma SettleOrdered(limits: Limits, s: Sys, t: Sys, outcome: Outcome)
    requires Consistent(s) && Passed(s) && InOrder(s) && SettleChange(limits, s, t, outcome)
    ensures Passed(t) && InOrder(t)
  {
    NothingRevived(s, t);
  }

  lemma OrderedFate(s: Sys, k: nat, from: Fate, to: Fate)
    requires Ordered(s)
    ensures Ordered(SetFate(s, k, from, to))
  {
    var t := SetFate(s, k, from, to);
    assert forall j | 0 <= j < |s.calls| :: t.calls[j].delivery == s.calls[j].delivery;
    assert forall i, j | 0 <= i < j < |s.calls| :: SameBinding(t, i, j) == SameBinding(s, i, j);
  }

  lemma OrderedStep(limits: Limits, s: Sys, a: Action)
    requires Consistent(s) && Ordered(s)
    ensures Ordered(Step(limits, s, a))
  {
    hide Consistent, Ordered, DoIngest, DoResolve, DoClaim, DoSettle, SetFate;
    match a {
      case Ingest(b, env, now) => OrderedIngest(limits, s, b, env, now);
      case Resolve(d, verdict, reason, now) => OrderedResolve(s, d, verdict, reason, now);
      case Claim(now, age) => OrderedClaim(limits, s, now, age);
      case Settle(outcome, now) => OrderedSettle(limits, s, outcome, now);
      case Write(k) => OrderedFate(s, k, Unsent, OnWire);
      case Arrive(k) => OrderedFate(s, k, OnWire, Queued);
      case Vanish(k) => OrderedFate(s, k, OnWire, Refused);
      case Crash => OrderedCrash(s);
      case _ => OrderedRoute(limits, s, a);
    }
  }

  lemma OrderedCrash(s: Sys)
    requires Ordered(s)
    ensures Ordered(s.(job := None))
  {
  }

  lemma OrderedRoute(limits: Limits, s: Sys, a: Action)
    requires Consistent(s) && Ordered(s) && RouteOnly(a)
    ensures Ordered(Step(limits, s, a))
  {
    RouteOnlySteps(limits, s, a);
    var t := Step(limits, s, a);
    assert forall j, k | 0 <= j < k < |s.calls| :: SameBinding(t, j, k) == SameBinding(s, j, k);
  }

  lemma {:induction false} OrderedRun(limits: Limits, actions: seq<Action>)
    ensures Ordered(Run(limits, actions))
  {
    if actions != [] {
      ConsistentRun(limits, Front(actions));
      OrderedRun(limits, Front(actions));
      OrderedStep(limits, Run(limits, Front(actions)), Last(actions));
    }
  }

  /** The main result. The condition is one an operator can check before a replay: that no
      later delivery of the binding has been submitted. Replays of uncertain deliveries need
      no care. */
  lemma SubmissionsInOrder(limits: Limits, actions: seq<Action>)
    requires !Run(limits, actions).lateReplay
    ensures InOrder(Run(limits, actions))
  {
    OrderedRun(limits, actions);
  }

  /** The condition is exact: a submission of d breaks the order if and only if d was
      overtaken, which after SubmissionsInOrder only a late replay can bring about. */
  lemma BrokenExactlyByOvertaking(limits: Limits, s: Sys, now: real, age: real)
    requires Consistent(s) && InOrder(s) && s.job.None?
    requires var r := s.db.Claim(limits, now, age).1; r.Claimed? && !r.job.reconciling
    ensures var d := s.db.Claim(limits, now, age).1.job.delivery;
      d < |s.db.events| && (InOrder(DoClaim(limits, s, now, age)) <==> !Overtaken(s, d))
  {
    var t := DoClaim(limits, s, now, age);
    var d := s.db.Claim(limits, now, age).1.job.delivery;
    ClaimEffect(s.db, limits, now, age);
    assert forall i | 0 <= i < |s.db.events| :: t.db.events[i].binding == s.db.events[i].binding;
    assert forall j, k | 0 <= j < k < |s.calls| :: SameBinding(t, j, k) == SameBinding(s, j, k);
    if k :| 0 <= k < |s.calls| && d < s.calls[k].delivery < |s.db.events|
            && s.db.events[s.calls[k].delivery].binding == s.db.events[d].binding {
      assert SameBinding(t, k, |s.calls|);
    }
  }
}
