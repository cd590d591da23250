/** What the composition of engine, session and connections promises: submission and message
    always agree, the engine's assumption that deliveries report honestly is a fact, and the
    hand-off is at most once from end to end. */
module EndToEnd {
  import opened Sequences
  import opened Errors
  import opened Inbox
  import opened Delivery
  import opened Pipeline
  import HandOff
  import Session
  import T = Transport

  lemma WireLinked(limits: Limits, p: Plant, conn: nat, move: T.Action)
    requires Linked(p)
    ensures Linked(Done(limits, p, Wire(conn, move)))
  {
    var t := Done(limits, p, Wire(conn, move));
    if conn < |p.conns| {
      forall x, c | 0 <= x < |t.conns| ensures T.Tracked(t.conns[x], c) {
        if x == conn {
          T.TrackedStep(p.conns[conn], move, c);
        } else {
          assert T.Tracked(p.conns[x], c);
        }
      }
      WireCalls(limits, p, conn, move);
      forall k | 0 <= k < |t.links| ensures Agrees(t, k) {
        WireMoves(limits, p, conn, move, k);
      }
      if Deed(p, Wire(conn, move)).Some? {
        ConsistentStep(limits, p.sys, Deed(p, Wire(conn, move)).value);
      }
    }
  }

  /** The engine is never told anything it would have to assume: each report of a delivery is
      honest, and so is booked. */
  lemma ReportIsBooked(p: Plant, outcome: Outcome)
    requires Linked(p) && Delivering(p)
    requires (exists shaped :: Report(p, shaped) == Some(outcome))
          || (exists end, good :: CheckReport(p, end, good) == Some(outcome))
    ensures MayReport(p.sys, p.sys.job.value, outcome)
  {
    var k := |p.links| - 1;
    assert Agrees(p, k);
    if shaped :| Report(p, shaped) == Some(outcome) {
      var l := Current(p).value;
      assert T.Tracked(p.conns[l.conn], l.call);
      EndingIsHonest(p.conns[l.conn], l.call, shaped);
    } else {
      var end, good :| CheckReport(p, end, good) == Some(outcome);
      Session.TargetCheckIsHonest(end, good);
    }
  }

  /** Nor of a reconciliation: what it finds on a page is in the queue or the history. */
  lemma FindingIsBooked(p: Plant, page: Session.Reply)
    requires Linked(p) && Evident(p, page)
    ensures MayReport(p.sys, p.sys.job.value, Delivered)
  {
    var k :| k in QueuedMessages(p, p.sys.job.value.delivery);
    assert Agrees(p, k);
    assert QueuedFor(p.sys.job.value.delivery)(p.sys.calls[k]);
  }

  /** A booked report of a delivery ends its submission and touches no message. */
  lemma SettledCalls(limits: Limits, p: Plant, outcome: Outcome, now: real)
    requires Linked(p) && Delivering(p) && MayReport(p.sys, p.sys.job.value, outcome)
    ensures Delivery.Step(limits, p.sys, Settle(outcome, now)).calls
         == p.sys.calls[|p.sys.calls| - 1 := Last(p.sys.calls).(ended := Some(outcome))]
  {
  }

  lemma SettleLinked(limits: Limits, p: Plant, a: Pipeline.Step)
    requires Linked(p) && (a.CheckFailed? || a.Ended?)
    ensures Linked(Done(limits, p, a))
  {
    hide Delivery.Consistent, Delivery.Step, T.Tracked;
    var t := Done(limits, p, a);
    if Deed(p, a).Some? {
      var deed := Deed(p, a).value;
      ReportIsBooked(p, deed.outcome);
      ConsistentStep(limits, p.sys, deed);
      SettledCalls(limits, p, deed.outcome, deed.now);
      assert t.conns == p.conns && t.links == p.links;
      forall k | 0 <= k < |t.links| ensures Agrees(t, k) {
        assert Agrees(p, k);
      }
    }
  }

  lemma LinkedStep(limits: Limits, p: Plant, a: Pipeline.Step)
    requires Linked(p)
    ensures Linked(Done(limits, p, a))
  {
    match a {
      case Engine(_) => EngineLinked(limits, p, a);
      case Reconciled(_, _) => EngineLinked(limits, p, a);
      case Connect => ConnectLinked(limits, p);
      case Submit(conn, positive) => SubmitLinked(limits, p, conn, positive);
      case Wire(conn, move) => WireLinked(limits, p, conn, move);
      case _ => SettleLinked(limits, p, a);
    }
  }

  lemma ConnectLinked(limits: Limits, p: Plant)
    requires Linked(p)
    ensures Linked(Done(limits, p, Connect))
  {
    var t := Done(limits, p, Connect);
    T.TrackedRun([]);
    forall k | 0 <= k < |t.links| ensures Agrees(t, k) {
      assert Agrees(p, k);
    }
  }

  lemma {:induction false} LinkedRun(limits: Limits, steps: seq<Pipeline.Step>)
    ensures Linked(Pipeline.Run(limits, steps))
  {
    if steps != [] {
      LinkedRun(limits, Front(steps));
      LinkedStep(limits, Pipeline.Run(limits, Front(steps)), Last(steps));
    }
  }

  /** What the steps are to the engine. */
  function Deeds(limits: Limits, steps: seq<Pipeline.Step>): seq<Delivery.Action> {
    if steps == [] then []
    else
      var deed := Deed(Pipeline.Run(limits, Front(steps)), Last(steps));
      Deeds(limits, Front(steps)) + if deed.Some? then [deed.value] else []
  }

  lemma {:induction false} EngineOfRun(limits: Limits, steps: seq<Pipeline.Step>)
    ensures Pipeline.Run(limits, steps).sys == Delivery.Run(limits, Deeds(limits, steps))
  {
    if steps != [] {
      EngineOfRun(limits, Front(steps));
      var before, deed := Deeds(limits, Front(steps)), Deed(Pipeline.Run(limits, Front(steps)), Last(steps));
      if deed.Some? {
        assert Front(before + [deed.value]) == before;
      } else {
        assert before + [] == before;
      }
    }
  }

  /** The positions at which p holds, as many as Count counts. */
  function Positions(calls: seq<Call>, p: Call -> bool): (positions: set<nat>)
    ensures forall k: nat :: k in positions <==> k < |calls| && p(calls[k])
    ensures |positions| == Count(calls, p)
  {
    if calls == [] then {}
    else
      var front := Positions(Front(calls), p);
      assert forall k | 0 <= k < |calls| - 1 :: Front(calls)[k] == calls[k];
      assert |calls| - 1 !in front;
      if p(Last(calls)) then front + {|calls| - 1} else front
  }

  /** A submission counts as queued exactly when its message is. */
  lemma QueuedAlike(p: Plant, d: nat)
    requires Linked(p)
    ensures |QueuedMessages(p, d)| == Count(p.sys.calls, QueuedFor(d))
  {
    var counted := Positions(p.sys.calls, QueuedFor(d));
    forall k: nat ensures k in QueuedMessages(p, d) <==> k in counted {
      if k < |p.links| {
        assert Agrees(p, k);
      }
    }
    assert QueuedMessages(p, d) == counted;
  }

  /** The main result end to end: over engine, session and connections together, with every
      thread, crash, late write and answer of the server interleaved, the queue/add calls for
      one delivery put its message into the native queue at most once, and once more for each
      replay the operator made while it was uncertain. */
  lemma AtMostOnceEndToEnd(limits: Limits, steps: seq<Pipeline.Step>, d: nat)
    ensures var p := Pipeline.Run(limits, steps);
      && |QueuedMessages(p, d)| <= 1 + Count(p.sys.doubts, Is(d))
      && Count(p.sys.doubts, Is(d)) <= Count(p.sys.db.decisions, HandOff.ReplayOf(d))
  {
    LinkedRun(limits, steps);
    EngineOfRun(limits, steps);
    HandOff.AtMostOnce(limits, Deeds(limits, steps), d);
    QueuedAlike(Pipeline.Run(limits, steps), d);
  }

  /** And what is marked accepted is in the native queue or its history, or the operator said
      so: for a delivery by its receipt, for a reconciliation by a page that shows it. */
  lemma AcceptedIsGroundedEndToEnd(limits: Limits, steps: seq<Pipeline.Step>, d: nat)
    requires var p := Pipeline.Run(limits, steps); d < |p.sys.db.events| && p.sys.db.events[d].state.Accepted?
    ensures var p := Pipeline.Run(limits, steps);
      QueuedMessages(p, d) != {} || Decision(d, Accept) in p.sys.db.decisions
  {
    var p := Pipeline.Run(limits, steps);
    LinkedRun(limits, steps);
    EngineOfRun(limits, steps);
    HandOff.AcceptedIsGrounded(limits, Deeds(limits, steps), d);
    if k :| 0 <= k < |p.sys.calls| && QueuedFor(d)(p.sys.calls[k]) {
      assert Agrees(p, k);
      assert k in QueuedMessages(p, d);
    }
  }
}
