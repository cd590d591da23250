/** The delivery engine on top of real connections. A submission of the engine is a queue/add
    call of a transport; what becomes of its message is what becomes of that call, and what
    `deliver` reports is what the call's ending makes it report. */
module Pipeline {
  import opened Sequences
  import opened Errors
  import opened Inbox
  import opened Delivery
  import Session
  import T = Transport

  /** Where the message of a submission is handled. */
  datatype Link = Link(conn: nat, call: nat)

  /** `links` gives, for each of the engine's submissions, the transport call it has led to. */
  datatype Plant = Plant(sys: Sys, conns: seq<T.Rpc>, links: seq<Option<Link>>)

  datatype Step =
    | Engine(a: Delivery.Action)                          // anything but what follows
    | Connect
    | Submit(conn: nat, positive: bool)                   // the target check passed: queue/add is called
    | Wire(conn: nat, move: T.Action)                     // anything that happens on a connection
    | CheckFailed(end: T.End, good: bool, now: real)      // the target check ended the delivery
    | Ended(shaped: bool, now: real)                      // the queue/add call has ended
    | Reconciled(page: Session.Reply, now: real)          // a page of the peer's lists shows the message

  const INIT := Plant(Delivery.INIT, [], [])

  predicate Delivering(p: Plant) {
    p.sys.job.Some? && !p.sys.job.value.reconciling && p.sys.calls != [] && |p.links| == |p.sys.calls|
  }

  /** The transport call of the submission under way. */
  function Current(p: Plant): Option<Link>
    requires Delivering(p)
  {
    Last(p.links)
  }

  predicate Wired(p: Plant, l: Link) {
    l.conn < |p.conns| && l.call < |p.conns[l.conn].calls|
  }

  function CallOf(p: Plant, l: Link): T.Call
    requires Wired(p, l)
  {
    p.conns[l.conn].calls[l.call]
  }

  /** The messages for a delivery that are in the native queue. */
  function QueuedMessages(p: Plant, d: nat): set<nat> {
    set k: nat | 0 <= k < |p.links| && k < |p.sys.calls| && p.sys.calls[k].delivery == d
            && p.links[k].Some? && Wired(p, p.links[k].value) && CallOf(p, p.links[k].value).fate.Queued?
  }

  /** The call whose message a transport step moves. */
  function Touched(r: T.Rpc, move: T.Action): Option<nat> {
    if move.Writing? && move.step.Write? && r.writer.Cleared? && r.writer.call < |r.calls| then Some(r.writer.call)
    else if move.Peer? && move.about < |r.calls| then Some(move.about)
    else None
  }

  /** The submission that led to a transport call. */
  function Source(links: seq<Option<Link>>, l: Link): (k: Option<nat>)
    ensures k.Some? ==> k.value < |links| && links[k.value] == Some(l)
    ensures k.None? ==> forall i | 0 <= i < |links| :: links[i] != Some(l)
  {
    if links == [] then None
    else if Last(links) == Some(l) then Some(|links| - 1)
    else Source(Front(links), l)
  }

  /** The engine's action for a message that moved. */
  function MoveOf(k: nat, before: Fate, after: Fate): Option<Delivery.Action> {
    if before == after then None
    else match after
         case Unsent => None
         case OnWire => Some(Write(k))
         case Queued => Some(Arrive(k))
         case Refused => Some(Vanish(k))
  }

  function WireDeed(p: Plant, conn: nat, move: T.Action): Option<Delivery.Action> {
    if conn >= |p.conns| then None
    else
      var r := p.conns[conn];
      var c := Touched(r, move);
      if c.None? || c.value >= |T.Step(r, move).calls| then None
      else
        var k := Source(p.links, Link(conn, c.value));
        if k.None? then None else MoveOf(k.value, r.calls[c.value].fate, T.Step(r, move).calls[c.value].fate)
  }

  /** How `deliver` ends, if it has ended. */
  function Report(p: Plant, shaped: bool): Option<Outcome> {
    if !Delivering(p) || Current(p).None? || !Wired(p, Current(p).value) then None
    else
      var stage := CallOf(p, Current(p).value).stage;
      if stage.Ended? then Some(Session.SubmissionOutcome(stage.end, shaped)) else None
  }

  function CheckReport(p: Plant, end: T.End, good: bool): Option<Outcome> {
    if !Delivering(p) || Current(p).Some? then None else Session.TargetCheck(end, good)
  }

  /** A reconciliation has come to a page that carries the client id. The peer's lists are
      honest: they show what is in its queue or history. */
  predicate Evident(p: Plant, page: Session.Reply) {
    && p.sys.job.Some? && p.sys.job.value.reconciling
    && Session.PageCarries(page, p.sys.job.value.delivery)
    && QueuedMessages(p, p.sys.job.value.delivery) != {}
  }

  /** What a step is to the engine. */
  function Deed(p: Plant, a: Step): Option<Delivery.Action> {
    match a
    case Engine(e) =>
      if e.Write? || e.Arrive? || e.Vanish? || (e.Settle? && (Delivering(p) || e.outcome.Delivered?)) then None
      else Some(e)
    case Connect => None
    case Submit(_, _) => None
    case Wire(conn, move) => WireDeed(p, conn, move)
    case CheckFailed(end, good, now) =>
      var outcome := CheckReport(p, end, good);
      if outcome.Some? then Some(Settle(outcome.value, now)) else None
    case Ended(shaped, now) =>
      var outcome := Report(p, shaped);
      if outcome.Some? then Some(Settle(outcome.value, now)) else None
    case Reconciled(page, now) => if Evident(p, page) then Some(Settle(Delivered, now)) else None
  }

  /** New submissions have led to no call yet. */
  function Longer(links: seq<Option<Link>>, n: nat): seq<Option<Link>> {
    if n <= |links| then links else links + seq(n - |links|, _ => None)
  }

  function Connections(p: Plant, a: Step): seq<T.Rpc> {
    match a
    case Connect => p.conns + [T.INIT]
    case Submit(conn, positive) =>
      if conn < |p.conns| && Delivering(p) && Current(p).None?
      then p.conns[conn := T.Step(p.conns[conn], T.Begin(positive))] else p.conns
    case Wire(conn, move) => if conn < |p.conns| then p.conns[conn := T.Step(p.conns[conn], move)] else p.conns
    case _ => p.conns
  }

  function Links(p: Plant, a: Step): seq<Option<Link>> {
    match a
    case Submit(conn, _) =>
      if conn < |p.conns| && Delivering(p) && Current(p).None?
      then p.links[|p.links| - 1 := Some(Link(conn, |p.conns[conn].calls|))] else p.links
    case _ => p.links
  }

  function Done(limits: Limits, p: Plant, a: Step): Plant {
    var deed := Deed(p, a);
    var sys := if deed.Some? then Delivery.Step(limits, p.sys, deed.value) else p.sys;
    Plant(sys, Connections(p, a), Longer(Links(p, a), |sys.calls|))
  }

  function Run(limits: Limits, steps: seq<Step>): Plant {
    if steps == [] then INIT else Done(limits, Run(limits, Front(steps)), Last(steps))
  }

  // ----- message and submission agree

  /** A submission and its call: the message is where the call says, and what the engine was
      told is what the call's ending tells. */
  ghost predicate Agrees(p: Plant, k: nat)
    requires k < |p.sys.calls| && |p.links| == |p.sys.calls|
  {
    match p.links[k]
    case None => p.sys.calls[k].fate.Unsent?
    case Some(l) =>
      && Wired(p, l)
      && p.sys.calls[k].fate == CallOf(p, l).fate
      && (p.sys.calls[k].ended.Some? ==>
            CallOf(p, l).stage.Ended?
            && exists shaped :: p.sys.calls[k].ended.value == Session.SubmissionOutcome(CallOf(p, l).stage.end, shaped))
  }

  ghost predicate Linked(p: Plant) {
    && Consistent(p.sys)
    && |p.links| == |p.sys.calls|
    && (forall conn, c | 0 <= conn < |p.conns| :: T.Tracked(p.conns[conn], c))
    && (forall k | 0 <= k < |p.links| :: Agrees(p, k))
    && (forall j, k | 0 <= j < k < |p.links| && p.links[j].Some? :: p.links[j] != p.links[k])
  }

  /** What `deliver` makes of its call's ending keeps the error contract. */
  lemma EndingIsHonest(r: T.Rpc, c: nat, shaped: bool)
    requires c < |r.calls| && T.Tracked(r, c) && r.calls[c].stage.Ended?
    ensures Honest(Session.SubmissionOutcome(r.calls[c].stage.end, shaped), r.calls[c].fate)
  {
  }

  /** A transport step moves no message but the one it touches, and ends no call twice. */
  lemma StepMoves(r: T.Rpc, move: T.Action, c: nat)
    requires c < |r.calls|
    ensures c < |T.Step(r, move).calls|
    ensures Touched(r, move) != Some(c) ==> T.Step(r, move).calls[c].fate == r.calls[c].fate
    ensures r.calls[c].stage.Ended? ==> T.Step(r, move).calls[c].stage == r.calls[c].stage
  {
    if r.calls[c].stage.Ended? {
      T.EndedStep(r, move, c);
    }
    CountsKept(r, move, c);
  }

  lemma CallerKeepsFates(r: T.Rpc, d: nat, move: T.CallerMove, c: nat)
    requires c < |r.calls| && d < |r.calls|
    ensures var t := T.CallerStep(r, d, move); c < |t.calls| && t.calls[c].fate == r.calls[c].fate
  {
  }

  lemma WriterKeepsFates(r: T.Rpc, move: T.WriterMove, c: nat)
    requires c < |r.calls|
    ensures var t := T.WriterStep(r, move);
      c < |t.calls| && (Touched(r, T.Writing(move)) != Some(c) ==> t.calls[c].fate == r.calls[c].fate)
  {
  }

  lemma CountsKept(r: T.Rpc, move: T.Action, c: nat)
    requires c < |r.calls|
    ensures c < |T.Step(r, move).calls|
    ensures Touched(r, move) != Some(c) ==> T.Step(r, move).calls[c].fate == r.calls[c].fate
  {
    match move {
      case Caller(d, m) =>
        if d < |r.calls| {
          CallerKeepsFates(r, d, m, c);
        }
      case Writing(m) => WriterKeepsFates(r, m, c);
      case _ =>
    }
  }

  /** How a message may move, and that one whose caller was told it is gone does not. */
  lemma TouchedMoves(r: T.Rpc, move: T.Action, c: nat, shaped: bool)
    requires Touched(r, move) == Some(c) && T.Tracked(r, c)
    ensures c < |r.calls| && c < |T.Step(r, move).calls|
    ensures var before, after := r.calls[c].fate, T.Step(r, move).calls[c].fate;
      && (after == before || (before.Unsent? && after.OnWire?) || (before.OnWire? && (after.Queued? || after.Refused?)))
      && (r.calls[c].stage.Ended? && before.Unsent? && after.OnWire? ==>
            !(Session.SubmissionOutcome(r.calls[c].stage.end, shaped) in {Unavailable, Retryable, Permanent}))
  {
  }

  lemma EngineLinked(limits: Limits, p: Plant, a: Step)
    requires Linked(p) && (a.Engine? || a.Reconciled?)
    ensures Linked(Done(limits, p, a))
  {
    var t := Done(limits, p, a);
    if Deed(p, a).Some? {
      ConsistentStep(limits, p.sys, Deed(p, a).value);
      EngineCalls(limits, p.sys, Deed(p, a).value);
      forall k | 0 <= k < |t.links| ensures Agrees(t, k) {
        if k < |p.links| {
          assert Agrees(p, k);
        }
      }
    } else {
      SamePlant(p, t);
    }
  }

  lemma SamePlant(p: Plant, t: Plant)
    requires Linked(p) && t == p
    ensures Linked(t)
  {
  }

  /** What the engine's other actions do to its submissions: at most one more. */
  lemma EngineCalls(limits: Limits, s: Sys, a: Delivery.Action)
    requires Consistent(s)
    requires !a.Write? && !a.Arrive? && !a.Vanish?
    requires a.Settle? ==> s.job.None? || s.job.value.reconciling
    ensures var t := Delivery.Step(limits, s, a);
      && |s.calls| <= |t.calls|
      && (forall k | 0 <= k < |s.calls| :: t.calls[k] == s.calls[k])
      && (forall k | |s.calls| <= k < |t.calls| :: t.calls[k].fate.Unsent? && t.calls[k].ended.None?)
  {
    if RouteOnly(a) {
      RouteOnlySteps(limits, s, a);
    }
  }

  lemma SubmitLinked(limits: Limits, p: Plant, conn: nat, positive: bool)
    requires Linked(p)
    ensures Linked(Done(limits, p, Submit(conn, positive)))
  {
    hide T.TrackedCall;
    var a := Submit(conn, positive);
    var t := Done(limits, p, a);
    if conn < |p.conns| && Delivering(p) && Current(p).None? {
      var r := p.conns[conn];
      forall x, c | 0 <= x < |t.conns| ensures T.Tracked(t.conns[x], c) {
        assert T.Tracked(p.conns[x], c);
        if x == conn {
          T.TrackedBegin(r, T.Begin(positive), c);
        }
      }
      forall k | 0 <= k < |t.links| ensures Agrees(t, k) {
        assert Agrees(p, k);
        if k < |t.links| - 1 && t.links[k].Some? && t.links[k].value.conn == conn {
          StepMoves(r, T.Begin(positive), t.links[k].value.call);
        }
      }
      NewLink(p, conn);
    }
  }

  lemma NewLink(p: Plant, conn: nat)
    requires Linked(p) && conn < |p.conns|
    ensures forall k | 0 <= k < |p.links| :: p.links[k] != Some(Link(conn, |p.conns[conn].calls|))
  {
    forall k | 0 <= k < |p.links| ensures p.links[k] != Some(Link(conn, |p.conns[conn].calls|)) {
      assert Agrees(p, k);
    }
  }

  /** The engine's action for a message that moved does the same to the submission. */
  lemma MoveFollows(limits: Limits, s: Sys, k: nat, before: Fate, after: Fate)
    requires k < |s.calls| && s.calls[k].fate == before
    requires
      || after == before
      || (before.Unsent? && after.OnWire?)
      || (before.OnWire? && (after.Queued? || after.Refused?))
    requires before.Unsent? && after.OnWire? ==> !s.calls[k].Forgotten()
    ensures var deed := MoveOf(k, before, after);
      var t := if deed.Some? then Delivery.Step(limits, s, deed.value) else s;
      t == s.(calls := s.calls[k := s.calls[k].(fate := after)])
  {
  }

  /** A message that moves on the wire moves in the engine, and no other does. */
  lemma WireCalls(limits: Limits, p: Plant, conn: nat, move: T.Action)
    requires Linked(p) && conn < |p.conns|
    ensures var t, r, c := Done(limits, p, Wire(conn, move)), p.conns[conn], Touched(p.conns[conn], move);
      var k := if c.Some? then Source(p.links, Link(conn, c.value)) else None;
      && t.conns == p.conns[conn := T.Step(r, move)] && t.links == p.links
      && (c.Some? ==> c.value < |T.Step(r, move).calls|)
      && t.sys.calls == (
        if k.None? then p.sys.calls
        else p.sys.calls[k.value := p.sys.calls[k.value].(fate := T.Step(r, move).calls[c.value].fate)])
  {
    hide Delivery.Consistent, T.TrackedCall, Delivery.Step;
    var r, c := p.conns[conn], Touched(p.conns[conn], move);
    if c.Some? {
      assert T.Tracked(r, c.value);
      TouchedMoves(r, move, c.value, true);
      TouchedMoves(r, move, c.value, false);
      var k := Source(p.links, Link(conn, c.value));
      if k.Some? {
        assert Agrees(p, k.value);
        MoveFollows(limits, p.sys, k.value, r.calls[c.value].fate, T.Step(r, move).calls[c.value].fate);
      }
    }
  }

  lemma WireMoves(limits: Limits, p: Plant, conn: nat, move: T.Action, k: nat)
    requires Linked(p) && conn < |p.conns| && k < |p.links|
    ensures var t := Done(limits, p, Wire(conn, move));
      |t.sys.calls| == |p.sys.calls| && t.links == p.links && Agrees(t, k)
  {
    WireCalls(limits, p, conn, move);
    var r, c := p.conns[conn], Touched(p.conns[conn], move);
    assert Agrees(p, k);
    if p.links[k].Some? && p.links[k].value.conn == conn {
      StepMoves(r, move, p.links[k].value.call);
    }
    if c.Some? && Source(p.links, Link(conn, c.value)).Some? {
      SourceUnique(p, Source(p.links, Link(conn, c.value)).value, k);
    }
  }

  lemma SourceUnique(p: Plant, j: nat, k: nat)
    requires Linked(p) && j < |p.links| && k < |p.links| && p.links[j].Some?
    ensures p.links[j] == p.links[k] ==> j == k
  {
  }
}
