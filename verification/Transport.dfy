/** The RPC transport of session.py: callers, the writer thread, the reader thread and the
    closer interleave over one outbound queue, one atomic step at a time. A run is a list of
    steps; a step whose guard fails changes nothing. */
module Transport {
  import opened Sequences
  import opened Errors

  /** `stable` tells that the server's text names a lasting defect of the target. */
  datatype Response =
    | Result
    | Failure(code: int, stable: bool)
    | Garbled     // neither result nor error
    | Hangup      // the reader or the closer woke the caller

  datatype Status = Sent | NotSent | WriteFailed

  /** How `Rpc.call` ends. */
  datatype End =
    | Returned
    | RaisedUnavailable
    | RaisedRetryable
    | RaisedUncertain
    | RaisedFailure(code: int, stable: bool)

  /** Where a call stands: before `_send` put it in the queue, waiting for the writer's
      status, waiting for the response, over. */
  datatype Stage = Registered | Sending | Awaiting | Ended(end: End)

  datatype Call = Call(stage: Stage, status: Option<Status>, writes: nat, inbox: seq<Response>, fate: Fate)

  /** Where the writer thread stands; a number is the call whose item it has in hand. */
  datatype Writer =
    | Fetching               // at outbound.get()
    | Holding(call: nat)     // before the test of `closed`
    | Cleared(call: nat)     // past the test, about to write
    | Wrote(call: nat, failed: bool)
    | Draining               // in its final loop
    | Dropping(call: nat)    // took an item in that loop
    | Leaving                // saw the queue empty in its final loop
    | Exited

  /** A queue entry is a call's message, or None to stop the writer. */
  datatype Rpc = Rpc(
    closed: bool, closing: bool, flushed: bool, outbound: seq<Option<nat>>, calls: seq<Call>, writer: Writer)

  const INIT := Rpc(false, false, false, [], [], Fetching)

  datatype CallerMove = Enqueue | SendTimeout | TakeStatus | ResponseTimeout | TakeResponse

  datatype WriterMove = Fetch | Test | Write(failed: bool) | PutStatus | FindEmpty | Exit

  datatype PeerMove = Accept | Refuse | Respond(response: Response)

  datatype Action =
    | Begin(positive: bool)               // `call` is entered, with or without a positive timeout
    | Caller(call: nat, move: CallerMove)
    | Writing(step: WriterMove)
    | Peer(about: nat, turn: PeerMove)    // the server, and the reader passing on its answers
    | EndOfFile                           // the reader stops and wakes the waiting callers
    | MarkClosed                          // then it marks the connection closed
    | CloseBegin
    | CloseFlush

  /** The error codes that settle a request for good, and the texts that do. */
  predicate Lasting(code: int, stable: bool) {
    code in {-32700, -32600, -32601, -32602} || stable
  }

  const OVERLOADED := -32001

  /** The server reports these only for input it has not taken. */
  predicate Rejection(code: int, stable: bool) {
    Lasting(code, stable) || code == OVERLOADED
  }

  /** What an honest server's response says about the message. */
  predicate Truthful(response: Response, fate: Fate) {
    match response
    case Result => fate.Queued?
    case Failure(code, stable) => Rejection(code, stable) ==> fate.Refused?
    case Garbled => true
    case Hangup => true
  }

  function SetCall(r: Rpc, c: nat, call: Call): Rpc
    requires c < |r.calls|
  {
    r.(calls := r.calls[c := call])
  }

  function Finish(r: Rpc, c: nat, end: End): Rpc
    requires c < |r.calls|
  {
    SetCall(r, c, r.calls[c].(stage := Ended(end)))
  }

  /** The first statements of `close()`, by whichever thread comes first. */
  function BeginClose(r: Rpc): Rpc {
    if r.closing then r else r.(closing := true, closed := true)
  }

  function HangUp(call: Call): Call {
    if call.stage.Ended? then call else call.(inbox := call.inbox + [Hangup])
  }

  function HangUpAll(calls: seq<Call>): seq<Call> {
    seq(|calls|, i requires 0 <= i < |calls| => HangUp(calls[i]))
  }

  function CallerStep(r: Rpc, c: nat, move: CallerMove): Rpc
    requires c < |r.calls|
  {
    var call := r.calls[c];
    match move
    case Enqueue =>
      if !call.stage.Registered? then r
      else if r.closed then Finish(r, c, RaisedUnavailable)
      else SetCall(r, c, call.(stage := Sending)).(outbound := r.outbound + [Some(c)])
    case SendTimeout =>
      if !call.stage.Sending? then r else BeginClose(Finish(r, c, RaisedUncertain))
    case TakeStatus =>
      if !call.stage.Sending? || call.status.None? then r else TakenStatus(r, c, call.status.value)
    case ResponseTimeout =>
      if !call.stage.Awaiting? then r else BeginClose(Finish(r, c, RaisedUncertain))
    case TakeResponse =>
      if !call.stage.Awaiting? || call.inbox == [] then r else Finish(r, c, EndOf(call.inbox[0]))
  }

  function TakenStatus(r: Rpc, c: nat, status: Status): Rpc
    requires c < |r.calls|
  {
    match status
    case Sent => SetCall(r, c, r.calls[c].(stage := Awaiting))
    case NotSent => Finish(r, c, RaisedUnavailable)
    case WriteFailed => BeginClose(Finish(r, c, RaisedUncertain))
  }

  function EndOf(response: Response): End {
    match response
    case Result => Returned
    case Failure(code, stable) => RaisedFailure(code, stable)
    case Garbled => RaisedUncertain
    case Hangup => RaisedUncertain
  }

  function PopOutbound(r: Rpc, draining: bool): Rpc
    requires r.outbound != []
  {
    var rest := r.(outbound := r.outbound[1..]);
    match r.outbound[0]
    case None => rest.(writer := Draining)
    case Some(c) => rest.(writer := if draining then Dropping(c) else Holding(c))
  }

  function PutStatusOf(r: Rpc, c: nat, status: Status, writer: Writer): Rpc
    requires c < |r.calls|
  {
    SetCall(r, c, r.calls[c].(status := Some(status))).(writer := writer)
  }

  function WriterStep(r: Rpc, move: WriterMove): Rpc {
    match move
    case Fetch =>
      if r.outbound != [] && (r.writer.Fetching? || r.writer.Draining?) then PopOutbound(r, r.writer.Draining?)
      else r
    case Test =>
      if !r.writer.Holding? || r.writer.call >= |r.calls| then r
      else if r.closed then PutStatusOf(r, r.writer.call, NotSent, Fetching)
      else r.(writer := Cleared(r.writer.call))
    case Write(failed) =>
      if !r.writer.Cleared? || r.writer.call >= |r.calls| then r
      else
        var c, call := r.writer.call, r.calls[r.writer.call];
        SetCall(r, c, call.(writes := call.writes + 1, fate := OnWire)).(writer := Wrote(c, failed))
    case PutStatus =>
      if r.writer.Wrote? && r.writer.call < |r.calls| then
        if r.writer.failed then PutStatusOf(r, r.writer.call, WriteFailed, Draining)
        else PutStatusOf(r, r.writer.call, Sent, Fetching)
      else if r.writer.Dropping? && r.writer.call < |r.calls| then
        PutStatusOf(r, r.writer.call, NotSent, Draining)
      else r
    case FindEmpty => if r.writer.Draining? && r.outbound == [] then r.(writer := Leaving) else r
    case Exit => if r.writer.Leaving? then r.(closed := true, writer := Exited) else r
  }

  function PeerStep(r: Rpc, c: nat, move: PeerMove): Rpc
    requires c < |r.calls|
  {
    var call := r.calls[c];
    match move
    case Accept => if call.fate.OnWire? then SetCall(r, c, call.(fate := Queued)) else r
    case Refuse => if call.fate.OnWire? then SetCall(r, c, call.(fate := Refused)) else r
    case Respond(response) =>
      if call.fate.Unsent? || call.stage.Ended? || !Truthful(response, call.fate) then r
      else SetCall(r, c, call.(inbox := call.inbox + [response]))
  }

  function Step(r: Rpc, a: Action): Rpc {
    match a
    case Begin(positive) =>
      var stage :=
        if !positive then Ended(RaisedRetryable)
        else if r.closed then Ended(RaisedUnavailable)
        else Registered;
      r.(calls := r.calls + [Call(stage, None, 0, [], Unsent)])
    case Caller(c, move) => if c < |r.calls| then CallerStep(r, c, move) else r
    case Writing(move) => WriterStep(r, move)
    case Peer(c, move) => if c < |r.calls| then PeerStep(r, c, move) else r
    case EndOfFile => r.(calls := HangUpAll(r.calls))
    case MarkClosed => r.(closed := true)
    case CloseBegin => BeginClose(r)
    case CloseFlush =>
      if !r.closing || r.flushed then r
      else r.(calls := HangUpAll(r.calls), outbound := r.outbound + [None], flushed := true)
  }

  function RunFrom(r: Rpc, actions: seq<Action>): Rpc {
    if actions == [] then r else Step(RunFrom(r, Front(actions)), Last(actions))
  }

  function Run(actions: seq<Action>): Rpc {
    RunFrom(INIT, actions)
  }

  // ----- one message, one place

  function ItemOf(c: nat): Option<nat> -> bool {
    (x: Option<nat>) => x == Some(c)
  }

  /** Copies of call c's message in the writer's hands and not yet passed to `_write`. */
  function InHand(w: Writer, c: nat): nat {
    if w == Holding(c) || w == Cleared(c) || w == Dropping(c) then 1 else 0
  }

  function Unwritten(r: Rpc, c: nat): nat {
    Count(r.outbound, ItemOf(c)) + InHand(r.writer, c)
  }

  predicate NeverToBeWritten(r: Rpc, c: nat)
    requires c < |r.calls|
  {
    r.calls[c].writes == 0 && Unwritten(r, c) == 0
  }

  predicate JustWrote(w: Writer, c: nat) {
    w.Wrote? && w.call == c
  }

  ghost predicate Tracked(r: Rpc, c: nat) {
    if c >= |r.calls| then Unwritten(r, c) == 0 && !JustWrote(r.writer, c) else TrackedCall(r, c, r.calls[c])
  }

  ghost predicate TrackedCall(r: Rpc, c: nat, call: Call)
    requires c < |r.calls| && call == r.calls[c]
  {
    && Unwritten(r, c) + call.writes <= 1
    && (call.writes == 0 <==> call.fate.Unsent?)
    && (JustWrote(r.writer, c) ==> call.writes == 1)
    && (call.stage.Registered? ==> call.status.None? && NeverToBeWritten(r, c))
    && (call.stage.Awaiting? ==> call.writes == 1)
    && (call.status == Some(NotSent) ==> NeverToBeWritten(r, c))
    && (call.status in {Some(Sent), Some(WriteFailed)} ==> call.writes == 1)
    && (forall i | 0 <= i < |call.inbox| :: Truthful(call.inbox[i], call.fate))
    && (call.stage.Ended? ==> EndTold(r, c, call.stage.end))
  }

  /** What each ending of a call tells about its message. */
  ghost predicate EndTold(r: Rpc, c: nat, end: End)
    requires c < |r.calls|
  {
    match end
    case Returned => r.calls[c].fate.Queued?
    case RaisedUnavailable => NeverToBeWritten(r, c)
    case RaisedRetryable => NeverToBeWritten(r, c)
    case RaisedUncertain => true
    case RaisedFailure(code, stable) => Rejection(code, stable) ==> r.calls[c].fate.Refused?
  }

  lemma TrackedBegin(r: Rpc, a: Action, c: nat)
    requires Tracked(r, c) && !a.Caller? && !a.Writing? && !a.Peer?
    ensures Tracked(Step(r, a), c)
  {
    hide Count;
    if a.CloseFlush? {
      CountAppend(r.outbound, None, ItemOf(c));
    }
  }

  lemma TrackedFinish(r: Rpc, d: nat, end: End, c: nat)
    requires Tracked(r, c) && d < |r.calls| && EndTold(r, d, end)
    ensures Tracked(Finish(r, d, end), c) && Tracked(BeginClose(Finish(r, d, end)), c)
  {
    var t := Finish(r, d, end);
    assert Unwritten(t, c) == Unwritten(r, c);
  }

  lemma TrackedEnqueue(r: Rpc, d: nat, c: nat)
    requires Tracked(r, c) && d < |r.calls| && r.calls[d].stage.Registered?
    requires NeverToBeWritten(r, d)
    ensures Tracked(CallerStep(r, d, Enqueue), c)
  {
    if r.closed {
      TrackedFinish(r, d, RaisedUnavailable, c);
    } else {
      CountAppend(r.outbound, Some(d), ItemOf(c));
    }
  }

  lemma TrackedTakeStatus(r: Rpc, d: nat, c: nat)
    requires Tracked(r, c) && Tracked(r, d) && d < |r.calls|
    ensures Tracked(CallerStep(r, d, TakeStatus), c)
  {
    var call := r.calls[d];
    if call.stage.Sending? && call.status.Some? {
      match call.status.value {
        case Sent => assert Unwritten(CallerStep(r, d, TakeStatus), c) == Unwritten(r, c);
        case NotSent => TrackedFinish(r, d, RaisedUnavailable, c);
        case WriteFailed => TrackedFinish(r, d, RaisedUncertain, c);
      }
    }
  }

  lemma TrackedTakeResponse(r: Rpc, d: nat, c: nat)
    requires Tracked(r, c) && Tracked(r, d) && d < |r.calls|
    ensures Tracked(CallerStep(r, d, TakeResponse), c)
  {
    var call := r.calls[d];
    if call.stage.Awaiting? && call.inbox != [] {
      assert Truthful(call.inbox[0], call.fate);
      TrackedFinish(r, d, EndOf(call.inbox[0]), c);
    }
  }

  lemma TrackedCaller(r: Rpc, d: nat, move: CallerMove, c: nat)
    requires Tracked(r, c) && Tracked(r, d) && d < |r.calls|
    ensures Tracked(CallerStep(r, d, move), c)
  {
    match move {
      case Enqueue =>
        if r.calls[d].stage.Registered? {
          TrackedEnqueue(r, d, c);
        }
      case SendTimeout => TrackedFinish(r, d, RaisedUncertain, c);
      case TakeStatus => TrackedTakeStatus(r, d, c);
      case ResponseTimeout => TrackedFinish(r, d, RaisedUncertain, c);
      case TakeResponse => TrackedTakeResponse(r, d, c);
    }
  }

  lemma CountHead(s: seq<Option<nat>>, c: nat)
    requires s != []
    ensures Count(s, ItemOf(c)) == Count(s[1..], ItemOf(c)) + if s[0] == Some(c) then 1 else 0
  {
    assert s == [s[0]] + s[1..];
    CountConcat([s[0]], s[1..], ItemOf(c));
    CountAppend([], s[0], ItemOf(c));
    assert [] + [s[0]] == [s[0]];
  }

  lemma TrackedFetch(r: Rpc, c: nat)
    requires Tracked(r, c)
    ensures Tracked(WriterStep(r, Fetch), c)
  {
    hide Count, Truthful;
    if r.outbound != [] {
      CountHead(r.outbound, c);
    }
  }

  lemma TrackedPutStatus(r: Rpc, d: nat, status: Status, writer: Writer, c: nat)
    requires Tracked(r, c) && d < |r.calls|
    requires writer.Fetching? || writer.Draining?
    requires if status.NotSent? then r.writer in {Holding(d), Dropping(d)} else JustWrote(r.writer, d)
    ensures Tracked(PutStatusOf(r, d, status, writer), c)
  {
  }

  lemma TrackedWrite(r: Rpc, failed: bool, c: nat)
    requires Tracked(r, c)
    ensures Tracked(WriterStep(r, Write(failed)), c)
  {
  }

  lemma TrackedWriter(r: Rpc, move: WriterMove, c: nat)
    requires Tracked(r, c)
    ensures Tracked(WriterStep(r, move), c)
  {
    match move {
      case Fetch => TrackedFetch(r, c);
      case Test =>
        if r.writer.Holding? && r.writer.call < |r.calls| && r.closed {
          TrackedPutStatus(r, r.writer.call, NotSent, Fetching, c);
        }
      case Write(failed) => TrackedWrite(r, failed, c);
      case PutStatus =>
        if r.writer.Wrote? && r.writer.call < |r.calls| {
          TrackedPutStatus(r, r.writer.call, if r.writer.failed then WriteFailed else Sent,
            if r.writer.failed then Draining else Fetching, c);
        } else if r.writer.Dropping? && r.writer.call < |r.calls| {
          TrackedPutStatus(r, r.writer.call, NotSent, Draining, c);
        }
      case FindEmpty =>
      case Exit =>
    }
  }

  lemma TrackedPeer(r: Rpc, d: nat, move: PeerMove, c: nat)
    requires Tracked(r, c) && d < |r.calls|
    ensures Tracked(PeerStep(r, d, move), c)
  {
  }

  lemma TrackedStep(r: Rpc, a: Action, c: nat)
    requires forall d :: Tracked(r, d)
    ensures Tracked(Step(r, a), c)
  {
    match a {
      case Caller(d, move) =>
        if d < |r.calls| {
          TrackedCaller(r, d, move, c);
        }
      case Writing(move) => TrackedWriter(r, move, c);
      case Peer(d, move) =>
        if d < |r.calls| {
          TrackedPeer(r, d, move, c);
        }
      case _ => TrackedBegin(r, a, c);
    }
  }

  lemma {:induction false} TrackedRun(actions: seq<Action>)
    ensures forall c :: Tracked(Run(actions), c)
  {
    if actions != [] {
      TrackedRun(Front(actions));
      forall c ensures Tracked(Run(actions), c) {
        TrackedStep(Run(Front(actions)), Last(actions), c);
      }
    }
  }

  /** Every message is passed to `_write` at most once, under every interleaving; and when
      `call` has raised Unavailable (or refused a timeout), never, neither before nor after. */
  lemma WrittenAtMostOnce(actions: seq<Action>, c: nat)
    requires c < |Run(actions).calls|
    ensures var call := Run(actions).calls[c];
      && call.writes <= 1
      && (call.stage in {Ended(RaisedUnavailable), Ended(RaisedRetryable)} ==> call.writes == 0 && call.fate.Unsent?)
  {
    TrackedRun(actions);
    assert Tracked(Run(actions), c);
  }

  /** An ended call stays ended as it is: what an ending tells holds for ever after. */
  lemma {:induction false} EndedStays(r: Rpc, actions: seq<Action>, c: nat)
    requires c < |r.calls| && r.calls[c].stage.Ended?
    ensures c < |RunFrom(r, actions).calls| && RunFrom(r, actions).calls[c].stage == r.calls[c].stage
  {
    if actions != [] {
      EndedStays(r, Front(actions), c);
      EndedStep(RunFrom(r, Front(actions)), Last(actions), c);
    }
  }

  lemma EndedStep(r: Rpc, a: Action, c: nat)
    requires c < |r.calls| && r.calls[c].stage.Ended?
    ensures c < |Step(r, a).calls| && Step(r, a).calls[c].stage == r.calls[c].stage
  {
    match a {
      case Caller(d, move) =>
        if d < |r.calls| {
          EndedByCaller(r, d, move, c);
        }
      case Writing(move) => EndedByWriter(r, move, c);
      case _ =>
    }
  }

  lemma EndedByCaller(r: Rpc, d: nat, move: CallerMove, c: nat)
    requires c < |r.calls| && r.calls[c].stage.Ended? && d < |r.calls|
    ensures var t := CallerStep(r, d, move); c < |t.calls| && t.calls[c].stage == r.calls[c].stage
  {
  }

  lemma EndedByWriter(r: Rpc, move: WriterMove, c: nat)
    requires c < |r.calls| && r.calls[c].stage.Ended?
    ensures var t := WriterStep(r, move); c < |t.calls| && t.calls[c].stage == r.calls[c].stage
  {
  }
}
