/** What session.py reports about one submission, and the bounded scan that reconciles it.
    The classification is proved honest against every run of the transport. */
module Session {
  import opened Sequences
  import opened Errors
  import T = Transport

  // ----- deliver

  /** `_operation_error` */
  function OperationError(code: int, stable: bool): Outcome {
    if T.Lasting(code, stable) then Permanent else Retryable
  }

  /** `_submission_error` */
  function SubmissionError(code: int, stable: bool): Outcome {
    if T.Lasting(code, stable) then Permanent
    else if code == T.OVERLOADED then Retryable
    else Uncertain
  }

  /** `check_target` of both session kinds: None lets the submission go on. `good` tells that
      the answer names the thread as loaded (a shared-local session asks for no such thing). */
  function TargetCheck(end: T.End, good: bool): Option<Outcome> {
    match end
    case Returned => if good then None else Some(Unavailable)
    case RaisedFailure(code, stable) =>
      Some(if OperationError(code, stable).Permanent? then Permanent else Unavailable)
    case _ => Some(Unavailable)
  }

  /** How `deliver` ends once its queue/add call has ended; `shaped` tells that the result has
      the expected members. */
  function SubmissionOutcome(end: T.End, shaped: bool): Outcome {
    match end
    case Returned => if shaped then Delivered else Unexpected
    case RaisedUnavailable => Unavailable
    case RaisedRetryable => Retryable
    case RaisedUncertain => Uncertain
    case RaisedFailure(code, stable) => SubmissionError(code, stable)
  }

  /** A failed target check ends the delivery with nothing submitted, which every outcome it
      can have is honest about. */
  lemma TargetCheckIsHonest(end: T.End, good: bool)
    ensures TargetCheck(end, good).Some? ==> Honest(TargetCheck(end, good).value, Unsent)
  {
  }

  /** The main result: when a queue/add call has ended, under any interleaving of callers,
      writer, reader, closer and server, what `deliver` reports is true of its message -- at
      that moment and in every later state of the connection. */
  lemma DeliverIsHonest(before: seq<T.Action>, after: seq<T.Action>, c: nat, shaped: bool)
    requires c < |T.Run(before).calls| && T.Run(before).calls[c].stage.Ended?
    ensures var later := T.RunFrom(T.Run(before), after);
      && c < |later.calls|
      && Honest(SubmissionOutcome(T.Run(before).calls[c].stage.end, shaped), later.calls[c].fate)
  {
    T.EndedStays(T.Run(before), after, c);
    Joined(before, after);
    T.TrackedRun(before + after);
    assert T.Tracked(T.Run(before + after), c);
  }

  lemma {:induction false} Joined(before: seq<T.Action>, after: seq<T.Action>)
    ensures T.Run(before + after) == T.RunFrom(T.Run(before), after)
  {
    if after == [] {
      assert before + after == before;
    } else {
      assert Front(before + after) == before + Front(after);
      Joined(before, Front(after));
    }
  }

  /** `deliver` raises a retryable error only for a message that was never written, or that
      the server turned away as overloaded. */
  lemma RetryableOnlyIfHarmless(actions: seq<T.Action>, c: nat, shaped: bool)
    requires c < |T.Run(actions).calls| && T.Run(actions).calls[c].stage.Ended?
    requires var end := T.Run(actions).calls[c].stage.end;
      SubmissionOutcome(end, shaped) in {Unavailable, Retryable}
    ensures var call := T.Run(actions).calls[c];
      && (call.writes == 0 || (call.stage.end.RaisedFailure? && call.stage.end.code == T.OVERLOADED))
      && (SubmissionOutcome(call.stage.end, shaped).Unavailable? ==> call.writes == 0)
  {
    T.TrackedRun(actions);
    assert T.Tracked(T.Run(actions), c);
  }

  // ----- inspect

  /** A delivery's native client id: the position of its row. */
  type ClientId = nat

  datatype Item = Item(clientId: ClientId, id: string)

  /** A row of either list: a queued message carries the client id itself, a turn carries
      user messages that do. */
  datatype Row = Row(clientId: Option<ClientId>, id: string, items: seq<Item>)

  datatype List = QueueList | HistoryList

  datatype Reply =
    | Page(rows: seq<Row>, next: Option<string>)
    | Refusal(code: int, stable: bool)
    | Raised(error: Outcome)

  datatype Request = Request(list: List, cursor: Option<string>)

  datatype Finding =
    | Found(list: List, submission: string)
    | Unknown
    | Failed(error: Outcome)

  predicate RowCarries(row: Row, id: ClientId) {
    row.clientId == Some(id) || exists i | 0 <= i < |row.items| :: row.items[i].clientId == id
  }

  predicate PageCarries(reply: Reply, id: ClientId) {
    reply.Page? && exists i | 0 <= i < |reply.rows| :: RowCarries(reply.rows[i], id)
  }

  /** The cursor the next page is asked with; an empty cursor means there is none. */
  function NextCursor(reply: Reply): Option<string> {
    if reply.Page? && reply.next != Some("") then reply.next else None
  }

  /** Requests i to j - 1 follow one list from its first page, each asking for the page its
      predecessor named. Reply k answers request k. */
  predicate Follows(requests: seq<Request>, replies: nat -> Reply, i: nat, j: nat, list: List) {
    && i <= j <= |requests|
    && (forall k | i <= k < j :: requests[k].list == list)
    && (i < j ==> requests[i].cursor == None)
    && (forall k | i < k < j :: requests[k].cursor == NextCursor(replies(k - 1)) && requests[k].cursor.Some?)
  }

  /** They follow it to its end. */
  predicate Exhausts(requests: seq<Request>, replies: nat -> Reply, i: nat, j: nat, list: List) {
    && Follows(requests, replies, i, j, list)
    && i < j
    && replies(j - 1).Page? && NextCursor(replies(j - 1)).None?
  }

  /** The first match in a page: the row's own client id first, then its items. */
  method FindInPage(rows: seq<Row>, id: ClientId) returns (r: Option<string>)
    ensures r.Some? <==> exists i | 0 <= i < |rows| :: RowCarries(rows[i], id)
  {
    for i := 0 to |rows|
      invariant forall k | 0 <= k < i :: !RowCarries(rows[k], id)
    {
      if rows[i].clientId == Some(id) {
        return Some(rows[i].id);
      }
      var items := rows[i].items;
      for j := 0 to |items|
        invariant forall k | 0 <= k < j :: items[k].clientId != id
      {
        if items[j].clientId == id {
          return Some(items[j].id);
        }
      }
    }
    r := None;
  }

  /** The paging loop over one list. `clock` gives the successive clock readings. */
  method Scan(list: List, id: ClientId, maxPages: nat, deadline: real, replies: nat -> Reply, clock: nat -> real,
              sent: seq<Request>)
    returns (finding: Finding, requests: seq<Request>)
    requires |sent| <= maxPages
    ensures sent <= requests && |requests| <= maxPages
    ensures Follows(requests, replies, |sent|, |requests|, list)
    ensures finding.Found? ==> finding.list == list && |requests| > |sent| && PageCarries(replies(|requests| - 1), id)
    ensures finding.Unknown? ==> Exhausts(requests, replies, |sent|, |requests|, list)
    ensures forall k | |sent| <= k < |requests| - (if finding.Unknown? then 0 else 1) ::
      replies(k).Page? && !PageCarries(replies(k), id)
  {
    requests := sent;
    var cursor: Option<string> := None;
    var seen: set<string> := {};
    while true
      invariant sent <= requests && |requests| <= maxPages
      invariant Follows(requests, replies, |sent|, |requests|, list)
      invariant forall k | |sent| <= k < |requests| :: replies(k).Page? && !PageCarries(replies(k), id)
      invariant if |requests| == |sent| then cursor == None
                else cursor == NextCursor(replies(|requests| - 1)) && cursor.Some?
      decreases maxPages - |requests|
    {
      if |requests| >= maxPages || deadline - clock(|requests|) <= 0.0 {
        return Failed(Uncertain), requests;
      }
      var reply := replies(|requests|);
      requests := requests + [Request(list, cursor)];
      match reply {
        case Raised(error) => return Failed(error), requests;
        case Refusal(code, stable) => return Failed(OperationError(code, stable)), requests;
        case Page(rows, next) =>
          var hit := FindInPage(rows, id);
          if hit.Some? {
            return Found(list, hit.value), requests;
          }
          cursor := NextCursor(reply);
          if cursor.None? {
            return Unknown, requests;
          }
          if cursor.value in seen {
            return Failed(Retryable), requests;
          }
          seen := seen + {cursor.value};
      }
    }
  }

  /** `inspect`: the queue first, then the history. Its evidence: never more than maxPages
      list calls; a finding rests on a page that carries the client id; unknown is said only
      after both lists were followed to their ends without a trace of it. */
  method Inspect(id: ClientId, maxPages: nat, deadline: real, replies: nat -> Reply, clock: nat -> real,
                 target: Option<Outcome>)
    returns (finding: Finding, requests: seq<Request>, split: nat)
    ensures |requests| <= maxPages
    ensures target.Some? ==> finding == Failed(target.value) && requests == []
    ensures finding.Found? ==> requests != [] && Last(requests).list == finding.list
                               && PageCarries(replies(|requests| - 1), id)
    ensures finding.Unknown? ==> BothExhausted(requests, replies, split, id)
  {
    split := 0;
    if target.Some? {
      return Failed(target.value), [], 0;
    }
    finding, requests := Scan(QueueList, id, maxPages, deadline, replies, clock, []);
    split := |requests|;
    if finding.Unknown? {
      ghost var queued := requests;
      finding, requests := Scan(HistoryList, id, maxPages, deadline, replies, clock, requests);
      assert forall k | 0 <= k < split :: requests[k] == queued[k];
    }
  }

  ghost predicate BothExhausted(requests: seq<Request>, replies: nat -> Reply, split: nat, id: ClientId) {
    && Exhausts(requests, replies, 0, split, QueueList)
    && Exhausts(requests, replies, split, |requests|, HistoryList)
    && forall k | 0 <= k < |requests| :: !PageCarries(replies(k), id)
  }

  // ----- why the queue is read before the history

  /** When each call is served, the message is in one of the two lists, and once it has left
      the queue it stays in the history. */
  ghost predicate MovesOnce(place: nat -> List) {
    forall j: nat, k: nat :: j <= k && place(j).HistoryList? ==> place(k).HistoryList?
  }

  /** Stable paging: each list keeps its messages in a fixed order, a cursor marks a position
      in its own list, and a page shows whatever its list holds between its own cursor and the
      next one. `at` gives the position the message with this id has in each list, `mark` that
      of a cursor; neither need agree between the two lists. */
  ghost predicate StablePaging(requests: seq<Request>, replies: nat -> Reply, place: nat -> List, id: ClientId,
                               at: List -> int, mark: (List, Option<string>) -> int)
  {
    && (forall list :: mark(list, None) < at(list))
    && forall k | 0 <= k < |requests| :: ShownIfHeld(requests, replies, place, id, at, mark, k)
  }

  /** If the list asked holds the message and the page reaches over its place, the page shows
      it. */
  predicate ShownIfHeld(requests: seq<Request>, replies: nat -> Reply, place: nat -> List, id: ClientId,
                        at: List -> int, mark: (List, Option<string>) -> int, k: nat)
    requires k < |requests|
  {
    place(k) == requests[k].list && Spans(requests[k], replies(k), at, mark) ==> PageCarries(replies(k), id)
  }

  /** The page asked for reaches over the message's position in its list. */
  predicate Spans(request: Request, reply: Reply, at: List -> int, mark: (List, Option<string>) -> int) {
    && mark(request.list, request.cursor) < at(request.list)
    && (NextCursor(reply).Some? ==> at(request.list) <= mark(request.list, NextCursor(reply)))
  }

  /** The message is in the list, and unseen, all through these requests. */
  ghost predicate HeldUnseen(replies: nat -> Reply, place: nat -> List, id: ClientId, i: nat, j: nat, list: List) {
    forall n: nat | i <= n < j :: place(n) == list && !PageCarries(replies(n), id)
  }

  /** As long as the message stays in the list and is not shown, it lies ahead. */
  lemma {:induction false} StillAhead(requests: seq<Request>, replies: nat -> Reply, place: nat -> List, id: ClientId,
                                      at: List -> int, mark: (List, Option<string>) -> int, i: nat, k: nat, list: List)
    requires StablePaging(requests, replies, place, id, at, mark)
    requires Follows(requests, replies, i, k + 1, list) && i <= k
    requires HeldUnseen(replies, place, id, i, k + 1, list)
    ensures mark(list, requests[k].cursor) < at(list)
    ensures NextCursor(replies(k)).Some? && mark(list, NextCursor(replies(k))) < at(list)
    decreases k - i
  {
    if i < k {
      StillAhead(requests, replies, place, id, at, mark, i, k - 1, list);
    }
    assert place(k) == list && requests[k].list == list;
    assert ShownIfHeld(requests, replies, place, id, at, mark, k);
  }

  /** The main result on completeness: a message that moves at most once, from queue to
      history, while the scan runs is never reported unknown. The other order would miss it. */
  lemma NothingMissed(requests: seq<Request>, replies: nat -> Reply, split: nat, id: ClientId, place: nat -> List,
                      at: List -> int, mark: (List, Option<string>) -> int)
    requires MovesOnce(place) && StablePaging(requests, replies, place, id, at, mark)
    ensures !BothExhausted(requests, replies, split, id)
  {
    if BothExhausted(requests, replies, split, id) {
      if place(split - 1).QueueList? {
        HeldBefore(place, split - 1);
        HeldNotExhausted(requests, replies, place, id, at, mark, 0, split, QueueList);
      } else {
        HeldAfter(place, split - 1);
        HeldNotExhausted(requests, replies, place, id, at, mark, split, |requests|, HistoryList);
      }
    }
  }

  lemma HeldBefore(place: nat -> List, n: nat)
    requires MovesOnce(place) && place(n).QueueList?
    ensures forall k: nat | k <= n :: place(k) == QueueList
  {
  }

  lemma HeldAfter(place: nat -> List, n: nat)
    requires MovesOnce(place) && place(n).HistoryList?
    ensures forall k: nat | n <= k :: place(k) == HistoryList
  {
  }

  /** A list that holds the message all through a scan is not followed to its end unseen. */
  lemma HeldNotExhausted(requests: seq<Request>, replies: nat -> Reply, place: nat -> List, id: ClientId,
                         at: List -> int, mark: (List, Option<string>) -> int, i: nat, j: nat, list: List)
    requires StablePaging(requests, replies, place, id, at, mark)
    requires HeldUnseen(replies, place, id, i, j, list)
    ensures !Exhausts(requests, replies, i, j, list)
  {
    if i < j && Follows(requests, replies, i, j, list) {
      StillAhead(requests, replies, place, id, at, mark, i, j - 1, list);
    }
  }
}
