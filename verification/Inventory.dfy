/** The bounded cursor loop of owner_reconnect.py: all loaded conversations of an owner, or an
    error, within eight pages. */
module Inventory {
  import opened Sequences

  /** What follows a page: nothing, another page, or something that is no cursor. */
  datatype Next = End | Cursor(cursor: string) | Odd

  datatype Reply = Page(threads: set<string>, next: Next) | Malformed

  datatype Failure = TimedOut | Unsupported | Unbounded

  const MAX_PAGES := 8

  /** The threads on the first n pages. */
  function Shown(replies: nat -> Reply, n: nat): set<string> {
    if n == 0 then {}
    else Shown(replies, n - 1) + if replies(n - 1).Page? then replies(n - 1).threads else {}
  }

  /** Replies 0 to n make up a whole inventory: each is a page, in time, each but the last
      leads on by a cursor of its own, and the last ends it. */
  ghost predicate Whole(replies: nat -> Reply, late: nat -> bool, n: nat) {
    && Led(replies, late, n)
    && !late(n) && replies(n).Page? && replies(n).next.End?
  }

  /** The first n replies are pages, in time, that lead on by cursors of their own. */
  ghost predicate Led(replies: nat -> Reply, late: nat -> bool, n: nat) {
    && (forall i | 0 <= i < n :: !late(i) && replies(i).Page? && replies(i).next.Cursor?)
    && (forall i, j | 0 <= i < j < n :: replies(i).next != replies(j).next)
  }

  /** Reply k ends every chance of a whole inventory. */
  ghost predicate Broken(replies: nat -> Reply, late: nat -> bool, k: nat) {
    || late(k) || replies(k).Malformed? || replies(k).next.Odd?
    || exists i | 0 <= i < k :: replies(i).Page? && replies(i).next == replies(k).next && replies(k).next.Cursor?
  }

  lemma NoneAfter(replies: nat -> Reply, late: nat -> bool, k: nat)
    requires Led(replies, late, k) && Broken(replies, late, k)
    ensures forall n :: !Whole(replies, late, n)
  {
  }

  lemma NotWholeYet(replies: nat -> Reply, late: nat -> bool, k: nat)
    requires Led(replies, late, k)
    ensures forall n | 0 <= n < k :: !Whole(replies, late, n)
  {
  }

  lemma Repeated(replies: nat -> Reply, late: nat -> bool, order: seq<string>, cursor: string)
    requires forall i | 0 <= i < |order| :: replies(i).Page? && replies(i).next == Cursor(order[i])
    requires cursor in order && replies(|order|).Page? && replies(|order|).next == Cursor(cursor)
    ensures Broken(replies, late, |order|)
  {
    var i :| 0 <= i < |order| && order[i] == cursor;
    assert replies(i).next == replies(|order|).next;
  }

  lemma OnlyHere(replies: nat -> Reply, late: nat -> bool, k: nat)
    requires Led(replies, late, k) && !late(k) && replies(k).Page? && replies(k).next.End?
    ensures Whole(replies, late, k)
    ensures forall n | Whole(replies, late, n) :: n == k
  {
  }

  /** A cursor that no earlier page gave leads on. */
  lemma LeadsOn(replies: nat -> Reply, late: nat -> bool, order: seq<string>)
    requires Led(replies, late, |order|) && !late(|order|)
    requires forall i | 0 <= i < |order| :: replies(i).next == Cursor(order[i])
    requires replies(|order|).Page? && replies(|order|).next.Cursor? && replies(|order|).next.cursor !in order
    ensures Led(replies, late, |order| + 1)
  {
  }

  /** `_threads`; `late(i)` tells that the deadline had passed before call i. */
  method Threads(replies: nat -> Reply, late: nat -> bool) returns (result: Result<set<string>, Failure>, calls: nat)
    ensures calls <= MAX_PAGES
    ensures result.Ok? <==> exists n | 0 <= n < MAX_PAGES :: Whole(replies, late, n)
    ensures forall n | 0 <= n < MAX_PAGES && Whole(replies, late, n) ::
      calls == n + 1 && result == Ok(Shown(replies, n + 1))
  {
    assert Led(replies, late, 0);
    hide Led, Whole;
    var threads: set<string>, seen: set<string> := {}, {};
    ghost var order: seq<string> := [];
    calls := 0;
    while calls < MAX_PAGES
      invariant calls <= MAX_PAGES && |order| == calls
      invariant Led(replies, late, calls)
      invariant threads == Shown(replies, calls)
      invariant forall i | 0 <= i < calls :: replies(i).Page? && replies(i).next == Cursor(order[i])
      invariant forall c :: c in seen <==> c in order
    {
      ghost var k := calls;
      if late(calls) {
        NoneAfter(replies, late, k);
        return Err(TimedOut), calls;
      }
      var reply := replies(calls);
      calls := calls + 1;
      if reply.Malformed? {
        NoneAfter(replies, late, k);
        return Err(Unsupported), calls;
      }
      threads := threads + reply.threads;
      if reply.next.End? {
        OnlyHere(replies, late, k);
        return Ok(threads), calls;
      }
      if reply.next.Odd? {
        NoneAfter(replies, late, k);
        return Err(Unbounded), calls;
      }
      if reply.next.cursor in seen {
        Repeated(replies, late, order, reply.next.cursor);
        NoneAfter(replies, late, k);
        return Err(Unbounded), calls;
      }
      LeadsOn(replies, late, order);
      seen := seen + {reply.next.cursor};
      order := order + [reply.next.cursor];
    }
    NotWholeYet(replies, late, calls);
    result := Err(Unbounded);
  }
}
