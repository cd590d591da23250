/** Options and results, and counts and sums over sequences: what appending and updating an
    element do to them. */
module Sequences {

  datatype Option<+T> = None | Some(value: T)

  datatype Result<+T, +E> = Ok(value: T) | Err(error: E)

  function Last<T>(s: seq<T>): T
    requires s != []
  {
    s[|s| - 1]
  }

  function Front<T>(s: seq<T>): seq<T>
    requires s != []
  {
    s[..|s| - 1]
  }

  function Sum<T>(s: seq<T>, weight: T -> int): int {
    if s == [] then 0 else Sum(Front(s), weight) + weight(Last(s))
  }

  /** How many elements satisfy p. */
  function Count<T>(s: seq<T>, p: T -> bool): (n: nat)
    ensures n <= |s|
  {
    if s == [] then 0 else Count(Front(s), p) + if p(Last(s)) then 1 else 0
  }

  lemma {:induction false} SumUpdate<T>(s: seq<T>, i: nat, x: T, weight: T -> int)
    requires i < |s|
    ensures Sum(s[i := x], weight) == Sum(s, weight) - weight(s[i]) + weight(x)
  {
    if i == |s| - 1 {
      assert Front(s[i := x]) == Front(s);
    } else {
      assert Front(s[i := x]) == Front(s)[i := x];
      SumUpdate(Front(s), i, x, weight);
    }
  }

  lemma CountAppend<T>(s: seq<T>, x: T, p: T -> bool)
    ensures Count(s + [x], p) == Count(s, p) + if p(x) then 1 else 0
  {
    assert Front(s + [x]) == s;
  }

  lemma {:induction false} CountUpdate<T>(s: seq<T>, i: nat, x: T, p: T -> bool)
    requires i < |s|
    ensures Count(s[i := x], p)
         == Count(s, p) - (if p(s[i]) then 1 else 0) + (if p(x) then 1 else 0)
  {
    if i == |s| - 1 {
      assert Front(s[i := x]) == Front(s);
    } else {
      assert Front(s[i := x]) == Front(s)[i := x];
      CountUpdate(Front(s), i, x, p);
    }
  }

  lemma {:induction false} CountConcat<T>(s: seq<T>, t: seq<T>, p: T -> bool)
    ensures Count(s + t, p) == Count(s, p) + Count(t, p)
  {
    if t == [] {
      assert s + t == s;
    } else {
      assert Front(s + t) == s + Front(t);
      CountConcat(s, Front(t), p);
    }
  }

  lemma {:induction false} CountMonotone<T>(s: seq<T>, t: seq<T>, p: T -> bool, q: T -> bool)
    requires |s| == |t|
    requires forall i | 0 <= i < |s| :: p(s[i]) ==> q(t[i])
    ensures Count(s, p) <= Count(t, q)
  {
    if s != [] {
      assert forall i | 0 <= i < |s| - 1 :: Front(s)[i] == s[i] && Front(t)[i] == t[i];
      CountMonotone(Front(s), Front(t), p, q);
    }
  }

  lemma {:induction false} CountAtLeastOne<T>(s: seq<T>, i: nat, p: T -> bool)
    requires i < |s| && p(s[i])
    ensures Count(s, p) >= 1
  {
    if i < |s| - 1 {
      CountAtLeastOne(Front(s), i, p);
    }
  }

  lemma {:induction false} CountZero<T>(s: seq<T>, p: T -> bool)
    requires forall i | 0 <= i < |s| :: !p(s[i])
    ensures Count(s, p) == 0
  {
    if s != [] {
      assert forall i | 0 <= i < |Front(s)| :: Front(s)[i] == s[i];
      CountZero(Front(s), p);
    }
  }

  /** The elements of s that satisfy p, in order. */
  function Filter<T>(s: seq<T>, p: T -> bool): (r: seq<T>)
    ensures |r| == Count(s, p)
    ensures forall i | 0 <= i < |r| :: r[i] in s && p(r[i])
    ensures forall i | 0 <= i < |s| :: p(s[i]) ==> s[i] in r
  {
    if s == [] then []
    else
      assert s == Front(s) + [Last(s)];
      Filter(Front(s), p) + if p(Last(s)) then [Last(s)] else []
  }

  lemma FilterAppend<T>(s: seq<T>, x: T, p: T -> bool)
    ensures Filter(s + [x], p) == Filter(s, p) + if p(x) then [x] else []
  {
    assert Front(s + [x]) == s;
  }
}
