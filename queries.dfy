/** The query-set operations and the random draw that the views compose:
    `filter`/`exclude`, `latest`, `get` and `random.choice`. A table or query
    result is a sequence of rows. */
module Queries {
  import opened Wrappers
  import opened Errors

  /** `filter(...)` / `exclude(...)`: the rows that satisfy `p`, in order. */
  function Filter<T(!new)>(s: seq<T>, p: T -> bool): (r: seq<T>)
    ensures |r| <= |s|
    ensures forall x :: x in r <==> x in s && p(x)
    ensures forall x :: multiset(r)[x] == if p(x) then multiset(s)[x] else 0
  {
    if s == [] then []
    else
      assert s == [s[0]] + s[1..];
      (if p(s[0]) then [s[0]] else []) + Filter(s[1..], p)
  }

  /** No two distinct positions of `s` both satisfy `p`. */
  predicate AtMostOne<T>(s: seq<T>, p: T -> bool) {
    forall i, j :: 0 <= i < j < |s| && p(s[i]) ==> !p(s[j])
  }

  /** A predicate that no row satisfies keeps no row. */
  lemma {:induction false} FilterNone<T(!new)>(s: seq<T>, p: T -> bool)
    requires forall x :: x in s ==> !p(x)
    ensures Filter(s, p) == []
  {
    if s != [] {
      assert s[0] in s;
      assert forall x :: x in s[1..] ==> x in s;
      FilterNone(s[1..], p);
    }
  }

  /** A predicate that at most one row satisfies keeps at most one row. */
  lemma {:induction false} FilterAtMostOne<T(!new)>(s: seq<T>, p: T -> bool)
    requires AtMostOne(s, p)
    ensures |Filter(s, p)| <= 1
  {
    if s != [] {
      assert AtMostOne(s[1..], p) by {
        forall i, j | 0 <= i < j < |s[1..]| && p(s[1..][i])
          ensures !p(s[1..][j])
        {
          assert s[1..][i] == s[i + 1] && s[1..][j] == s[j + 1];
        }
      }
      FilterAtMostOne(s[1..], p);
      if p(s[0]) {
        assert forall x :: x in s[1..] ==> !p(x) by {
          forall x | x in s[1..] ensures !p(x) {
            var j :| 0 <= j < |s[1..]| && s[1..][j] == x;
            assert s[j + 1] == x;
          }
        }
        FilterNone(s[1..], p);
      }
    }
  }

  /** The position of a row of greatest `key` among the first `n` rows of `s`. */
  function ArgMax<T>(s: seq<T>, key: T -> int, n: nat): (i: nat)
    requires 0 < n <= |s|
    ensures i < n
    ensures forall j :: 0 <= j < n ==> key(s[j]) <= key(s[i])
  {
    if n == 1 then 0
    else
      var i := ArgMax(s, key, n - 1);
      if key(s[n - 1]) <= key(s[i]) then i else n - 1
  }

  /** `latest(field)`: a row of greatest `key`, or DoesNotExist on an empty
      result. Rows that tie for the greatest key may be returned in any
      database order, so which of them is returned is left open. */
  method Latest<T>(s: seq<T>, key: T -> int) returns (r: Result<T, Error>)
    ensures r.Failure? <==> s == []
    ensures r.Failure? ==> r.error == DoesNotExist
    ensures r.Success? ==> r.value in s && forall x :: x in s ==> key(x) <= key(r.value)
  {
    if s == [] {
      return Failure(DoesNotExist);
    }
    ghost var best := ArgMax(s, key, |s|);
    var i :| 0 <= i < |s| && forall j :: 0 <= j < |s| ==> key(s[j]) <= key(s[i]);
    return Success(s[i]);
  }

  /** `get(...)`: the one row that satisfies `p`; DoesNotExist when none
      does, MultipleObjectsReturned when several do. */
  function Get<T(!new)>(s: seq<T>, p: T -> bool): (r: Result<T, Error>)
    ensures r.Success? ==> r.value in s && p(r.value)
    ensures r == Failure(DoesNotExist) <==> forall x :: x in s ==> !p(x)
    ensures r.Failure? ==> r.error == DoesNotExist || r.error == MultipleObjectsReturned
  {
    var matches := Filter(s, p);
    if |matches| == 0 then Failure(DoesNotExist)
    else
      assert matches[0] in matches;
      if |matches| > 1 then Failure(MultipleObjectsReturned) else Success(matches[0])
  }

  /** When at most one row can satisfy `p` (a lookup by a unique key), `get`
      never reports several rows. */
  lemma GetNeverMultiple<T(!new)>(s: seq<T>, p: T -> bool)
    requires AtMostOne(s, p)
    ensures Get(s, p) != Failure(MultipleObjectsReturned)
  {
    FilterAtMostOne(s, p);
  }

  /** Two positions that satisfy `p` leave at least two rows after filtering. */
  lemma {:induction false} FilterTwo<T(!new)>(s: seq<T>, p: T -> bool)
    requires !AtMostOne(s, p)
    ensures |Filter(s, p)| >= 2
  {
    var i, j :| 0 <= i < j < |s| && p(s[i]) && p(s[j]);
    if i == 0 {
      assert s[j] == s[1..][j - 1];
      assert s[j] in Filter(s[1..], p);
    } else {
      assert s[1..][i - 1] == s[i] && s[1..][j - 1] == s[j];
      assert !AtMostOne(s[1..], p);
      FilterTwo(s[1..], p);
    }
  }

  /** `get` raises MultipleObjectsReturned exactly when two rows satisfy `p`;
      with the other clauses of its contract, it succeeds exactly when one
      row does. */
  lemma GetMultipleIff<T(!new)>(s: seq<T>, p: T -> bool)
    ensures Get(s, p) == Failure(MultipleObjectsReturned) <==> !AtMostOne(s, p)
  {
    if AtMostOne(s, p) {
      FilterAtMostOne(s, p);
    } else {
      FilterTwo(s, p);
    }
  }

  /** ... and finds the row when it exists. */
  lemma GetFinds<T(!new)>(s: seq<T>, p: T -> bool, x: T)
    requires AtMostOne(s, p)
    requires x in s && p(x)
    ensures Get(s, p) == Success(x)
  {
    FilterAtMostOne(s, p);
    var m := Filter(s, p);
    assert x in m;
    assert m == [x];
  }

  /** `random.choice`: some element of `s`, or IndexError when `s` is empty.
      Which element is drawn, and with what probability, is left open; each
      call draws afresh, so repeated calls may return the same element. */
  method Choice<T>(s: seq<T>) returns (r: Result<T, Error>)
    ensures r.Failure? <==> s == []
    ensures r.Failure? ==> r.error == IndexError
    ensures r.Success? ==> r.value in s
  {
    if s == [] {
      return Failure(IndexError);
    }
    var i :| 0 <= i < |s|;
    return Success(s[i]);
  }
}
