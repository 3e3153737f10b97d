/**
 * Vocabulary shared by both cooperative schedulers: what one `next()` call
 * returns, and the ghost records of who dequeued what and who was resumed.
 */
module Traces {

  /** A `next()` call either reaches a `yield` or raises StopIteration. */
  datatype Outcome = Yielded | Stopped

  /** Task number `task` (its position in the initial task list) dequeued `item`. */
  datatype Take<T> = Take(task: nat, item: T)

  /** Task number `task` was resumed and its `next()` call ended with `outcome`. */
  datatype Resumption = Resumption(task: nat, outcome: Outcome)

  /** [0, 1, ..., n - 1]: the task numbers of a task list of length n. */
  function Iota(n: nat): (s: seq<nat>)
    ensures |s| == n
    ensures forall j :: 0 <= j < n ==> s[j] == j
  {
    if n == 0 then [] else Iota(n - 1) + [n - 1]
  }

  predicate Increasing(s: seq<nat>)
  {
    forall i, j :: 0 <= i < j < |s| ==> s[i] < s[j]
  }

  /** Python's `list.remove(x)`: drops the first element equal to x. */
  function RemoveFirst<T(==)>(s: seq<T>, x: T): (r: seq<T>)
    requires x in s
    ensures |r| == |s| - 1
  {
    if s[0] == x then s[1..] else [s[0]] + RemoveFirst(s[1..], x)
  }

  /** When x first occurs at position i, `remove` closes the gap at i: later elements shift left. */
  lemma {:induction false} RemoveFirstAt<T>(s: seq<T>, i: nat)
    requires i < |s| && s[i] !in s[..i]
    ensures RemoveFirst(s, s[i]) == s[..i] + s[i + 1..]
  {
    if i > 0 {
      assert s[0] in s[..i];
      assert s[1..][i - 1] == s[i];
      assert s[1..][..i - 1] == s[1..i];
      assert s[i] !in s[1..][..i - 1];
      RemoveFirstAt(s[1..], i - 1);
      assert s[..i] == [s[0]] + s[1..][..i - 1];
      assert s[i + 1..] == s[1..][i..];
    }
  }

  /** Dropping position i of a strictly increasing list keeps it strictly increasing. */
  lemma DropAtIncreasing(s: seq<nat>, i: nat)
    requires Increasing(s) && i < |s|
    ensures Increasing(s[..i] + s[i + 1..])
  {
    var r := s[..i] + s[i + 1..];
    forall a, b | 0 <= a < b < |r|
      ensures r[a] < r[b]
    {
      var a' := if a < i then a else a + 1;
      var b' := if b < i then b else b + 1;
      assert r[a] == s[a'] && r[b] == s[b'];
    }
  }

  /** Dropping position i of a list without repetitions removes exactly the element s[i]. */
  lemma DropAtMembers(s: seq<nat>, i: nat)
    requires Increasing(s) && i < |s|
    ensures forall y :: y in s[..i] + s[i + 1..] <==> y in s && y != s[i]
  {
    var r := s[..i] + s[i + 1..];
    forall y | y in r
      ensures y in s && y != s[i]
    {
      var m :| 0 <= m < |r| && r[m] == y;
      if m < i {
        assert r[m] == s[m] && s[m] < s[i];
      } else {
        assert r[m] == s[m + 1] && s[i] < s[m + 1];
      }
    }
    forall y | y in s && y != s[i]
      ensures y in r
    {
      var m :| 0 <= m < |s| && s[m] == y;
      if m < i {
        assert r[m] == y;
      } else {
        assert r[m - 1] == y;
      }
    }
  }

  /** Removing from a strictly increasing list keeps it strictly increasing and drops only that element. */
  lemma RemoveFromIncreasing(s: seq<nat>, i: nat)
    requires Increasing(s) && i < |s|
    ensures RemoveFirst(s, s[i]) == s[..i] + s[i + 1..]
    ensures Increasing(RemoveFirst(s, s[i]))
    ensures forall y :: y in RemoveFirst(s, s[i]) <==> y in s && y != s[i]
  {
    assert forall m :: 0 <= m < i ==> s[..i][m] < s[i];
    assert s[i] !in s[..i];
    RemoveFirstAt(s, i);
    DropAtIncreasing(s, i);
    DropAtMembers(s, i);
  }

  /** One Take record per item, all by task k. */
  function TakesBy<T>(k: nat, xs: seq<T>): (r: seq<Take<T>>)
    ensures |r| == |xs|
    ensures forall j :: 0 <= j < |xs| ==> r[j] == Take(k, xs[j])
  {
    seq(|xs|, j requires 0 <= j < |xs| => Take(k, xs[j]))
  }

  /** The dequeued items, in the order they were dequeued. */
  function Items<T>(ts: seq<Take<T>>): (r: seq<T>)
    ensures |r| == |ts|
    ensures forall j :: 0 <= j < |ts| ==> r[j] == ts[j].item
  {
    seq(|ts|, j requires 0 <= j < |ts| => ts[j].item)
  }

  /** The items task k dequeued, in order. */
  function ItemsOf<T>(ts: seq<Take<T>>, k: nat): seq<T>
  {
    if ts == [] then []
    else (if ts[0].task == k then [ts[0].item] else []) + ItemsOf(ts[1..], k)
  }

  /** The outcomes of the `next()` calls made on task k, in order. */
  function OutcomesOf(trace: seq<Resumption>, k: nat): seq<Outcome>
  {
    if trace == [] then []
    else (if trace[0].task == k then [trace[0].outcome] else []) + OutcomesOf(trace[1..], k)
  }

  /** The number of times task k was resumed. */
  function ResumesOf(trace: seq<Resumption>, k: nat): nat
  {
    |OutcomesOf(trace, k)|
  }

  /** The number of `next()` calls that reached a `yield`. */
  function YieldCount(trace: seq<Resumption>): nat
  {
    if trace == [] then 0
    else (if trace[0].outcome == Yielded then 1 else 0) + YieldCount(trace[1..])
  }

  /** The number of `next()` calls that raised StopIteration. */
  function StopCount(trace: seq<Resumption>): nat
  {
    if trace == [] then 0
    else (if trace[0].outcome == Stopped then 1 else 0) + StopCount(trace[1..])
  }

  /** The tasks resumed, in order. */
  function TasksOf(trace: seq<Resumption>): (r: seq<nat>)
    ensures |r| == |trace|
    ensures forall j :: 0 <= j < |trace| ==> r[j] == trace[j].task
  {
    seq(|trace|, j requires 0 <= j < |trace| => trace[j].task)
  }

  /** A task's outcomes when it was dropped right at its StopIteration: yields, then exactly one stop. */
  predicate StopsOnceAtEnd(o: seq<Outcome>)
  {
    |o| > 0 && o[|o| - 1] == Stopped && Stopped !in o[..|o| - 1]
  }

  /** Concatenation is associative; stated once, so that callers need not prove it in their own contexts. */
  lemma AppendAssoc<T>(a: seq<T>, b: seq<T>, c: seq<T>)
    ensures a + b + c == a + (b + c)
  {
  }

  /** A suffix is its first element followed by the next suffix. */
  lemma SliceCons<T>(s: seq<T>, n: nat)
    requires n < |s|
    ensures s[n..] == [s[n]] + s[n + 1..]
  {
  }

  /** Appending two elements one after the other appends the pair. */
  lemma AppendPair<T>(s: seq<T>, x: T, y: T)
    ensures s + [x] + [y] == s + [x, y]
  {
  }

  lemma ItemsAppend<T>(a: seq<Take<T>>, b: seq<Take<T>>)
    ensures Items(a + b) == Items(a) + Items(b)
  {
  }

  lemma ItemsOfTakesBy<T>(k: nat, xs: seq<T>)
    ensures Items(TakesBy(k, xs)) == xs
  {
  }

  /** Tasks 0 and 1 taking x and then y, followed by rest. */
  lemma ItemsOfPair<T>(x: T, y: T, rest: seq<Take<T>>)
    ensures ItemsOf([Take(0, x), Take(1, y)] + rest, 0) == [x] + ItemsOf(rest, 0)
    ensures ItemsOf([Take(0, x), Take(1, y)] + rest, 1) == [y] + ItemsOf(rest, 1)
  {
    var ts := [Take(0, x), Take(1, y)] + rest;
    assert ts[1..] == [Take(1, y)] + rest && ts[1..][1..] == rest;
  }

  lemma {:induction false} ItemsOfAppend<T>(a: seq<Take<T>>, b: seq<Take<T>>, k: nat)
    ensures ItemsOf(a + b, k) == ItemsOf(a, k) + ItemsOf(b, k)
  {
    if a == [] {
      assert a + b == b;
    } else {
      assert (a + b)[0] == a[0];
      assert (a + b)[1..] == a[1..] + b;
      ItemsOfAppend(a[1..], b, k);
      calc {
        ItemsOf(a + b, k);
        (if a[0].task == k then [a[0].item] else []) + ItemsOf(a[1..] + b, k);
        (if a[0].task == k then [a[0].item] else []) + (ItemsOf(a[1..], k) + ItemsOf(b, k));
        ItemsOf(a, k) + ItemsOf(b, k);
      }
    }
  }

  lemma {:induction false} ItemsOfTakes<T>(k: nat, xs: seq<T>, m: nat)
    ensures ItemsOf(TakesBy(k, xs), m) == if k == m then xs else []
  {
    if xs != [] {
      assert TakesBy(k, xs)[1..] == TakesBy(k, xs[1..]);
      ItemsOfTakes(k, xs[1..], m);
    }
  }

  lemma {:induction false} OutcomesOfAppend(a: seq<Resumption>, b: seq<Resumption>, k: nat)
    ensures OutcomesOf(a + b, k) == OutcomesOf(a, k) + OutcomesOf(b, k)
  {
    if a == [] {
      assert a + b == b;
    } else {
      assert (a + b)[1..] == a[1..] + b;
      OutcomesOfAppend(a[1..], b, k);
    }
  }

  lemma OutcomesOfSnoc(trace: seq<Resumption>, r: Resumption, k: nat)
    ensures OutcomesOf(trace + [r], k) == OutcomesOf(trace, k) + (if r.task == k then [r.outcome] else [])
  {
    OutcomesOfAppend(trace, [r], k);
  }

  lemma {:induction false} YieldCountAppend(a: seq<Resumption>, b: seq<Resumption>)
    ensures YieldCount(a + b) == YieldCount(a) + YieldCount(b)
  {
    if a == [] {
      assert a + b == b;
    } else {
      assert (a + b)[1..] == a[1..] + b;
      YieldCountAppend(a[1..], b);
    }
  }

  lemma {:induction false} StopCountAppend(a: seq<Resumption>, b: seq<Resumption>)
    ensures StopCount(a + b) == StopCount(a) + StopCount(b)
  {
    if a == [] {
      assert a + b == b;
    } else {
      assert (a + b)[1..] == a[1..] + b;
      StopCountAppend(a[1..], b);
    }
  }

  /** Every `next()` call either yields or stops. */
  lemma {:induction false} YieldsAndStops(trace: seq<Resumption>)
    ensures YieldCount(trace) + StopCount(trace) == |trace|
  {
    if trace != [] {
      YieldsAndStops(trace[1..]);
    }
  }
}
