/**
 * One pass of the scheduler's `for t in tasks:` loop, on plain lists of task
 * numbers. Both schedulers (example_2.py/example_3.py and example_5.py) share
 * the same loop: task `live[i]` is resumed, dropped from the list when it
 * raised StopIteration, and the loop moves on to position i + 1 of the list
 * as it now is. Whatever the generators do, the resumptions of a pass have
 * the shape PassShaped describes, and the fairness facts follow from it.
 */
module Passes {
  import opened Traces

  /** The list after resuming position i with outcome o: `tasks.remove(t)` on StopIteration. */
  function AfterResume(live: seq<nat>, i: nat, o: Outcome): (r: seq<nat>)
    requires i < |live|
    ensures |r| == if o == Stopped then |live| - 1 else |live|
  {
    if o == Stopped then live[..i] + live[i + 1..] else live
  }

  /** On a strictly increasing list the new list stays increasing, holds no new task, and keeps every later task after live[i]. */
  lemma AfterResumeFacts(live: seq<nat>, i: nat, o: Outcome)
    requires Increasing(live) && i < |live|
    ensures var l := AfterResume(live, i, o);
      && Increasing(l)
      && (forall y :: y in l ==> y in live)
      && (forall j :: i < j < |l| ==> live[i] < l[j])
      && (o == Stopped ==> live[i] !in l)
      && (o == Stopped && i < |l| ==> l[i] == live[i + 1])
  {
    if o == Stopped {
      var l := live[..i] + live[i + 1..];
      DropAtIncreasing(live, i);
      DropAtMembers(live, i);
      forall j | i <= j < |l|
        ensures l[j] == live[j + 1]
      {
      }
    }
  }

  /**
   * The resumptions seg of the rest of a pass over `live` from position i:
   * the task at position i first, then the rest of the pass over the list
   * as that resumption left it, from position i + 1.
   */
  ghost predicate PassShaped(live: seq<nat>, i: nat, seg: seq<Resumption>)
    decreases |live| - i
  {
    if |live| <= i then seg == []
    else |seg| > 0 && seg[0].task == live[i] && PassShaped(AfterResume(live, i, seg[0].outcome), i + 1, seg[1..])
  }

  /** A pass from position i is its first resumption, of the task there, followed by a pass over the list that resumption left. */
  lemma ShapedCons(live: seq<nat>, i: nat, r: Resumption, seg1: seq<Resumption>)
    requires i < |live| && r.task == live[i] && PassShaped(AfterResume(live, i, r.outcome), i + 1, seg1)
    ensures PassShaped(live, i, [r] + seg1)
  {
    var seg := [r] + seg1;
    assert seg[0] == r && seg[1..] == seg1;
  }

  /** The induction step of ShapedWithin. */
  lemma ExtendWithin(i: nat, live: seq<nat>, live': seq<nat>, r: Resumption, seg1: seq<Resumption>)
    requires i < |live| && r.task == live[i]
    requires forall y :: y in live' ==> y in live
    requires forall j :: i < j < |live'| ==> live[i] < live'[j]
    requires |live'| <= i + 1 ==> seg1 == []
    requires i + 1 < |live'| ==> forall m :: 0 <= m < |seg1| ==> seg1[m].task in live' && live'[i + 1] <= seg1[m].task
    ensures var seg := [r] + seg1;
      forall m :: 0 <= m < |seg| ==> seg[m].task in live && live[i] <= seg[m].task
  {
    var seg := [r] + seg1;
    forall m | 0 <= m < |seg|
      ensures seg[m].task in live && live[i] <= seg[m].task
    {
      if m > 0 {
        assert seg[m] == seg1[m - 1];
      }
    }
  }

  /** A pass from position i starts with the task there and resumes only tasks listed at or after it. */
  lemma {:induction false} ShapedWithin(live: seq<nat>, i: nat, seg: seq<Resumption>)
    requires Increasing(live) && PassShaped(live, i, seg)
    ensures |live| <= i ==> seg == []
    ensures i < |live| ==> |seg| > 0 && seg[0].task == live[i]
    ensures i < |live| ==> forall m :: 0 <= m < |seg| ==> seg[m].task in live && live[i] <= seg[m].task
    decreases |live| - i
  {
    if i < |live| {
      var r, seg1 := seg[0], seg[1..];
      var live' := AfterResume(live, i, r.outcome);
      AfterResumeFacts(live, i, r.outcome);
      ShapedWithin(live', i + 1, seg1);
      assert seg == [r] + seg1;
      ExtendWithin(i, live, live', r, seg1);
    }
  }

  /** The induction step of ShapedIncreasing. */
  lemma ExtendIncreasing(r: Resumption, seg1: seq<Resumption>)
    requires Increasing(TasksOf(seg1))
    requires forall m :: 0 <= m < |seg1| ==> r.task < seg1[m].task
    ensures Increasing(TasksOf([r] + seg1))
  {
    var seg := [r] + seg1;
    var ts := TasksOf(seg);
    forall a, b | 0 <= a < b < |ts|
      ensures ts[a] < ts[b]
    {
      assert ts[b] == seg1[b - 1].task;
      if a > 0 {
        assert ts[a] == seg1[a - 1].task;
        assert TasksOf(seg1)[a - 1] < TasksOf(seg1)[b - 1];
      }
    }
  }

  /** A pass resumes tasks in strictly increasing task number: in list order, each at most once. */
  lemma {:induction false} ShapedIncreasing(live: seq<nat>, i: nat, seg: seq<Resumption>)
    requires Increasing(live) && PassShaped(live, i, seg)
    ensures Increasing(TasksOf(seg))
    decreases |live| - i
  {
    if i < |live| {
      var r, seg1 := seg[0], seg[1..];
      var live' := AfterResume(live, i, r.outcome);
      AfterResumeFacts(live, i, r.outcome);
      ShapedIncreasing(live', i + 1, seg1);
      ShapedWithin(live', i + 1, seg1);
      assert forall m :: 0 <= m < |seg1| ==> r.task < seg1[m].task;
      assert seg == [r] + seg1;
      ExtendIncreasing(r, seg1);
    }
  }

  /** The induction step of ShapedSkips. */
  lemma ExtendSkips(i: nat, live: seq<nat>, r: Resumption, seg1: seq<Resumption>)
    requires Increasing(live) && i < |live| && r.task == live[i]
    requires var live' := AfterResume(live, i, r.outcome);
      && (|live'| <= i + 1 ==> seg1 == [])
      && (i + 1 < |live'| ==> |seg1| > 0 && seg1[0].task == live'[i + 1])
      && (i + 1 < |live'| ==> forall m :: 0 <= m < |seg1| ==> live'[i + 1] <= seg1[m].task)
      && (forall j :: i + 1 <= j && j + 1 < |live'| ==>
           (live'[j + 1] in TasksOf(seg1) <==> Resumption(live'[j], Stopped) !in seg1))
    ensures var seg := [r] + seg1;
      forall j :: i <= j && j + 1 < |live| ==>
        (live[j + 1] in TasksOf(seg) <==> Resumption(live[j], Stopped) !in seg)
  {
    var live' := AfterResume(live, i, r.outcome);
    AfterResumeFacts(live, i, r.outcome);
    var seg := [r] + seg1;
    assert TasksOf(seg) == [r.task] + TasksOf(seg1);
    // no task before live'[i + 1] is resumed in the rest of the pass
    assert i + 1 < |live'| ==> forall y :: y in TasksOf(seg1) ==> live'[i + 1] <= y by {
      if i + 1 < |live'| {
        forall y | y in TasksOf(seg1)
          ensures live'[i + 1] <= y
        {
          var m :| 0 <= m < |seg1| && seg1[m].task == y;
        }
      }
    }
    forall j | i <= j && j + 1 < |live|
      ensures live[j + 1] in TasksOf(seg) <==> Resumption(live[j], Stopped) !in seg
    {
      assert live[i] < live[j + 1];
      if r.outcome == Yielded {
        if j > i {
          assert live[i] < live[j];
        }
      } else if j == i {
        if i + 1 < |live'| {
          assert live'[i + 1] == live[i + 2];
        }
      } else {
        assert live'[j - 1] == live[j] && live'[j] == live[j + 1];
        assert live[i] < live[j];
        if j == i + 1 {
          assert live[j] < live'[i + 1];
          assert Resumption(live[j], Stopped) !in seg1;
        }
      }
    }
  }

  /**
   * The task after a removed one is skipped: the task following position j
   * is resumed in the pass exactly when the task at j was not removed
   * (did not raise StopIteration) earlier in the same pass.
   */
  lemma {:induction false} ShapedSkips(live: seq<nat>, i: nat, seg: seq<Resumption>)
    requires Increasing(live) && PassShaped(live, i, seg)
    ensures forall j :: i <= j && j + 1 < |live| ==>
      (live[j + 1] in TasksOf(seg) <==> Resumption(live[j], Stopped) !in seg)
    decreases |live| - i
  {
    if i < |live| {
      var r, seg1 := seg[0], seg[1..];
      var live' := AfterResume(live, i, r.outcome);
      AfterResumeFacts(live, i, r.outcome);
      ShapedWithin(live', i + 1, seg1);
      ShapedSkips(live', i + 1, seg1);
      assert seg == [r] + seg1;
      ExtendSkips(i, live, r, seg1);
    }
  }

  // ---------------------------------------------------------------------------
  // The list `tasks` itself, as the sub-list of the generators at the task numbers
  // ---------------------------------------------------------------------------

  /** No generator object appears twice in the task list. */
  predicate Distinct<T(==)>(tasks: seq<T>)
  {
    forall a, b :: 0 <= a < b < |tasks| ==> tasks[a] != tasks[b]
  }

  /** `list` is the sub-list of `tasks` at the task numbers `live`. */
  predicate Selects<T(==)>(tasks: seq<T>, list: seq<T>, live: seq<nat>)
  {
    |list| == |live| && forall j :: 0 <= j < |live| ==> live[j] < |tasks| && list[j] == tasks[live[j]]
  }

  /** In a list of distinct generators selected in increasing order, the one at position i does not occur before it. */
  lemma SelectedFirst<T>(tasks: seq<T>, list: seq<T>, live: seq<nat>, i: nat)
    requires Distinct(tasks) && Selects(tasks, list, live) && Increasing(live) && i < |live|
    ensures list[i] !in list[..i]
  {
    forall j | 0 <= j < i
      ensures list[..i][j] != list[i]
    {
      assert live[j] < live[i];
    }
  }

  /** Dropping position i from both the generators and their task numbers keeps the one the selection of the other. */
  lemma DropSelected<T>(tasks: seq<T>, list: seq<T>, live: seq<nat>, i: nat)
    requires Selects(tasks, list, live) && i < |live|
    ensures Selects(tasks, list[..i] + list[i + 1..], live[..i] + live[i + 1..])
  {
    var l, s := live[..i] + live[i + 1..], list[..i] + list[i + 1..];
    forall j | 0 <= j < |l|
      ensures l[j] < |tasks| && s[j] == tasks[l[j]]
    {
      if j >= i {
        assert l[j] == live[j + 1] && s[j] == list[j + 1];
      }
    }
  }

  /** `list.remove(t)` on a list of distinct generators removes position i, as on the task numbers. */
  lemma RemoveSelected<T>(tasks: seq<T>, list: seq<T>, live: seq<nat>, i: nat)
    requires Distinct(tasks) && Selects(tasks, list, live) && Increasing(live) && i < |live|
    ensures Selects(tasks, RemoveFirst(list, list[i]), RemoveFirst(live, live[i]))
  {
    SelectedFirst(tasks, list, live, i);
    RemoveFirstAt(list, i);
    RemoveFromIncreasing(live, i);
    DropSelected(tasks, list, live, i);
  }
}
