/**
 * The synchronous baseline (example_1.py): each task is an ordinary call that
 * drains the shared queue completely, and the tasks are called one after the other.
 */
module Synchronous {
  import opened Counts
  import opened Queues
  import opened Reports
  import Traces

  /** n 'running' lines of one task. */
  function Repeat(name: string, n: nat): (r: seq<Event>)
    ensures |r| == n
    ensures forall j :: 0 <= j < n ==> r[j] == Running(name)
  {
    seq(n, _ => Running(name))
  }

  /** What `while not queue.empty(): ...` prints for the queue contents q. */
  function Drain(name: string, q: seq<int>): (r: seq<Event>)
    ensures |r| == SumUnits(q) + |q|
  {
    if q == [] then []
    else Repeat(name, Units(q[0])) + [Total(name, Units(q[0]))] + Drain(name, q[1..])
  }

  /** What one call `task(name, queue)` prints when the queue holds q. */
  function TaskEvents(name: string, q: seq<int>): (r: seq<Event>)
    ensures |r| == if q == [] then 1 else SumUnits(q) + |q|
  {
    if q == [] then [NothingToDo(name)] else Drain(name, q)
  }

  /** What `for t, n, q in tasks: t(n, q)` prints: the first task finds q, the later ones what it left. */
  function Sequential(names: seq<string>, q: seq<int>): (r: seq<Event>)
  {
    if names == [] then [] else TaskEvents(names[0], q) + Sequential(names[1..], [])
  }

  /** `task(name, queue)` */
  method Task(name: string, queue: WorkQueue<int>, out: Log)
    modifies queue, out
    ensures queue.items == []
    ensures out.events == old(out.events) + TaskEvents(name, old(queue.items))
  {
    var empty := queue.Empty();
    if empty {
      out.Emit(NothingToDo(name));
    } else {
      while !empty
        invariant empty <==> queue.items == []
        invariant old(out.events) + Drain(name, old(queue.items)) == out.events + Drain(name, queue.items)
        decreases |queue.items|
      {
        ghost var before := out.events;
        ghost var rest := queue.items;
        var count := queue.Get();
        var total := 0;
        var x := 0;
        while x < count
          invariant 0 <= x <= Units(count)
          invariant total == x
          invariant out.events == before + Repeat(name, x)
          modifies out
        {
          out.Emit(Running(name));
          total := total + 1;
          x := x + 1;
        }
        out.Emit(Total(name, total));
        ghost var item := Repeat(name, Units(count)) + [Total(name, Units(count))];
        assert out.events == before + item;
        assert Drain(name, rest) == item + Drain(name, queue.items);
        Traces.AppendAssoc(before, item, Drain(name, queue.items));
        empty := queue.Empty();
      }
    }
  }

  /** Lines 39-40 of main: `for t, n, q in tasks: t(n, q)`, every task on the same queue. */
  method RunAll(names: seq<string>, queue: WorkQueue<int>, out: Log)
    modifies queue, out
    ensures queue.items == if names == [] then old(queue.items) else []
    ensures out.events == old(out.events) + Sequential(names, old(queue.items))
  {
    for i := 0 to |names|
      invariant queue.items == if i == 0 then old(queue.items) else []
      invariant old(out.events) + Sequential(names, old(queue.items)) == out.events + Sequential(names[i..], queue.items)
    {
      assert names[i..][1..] == names[i + 1..];
      Task(names[i], queue, out);
    }
  }

  /** The whole of main: fill the queue with `work`, then run tasks One and Two in turn. */
  method RunMain(work: seq<int>) returns (events: seq<Event>)
    ensures events == Sequential(["One", "Two"], work)
    ensures Totals(events) == UnitsOf(work)
    ensures RunningCount(events) == SumUnits(work)
  {
    var queue := new WorkQueue<int>();
    queue.PutAll(work);
    assert queue.items == work;
    var out := new Log();
    RunAll(["One", "Two"], queue, out);
    events := out.events;
    assert events == [] + Sequential(["One", "Two"], work);
    SequentialReports(["One", "Two"], work);
  }

  /** One 'nothing to do' line per task, in order. */
  function Idle(names: seq<string>): (r: seq<Event>)
    ensures |r| == |names|
    ensures forall j :: 0 <= j < |names| ==> r[j] == NothingToDo(names[j])
  {
    seq(|names|, j requires 0 <= j < |names| => NothingToDo(names[j]))
  }

  lemma {:induction false} RepeatReports(name: string, n: nat)
    ensures Totals(Repeat(name, n)) == []
    ensures RunningCount(Repeat(name, n)) == n
  {
    if n > 0 {
      assert Repeat(name, n)[1..] == Repeat(name, n - 1);
      RepeatReports(name, n - 1);
    }
  }

  /**
   * Draining q reports one total per item, in queue order, each equal to the
   * item's count, and prints one 'running' line per unit.
   */
  lemma {:induction false} DrainReports(name: string, q: seq<int>)
    ensures Totals(Drain(name, q)) == UnitsOf(q)
    ensures RunningCount(Drain(name, q)) == SumUnits(q)
    ensures forall j :: 0 <= j < |Drain(name, q)| ==> Drain(name, q)[j].task == name
  {
    if q != [] {
      var head := Repeat(name, Units(q[0])) + [Total(name, Units(q[0]))];
      DrainReports(name, q[1..]);
      RepeatReports(name, Units(q[0]));
      TotalsAppend(head, Drain(name, q[1..]));
      TotalsAppend(Repeat(name, Units(q[0])), [Total(name, Units(q[0]))]);
      RunningCountAppend(head, Drain(name, q[1..]));
      RunningCountAppend(Repeat(name, Units(q[0])), [Total(name, Units(q[0]))]);
      assert UnitsOf(q) == [Units(q[0])] + UnitsOf(q[1..]);
    }
  }

  /**
   * Run one after the other, the first task does all the work and every later
   * task finds the queue empty; with an empty queue every task has nothing to do.
   */
  lemma {:induction false} SequentialFirstDrains(names: seq<string>, q: seq<int>)
    requires names != []
    ensures Sequential(names, q) == (if q == [] then Idle(names) else Drain(names[0], q) + Idle(names[1..]))
  {
    if |names| > 1 {
      SequentialFirstDrains(names[1..], []);
      assert Idle(names) == [NothingToDo(names[0])] + Idle(names[1..]);
    } else {
      assert names[1..] == [];
    }
  }

  lemma {:induction false} IdleReports(names: seq<string>)
    ensures Totals(Idle(names)) == []
    ensures RunningCount(Idle(names)) == 0
  {
    if names != [] {
      assert Idle(names)[1..] == Idle(names[1..]);
      IdleReports(names[1..]);
    }
  }

  /** The totals reported by all the tasks together are the queue's counts, in queue order. */
  lemma SequentialReports(names: seq<string>, q: seq<int>)
    requires names != []
    ensures Totals(Sequential(names, q)) == UnitsOf(q)
    ensures RunningCount(Sequential(names, q)) == SumUnits(q)
    ensures Sum(Totals(Sequential(names, q))) == SumUnits(q)
  {
    SequentialFirstDrains(names, q);
    IdleReports(names);
    IdleReports(names[1..]);
    if q != [] {
      DrainReports(names[0], q);
      TotalsAppend(Drain(names[0], q), Idle(names[1..]));
      RunningCountAppend(Drain(names[0], q), Idle(names[1..]));
    }
    SumOfUnitsOf(q);
  }

  /**
   * With [15, 10, 5, 2] and tasks One and Two, One processes all four items
   * (reporting 15, 10, 5 and 2, together 32) and Two reports nothing to do.
   */
  lemma Example1Scenario()
    ensures var evs := Sequential(["One", "Two"], [15, 10, 5, 2]);
      && evs == Drain("One", [15, 10, 5, 2]) + [NothingToDo("Two")]
      && Totals(evs) == [15, 10, 5, 2]
      && Sum(Totals(evs)) == 32
      && forall j :: 0 <= j < |evs| - 1 ==> evs[j].task == "One"
  {
    var q := [15, 10, 5, 2];
    SequentialFirstDrains(["One", "Two"], q);
    assert ["One", "Two"][1..] == ["Two"];
    SequentialReports(["One", "Two"], q);
    DrainReports("One", q);
    assert UnitsOf(q) == [15, 10, 5, 2];
  }
}
