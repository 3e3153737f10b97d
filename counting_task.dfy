/**
 * The generator `task(name, queue)` of example_2.py and example_3.py: it drains
 * the shared queue, counting each item's units, and yields after every unit.
 * (example_3.py only adds `time.sleep(1)` and elapsed-time lines, which do not
 * affect control flow.) The generator is an explicit state machine: a program
 * point and the saved locals `count`, `x` and `total`.
 */
module CountingTask {
  import opened Counts
  import opened Queues
  import opened Reports
  import opened Traces

  /** Where a generator stands between two `next()` calls, with its saved locals. */
  datatype Pc =
    | NotStarted                                  // created, body not entered
    | InItem(count: int, x: int, total: int)      // suspended at the `yield` inside `for x in range(count)`
    | Done                                        // ran off the end of its body

  /** At the yield, x is the current iteration of range(count) and total has been incremented x + 1 times. */
  predicate ValidPc(pc: Pc)
  {
    pc.InItem? ==> 0 <= pc.x < pc.count && pc.total == pc.x + 1
  }

  /** The effect of one `next()` call: new program point, queue left, lines printed, items dequeued, outcome. */
  datatype Transition = Transition(pc: Pc, q: seq<int>, events: seq<Event>, took: seq<int>, outcome: Outcome)

  /** Prefixes what was printed and dequeued on the way to the rest of a transition. */
  function After(evs: seq<Event>, took: seq<int>, t: Transition): Transition
  {
    Transition(t.pc, t.q, evs + t.events, took + t.took, t.outcome)
  }

  /**
   * Execution from the head of `while not queue.empty()` to the next `yield`,
   * or off the end of the body when the queue is found empty. An item whose
   * count is not positive is reported with total 0 without yielding.
   */
  function LoopHead(name: string, q: seq<int>): (t: Transition)
    ensures ValidPc(t.pc)
    decreases |q|
  {
    if q == [] then Transition(Done, [], [], [], Stopped)
    else if q[0] > 0 then Transition(InItem(q[0], 0, 1), q[1..], [Running(name)], [q[0]], Yielded)
    else After([Total(name, 0)], [q[0]], LoopHead(name, q[1..]))
  }

  lemma AfterAfter(a: seq<Event>, b: seq<int>, c: seq<Event>, d: seq<int>, t: Transition)
    ensures After(a, b, After(c, d, t)) == After(a + c, b + d, t)
  {
    assert a + (c + t.events) == (a + c) + t.events;
    assert b + (d + t.took) == (b + d) + t.took;
  }

  /** One `next()` call on a generator at pc while the queue holds q. */
  function Step(name: string, pc: Pc, q: seq<int>): (t: Transition)
    requires ValidPc(pc)
    ensures ValidPc(t.pc)
  {
    match pc
    case Done => Transition(Done, q, [], [], Stopped)
    case NotStarted => LoopHead(name, q)
    case InItem(count, x, total) =>
      if x + 1 < count then Transition(InItem(count, x + 1, total + 1), q, [Running(name)], [], Yielded)
      else After([Total(name, total)], [], LoopHead(name, q))
  }

  /**
   * The `next()` calls this generator still needs, counting the final one
   * that raises StopIteration, not counting the units still in the queue.
   */
  function Remaining(pc: Pc): nat
  {
    match pc
    case NotStarted => 1
    case InItem(count, x, _) => if count - x > 0 then count - x else 0
    case Done => 0
  }

  /** The item the generator holds: dequeued, and its total not yet printed. */
  function Held(pc: Pc): seq<int>
  {
    if pc.InItem? then [pc.count] else []
  }

  lemma {:induction false} LoopHeadTakesPrefix(name: string, q: seq<int>)
    ensures LoopHead(name, q).took + LoopHead(name, q).q == q
    decreases |q|
  {
    if q != [] {
      if q[0] <= 0 {
        LoopHeadTakesPrefix(name, q[1..]);
        assert q == [q[0]] + q[1..];
      }
    }
  }

  /**
   * The queue only ever loses a prefix: what one `next()` dequeues, followed by
   * what it leaves, is the queue it found (items are taken in FIFO order).
   */
  lemma StepTakesPrefix(name: string, pc: Pc, q: seq<int>)
    requires ValidPc(pc)
    ensures Step(name, pc, q).took + Step(name, pc, q).q == q
  {
    LoopHeadTakesPrefix(name, q);
  }

  lemma {:induction false} LoopHeadWork(name: string, q: seq<int>)
    ensures var t := LoopHead(name, q); Remaining(t.pc) + SumUnits(t.q) == SumUnits(q)
    decreases |q|
  {
    if q != [] && q[0] <= 0 {
      LoopHeadWork(name, q[1..]);
    }
  }

  /** Every `next()` on an unfinished generator uses up exactly one unit of the work left. */
  lemma StepWork(name: string, pc: Pc, q: seq<int>)
    requires ValidPc(pc) && pc != Done
    ensures var t := Step(name, pc, q); Remaining(t.pc) + SumUnits(t.q) + 1 == Remaining(pc) + SumUnits(q)
  {
    LoopHeadWork(name, q);
  }

  lemma {:induction false} LoopHeadOutcome(name: string, q: seq<int>)
    ensures var t := LoopHead(name, q);
      && (t.outcome == Stopped <==> SumUnits(q) == 0)
      && (t.outcome == Stopped ==> t.pc == Done && t.q == [] && RunningCount(t.events) == 0)
      && (t.outcome == Yielded ==> t.pc.InItem? && t.pc.x == 0 && t.pc.total == 1 && RunningCount(t.events) == 1)
    decreases |q|
  {
    if q != [] && q[0] <= 0 {
      LoopHeadOutcome(name, q[1..]);
      RunningCountAppend([Total(name, 0)], LoopHead(name, q[1..]).events);
    }
  }

  /**
   * A `next()` call on an unfinished generator raises StopIteration exactly when
   * its current item has no unit left and no queued item has a unit; it then
   * leaves the queue empty and the generator Done. Otherwise it stops at the
   * `yield` after exactly one increment of `total` (one 'running' line): the
   * next one of the current item, or the first one (total 1) of a new item.
   */
  lemma StepOutcome(name: string, pc: Pc, q: seq<int>)
    requires ValidPc(pc) && pc != Done
    ensures var t := Step(name, pc, q);
      && (t.outcome == Stopped <==> Remaining(pc) == 1 && SumUnits(q) == 0)
      && (t.outcome == Stopped ==> t.pc == Done && t.q == [] && RunningCount(t.events) == 0)
      && (t.outcome == Yielded ==> t.pc.InItem? && RunningCount(t.events) == 1)
      && (t.outcome == Yielded ==>
            t.pc.total == if pc.InItem? && pc.x + 1 < pc.count then pc.total + 1 else 1)
  {
    LoopHeadOutcome(name, q);
    if pc.InItem? && pc.x + 1 >= pc.count {
      RunningCountAppend([Total(name, pc.total)], LoopHead(name, q).events);
    }
  }

  /** A finished generator stays finished: `next()` raises StopIteration again and changes nothing. */
  lemma StepOnDone(name: string, q: seq<int>)
    ensures Step(name, Done, q) == Transition(Done, q, [], [], Stopped)
  {
  }

  lemma {:induction false} LoopHeadTotals(name: string, q: seq<int>)
    ensures var t := LoopHead(name, q); Totals(t.events) + Held(t.pc) == UnitsOf(t.took)
    decreases |q|
  {
    if q != [] && q[0] <= 0 {
      var h := LoopHead(name, q[1..]);
      LoopHeadTotals(name, q[1..]);
      TotalsAppend([Total(name, 0)], h.events);
      UnitsOfAppend([q[0]], h.took);
      assert Totals(LoopHead(name, q).events) == [0] + Totals(h.events);
    }
  }

  lemma FinishItemTotals(name: string, count: int, x: int, total: int, q: seq<int>)
    requires ValidPc(InItem(count, x, total)) && x + 1 >= count
    ensures var t := Step(name, InItem(count, x, total), q);
      Totals(t.events) + Held(t.pc) == [count] + UnitsOf(t.took)
  {
    var h := LoopHead(name, q);
    LoopHeadTotals(name, q);
    TotalsAppend([Total(name, total)], h.events);
    assert Totals(Step(name, InItem(count, x, total), q).events) == [count] + Totals(h.events);
  }

  /**
   * Each item's total is printed once and equals its count: the totals a
   * `next()` call prints, followed by the item it is left holding, are the
   * item it held before followed by the units of the items it dequeued.
   */
  lemma StepTotals(name: string, pc: Pc, q: seq<int>)
    requires ValidPc(pc)
    ensures var t := Step(name, pc, q); Totals(t.events) + Held(t.pc) == Held(pc) + UnitsOf(t.took)
  {
    match pc
    case Done =>
    case NotStarted =>
      LoopHeadTotals(name, q);
    case InItem(count, x, total) =>
      if x + 1 >= count {
        FinishItemTotals(name, count, x, total, q);
      }
  }

  lemma {:induction false} LoopHeadEventsBy(name: string, q: seq<int>)
    ensures forall e :: e in LoopHead(name, q).events ==> e.task == name
    decreases |q|
  {
    if q != [] && q[0] <= 0 {
      LoopHeadEventsBy(name, q[1..]);
    }
  }

  /** Every line a generator prints carries its own name. */
  lemma StepEventsBy(name: string, pc: Pc, q: seq<int>)
    requires ValidPc(pc)
    ensures forall e :: e in Step(name, pc, q).events ==> e.task == name
  {
    LoopHeadEventsBy(name, q);
  }

  /** An item whose count is not positive is reported with total 0 and the loop goes round again. */
  lemma SkipItem(name: string, q: seq<int>, pre: seq<Event>, took: seq<int>)
    requires q != [] && q[0] <= 0
    ensures After(pre, took, LoopHead(name, q))
         == After(pre + [Total(name, 0)], took + [q[0]], LoopHead(name, q[1..]))
  {
    AfterAfter(pre, took, [Total(name, 0)], [q[0]], LoopHead(name, q[1..]));
  }

  /** The program point of the generator's body. */
  datatype Phase = Fresh | Suspended | Finished

  /** A generator object `task(name, queue)`. */
  class Task {
    const name: string
    const queue: WorkQueue<int>
    const out: Log
    var phase: Phase
    // the saved locals of the body
    var count: int
    var x: int
    var total: int

    ghost predicate Valid()
      reads this
    {
      phase == Suspended ==> 0 <= x < count && total == x + 1
    }

    /** The abstract state of the generator. */
    function Pc(): (pc: Pc)
      reads this
      ensures Valid() <==> ValidPc(pc)
    {
      match phase
      case Fresh => NotStarted
      case Suspended => InItem(count, x, total)
      case Finished => Done
    }

    /** `task(name, queue)`: creates the generator without running any of its body. */
    constructor (name: string, queue: WorkQueue<int>, out: Log)
      ensures this.name == name && this.queue == queue && this.out == out
      ensures Valid() && Pc() == NotStarted
    {
      this.name := name;
      this.queue := queue;
      this.out := out;
      phase := Fresh;
      count, x, total := 0, 0, 0;
    }

    /** `t.next()`: runs the body to its next `yield` (Yielded) or off its end (Stopped). */
    method Next() returns (r: Outcome)
      requires Valid()
      modifies this, queue, out
      ensures Valid()
      ensures var t := Step(name, old(Pc()), old(queue.items));
        && Pc() == t.pc && queue.items == t.q && out.events == old(out.events) + t.events
        && r == t.outcome
    {
      if phase == Finished {
        r := Stopped;
      } else if phase == Suspended && x + 1 < count {
        // back inside `for x in range(count)`
        x := x + 1;
        out.Emit(Running(name));
        total := total + 1;
        r := Yielded;
      } else {
        ghost var pre: seq<Event> := [];
        if phase == Suspended {
          // `for` exhausted: report the item
          out.Emit(Total(name, total));
          pre := [Total(name, total)];
        }
        ghost var q := queue.items;
        assert Step(name, old(Pc()), q) == After(pre, [], LoopHead(name, q));
        r := FromLoopHead();
      }
    }

    /** The rest of a `next()` call from the head of `while not queue.empty()`. */
    method FromLoopHead() returns (r: Outcome)
      modifies this, queue, out
      ensures Valid()
      ensures var t := LoopHead(name, old(queue.items));
        && Pc() == t.pc && queue.items == t.q && out.events == old(out.events) + t.events
        && r == t.outcome
    {
      ghost var t0 := LoopHead(name, queue.items);
      ghost var pre: seq<Event> := [];
      ghost var took: seq<int> := [];
      var empty := queue.Empty();
      var item := 0;
      while !empty
        invariant empty <==> queue.items == []
        invariant out.events == old(out.events) + pre
        invariant t0 == After(pre, took, LoopHead(name, queue.items))
        decreases |queue.items|
        modifies queue, out
      {
        ghost var rest := queue.items;
        item := queue.Get();
        var sum := 0;
        if 0 < item {
          break;
        }
        SkipItem(name, rest, pre, took);
        out.Emit(Total(name, sum));
        pre, took := pre + [Total(name, 0)], took + [item];
        empty := queue.Empty();
      }
      if empty {
        phase := Finished;
        r := Stopped;
      } else {
        // the first unit of the item just dequeued, up to its `yield`
        out.Emit(Running(name));
        count, x, total := item, 0, 1;
        phase := Suspended;
        r := Yielded;
      }
    }
  }
}
