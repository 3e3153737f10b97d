/**
 * The round-robin scheduler in `main()` of example_2.py and example_3.py:
 *
 *   done = False
 *   while not done:
 *     for t in tasks: (resume t; on StopIteration remove t; set done once tasks is empty)
 *
 * `for t in tasks` walks the list by position while the body removes from it,
 * so after a removal the next task slides into the current position and is
 * skipped for the rest of that pass. The ghost functions below specify the
 * scheduler on values; `Run` at the end is the imperative loop proved equal to them.
 */
module CountingScheduler {
  import opened Counts
  import opened Queues
  import opened Reports
  import opened Traces
  import opened Passes
  import opened CountingTask

  /**
   * The scheduler between two `next()` calls. Tasks are known by their number
   * (position in the initial list). `live` is the list `tasks` as task numbers,
   * `pcs` every generator's state, `q` the queue, `log` what was printed and
   * `done` the flag; `taken` and `trace` record who dequeued what and who was resumed.
   */
  datatype World = World(live: seq<nat>, pcs: seq<Pc>, q: seq<int>, log: seq<Event>,
                         taken: seq<Take<int>>, trace: seq<Resumption>, done: bool)

  /** The list keeps its order and holds exactly the unfinished generators; `done` is set exactly when it is empty. */
  ghost predicate Inv(names: seq<string>, w: World)
  {
    && |w.pcs| == |names|
    && (forall k :: 0 <= k < |w.pcs| ==> ValidPc(w.pcs[k]))
    && Increasing(w.live)
    && (forall j :: 0 <= j < |w.live| ==> w.live[j] < |w.pcs| && w.pcs[w.live[j]] != Done)
    && (w.done <==> w.live == [])
  }

  function SumRemaining(pcs: seq<Pc>): nat
  {
    if pcs == [] then 0 else Remaining(pcs[0]) + SumRemaining(pcs[1..])
  }

  /** The items the generators hold, dequeued but not yet reported. */
  function HeldAll(pcs: seq<Pc>): multiset<int>
  {
    if pcs == [] then multiset{} else multiset(Held(pcs[0])) + HeldAll(pcs[1..])
  }

  lemma {:induction false} SumRemainingUpdate(pcs: seq<Pc>, k: nat, p: Pc)
    requires k < |pcs|
    ensures SumRemaining(pcs[k := p]) + Remaining(pcs[k]) == SumRemaining(pcs) + Remaining(p)
  {
    if k > 0 {
      assert pcs[k := p][1..] == pcs[1..][k - 1 := p];
      SumRemainingUpdate(pcs[1..], k - 1, p);
    }
  }

  lemma {:induction false} HeldAllUpdate(pcs: seq<Pc>, k: nat, p: Pc)
    requires k < |pcs|
    ensures HeldAll(pcs[k := p]) + multiset(Held(pcs[k])) == HeldAll(pcs) + multiset(Held(p))
  {
    var head, rest := multiset(Held(pcs[0])), pcs[1..];
    var x, y := multiset(Held(pcs[k])), multiset(Held(p));
    if k > 0 {
      var rest' := rest[k - 1 := p];
      assert pcs[k := p][1..] == rest';
      assert rest[k - 1] == pcs[k];
      HeldAllUpdate(rest, k - 1, p);
      assert HeldAll(pcs[k := p]) == head + HeldAll(rest');
      assert HeldAll(pcs) == head + HeldAll(rest);
      AddToBoth(head, HeldAll(rest'), HeldAll(rest), x, y);
    } else {
      assert pcs[k := p][1..] == rest;
      assert HeldAll(pcs[k := p]) == y + HeldAll(rest);
      AddToBoth(HeldAll(rest), y, x, x, y);
    }
  }

  /** Multiset bookkeeping for HeldAllUpdate. */
  lemma AddToBoth(h: multiset<int>, a: multiset<int>, b: multiset<int>, x: multiset<int>, y: multiset<int>)
    requires a + x == b + y
    ensures h + a + x == h + b + y && a + h + x == b + h + y
  {
    forall z
      ensures (h + a + x)[z] == (h + b + y)[z] && (a + h + x)[z] == (b + h + y)[z]
    {
      assert (a + x)[z] == (b + y)[z];
    }
  }

  lemma {:induction false} AllDone(pcs: seq<Pc>)
    requires forall k :: 0 <= k < |pcs| ==> pcs[k] == Done
    ensures SumRemaining(pcs) == 0 && HeldAll(pcs) == multiset{}
  {
    if pcs != [] {
      AllDone(pcs[1..]);
    }
  }

  /** After task live[i] moves to p, the list (with live[i] dropped if it stopped) still holds only unfinished tasks, in order. */
  lemma LiveAfterStep(names: seq<string>, w: World, i: nat, p: Pc, o: Outcome)
    requires Inv(names, w) && i < |w.live| && (o == Yielded ==> p != Done)
    ensures var live: seq<nat> := if o == Stopped then RemoveFirst(w.live, w.live[i]) else w.live;
      && Increasing(live)
      && (forall j :: 0 <= j < |live| ==> live[j] < |w.pcs| && w.pcs[w.live[i] := p][live[j]] != Done)
      && (live == [] <==> o == Stopped && |w.live| == 1)
  {
    var k := w.live[i];
    RemoveFromIncreasing(w.live, i);
    if o == Stopped {
      var live: seq<nat> := RemoveFirst(w.live, k);
      forall j | 0 <= j < |live|
        ensures live[j] < |w.pcs| && w.pcs[k := p][live[j]] != Done
      {
        var j' := if j < i then j else j + 1;
        assert live[j] == w.live[j'];
      }
    }
  }

  lemma {:induction false} AllFresh(pcs: seq<Pc>)
    requires forall k :: 0 <= k < |pcs| ==> pcs[k] == NotStarted
    ensures SumRemaining(pcs) == |pcs| && HeldAll(pcs) == multiset{}
  {
    if pcs != [] {
      AllFresh(pcs[1..]);
    }
  }

  /** The `next()` calls still to come: the generators' own, plus one per unit still queued. */
  ghost function Work(w: World): nat
  {
    SumRemaining(w.pcs) + SumUnits(w.q)
  }

  /** One `next()` call t on the unfinished generator at pc with queue q yields, or stops finished; either way it uses one unit of work. */
  ghost predicate Moves(pc: Pc, q: seq<int>, t: Transition)
  {
    && ValidPc(t.pc)
    && (t.outcome == Yielded ==> t.pc != Done)
    && (t.outcome == Stopped ==> t.pc == Done && t.q == [])
    && Remaining(t.pc) + SumUnits(t.q) + 1 == Remaining(pc) + SumUnits(q)
  }

  /**
   * What the scheduler relies on about one `next()` call t on the generator
   * `name` at pc with queue q: it moves as above, dequeues a prefix of the
   * queue, reports each finished item's units, prints one 'running' line per
   * yield, and prints under its own name only.
   */
  ghost predicate Sound(name: string, pc: Pc, q: seq<int>, t: Transition)
  {
    && Moves(pc, q, t)
    && t.took + t.q == q
    && Totals(t.events) + Held(t.pc) == Held(pc) + UnitsOf(t.took)
    && RunningCount(t.events) == (if t.outcome == Yielded then 1 else 0)
    && (forall e :: e in t.events ==> e.task == name)
  }

  lemma StepSound(name: string, pc: Pc, q: seq<int>)
    requires ValidPc(pc) && pc != Done
    ensures Sound(name, pc, q, Step(name, pc, q))
  {
    StepOutcome(name, pc, q);
    StepWork(name, pc, q);
    StepTakesPrefix(name, pc, q);
    StepTotals(name, pc, q);
    StepEventsBy(name, pc, q);
  }

  /** The world after the task at position i of the list made the transition t. */
  ghost function Apply(names: seq<string>, i: nat, w: World, t: Transition): World
    requires i < |w.live| && w.live[i] < |w.pcs|
  {
    var k := w.live[i];
    var live: seq<nat> := if t.outcome == Stopped then RemoveFirst(w.live, k) else w.live;
    World(live, w.pcs[k := t.pc], t.q, w.log + t.events, w.taken + TakesBy(k, t.took),
          w.trace + [Resumption(k, t.outcome)], w.done || live == [])
  }

  lemma ApplyInv(names: seq<string>, i: nat, w: World, t: Transition)
    requires Inv(names, w) && i < |w.live| && Moves(w.pcs[w.live[i]], w.q, t)
    ensures Inv(names, Apply(names, i, w, t))
  {
    var k := w.live[i];
    var v := Apply(names, i, w, t);
    LiveAfterStep(names, w, i, t.pc, t.outcome);
    assert v.pcs == w.pcs[k := t.pc];
    forall m | 0 <= m < |v.pcs|
      ensures ValidPc(v.pcs[m])
    {
      if m != k {
        assert v.pcs[m] == w.pcs[m];
      }
    }
  }

  lemma ApplyWork(names: seq<string>, i: nat, w: World, t: Transition)
    requires Inv(names, w) && i < |w.live| && Moves(w.pcs[w.live[i]], w.q, t)
    ensures var v := Apply(names, i, w, t); Work(v) + 1 == Work(w) && |v.trace| == |w.trace| + 1 && w.trace <= v.trace
  {
    SumRemainingUpdate(w.pcs, w.live[i], t.pc);
  }

  /**
   * One iteration of `for t in tasks:` on the task at position i of the list:
   * resume it, remove it from the list if it raised StopIteration, and set
   * `done` once the list is empty. It uses up one unit of the work left.
   */
  ghost function Resumed(names: seq<string>, i: nat, w: World): (v: World)
    requires Inv(names, w) && i < |w.live|
    ensures Inv(names, v)
    ensures Work(v) + 1 == Work(w)
    ensures |v.trace| == |w.trace| + 1 && w.trace <= v.trace
  {
    var k := w.live[i];
    var t := Step(names[k], w.pcs[k], w.q);
    StepSound(names[k], w.pcs[k], w.q);
    ApplyInv(names, i, w, t);
    ApplyWork(names, i, w, t);
    Apply(names, i, w, t)
  }

  /**
   * The rest of one pass of `for t in tasks:` from position i. The position
   * advances by one after every task, removed or not.
   */
  ghost function PassFrom(names: seq<string>, i: nat, w: World): (p: World)
    requires Inv(names, w)
    ensures Inv(names, p)
    ensures Work(p) + |p.trace| == Work(w) + |w.trace|
    ensures w.trace <= p.trace
    ensures i < |w.live| ==> |w.trace| < |p.trace|
    decreases |w.live| - i
  {
    if i < |w.live| then
      var v := Resumed(names, i, w);
      PassFrom(names, i + 1, v)
    else w
  }

  /** A pass at or past the end of the list is over: it changes nothing. */
  lemma PassOver(names: seq<string>, i: nat, w: World)
    requires Inv(names, w) && |w.live| <= i
    ensures PassFrom(names, i, w) == w
  {
  }

  /** Inside the list, a pass resumes position i and goes on from i + 1. */
  lemma PassNext(names: seq<string>, i: nat, w: World)
    requires Inv(names, w) && i < |w.live|
    ensures PassFrom(names, i, w) == PassFrom(names, i + 1, Resumed(names, i, w))
  {
  }

  /** `while not done:` one pass after another; each pass resumes at least one task, so the loop terminates. */
  ghost function RunFrom(names: seq<string>, w: World): (r: World)
    requires Inv(names, w)
    ensures Inv(names, r) && r.done && r.live == []
    ensures Work(r) + |r.trace| == Work(w) + |w.trace|
    decreases Work(w)
  {
    if w.done then w else RunFrom(names, PassFrom(names, 0, w))
  }

  /** A non-empty task list of unfinished generators, one per name. */
  ghost predicate Ready(names: seq<string>, pcs0: seq<Pc>)
  {
    && |names| > 0 && |pcs0| == |names|
    && (forall k :: 0 <= k < |pcs0| ==> ValidPc(pcs0[k]) && pcs0[k] != Done)
  }

  ghost function Start(names: seq<string>, pcs0: seq<Pc>, q0: seq<int>, log0: seq<Event>): (w: World)
    requires Ready(names, pcs0)
    ensures Inv(names, w)
  {
    World(Iota(|names|), pcs0, q0, log0, [], [], false)
  }

  /** The whole run of the scheduler on the generators pcs0 sharing queue q0, after log0 was printed. */
  ghost function Schedule(names: seq<string>, pcs0: seq<Pc>, q0: seq<int>, log0: seq<Event>): (r: World)
    requires Ready(names, pcs0)
    ensures Inv(names, r) && r.done
  {
    RunFrom(names, Start(names, pcs0, q0, log0))
  }

  // ---------------------------------------------------------------------------
  // What a run preserves, measured against the world it started from
  // ---------------------------------------------------------------------------

  /** FIFO: the items dequeued so far, in the order dequeued, followed by the queue, make up the initial queue. */
  ghost predicate TakesInOrder(w0: World, w: World)
  {
    Items(w.taken) + w.q == w0.q
  }

  /** Each generator was resumed once per unit of the items it dequeued, plus once more to stop. */
  ghost predicate ResumesCounted(w0: World, w: World)
    requires |w0.pcs| == |w.pcs|
  {
    forall k :: 0 <= k < |w.pcs| ==>
      ResumesOf(w.trace, k) + Remaining(w.pcs[k]) == SumUnits(ItemsOf(w.taken, k)) + Remaining(w0.pcs[k])
  }

  /** Every item's units are reported once as a total, held by a generator, or still queued. */
  ghost predicate TotalsKept(w0: World, w: World)
  {
    multiset(Totals(w.log)) + HeldAll(w.pcs) + multiset(UnitsOf(w.q))
      == multiset(Totals(w0.log)) + HeldAll(w0.pcs) + multiset(UnitsOf(w0.q))
  }

  ghost predicate DistinctNames(names: seq<string>)
  {
    forall a, b :: 0 <= a < b < |names| ==> names[a] != names[b]
  }

  /** The totals task k printed, then its held item, are its held item at the start, then its dequeued items' units. */
  ghost predicate TotalsByTask(names: seq<string>, w0: World, w: World)
    requires |w0.pcs| == |w.pcs| == |names|
  {
    forall k :: 0 <= k < |names| ==> TaskTotals(names, w0, w, k)
  }

  /** The same for task k alone. */
  ghost predicate TaskTotals(names: seq<string>, w0: World, w: World, k: nat)
    requires |w0.pcs| == |w.pcs| == |names| && k < |names|
  {
    TotalsBy(w.log, names[k]) + Held(w.pcs[k])
      == TotalsBy(w0.log, names[k]) + Held(w0.pcs[k]) + UnitsOf(ItemsOf(w.taken, k))
  }

  /** One 'running' line for each `next()` call that reached a `yield`. */
  ghost predicate RunningKept(w0: World, w: World)
  {
    RunningCount(w.log) == RunningCount(w0.log) + YieldCount(w.trace)
  }

  /**
   * A task leaves the list exactly at its first StopIteration and is never
   * resumed again: a task still listed has never stopped, and a removed one
   * is finished and stopped once, on its last resumption.
   */
  ghost predicate RemovedOnStop(names: seq<string>, w: World)
    requires |w.pcs| == |names|
  {
    && StopCount(w.trace) + |w.live| == |names|
    && (forall k :: 0 <= k < |names| ==>
          if k in w.live then Stopped !in OutcomesOf(w.trace, k)
          else w.pcs[k] == Done && StopsOnceAtEnd(OutcomesOf(w.trace, k)))
  }

  /** A task only stops on finding the queue empty, and it stays empty. */
  ghost predicate DrainedOnStop(names: seq<string>, w: World)
  {
    |w.live| < |names| ==> w.q == []
  }

  ghost predicate Tracks(names: seq<string>, w0: World, w: World)
    requires |w0.pcs| == |w.pcs| == |names|
  {
    && TakesInOrder(w0, w) && ResumesCounted(w0, w) && TotalsKept(w0, w) && RunningKept(w0, w)
    && RemovedOnStop(names, w) && DrainedOnStop(names, w)
    && (DistinctNames(names) ==> TotalsByTask(names, w0, w))
  }

  lemma ApplyTakesInOrder(names: seq<string>, w0: World, i: nat, w: World, t: Transition)
    requires |w.pcs| == |names| && i < |w.live| && w.live[i] < |w.pcs| && Moves(w.pcs[w.live[i]], w.q, t)
    requires t.took + t.q == w.q
    requires TakesInOrder(w0, w)
    ensures TakesInOrder(w0, Apply(names, i, w, t))
  {
    var k := w.live[i];
    ItemsAppend(w.taken, TakesBy(k, t.took));
    ItemsOfTakesBy(k, t.took);
    assert Items(w.taken) + t.took + t.q == Items(w.taken) + (t.took + t.q);
  }

  lemma ApplyResumesCounted(names: seq<string>, w0: World, i: nat, w: World, t: Transition)
    requires |w.pcs| == |names| && i < |w.live| && w.live[i] < |w.pcs| && Moves(w.pcs[w.live[i]], w.q, t)
    requires t.took + t.q == w.q
    requires |w0.pcs| == |names| && ResumesCounted(w0, w)
    ensures ResumesCounted(w0, Apply(names, i, w, t))
  {
    var k := w.live[i];
    var v := Apply(names, i, w, t);
    SumUnitsAppend(t.took, t.q);
    forall m | 0 <= m < |v.pcs|
      ensures ResumesOf(v.trace, m) + Remaining(v.pcs[m]) == SumUnits(ItemsOf(v.taken, m)) + Remaining(w0.pcs[m])
    {
      OutcomesOfSnoc(w.trace, Resumption(k, t.outcome), m);
      ItemsOfAppend(w.taken, TakesBy(k, t.took), m);
      ItemsOfTakes(k, t.took, m);
      SumUnitsAppend(ItemsOf(w.taken, m), ItemsOf(TakesBy(k, t.took), m));
    }
  }

  lemma Rebalance(x: multiset<int>, e: multiset<int>, hv: multiset<int>, hw: multiset<int>,
                  h: multiset<int>, h': multiset<int>, u: multiset<int>, r: multiset<int>)
    requires e + h' == h + u && hv + h == hw + h'
    ensures x + e + hv + r == x + hw + u + r
  {
    forall z
      ensures (x + e + hv + r)[z] == (x + hw + u + r)[z]
    {
      assert (e + h')[z] == (h + u)[z];
      assert (hv + h)[z] == (hw + h')[z];
    }
  }

  lemma Regroup(x: seq<int>, e: seq<int>, hv: seq<int>, h: seq<int>, u: seq<int>, a: seq<int>, b: seq<int>)
    requires e + hv == h + u && x + h == a + b
    ensures (x + e) + hv == a + (b + u)
  {
    calc {
      (x + e) + hv;
      { assert (x + e) + hv == x + (e + hv); }
      x + (h + u);
      { assert x + (h + u) == (x + h) + u; }
      (a + b) + u;
      { assert (a + b) + u == a + (b + u); }
      a + (b + u);
    }
  }

  lemma ApplyTotalsKept(names: seq<string>, w0: World, i: nat, w: World, t: Transition)
    requires |w.pcs| == |names| && i < |w.live| && w.live[i] < |w.pcs| && Moves(w.pcs[w.live[i]], w.q, t)
    requires t.took + t.q == w.q && Totals(t.events) + Held(t.pc) == Held(w.pcs[w.live[i]]) + UnitsOf(t.took)
    requires TotalsKept(w0, w)
    ensures TotalsKept(w0, Apply(names, i, w, t))
  {
    var k := w.live[i];
    var v := Apply(names, i, w, t);
    TotalsAppend(w.log, t.events);
    HeldAllUpdate(w.pcs, k, t.pc);
    UnitsOfAppend(t.took, t.q);
    var e, h, h', u, r := multiset(Totals(t.events)), multiset(Held(w.pcs[k])), multiset(Held(t.pc)),
                          multiset(UnitsOf(t.took)), multiset(UnitsOf(t.q));
    assert e + h' == h + u by {
      assert multiset(Totals(t.events) + Held(t.pc)) == multiset(Held(w.pcs[k]) + UnitsOf(t.took));
    }
    assert multiset(UnitsOf(w.q)) == u + r;
    assert multiset(Totals(v.log)) == multiset(Totals(w.log)) + e;
    Rebalance(multiset(Totals(w.log)), e, HeldAll(v.pcs), HeldAll(w.pcs), h, h', u, r);
  }

  /** One `next()` call keeps the totals of task m: the resumed task accounts for what it printed and dequeued, the others print nothing. */
  lemma ApplyTaskTotals(names: seq<string>, w0: World, i: nat, w: World, t: Transition, m: nat)
    requires |w.pcs| == |names| && i < |w.live| && w.live[i] < |w.pcs| && m < |names|
    requires Totals(t.events) + Held(t.pc) == Held(w.pcs[w.live[i]]) + UnitsOf(t.took)
    requires forall e :: e in t.events ==> e.task == names[w.live[i]]
    requires m != w.live[i] ==> names[m] != names[w.live[i]]
    requires |w0.pcs| == |names| && TaskTotals(names, w0, w, m)
    ensures TaskTotals(names, w0, Apply(names, i, w, t), m)
  {
    var k := w.live[i];
    var v := Apply(names, i, w, t);
    TotalsByAppend(w.log, t.events, names[m]);
    TotalsByOneTask(t.events, names[k], names[m]);
    ItemsOfAppend(w.taken, TakesBy(k, t.took), m);
    ItemsOfTakes(k, t.took, m);
    UnitsOfAppend(ItemsOf(w.taken, m), ItemsOf(TakesBy(k, t.took), m));
    var a, b := TotalsBy(w0.log, names[m]) + Held(w0.pcs[m]), UnitsOf(ItemsOf(w.taken, m));
    if m == k {
      Regroup(TotalsBy(w.log, names[k]), Totals(t.events), Held(t.pc), Held(w.pcs[k]), UnitsOf(t.took), a, b);
    } else {
      assert TotalsBy(v.log, names[m]) == TotalsBy(w.log, names[m]) + [];
      assert b + [] == b;
    }
  }

  lemma ApplyTotalsByTask(names: seq<string>, w0: World, i: nat, w: World, t: Transition)
    requires |w.pcs| == |names| && i < |w.live| && w.live[i] < |w.pcs|
    requires Totals(t.events) + Held(t.pc) == Held(w.pcs[w.live[i]]) + UnitsOf(t.took)
    requires forall e :: e in t.events ==> e.task == names[w.live[i]]
    requires |w0.pcs| == |names| && DistinctNames(names) && TotalsByTask(names, w0, w)
    ensures TotalsByTask(names, w0, Apply(names, i, w, t))
  {
    forall m | 0 <= m < |names|
      ensures TaskTotals(names, w0, Apply(names, i, w, t), m)
    {
      assert m != w.live[i] ==> names[m] != names[w.live[i]] by {
        if m < w.live[i] {
          assert names[m] != names[w.live[i]];
        } else if m > w.live[i] {
          assert names[w.live[i]] != names[m];
        }
      }
      ApplyTaskTotals(names, w0, i, w, t, m);
    }
  }

  lemma ApplyRunningKept(names: seq<string>, w0: World, i: nat, w: World, t: Transition)
    requires |w.pcs| == |names| && i < |w.live| && w.live[i] < |w.pcs| && Moves(w.pcs[w.live[i]], w.q, t)
    requires RunningCount(t.events) == (if t.outcome == Yielded then 1 else 0)
    requires RunningKept(w0, w)
    ensures RunningKept(w0, Apply(names, i, w, t))
  {
    RunningCountAppend(w.log, t.events);
    YieldCountAppend(w.trace, [Resumption(w.live[i], t.outcome)]);
  }

  lemma ApplyRemovedOnStop(names: seq<string>, i: nat, w: World, t: Transition)
    requires Inv(names, w) && i < |w.live| && Moves(w.pcs[w.live[i]], w.q, t)
    requires RemovedOnStop(names, w)
    ensures RemovedOnStop(names, Apply(names, i, w, t))
  {
    var v := Apply(names, i, w, t);
    RemoveFromIncreasing(w.live, i);
    StopCountAppend(w.trace, [Resumption(w.live[i], t.outcome)]);
    forall m | 0 <= m < |names|
      ensures if m in v.live then Stopped !in OutcomesOf(v.trace, m)
              else v.pcs[m] == Done && StopsOnceAtEnd(OutcomesOf(v.trace, m))
    {
      ApplyTaskRemoved(names, i, w, t, m);
    }
  }

  /** The same for task m alone. */
  lemma ApplyTaskRemoved(names: seq<string>, i: nat, w: World, t: Transition, m: nat)
    requires Inv(names, w) && i < |w.live| && Moves(w.pcs[w.live[i]], w.q, t) && m < |names|
    requires if m in w.live then Stopped !in OutcomesOf(w.trace, m)
             else w.pcs[m] == Done && StopsOnceAtEnd(OutcomesOf(w.trace, m))
    ensures var v := Apply(names, i, w, t);
      if m in v.live then Stopped !in OutcomesOf(v.trace, m)
      else v.pcs[m] == Done && StopsOnceAtEnd(OutcomesOf(v.trace, m))
  {
    var k := w.live[i];
    var v := Apply(names, i, w, t);
    RemoveFromIncreasing(w.live, i);
    OutcomesOfSnoc(w.trace, Resumption(k, t.outcome), m);
    if m == k {
      var o := OutcomesOf(v.trace, k);
      assert o == OutcomesOf(w.trace, k) + [t.outcome];
      assert o[..|o| - 1] == OutcomesOf(w.trace, k);
    }
  }

  lemma ApplyDrainedOnStop(names: seq<string>, i: nat, w: World, t: Transition)
    requires Inv(names, w) && i < |w.live| && Moves(w.pcs[w.live[i]], w.q, t)
    requires t.took + t.q == w.q
    requires DrainedOnStop(names, w)
    ensures DrainedOnStop(names, Apply(names, i, w, t))
  {
  }

  lemma ResumedTracks(names: seq<string>, w0: World, i: nat, w: World)
    requires Inv(names, w) && i < |w.live| && |w0.pcs| == |names| && Tracks(names, w0, w)
    ensures Tracks(names, w0, Resumed(names, i, w))
  {
    var k := w.live[i];
    var t := Step(names[k], w.pcs[k], w.q);
    StepSound(names[k], w.pcs[k], w.q);
    ApplyTakesInOrder(names, w0, i, w, t);
    ApplyResumesCounted(names, w0, i, w, t);
    ApplyTotalsKept(names, w0, i, w, t);
    ApplyRunningKept(names, w0, i, w, t);
    ApplyRemovedOnStop(names, i, w, t);
    ApplyDrainedOnStop(names, i, w, t);
    if DistinctNames(names) {
      ApplyTotalsByTask(names, w0, i, w, t);
    }
  }

  lemma {:induction false} PassTracks(names: seq<string>, w0: World, i: nat, w: World)
    requires Inv(names, w) && |w0.pcs| == |names| && Tracks(names, w0, w)
    ensures Tracks(names, w0, PassFrom(names, i, w))
    decreases |w.live| - i
  {
    if i < |w.live| {
      ResumedTracks(names, w0, i, w);
      PassTracks(names, w0, i + 1, Resumed(names, i, w));
    }
  }

  lemma {:induction false} RunTracks(names: seq<string>, w0: World, w: World)
    requires Inv(names, w) && |w0.pcs| == |names| && Tracks(names, w0, w)
    ensures Tracks(names, w0, RunFrom(names, w))
    decreases Work(w)
  {
    if !w.done {
      PassTracks(names, w0, 0, w);
      RunTracks(names, w0, PassFrom(names, 0, w));
    }
  }

  lemma StartTracks(names: seq<string>, pcs0: seq<Pc>, q0: seq<int>, log0: seq<Event>)
    requires Ready(names, pcs0)
    ensures var w0 := Start(names, pcs0, q0, log0); Tracks(names, w0, w0)
  {
    var w0 := Start(names, pcs0, q0, log0);
    forall k | 0 <= k < |names|
      ensures k in w0.live
    {
      assert w0.live[k] == k;
    }
    forall k | 0 <= k < |names|
      ensures TotalsBy(w0.log, names[k]) + Held(w0.pcs[k])
        == TotalsBy(w0.log, names[k]) + Held(w0.pcs[k]) + UnitsOf(ItemsOf(w0.taken, k))
    {
      assert UnitsOf(ItemsOf(w0.taken, k)) == [];
    }
  }

  lemma ScheduleTracks(names: seq<string>, pcs0: seq<Pc>, q0: seq<int>, log0: seq<Event>)
    requires Ready(names, pcs0)
    ensures var w0 := Start(names, pcs0, q0, log0); Tracks(names, w0, Schedule(names, pcs0, q0, log0))
  {
    StartTracks(names, pcs0, q0, log0);
    RunTracks(names, Start(names, pcs0, q0, log0), Start(names, pcs0, q0, log0));
  }

  // ---------------------------------------------------------------------------
  // What a whole run does
  // ---------------------------------------------------------------------------

  /**
   * The scheduler terminates: `done` ends set with the task list empty, every
   * generator finished and the queue empty, after exactly one `next()` call
   * per unit of work (the generators' own final calls plus one per queued unit).
   */
  lemma ScheduleCompletes(names: seq<string>, pcs0: seq<Pc>, q0: seq<int>, log0: seq<Event>)
    requires Ready(names, pcs0)
    ensures var w := Schedule(names, pcs0, q0, log0);
      && w.done && w.live == [] && w.q == []
      && (forall k :: 0 <= k < |names| ==> w.pcs[k] == Done)
      && |w.trace| == SumRemaining(pcs0) + SumUnits(q0)
  {
    var w := Schedule(names, pcs0, q0, log0);
    ScheduleTracks(names, pcs0, q0, log0);
    AllDone(w.pcs);
  }

  /** Every queued item is dequeued exactly once, and in queue order (FIFO). */
  lemma ScheduleTakesInOrder(names: seq<string>, pcs0: seq<Pc>, q0: seq<int>, log0: seq<Event>)
    requires Ready(names, pcs0)
    ensures Items(Schedule(names, pcs0, q0, log0).taken) == q0
  {
    ScheduleTracks(names, pcs0, q0, log0);
    ScheduleCompletes(names, pcs0, q0, log0);
  }

  /**
   * Work conservation: the totals printed are the units of the queued items
   * (and of any item held at the start), each reported exactly once.
   */
  lemma ScheduleTotals(names: seq<string>, pcs0: seq<Pc>, q0: seq<int>, log0: seq<Event>)
    requires Ready(names, pcs0)
    ensures var w := Schedule(names, pcs0, q0, log0);
      multiset(Totals(w.log)) == multiset(Totals(log0)) + HeldAll(pcs0) + multiset(UnitsOf(q0))
  {
    var w := Schedule(names, pcs0, q0, log0);
    ScheduleTracks(names, pcs0, q0, log0);
    ScheduleCompletes(names, pcs0, q0, log0);
    AllDone(w.pcs);
    assert multiset(UnitsOf(w.q)) == multiset{};
  }

  /** With fresh generators, the printed totals add up to the units queued. */
  lemma ScheduleTotalsSum(names: seq<string>, pcs0: seq<Pc>, q0: seq<int>, log0: seq<Event>)
    requires Ready(names, pcs0) && forall k :: 0 <= k < |pcs0| ==> pcs0[k] == NotStarted
    ensures Sum(Totals(Schedule(names, pcs0, q0, log0).log)) == Sum(Totals(log0)) + SumUnits(q0)
  {
    var w := Schedule(names, pcs0, q0, log0);
    ScheduleTotals(names, pcs0, q0, log0);
    AllFresh(pcs0);
    assert multiset(Totals(w.log)) == multiset(Totals(log0) + UnitsOf(q0));
    SumOfPermutation(Totals(w.log), Totals(log0) + UnitsOf(q0));
    SumAppend(Totals(log0), UnitsOf(q0));
    SumOfUnitsOf(q0);
  }

  /**
   * Each item's total equals its count: when the tasks have distinct names,
   * the totals task k printed are, in order, the units of the items it
   * dequeued (after the one it held at the start, if any).
   */
  lemma ScheduleTotalsByTask(names: seq<string>, pcs0: seq<Pc>, q0: seq<int>, log0: seq<Event>)
    requires Ready(names, pcs0) && DistinctNames(names)
    ensures var w := Schedule(names, pcs0, q0, log0);
      forall k :: 0 <= k < |names| ==>
        TotalsBy(w.log, names[k]) == TotalsBy(log0, names[k]) + Held(pcs0[k]) + UnitsOf(ItemsOf(w.taken, k))
  {
    var w := Schedule(names, pcs0, q0, log0);
    ScheduleTracks(names, pcs0, q0, log0);
    ScheduleCompletes(names, pcs0, q0, log0);
    forall k | 0 <= k < |names|
      ensures TotalsBy(w.log, names[k]) == TotalsBy(log0, names[k]) + Held(pcs0[k]) + UnitsOf(ItemsOf(w.taken, k))
    {
      assert TaskTotals(names, Start(names, pcs0, q0, log0), w, k);
      assert TotalsBy(w.log, names[k]) + [] == TotalsBy(w.log, names[k]);
    }
  }

  /**
   * Each generator is resumed once per unit of the items it dequeued plus once
   * for its final StopIteration (fresh generators: units + 1), and one
   * 'running' line is printed per yield.
   */
  lemma ScheduleResumes(names: seq<string>, pcs0: seq<Pc>, q0: seq<int>, log0: seq<Event>)
    requires Ready(names, pcs0)
    ensures var w := Schedule(names, pcs0, q0, log0);
      && (forall k :: 0 <= k < |names| ==>
            ResumesOf(w.trace, k) == SumUnits(ItemsOf(w.taken, k)) + Remaining(pcs0[k]))
      && RunningCount(w.log) + |names| == RunningCount(log0) + SumRemaining(pcs0) + SumUnits(q0)
  {
    var w0, w := Start(names, pcs0, q0, log0), Schedule(names, pcs0, q0, log0);
    ScheduleTracks(names, pcs0, q0, log0);
    ScheduleCompletes(names, pcs0, q0, log0);
    YieldsAndStops(w.trace);
    assert ResumesCounted(w0, w) && RunningKept(w0, w) && StopCount(w.trace) + |w.live| == |names|;
    forall k | 0 <= k < |names|
      ensures ResumesOf(w.trace, k) == SumUnits(ItemsOf(w.taken, k)) + Remaining(pcs0[k])
    {
      assert Remaining(w.pcs[k]) == 0;
    }
  }

  /** Every generator raised StopIteration exactly once, on its last resumption, and was never resumed after it. */
  lemma ScheduleStopsOnce(names: seq<string>, pcs0: seq<Pc>, q0: seq<int>, log0: seq<Event>)
    requires Ready(names, pcs0)
    ensures var w := Schedule(names, pcs0, q0, log0);
      forall k :: 0 <= k < |names| ==> StopsOnceAtEnd(OutcomesOf(w.trace, k))
  {
    ScheduleTracks(names, pcs0, q0, log0);
  }

  // ---------------------------------------------------------------------------
  // Fairness of one pass
  // ---------------------------------------------------------------------------

  /** The resumption the `for` body records, and what it does to the list. */
  lemma ResumedLive(names: seq<string>, i: nat, w: World)
    requires Inv(names, w) && i < |w.live|
    ensures var v := Resumed(names, i, w);
      && |v.trace| == |w.trace| + 1 && v.trace[..|w.trace|] == w.trace
      && v.trace[|w.trace|].task == w.live[i]
      && v.live == AfterResume(w.live, i, v.trace[|w.trace|].outcome)
  {
    var k := w.live[i];
    var t := Step(names[k], w.pcs[k], w.q);
    assert Resumed(names, i, w) == Apply(names, i, w, t);
    RemoveFromIncreasing(w.live, i);
  }

  /** The resumptions made by one pass of `for t in tasks:` from position i. */
  ghost function PassSegment(names: seq<string>, i: nat, w: World): seq<Resumption>
    requires Inv(names, w)
  {
    PassFrom(names, i, w).trace[|w.trace|..]
  }

  /** The pass from position i has the shape of the `for` loop over the list. */
  ghost predicate ShapedPass(names: seq<string>, i: nat, w: World)
    requires Inv(names, w)
  {
    PassShaped(w.live, i, PassSegment(names, i, w))
  }

  /**
   * One step of a pass, over the world v its first resumption leaves: the
   * pass from position i has the shape of the `for` loop whenever the rest
   * of it, from position i + 1 over the list as that resumption left it, has.
   */
  lemma PassShape(names: seq<string>, i: nat, w: World) returns (v: World)
    requires Inv(names, w) && i < |w.live|
    ensures Inv(names, v) && |v.live| <= |w.live|
    ensures ShapedPass(names, i + 1, v) ==> ShapedPass(names, i, w)
  {
    v := Resumed(names, i, w);
    ResumedLive(names, i, w);
    var r := v.trace[|w.trace|];
    var p := PassFrom(names, i + 1, v);
    assert p.trace[|w.trace|] == r;
    SliceCons(p.trace, |w.trace|);
    if ShapedPass(names, i + 1, v) {
      ShapedCons(w.live, i, r, PassSegment(names, i + 1, v));
    }
  }

  /** A pass from past the end of the list resumes nothing. */
  lemma PassEnd(names: seq<string>, i: nat, w: World)
    requires Inv(names, w) && |w.live| <= i
    ensures ShapedPass(names, i, w)
  {
  }

  /** PassShape and PassEnd together: the step of the induction in PassIsShaped. */
  lemma PassStep(names: seq<string>, i: nat, w: World) returns (v: World)
    requires Inv(names, w)
    ensures Inv(names, v) && |v.live| <= |w.live|
    ensures if i < |w.live| then ShapedPass(names, i + 1, v) ==> ShapedPass(names, i, w) else ShapedPass(names, i, w)
  {
    if i < |w.live| {
      v := PassShape(names, i, w);
    } else {
      v := w;
      PassEnd(names, i, w);
    }
  }

  /** Whatever the generators do, the resumptions of a pass have the shape of the `for` loop over the list. */
  lemma {:induction false} PassIsShaped(names: seq<string>, i: nat, w: World)
    requires Inv(names, w)
    ensures ShapedPass(names, i, w)
    decreases |w.live| - i
  {
    var v := PassStep(names, i, w);
    if i < |w.live| {
      PassIsShaped(names, i + 1, v);
    }
  }

  /**
   * A pass resumes tasks in list order, each at most once, starting with the
   * task at position i and only tasks still listed at or after it.
   */
  lemma PassResumesInOrder(names: seq<string>, i: nat, w: World)
    requires Inv(names, w)
    ensures var seg := PassSegment(names, i, w);
      && Increasing(TasksOf(seg))
      && (|w.live| <= i ==> seg == [])
      && (i < |w.live| ==> |seg| > 0 && seg[0].task == w.live[i])
      && (i < |w.live| ==> forall m :: 0 <= m < |seg| ==> seg[m].task in w.live && w.live[i] <= seg[m].task)
  {
    PassIsShaped(names, i, w);
    ShapedWithin(w.live, i, PassSegment(names, i, w));
    ShapedIncreasing(w.live, i, PassSegment(names, i, w));
  }

  /**
   * The task after a removed one is skipped: in a pass, the task following
   * position j in the list is resumed exactly when the task at j was not
   * removed (did not raise StopIteration) earlier in the same pass.
   */
  lemma PassSkipsAfterRemoval(names: seq<string>, i: nat, w: World)
    requires Inv(names, w)
    ensures var seg := PassSegment(names, i, w);
      forall j :: i <= j && j + 1 < |w.live| ==>
        (w.live[j + 1] in TasksOf(seg) <==> Resumption(w.live[j], Stopped) !in seg)
  {
    PassIsShaped(names, i, w);
    ShapedSkips(w.live, i, PassSegment(names, i, w));
  }

  /** The first resumption of example_2.py's run: One dequeues 15 and prints one 'running' line. */
  lemma Example2FirstResume() returns (w0: World, w1: World)
    ensures w0 == Start(["One", "Two"], [NotStarted, NotStarted], [15, 10, 5, 2], [])
    ensures Inv(["One", "Two"], w0) && w0.live == [0, 1]
    ensures w1 == Resumed(["One", "Two"], 0, w0) && Inv(["One", "Two"], w1)
    ensures w1 == World([0, 1], [InItem(15, 0, 1), NotStarted], [10, 5, 2], [Running("One")],
                        [Take(0, 15)], [Resumption(0, Yielded)], false)
  {
    var names := ["One", "Two"];
    w0 := Start(names, [NotStarted, NotStarted], [15, 10, 5, 2], []);
    assert w0.live == [0, 1];
    assert Step("One", NotStarted, [15, 10, 5, 2]) == Transition(InItem(15, 0, 1), [10, 5, 2], [Running("One")], [15], Yielded);
    w1 := Resumed(names, 0, w0);
  }

  /** The second resumption of example_2.py's run: Two dequeues 10 and prints one 'running' line. */
  lemma Example2SecondResume(w1: World) returns (w2: World)
    requires Inv(["One", "Two"], w1)
    requires w1 == World([0, 1], [InItem(15, 0, 1), NotStarted], [10, 5, 2], [Running("One")],
                         [Take(0, 15)], [Resumption(0, Yielded)], false)
    ensures w2 == Resumed(["One", "Two"], 1, w1)
    ensures w2 == World([0, 1], [InItem(15, 0, 1), InItem(10, 0, 1)], [5, 2], [Running("One"), Running("Two")],
                        [Take(0, 15), Take(1, 10)], [Resumption(0, Yielded), Resumption(1, Yielded)], false)
  {
    var names := ["One", "Two"];
    assert Step("Two", NotStarted, [10, 5, 2]) == Transition(InItem(10, 0, 1), [5, 2], [Running("Two")], [10], Yielded);
    w2 := Resumed(names, 1, w1);
  }

  /**
   * The first pass of example_2.py's run on [15, 10, 5, 2]: the two tasks
   * interleave, One dequeuing 15 and Two dequeuing 10, one 'running' line each.
   */
  lemma Example2FirstPass()
    ensures var names := ["One", "Two"];
      var p := PassFrom(names, 0, Start(names, [NotStarted, NotStarted], [15, 10, 5, 2], []));
      && p.live == [0, 1] && !p.done
      && p.pcs == [InItem(15, 0, 1), InItem(10, 0, 1)] && p.q == [5, 2]
      && p.log == [Running("One"), Running("Two")]
      && p.taken == [Take(0, 15), Take(1, 10)]
      && p.trace == [Resumption(0, Yielded), Resumption(1, Yielded)]
  {
    var names := ["One", "Two"];
    var w0, w1 := Example2FirstResume();
    var w2 := Example2SecondResume(w1);
    PassNext(names, 0, w0);
    PassNext(names, 1, w1);
    PassOver(names, 2, w2);
    assert PassFrom(names, 0, w0) == w2;
  }

  // ---------------------------------------------------------------------------
  // The scheduler loop itself
  // ---------------------------------------------------------------------------

  function Names(tasks: seq<Task>): (r: seq<string>)
    ensures |r| == |tasks| && forall k :: 0 <= k < |tasks| ==> r[k] == tasks[k].name
  {
    seq(|tasks|, k requires 0 <= k < |tasks| => tasks[k].name)
  }

  /** The generators' states, by task number. */
  ghost function Pcs(tasks: seq<Task>): (r: seq<Pc>)
    reads tasks
    ensures |r| == |tasks| && forall k :: 0 <= k < |tasks| ==> r[k] == tasks[k].Pc()
  {
    if tasks == [] then [] else [tasks[0].Pc()] + Pcs(tasks[1..])
  }

  /** All generators were created on the same queue and print to the same output. */
  predicate Shares(tasks: seq<Task>, queue: WorkQueue<int>, out: Log)
  {
    forall k :: 0 <= k < |tasks| ==> tasks[k].queue == queue && tasks[k].out == out
  }

  /** The objects are in the state w describes: generators, queue, output and the list `tasks`. */
  ghost predicate Models(tasks: seq<Task>, list: seq<Task>, w: World, queue: WorkQueue<int>, out: Log)
    reads tasks, queue, out
  {
    && |w.pcs| == |tasks|
    && (forall k :: 0 <= k < |tasks| ==> tasks[k].Pc() == w.pcs[k])
    && queue.items == w.q && out.events == w.log
    && Selects(tasks, list, w.live)
  }

  /** w is the world after the `for` body resumed the task at position i of w0. */
  ghost predicate ResumedTo(names: seq<string>, i: nat, w0: World, w: World)
    requires Inv(names, w0) && i < |w0.live|
  {
    w == Resumed(names, i, w0)
  }

  /**
   * The body of `for t in tasks:` at position i: `t.next()`, `tasks.remove(t)`
   * on StopIteration, then `done = True` if the list is empty.
   */
  method ResumeAt(tasks: seq<Task>, queue: WorkQueue<int>, out: Log, list0: seq<Task>, i: nat, done0: bool,
                  ghost names: seq<string>, ghost w0: World)
    returns (list: seq<Task>, done: bool, ghost w: World)
    requires names == Names(tasks) && Distinct(tasks) && Shares(tasks, queue, out)
    requires Inv(names, w0) && i < |w0.live| && done0 == w0.done && Models(tasks, list0, w0, queue, out)
    modifies tasks, queue, out
    ensures ResumedTo(names, i, w0, w) && done == w.done
    ensures Models(tasks, list, w, queue, out)
    ensures Inv(names, w) && |list| <= |list0| && PassFrom(names, i, w0) == PassFrom(names, i + 1, w)
  {
    var t := list0[i];
    ghost var k := w0.live[i];
    w := Resumed(names, i, w0);
    assert w == Apply(names, i, w0, Step(names[k], w0.pcs[k], w0.q));
    var r := t.Next();
    list, done := list0, done0;
    if r == Stopped {
      RemoveSelected(tasks, list, w0.live, i);
      list := RemoveFirst(list, t);
    }
    if |list| == 0 {
      done := true;
    }
  }

  /** One pass of `for t in tasks:` over the list, by position; a removal shifts the rest of the list left. */
  method Pass(tasks: seq<Task>, queue: WorkQueue<int>, out: Log, list0: seq<Task>,
              ghost names: seq<string>, ghost w0: World)
    returns (list: seq<Task>, done: bool, ghost w: World)
    requires names == Names(tasks) && Distinct(tasks) && Shares(tasks, queue, out)
    requires Inv(names, w0) && !w0.done && Models(tasks, list0, w0, queue, out)
    modifies tasks, queue, out
    ensures w == PassFrom(names, 0, w0) && done == w.done
    ensures Models(tasks, list, w, queue, out)
  {
    list, done, w := list0, false, w0;
    var i := 0;
    while i < |list|
      invariant Inv(names, w) && Models(tasks, list, w, queue, out)
      invariant done == w.done
      invariant PassFrom(names, i, w) == PassFrom(names, 0, w0)
      decreases |list| - i
    {
      list, done, w := ResumeAt(tasks, queue, out, list, i, done, names, w);
      i := i + 1;
    }
    PassOver(names, i, w);
  }

  /**
   * `done = False; while not done: <pass>`: runs the generators round-robin until
   * the list is empty. The generators, the queue and the output end as the
   * ghost run Schedule says, and the list `tasks` ends empty.
   */
  method Run(tasks: seq<Task>, queue: WorkQueue<int>, out: Log) returns (left: seq<Task>)
    requires |tasks| > 0 && Distinct(tasks) && Shares(tasks, queue, out)
    requires forall k :: 0 <= k < |tasks| ==> tasks[k].Valid() && tasks[k].Pc() != Done
    modifies tasks, queue, out
    ensures var w := Schedule(Names(tasks), old(Pcs(tasks)), old(queue.items), old(out.events));
      && Pcs(tasks) == w.pcs && queue.items == w.q && out.events == w.log
    ensures left == []
  {
    ghost var names := Names(tasks);
    ghost var w := Start(names, Pcs(tasks), queue.items, out.events);
    ghost var w0 := w;
    left := tasks;
    var done := false;
    while !done
      invariant Inv(names, w) && done == w.done
      invariant Models(tasks, left, w, queue, out)
      invariant RunFrom(names, w) == RunFrom(names, w0)
      decreases Work(w)
    {
      left, done, w := Pass(tasks, queue, out, left, names, w);
    }
  }

  /** What fresh generators print for any queued work, starting from an empty output. */
  lemma FreshReport(names: seq<string>, pcs0: seq<Pc>, work: seq<int>)
    requires Ready(names, pcs0) && forall k :: 0 <= k < |pcs0| ==> pcs0[k] == NotStarted
    ensures var log := Schedule(names, pcs0, work, []).log;
      && multiset(Totals(log)) == multiset(UnitsOf(work))
      && Sum(Totals(log)) == SumUnits(work)
      && RunningCount(log) == SumUnits(work)
  {
    var log := Schedule(names, pcs0, work, []).log;
    ScheduleTotals(names, pcs0, work, []);
    ScheduleTotalsSum(names, pcs0, work, []);
    ScheduleResumes(names, pcs0, work, []);
    AllFresh(pcs0);
    var none: seq<Event> := [];
    assert Totals(none) == [] && Sum(Totals(none)) == 0 && RunningCount(none) == 0;
    assert multiset(Totals(log)) == multiset(UnitsOf(work));
  }

  /** The run `main()` starts: fresh tasks 'One' and 'Two' on the queued work, nothing printed yet. */
  ghost function MainRun(work: seq<int>): (w: World)
    ensures w.done && w.q == []
    ensures multiset(Totals(w.log)) == multiset(UnitsOf(work)) && Sum(Totals(w.log)) == SumUnits(work)
    ensures RunningCount(w.log) == SumUnits(work)
  {
    FreshReport(["One", "Two"], [NotStarted, NotStarted], work);
    ScheduleCompletes(["One", "Two"], [NotStarted, NotStarted], work, []);
    Schedule(["One", "Two"], [NotStarted, NotStarted], work, [])
  }

  /**
   * example_2.py's whole run on [15, 10, 5, 2]: the totals printed are the
   * four counts, each once, adding up to 32, with 32 'running' lines.
   */
  lemma Example2Totals()
    ensures var log := MainRun([15, 10, 5, 2]).log;
      && multiset(Totals(log)) == multiset{15, 10, 5, 2}
      && Sum(Totals(log)) == 32 && RunningCount(log) == 32
  {
    var work := [15, 10, 5, 2];
    assert UnitsOf(work) == [15, 10, 5, 2];
    assert SumUnits(work) == 32;
  }

  /** The set-up half of `main()`: the work queued, the tasks 'One' and 'Two' created on it, nothing printed. */
  method Spawn(work: seq<int>) returns (tasks: seq<Task>, queue: WorkQueue<int>, out: Log)
    ensures fresh(queue) && fresh(out) && forall k :: 0 <= k < |tasks| ==> fresh(tasks[k])
    ensures Names(tasks) == ["One", "Two"] && Pcs(tasks) == [NotStarted, NotStarted]
    ensures queue.items == work && out.events == []
    ensures Distinct(tasks) && Shares(tasks, queue, out)
    ensures forall k :: 0 <= k < |tasks| ==> tasks[k].Valid() && tasks[k].Pc() != Done
  {
    queue := new WorkQueue<int>();
    queue.PutAll(work);
    out := new Log();
    var one := new Task("One", queue, out);
    var two := new Task("Two", queue, out);
    tasks := [one, two];
    assert Names(tasks) == ["One", "Two"];
  }

  /**
   * `main()` of example_2.py (and example_3.py) on the given work: pushes it
   * onto a fresh queue, creates the tasks 'One' and 'Two' and runs the
   * scheduler. Every item is reported once with its count as total, and one
   * 'running' line is printed per unit.
   */
  method RunMain(work: seq<int>) returns (events: seq<Event>)
    ensures events == MainRun(work).log
    ensures multiset(Totals(events)) == multiset(UnitsOf(work))
    ensures Sum(Totals(events)) == SumUnits(work)
    ensures RunningCount(events) == SumUnits(work)
  {
    var tasks, queue, out := Spawn(work);
    var left := Run(tasks, queue, out);
    events := out.events;
  }
}
