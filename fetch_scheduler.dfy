/**
 * The round-robin scheduler in `main()` of example_5.py, the same loop as in
 * example_2.py, over generators that fetch one URL per `next()` call:
 *
 *   done = False
 *   while not done:
 *     for t in tasks: (resume t; on StopIteration remove t; set done once tasks is empty)
 *
 * As there, `for t in tasks` walks the list by position while the body
 * removes from it, so the task after a removed one is skipped for the rest
 * of that pass. The ghost functions specify the scheduler on values; `Run`
 * is the imperative loop proved equal to them.
 */
module FetchScheduler {
  import opened Queues
  import opened Reports
  import opened Traces
  import opened Passes
  import opened FetchTask

  /**
   * The scheduler between two `next()` calls. Tasks are known by their number
   * (position in the initial list). `live` is the list `tasks` as task numbers,
   * `pcs` every generator's state, `q` the queue of URLs, `log` what was printed
   * and `done` the flag; `taken` and `trace` record who dequeued which URL and
   * who was resumed.
   */
  datatype World = World(live: seq<nat>, pcs: seq<Pc>, q: seq<string>, log: seq<Event>,
                         taken: seq<Take<string>>, trace: seq<Resumption>, done: bool)

  /** The list keeps its order and holds exactly the unfinished generators; `done` is set exactly when it is empty. */
  ghost predicate Inv(names: seq<string>, w: World)
  {
    && |w.pcs| == |names|
    && Increasing(w.live)
    && (forall j :: 0 <= j < |w.live| ==> w.live[j] < |w.pcs| && w.pcs[w.live[j]] != Done)
    && (w.done <==> w.live == [])
  }

  function SumRemaining(pcs: seq<Pc>): nat
  {
    if pcs == [] then 0 else Remaining(pcs[0]) + SumRemaining(pcs[1..])
  }

  lemma {:induction false} SumRemainingUpdate(pcs: seq<Pc>, k: nat, p: Pc)
    requires k < |pcs|
    ensures SumRemaining(pcs[k := p]) + Remaining(pcs[k]) == SumRemaining(pcs) + Remaining(p)
  {
    if k > 0 {
      assert pcs[k := p][1..] == pcs[1..][k - 1 := p];
      SumRemainingUpdate(pcs[1..], k - 1, p);
    }
  }

  lemma {:induction false} AllDone(pcs: seq<Pc>)
    requires forall k :: 0 <= k < |pcs| ==> pcs[k] == Done
    ensures SumRemaining(pcs) == 0
  {
    if pcs != [] {
      AllDone(pcs[1..]);
    }
  }

  lemma {:induction false} AllFresh(pcs: seq<Pc>)
    requires forall k :: 0 <= k < |pcs| ==> pcs[k] == NotStarted
    ensures SumRemaining(pcs) == |pcs|
  {
    if pcs != [] {
      AllFresh(pcs[1..]);
    }
  }

  /** After task live[i] moves to p, the list (with live[i] dropped if it stopped) still holds only unfinished tasks, in order. */
  lemma LiveAfterStep(names: seq<string>, w: World, i: nat, p: Pc, o: Outcome)
    requires Inv(names, w) && i < |w.live| && (o == Yielded ==> p != Done)
    ensures var live: seq<nat> := if o == Stopped then RemoveFirst(w.live, w.live[i]) else w.live;
      && Increasing(live)
      && (forall j :: 0 <= j < |live| ==> live[j] < |w.pcs| && w.pcs[w.live[i] := p][live[j]] != Done)
      && (live == [] <==> o == Stopped && |w.live| == 1)
  {
    var k := w.live[i];
    RemoveFromIncreasing(w.live, i);
    if o == Stopped {
      var live: seq<nat> := RemoveFirst(w.live, k);
      forall j | 0 <= j < |live|
        ensures live[j] < |w.pcs| && w.pcs[k := p][live[j]] != Done
      {
        var j' := if j < i then j else j + 1;
        assert live[j] == w.live[j'];
      }
    }
  }

  /** The `next()` calls still to come: the generators' own final ones, plus one per URL still queued. */
  ghost function Work(w: World): nat
  {
    SumRemaining(w.pcs) + |w.q|
  }

  /** One `next()` call t on the unfinished generator at pc with queue q yields, or stops finished; either way it uses one unit of work. */
  ghost predicate Moves(pc: Pc, q: seq<string>, t: Transition)
  {
    && (t.outcome == Yielded ==> t.pc != Done)
    && (t.outcome == Stopped ==> t.pc == Done && t.q == [])
    && Remaining(t.pc) + |t.q| + 1 == Remaining(pc) + |q|
  }

  /**
   * What the scheduler relies on about one `next()` call t on the generator
   * `name` at pc with queue q: it moves as above, dequeues a prefix of the
   * queue (one URL when it yields), and prints under its own name 'getting'
   * and 'got' for exactly the URLs it dequeued.
   */
  ghost predicate Sound(name: string, pc: Pc, q: seq<string>, t: Transition)
  {
    && Moves(pc, q, t)
    && t.took + t.q == q
    && |t.took| == (if t.outcome == Yielded then 1 else 0)
    && t.events == Reported(name, t.took)
  }

  lemma StepSound(name: string, pc: Pc, q: seq<string>)
    requires pc != Done
    ensures Sound(name, pc, q, Step(name, pc, q))
  {
    StepOutcome(name, pc, q);
  }

  /** The world after the `for` body ran the step t of the task at position i. */
  ghost function Apply(names: seq<string>, i: nat, w: World, t: Transition): World
    requires i < |w.live| && w.live[i] < |w.pcs|
  {
    var k := w.live[i];
    var live: seq<nat> := if t.outcome == Stopped then RemoveFirst(w.live, k) else w.live;
    World(live, w.pcs[k := t.pc], t.q, w.log + t.events, w.taken + TakesBy(k, t.took),
          w.trace + [Resumption(k, t.outcome)], w.done || live == [])
  }

  lemma ApplyInv(names: seq<string>, i: nat, w: World, t: Transition)
    requires Inv(names, w) && i < |w.live| && Moves(w.pcs[w.live[i]], w.q, t)
    ensures Inv(names, Apply(names, i, w, t))
  {
    LiveAfterStep(names, w, i, t.pc, t.outcome);
  }

  lemma ApplyWork(names: seq<string>, i: nat, w: World, t: Transition)
    requires Inv(names, w) && i < |w.live| && Moves(w.pcs[w.live[i]], w.q, t)
    ensures var v := Apply(names, i, w, t); Work(v) + 1 == Work(w) && |v.trace| == |w.trace| + 1 && w.trace <= v.trace
  {
    SumRemainingUpdate(w.pcs, w.live[i], t.pc);
  }

  /**
   * One iteration of `for t in tasks:` on the task at position i of the list:
   * resume it, remove it from the list if it raised StopIteration, and set
   * `done` once the list is empty. It uses up one unit of the work left.
   */
  ghost function Resumed(names: seq<string>, i: nat, w: World): (v: World)
    requires Inv(names, w) && i < |w.live|
    ensures Inv(names, v)
    ensures Work(v) + 1 == Work(w)
    ensures |v.trace| == |w.trace| + 1 && w.trace <= v.trace
  {
    var k := w.live[i];
    var t := Step(names[k], w.pcs[k], w.q);
    StepSound(names[k], w.pcs[k], w.q);
    ApplyInv(names, i, w, t);
    ApplyWork(names, i, w, t);
    Apply(names, i, w, t)
  }

  /**
   * The rest of one pass of `for t in tasks:` from position i. The position
   * advances by one after every task, removed or not.
   */
  ghost function PassFrom(names: seq<string>, i: nat, w: World): (p: World)
    requires Inv(names, w)
    ensures Inv(names, p)
    ensures Work(p) + |p.trace| == Work(w) + |w.trace|
    ensures w.trace <= p.trace
    ensures i < |w.live| ==> |w.trace| < |p.trace|
    decreases |w.live| - i
  {
    if i < |w.live| then
      var v := Resumed(names, i, w);
      PassFrom(names, i + 1, v)
    else w
  }

  /** `while not done:` one pass after another; each pass resumes at least one task, so the loop terminates. */
  ghost function RunFrom(names: seq<string>, w: World): (r: World)
    requires Inv(names, w)
    ensures Inv(names, r) && r.done && r.live == []
    ensures Work(r) + |r.trace| == Work(w) + |w.trace|
    decreases Work(w)
  {
    if w.done then w else RunFrom(names, PassFrom(names, 0, w))
  }

  /** A non-empty task list of unfinished generators, one per name. */
  ghost predicate Ready(names: seq<string>, pcs0: seq<Pc>)
  {
    && |names| > 0 && |pcs0| == |names|
    && (forall k :: 0 <= k < |pcs0| ==> pcs0[k] != Done)
  }

  ghost function Start(names: seq<string>, pcs0: seq<Pc>, q0: seq<string>, log0: seq<Event>): (w: World)
    requires Ready(names, pcs0)
    ensures Inv(names, w)
  {
    World(Iota(|names|), pcs0, q0, log0, [], [], false)
  }

  /** The whole run of the scheduler on the generators pcs0 sharing the URL queue q0, after log0 was printed. */
  ghost function Schedule(names: seq<string>, pcs0: seq<Pc>, q0: seq<string>, log0: seq<Event>): (r: World)
    requires Ready(names, pcs0)
    ensures Inv(names, r) && r.done
  {
    RunFrom(names, Start(names, pcs0, q0, log0))
  }

  // ---------------------------------------------------------------------------
  // What a run preserves, measured against the world it started from
  // ---------------------------------------------------------------------------

  /** FIFO: the URLs dequeued so far, in the order dequeued, followed by the queue, make up the initial queue. */
  ghost predicate TakesInOrder(w0: World, w: World)
  {
    Items(w.taken) + w.q == w0.q
  }

  /** Every take is by one of the named tasks. */
  predicate TakenBy(names: seq<string>, taken: seq<Take<string>>)
  {
    forall m :: 0 <= m < |taken| ==> taken[m].task < |names|
  }

  /** The lines printed for the takes, in order: for each, its task's 'getting' and 'got' for the URL it dequeued. */
  function Fetches(names: seq<string>, taken: seq<Take<string>>): (r: seq<Event>)
    requires TakenBy(names, taken)
    ensures |r| == 2 * |taken|
  {
    if taken == [] then []
    else
      var name, url := names[taken[0].task], taken[0].item;
      [Getting(name, url), Got(name, url)] + Fetches(names, taken[1..])
  }

  /** The URLs reported as got are the URLs taken, in order. */
  lemma {:induction false} FetchesGot(names: seq<string>, taken: seq<Take<string>>)
    requires TakenBy(names, taken)
    ensures GotUrls(Fetches(names, taken)) == Items(taken)
  {
    if taken != [] {
      FetchesGot(names, taken[1..]);
      var name, url := names[taken[0].task], taken[0].item;
      assert Reported(name, [url]) == [Getting(name, url), Got(name, url)] + Reported(name, []);
      GotUrlsAppend([Getting(name, url), Got(name, url)], Fetches(names, taken[1..]));
      assert Items(taken) == [taken[0].item] + Items(taken[1..]);
    }
  }

  lemma FetchesCons(names: seq<string>, t: Take<string>, rest: seq<Take<string>>)
    requires t.task < |names| && TakenBy(names, rest)
    ensures TakenBy(names, [t] + rest)
    ensures Fetches(names, [t] + rest) == [Getting(names[t.task], t.item), Got(names[t.task], t.item)] + Fetches(names, rest)
  {
    assert ([t] + rest)[0] == t && ([t] + rest)[1..] == rest;
  }

  lemma {:induction false} FetchesAppend(names: seq<string>, a: seq<Take<string>>, b: seq<Take<string>>)
    requires TakenBy(names, a) && TakenBy(names, b)
    ensures TakenBy(names, a + b) && Fetches(names, a + b) == Fetches(names, a) + Fetches(names, b)
  {
    assert TakenBy(names, a + b) by {
      forall m | 0 <= m < |a + b|
        ensures (a + b)[m].task < |names|
      {
        if m >= |a| {
          assert (a + b)[m] == b[m - |a|];
        }
      }
    }
    if a != [] {
      assert (a + b)[0] == a[0] && (a + b)[1..] == a[1..] + b;
      FetchesAppend(names, a[1..], b);
      var h, c, d := [Getting(names[a[0].task], a[0].item), Got(names[a[0].task], a[0].item)], Fetches(names, a[1..]), Fetches(names, b);
      AppendAssoc(h, c, d);
    } else {
      assert a + b == b;
    }
  }

  lemma {:induction false} FetchesTakesBy(names: seq<string>, k: nat, urls: seq<string>)
    requires k < |names|
    ensures TakenBy(names, TakesBy(k, urls)) && Fetches(names, TakesBy(k, urls)) == Reported(names[k], urls)
  {
    if urls != [] {
      assert TakesBy(k, urls)[1..] == TakesBy(k, urls[1..]);
      FetchesTakesBy(names, k, urls[1..]);
      assert TakesBy(k, urls)[0] == Take(k, urls[0]);
    }
  }

  /** What was printed is what was printed before, then 'getting' and 'got' for each URL dequeued, by its task, in order. */
  ghost predicate LogsFetches(names: seq<string>, w0: World, w: World)
  {
    TakenBy(names, w.taken) && w.log == w0.log + Fetches(names, w.taken)
  }

  /** Each generator was resumed once per URL it dequeued, plus once more to stop. */
  ghost predicate ResumesCounted(w0: World, w: World)
    requires |w0.pcs| == |w.pcs|
  {
    forall k :: 0 <= k < |w.pcs| ==>
      ResumesOf(w.trace, k) + Remaining(w.pcs[k]) == |ItemsOf(w.taken, k)| + Remaining(w0.pcs[k])
  }

  /**
   * A task leaves the list exactly at its first StopIteration and is never
   * resumed again: a task still listed has never stopped, and a removed one
   * is finished and stopped once, on its last resumption.
   */
  ghost predicate RemovedOnStop(names: seq<string>, w: World)
    requires |w.pcs| == |names|
  {
    && StopCount(w.trace) + |w.live| == |names|
    && (forall k :: 0 <= k < |names| ==>
          if k in w.live then Stopped !in OutcomesOf(w.trace, k)
          else w.pcs[k] == Done && StopsOnceAtEnd(OutcomesOf(w.trace, k)))
  }

  /** A task only stops on finding the queue empty, and it stays empty. */
  ghost predicate DrainedOnStop(names: seq<string>, w: World)
  {
    |w.live| < |names| ==> w.q == []
  }

  ghost predicate Tracks(names: seq<string>, w0: World, w: World)
    requires |w0.pcs| == |w.pcs| == |names|
  {
    && TakesInOrder(w0, w) && LogsFetches(names, w0, w) && ResumesCounted(w0, w)
    && RemovedOnStop(names, w) && DrainedOnStop(names, w)
  }

  lemma ApplyTakesInOrder(names: seq<string>, w0: World, i: nat, w: World, t: Transition)
    requires |w.pcs| == |names| && i < |w.live| && w.live[i] < |w.pcs| && Moves(w.pcs[w.live[i]], w.q, t)
    requires t.took + t.q == w.q
    requires TakesInOrder(w0, w)
    ensures TakesInOrder(w0, Apply(names, i, w, t))
  {
    var k := w.live[i];
    ItemsAppend(w.taken, TakesBy(k, t.took));
    ItemsOfTakesBy(k, t.took);
    AppendAssoc(Items(w.taken), t.took, t.q);
  }

  lemma ApplyLogsFetches(names: seq<string>, w0: World, i: nat, w: World, t: Transition)
    requires |w.pcs| == |names| && i < |w.live| && w.live[i] < |w.pcs|
    requires t.events == Reported(names[w.live[i]], t.took)
    requires LogsFetches(names, w0, w)
    ensures LogsFetches(names, w0, Apply(names, i, w, t))
  {
    var k := w.live[i];
    var v := Apply(names, i, w, t);
    assert v.log == w.log + t.events && v.taken == w.taken + TakesBy(k, t.took);
    FetchesTakesBy(names, k, t.took);
    FetchesAppend(names, w.taken, TakesBy(k, t.took));
    AppendAssoc(w0.log, Fetches(names, w.taken), t.events);
  }

  lemma ApplyResumesCounted(names: seq<string>, w0: World, i: nat, w: World, t: Transition)
    requires |w.pcs| == |names| && i < |w.live| && w.live[i] < |w.pcs| && Moves(w.pcs[w.live[i]], w.q, t)
    requires t.took + t.q == w.q && |t.took| == (if t.outcome == Yielded then 1 else 0)
    requires |w0.pcs| == |names| && ResumesCounted(w0, w)
    ensures ResumesCounted(w0, Apply(names, i, w, t))
  {
    var k := w.live[i];
    var v := Apply(names, i, w, t);
    forall m | 0 <= m < |v.pcs|
      ensures ResumesOf(v.trace, m) + Remaining(v.pcs[m]) == |ItemsOf(v.taken, m)| + Remaining(w0.pcs[m])
    {
      OutcomesOfSnoc(w.trace, Resumption(k, t.outcome), m);
      ItemsOfAppend(w.taken, TakesBy(k, t.took), m);
      ItemsOfTakes(k, t.took, m);
    }
  }

  lemma ApplyRemovedOnStop(names: seq<string>, i: nat, w: World, t: Transition)
    requires Inv(names, w) && i < |w.live| && Moves(w.pcs[w.live[i]], w.q, t)
    requires RemovedOnStop(names, w)
    ensures RemovedOnStop(names, Apply(names, i, w, t))
  {
    var v := Apply(names, i, w, t);
    RemoveFromIncreasing(w.live, i);
    StopCountAppend(w.trace, [Resumption(w.live[i], t.outcome)]);
    forall m | 0 <= m < |names|
      ensures if m in v.live then Stopped !in OutcomesOf(v.trace, m)
              else v.pcs[m] == Done && StopsOnceAtEnd(OutcomesOf(v.trace, m))
    {
      ApplyTaskRemoved(names, i, w, t, m);
    }
  }

  /** The same for task m alone. */
  lemma ApplyTaskRemoved(names: seq<string>, i: nat, w: World, t: Transition, m: nat)
    requires Inv(names, w) && i < |w.live| && Moves(w.pcs[w.live[i]], w.q, t) && m < |names|
    requires if m in w.live then Stopped !in OutcomesOf(w.trace, m)
             else w.pcs[m] == Done && StopsOnceAtEnd(OutcomesOf(w.trace, m))
    ensures var v := Apply(names, i, w, t);
      if m in v.live then Stopped !in OutcomesOf(v.trace, m)
      else v.pcs[m] == Done && StopsOnceAtEnd(OutcomesOf(v.trace, m))
  {
    var k := w.live[i];
    var v := Apply(names, i, w, t);
    RemoveFromIncreasing(w.live, i);
    OutcomesOfSnoc(w.trace, Resumption(k, t.outcome), m);
    if m == k {
      var o := OutcomesOf(v.trace, k);
      assert o == OutcomesOf(w.trace, k) + [t.outcome];
      assert o[..|o| - 1] == OutcomesOf(w.trace, k);
    }
  }

  lemma ApplyDrainedOnStop(names: seq<string>, i: nat, w: World, t: Transition)
    requires Inv(names, w) && i < |w.live| && Moves(w.pcs[w.live[i]], w.q, t)
    requires t.took + t.q == w.q
    requires DrainedOnStop(names, w)
    ensures DrainedOnStop(names, Apply(names, i, w, t))
  {
  }

  lemma ResumedTracks(names: seq<string>, w0: World, i: nat, w: World)
    requires Inv(names, w) && i < |w.live| && |w0.pcs| == |names| && Tracks(names, w0, w)
    ensures Tracks(names, w0, Resumed(names, i, w))
  {
    var k := w.live[i];
    var t := Step(names[k], w.pcs[k], w.q);
    StepSound(names[k], w.pcs[k], w.q);
    ApplyTakesInOrder(names, w0, i, w, t);
    ApplyLogsFetches(names, w0, i, w, t);
    ApplyResumesCounted(names, w0, i, w, t);
    ApplyRemovedOnStop(names, i, w, t);
    ApplyDrainedOnStop(names, i, w, t);
  }

  lemma {:induction false} PassTracks(names: seq<string>, w0: World, i: nat, w: World)
    requires Inv(names, w) && |w0.pcs| == |names| && Tracks(names, w0, w)
    ensures Tracks(names, w0, PassFrom(names, i, w))
    decreases |w.live| - i
  {
    if i < |w.live| {
      ResumedTracks(names, w0, i, w);
      PassTracks(names, w0, i + 1, Resumed(names, i, w));
    }
  }

  lemma {:induction false} RunTracks(names: seq<string>, w0: World, w: World)
    requires Inv(names, w) && |w0.pcs| == |names| && Tracks(names, w0, w)
    ensures Tracks(names, w0, RunFrom(names, w))
    decreases Work(w)
  {
    if !w.done {
      PassTracks(names, w0, 0, w);
      RunTracks(names, w0, PassFrom(names, 0, w));
    }
  }

  lemma StartTracks(names: seq<string>, pcs0: seq<Pc>, q0: seq<string>, log0: seq<Event>)
    requires Ready(names, pcs0)
    ensures var w0 := Start(names, pcs0, q0, log0); Tracks(names, w0, w0)
  {
    var w0 := Start(names, pcs0, q0, log0);
    forall k | 0 <= k < |names|
      ensures k in w0.live
    {
      assert w0.live[k] == k;
    }
    assert w0.log + Fetches(names, w0.taken) == w0.log;
  }

  lemma ScheduleTracks(names: seq<string>, pcs0: seq<Pc>, q0: seq<string>, log0: seq<Event>)
    requires Ready(names, pcs0)
    ensures var w0 := Start(names, pcs0, q0, log0); Tracks(names, w0, Schedule(names, pcs0, q0, log0))
  {
    StartTracks(names, pcs0, q0, log0);
    RunTracks(names, Start(names, pcs0, q0, log0), Start(names, pcs0, q0, log0));
  }

  // ---------------------------------------------------------------------------
  // What a whole run does
  // ---------------------------------------------------------------------------

  /**
   * The scheduler terminates: `done` ends set with the task list empty, every
   * generator finished and the queue empty, after exactly one `next()` call
   * per URL plus one final call per unfinished generator.
   */
  lemma ScheduleCompletes(names: seq<string>, pcs0: seq<Pc>, q0: seq<string>, log0: seq<Event>)
    requires Ready(names, pcs0)
    ensures var w := Schedule(names, pcs0, q0, log0);
      && w.done && w.live == [] && w.q == []
      && (forall k :: 0 <= k < |names| ==> w.pcs[k] == Done)
      && |w.trace| == |names| + |q0|
  {
    var w := Schedule(names, pcs0, q0, log0);
    ScheduleTracks(names, pcs0, q0, log0);
    AllDone(w.pcs);
    SumRemainingAllUnfinished(pcs0);
  }

  lemma {:induction false} SumRemainingAllUnfinished(pcs: seq<Pc>)
    requires forall k :: 0 <= k < |pcs| ==> pcs[k] != Done
    ensures SumRemaining(pcs) == |pcs|
  {
    if pcs != [] {
      SumRemainingAllUnfinished(pcs[1..]);
    }
  }

  /** Every queued URL is dequeued exactly once, by one task, and in queue order (FIFO). */
  lemma ScheduleTakesInOrder(names: seq<string>, pcs0: seq<Pc>, q0: seq<string>, log0: seq<Event>)
    requires Ready(names, pcs0)
    ensures Items(Schedule(names, pcs0, q0, log0).taken) == q0
  {
    ScheduleTracks(names, pcs0, q0, log0);
    ScheduleCompletes(names, pcs0, q0, log0);
  }

  /**
   * The run prints 'getting' and 'got' for each URL, by the task that
   * dequeued it, in the order dequeued, and nothing else; so every queued
   * URL is reported as got exactly once, in queue order.
   */
  lemma ScheduleLogs(names: seq<string>, pcs0: seq<Pc>, q0: seq<string>, log0: seq<Event>)
    requires Ready(names, pcs0)
    ensures var w := Schedule(names, pcs0, q0, log0);
      && TakenBy(names, w.taken) && w.log == log0 + Fetches(names, w.taken)
      && GotUrls(w.log) == GotUrls(log0) + q0
  {
    var w := Schedule(names, pcs0, q0, log0);
    ScheduleTracks(names, pcs0, q0, log0);
    ScheduleTakesInOrder(names, pcs0, q0, log0);
    GotUrlsAppend(log0, Fetches(names, w.taken));
    FetchesGot(names, w.taken);
  }

  /**
   * Each generator is resumed once per URL it dequeued plus once for its
   * final StopIteration, and exactly one `next()` call per URL yields.
   */
  lemma ScheduleResumes(names: seq<string>, pcs0: seq<Pc>, q0: seq<string>, log0: seq<Event>)
    requires Ready(names, pcs0)
    ensures var w := Schedule(names, pcs0, q0, log0);
      && (forall k :: 0 <= k < |names| ==> ResumesOf(w.trace, k) == |ItemsOf(w.taken, k)| + 1)
      && YieldCount(w.trace) == |q0|
  {
    var w := Schedule(names, pcs0, q0, log0);
    ScheduleTracks(names, pcs0, q0, log0);
    ScheduleCompletes(names, pcs0, q0, log0);
    YieldsAndStops(w.trace);
  }

  /** Every generator raised StopIteration exactly once, on its last resumption, and was never resumed after it. */
  lemma ScheduleStopsOnce(names: seq<string>, pcs0: seq<Pc>, q0: seq<string>, log0: seq<Event>)
    requires Ready(names, pcs0)
    ensures var w := Schedule(names, pcs0, q0, log0);
      forall k :: 0 <= k < |names| ==> StopsOnceAtEnd(OutcomesOf(w.trace, k))
  {
    ScheduleTracks(names, pcs0, q0, log0);
  }

  // ---------------------------------------------------------------------------
  // Fairness of one pass
  // ---------------------------------------------------------------------------

  /** The resumption the `for` body records, and what it does to the list. */
  lemma ResumedLive(names: seq<string>, i: nat, w: World)
    requires Inv(names, w) && i < |w.live|
    ensures var v := Resumed(names, i, w);
      && |v.trace| == |w.trace| + 1 && v.trace[..|w.trace|] == w.trace
      && v.trace[|w.trace|].task == w.live[i]
      && v.live == AfterResume(w.live, i, v.trace[|w.trace|].outcome)
  {
    var k := w.live[i];
    var t := Step(names[k], w.pcs[k], w.q);
    assert Resumed(names, i, w) == Apply(names, i, w, t);
    RemoveFromIncreasing(w.live, i);
  }

  /** The resumptions made by one pass of `for t in tasks:` from position i. */
  ghost function PassSegment(names: seq<string>, i: nat, w: World): seq<Resumption>
    requires Inv(names, w)
  {
    PassFrom(names, i, w).trace[|w.trace|..]
  }

  /** The pass from position i has the shape of the `for` loop over the list. */
  ghost predicate ShapedPass(names: seq<string>, i: nat, w: World)
    requires Inv(names, w)
  {
    PassShaped(w.live, i, PassSegment(names, i, w))
  }

  /**
   * One step of a pass, over the world v its first resumption leaves: the
   * pass from position i has the shape of the `for` loop whenever the rest
   * of it, from position i + 1 over the list as that resumption left it, has.
   */
  lemma PassShape(names: seq<string>, i: nat, w: World) returns (v: World)
    requires Inv(names, w) && i < |w.live|
    ensures Inv(names, v) && |v.live| <= |w.live|
    ensures ShapedPass(names, i + 1, v) ==> ShapedPass(names, i, w)
  {
    v := Resumed(names, i, w);
    ResumedLive(names, i, w);
    var r := v.trace[|w.trace|];
    var p := PassFrom(names, i + 1, v);
    assert p.trace[|w.trace|] == r;
    SliceCons(p.trace, |w.trace|);
    if ShapedPass(names, i + 1, v) {
      ShapedCons(w.live, i, r, PassSegment(names, i + 1, v));
    }
  }

  /** A pass from past the end of the list resumes nothing. */
  lemma PassEnd(names: seq<string>, i: nat, w: World)
    requires Inv(names, w) && |w.live| <= i
    ensures ShapedPass(names, i, w)
  {
  }

  /** PassShape and PassEnd together: the step of the induction in PassIsShaped. */
  lemma PassStep(names: seq<string>, i: nat, w: World) returns (v: World)
    requires Inv(names, w)
    ensures Inv(names, v) && |v.live| <= |w.live|
    ensures if i < |w.live| then ShapedPass(names, i + 1, v) ==> ShapedPass(names, i, w) else ShapedPass(names, i, w)
  {
    if i < |w.live| {
      v := PassShape(names, i, w);
    } else {
      v := w;
      PassEnd(names, i, w);
    }
  }

  /** Whatever the generators do, the resumptions of a pass have the shape of the `for` loop over the list. */
  lemma {:induction false} PassIsShaped(names: seq<string>, i: nat, w: World)
    requires Inv(names, w)
    ensures ShapedPass(names, i, w)
    decreases |w.live| - i
  {
    var v := PassStep(names, i, w);
    if i < |w.live| {
      PassIsShaped(names, i + 1, v);
    }
  }

  /**
   * A pass resumes tasks in list order, each at most once, starting with the
   * task at position i and only tasks still listed at or after it.
   */
  lemma PassResumesInOrder(names: seq<string>, i: nat, w: World)
    requires Inv(names, w)
    ensures var seg := PassSegment(names, i, w);
      && Increasing(TasksOf(seg))
      && (|w.live| <= i ==> seg == [])
      && (i < |w.live| ==> |seg| > 0 && seg[0].task == w.live[i])
      && (i < |w.live| ==> forall m :: 0 <= m < |seg| ==> seg[m].task in w.live && w.live[i] <= seg[m].task)
  {
    PassIsShaped(names, i, w);
    ShapedWithin(w.live, i, PassSegment(names, i, w));
    ShapedIncreasing(w.live, i, PassSegment(names, i, w));
  }

  /**
   * The task after a removed one is skipped: in a pass, the task following
   * position j in the list is resumed exactly when the task at j was not
   * removed (did not raise StopIteration) earlier in the same pass.
   */
  lemma PassSkipsAfterRemoval(names: seq<string>, i: nat, w: World)
    requires Inv(names, w)
    ensures var seg := PassSegment(names, i, w);
      forall j :: i <= j && j + 1 < |w.live| ==>
        (w.live[j + 1] in TasksOf(seg) <==> Resumption(w.live[j], Stopped) !in seg)
  {
    PassIsShaped(names, i, w);
    ShapedSkips(w.live, i, PassSegment(names, i, w));
  }

  // ---------------------------------------------------------------------------
  // Two tasks sharing the queue, as in example_5.py
  // ---------------------------------------------------------------------------

  /**
   * A `next()` call that finds the queue non-empty dequeues its head and
   * yields; the task stays listed and the pass goes on at the next position.
   */
  lemma YieldStep(names: seq<string>, i: nat, w: World) returns (v: World)
    requires Inv(names, w) && i < |w.live| && w.q != []
    ensures v == Resumed(names, i, w) && Inv(names, v)
    ensures var k := w.live[i];
      && v.live == w.live && v.done == w.done && v.q == w.q[1..]
      && v.taken == w.taken + [Take(k, w.q[0])]
      && v.trace == w.trace + [Resumption(k, Yielded)]
  {
    var k := w.live[i];
    var t := Step(names[k], w.pcs[k], w.q);
    v := Resumed(names, i, w);
    assert v == Apply(names, i, w, t);
    assert TakesBy(k, t.took) == [Take(k, w.q[0])];
  }

  /**
   * A `next()` call that finds the queue empty raises StopIteration and
   * prints nothing; the task leaves the list and the pass goes on at the
   * next position of the shortened list.
   */
  lemma StopStep(names: seq<string>, i: nat, w: World) returns (v: World)
    requires Inv(names, w) && i < |w.live| && w.q == []
    ensures v == Resumed(names, i, w) && Inv(names, v)
    ensures && v.live == AfterResume(w.live, i, Stopped) && v.done == (v.live == []) && v.q == []
      && v.log == w.log && v.taken == w.taken
      && v.trace == w.trace + [Resumption(w.live[i], Stopped)]
  {
    var k := w.live[i];
    var t := Step(names[k], w.pcs[k], w.q);
    v := Resumed(names, i, w);
    assert v == Apply(names, i, w, t);
    RemoveFromIncreasing(w.live, i);
    assert TakesBy(k, t.took) == [];
  }

  /** Who dequeues what when two tasks share the queue q: One takes q[0], q[2], … and Two takes q[1], q[3], … */
  function TwoTaskTakes(q: seq<string>): (r: seq<Take<string>>)
    ensures |r| == |q|
  {
    if q == [] then []
    else if |q| == 1 then [Take(0, q[0])]
    else [Take(0, q[0]), Take(1, q[1])] + TwoTaskTakes(q[2..])
  }

  /** Position j of the queue is taken by task j % 2: everything queued is dequeued once, by One and Two in turn. */
  lemma {:induction false} TwoTaskTakesAt(q: seq<string>)
    ensures forall j :: 0 <= j < |q| ==> TwoTaskTakes(q)[j] == Take(j % 2, q[j])
  {
    if |q| >= 2 {
      TwoTaskTakesAt(q[2..]);
      var rest := TwoTaskTakes(q[2..]);
      assert TwoTaskTakes(q) == [Take(0, q[0]), Take(1, q[1])] + rest;
      forall j | 2 <= j < |q|
        ensures TwoTaskTakes(q)[j] == Take(j % 2, q[j])
      {
        assert TwoTaskTakes(q)[j] == rest[j - 2] && q[2..][j - 2] == q[j];
        assert (j - 2) % 2 == j % 2;
      }
    }
  }

  /**
   * The resumptions of two tasks on n queued URLs: they alternate, each
   * dequeuing one URL; then the task whose turn it is finds the queue empty
   * and stops. When n is even that is One, it is removed, Two is skipped for
   * the rest of that pass, and Two stops in the next pass. When n is odd Two
   * stops first in the pass in which One took the last URL, and One stops in
   * the next pass.
   */
  function TwoTaskTrace(n: nat): (r: seq<Resumption>)
    ensures |r| == n + 2
  {
    if n == 0 then [Resumption(0, Stopped), Resumption(1, Stopped)]
    else if n == 1 then [Resumption(0, Yielded), Resumption(1, Stopped), Resumption(0, Stopped)]
    else [Resumption(0, Yielded), Resumption(1, Yielded)] + TwoTaskTrace(n - 2)
  }

  /** The first n resumptions alternate One, Two, One, …, each yielding. */
  lemma {:induction false} TwoTaskTraceYields(n: nat)
    ensures forall j :: 0 <= j < n ==> TwoTaskTrace(n)[j] == Resumption(j % 2, Yielded)
  {
    if n >= 2 {
      TwoTaskTraceYields(n - 2);
      var rest := TwoTaskTrace(n - 2);
      assert TwoTaskTrace(n) == [Resumption(0, Yielded), Resumption(1, Yielded)] + rest;
      forall j | 2 <= j < n
        ensures TwoTaskTrace(n)[j] == Resumption(j % 2, Yielded)
      {
        assert TwoTaskTrace(n)[j] == rest[j - 2];
        assert (j - 2) % 2 == j % 2;
      }
    }
  }

  /** The last two resumptions: on an even count One stops first, on an odd count Two does. */
  lemma {:induction false} TwoTaskTraceEnds(n: nat)
    ensures TwoTaskTrace(n)[n..] == if n % 2 == 0 then [Resumption(0, Stopped), Resumption(1, Stopped)]
                                    else [Resumption(1, Stopped), Resumption(0, Stopped)]
  {
    if n >= 2 {
      TwoTaskTraceEnds(n - 2);
      var e := [Resumption(0, Yielded), Resumption(1, Yielded)];
      assert (e + TwoTaskTrace(n - 2))[n..] == TwoTaskTrace(n - 2)[n - 2..];
    }
  }

  /** A pass at or past the end of the list is over: it changes nothing. */
  lemma PassOver(names: seq<string>, i: nat, w: World)
    requires Inv(names, w) && |w.live| <= i
    ensures PassFrom(names, i, w) == w
  {
  }

  /** Before the end of the list, the pass resumes the task at position i and goes on at i + 1. */
  lemma PassNext(names: seq<string>, i: nat, w: World)
    requires Inv(names, w) && i < |w.live|
    ensures PassFrom(names, i, w) == PassFrom(names, i + 1, Resumed(names, i, w))
  {
  }

  /** A pass with both tasks listed and two URLs or more queued: each dequeues one and yields. */
  lemma YieldYieldPass(names: seq<string>, w: World)
    requires Inv(names, w) && w.live == [0, 1] && |w.q| >= 2
    ensures var p := PassFrom(names, 0, w);
      && p.live == [0, 1] && p.q == w.q[2..] && !p.done
      && p.taken == w.taken + [Take(0, w.q[0]), Take(1, w.q[1])]
      && p.trace == w.trace + [Resumption(0, Yielded), Resumption(1, Yielded)]
  {
    var v, u := YieldTwice(names, 0, w);
    PassNext(names, 0, w);
    PassNext(names, 1, v);
    PassOver(names, 2, u);
    assert PassFrom(names, 0, w) == u;
  }

  /** The tasks at positions i and i + 1 both find a URL queued: each dequeues one and yields. */
  lemma YieldTwice(names: seq<string>, i: nat, w: World) returns (v: World, u: World)
    requires Inv(names, w) && i + 1 < |w.live| && |w.q| >= 2
    ensures v == Resumed(names, i, w) && Inv(names, v) && v.live == w.live
    ensures u == Resumed(names, i + 1, v) && Inv(names, u)
    ensures u.live == w.live && u.q == w.q[2..] && u.done == w.done
    ensures u.taken == w.taken + [Take(w.live[i], w.q[0]), Take(w.live[i + 1], w.q[1])]
    ensures u.trace == w.trace + [Resumption(w.live[i], Yielded), Resumption(w.live[i + 1], Yielded)]
  {
    v := YieldStep(names, i, w);
    u := YieldStep(names, i + 1, v);
    assert w.q[1..][0] == w.q[1] && w.q[1..][1..] == w.q[2..];
    AppendPair(w.taken, Take(w.live[i], w.q[0]), Take(w.live[i + 1], w.q[1]));
    AppendPair(w.trace, Resumption(w.live[i], Yielded), Resumption(w.live[i + 1], Yielded));
  }

  /** A pass with both tasks listed and one URL queued: One dequeues it and yields, Two stops and is removed. */
  lemma YieldStopPass(names: seq<string>, w: World)
    requires Inv(names, w) && w.live == [0, 1] && |w.q| == 1
    ensures var p := PassFrom(names, 0, w);
      && p.live == [0] && p.q == [] && !p.done
      && p.taken == w.taken + [Take(0, w.q[0])]
      && p.trace == w.trace + [Resumption(0, Yielded), Resumption(1, Stopped)]
  {
    var v := YieldStep(names, 0, w);
    var u := StopStep(names, 1, v);
    PassNext(names, 0, w);
    PassNext(names, 1, v);
    assert u.live == [0];
    PassOver(names, 2, u);
    assert PassFrom(names, 0, w) == u;
    AppendPair(w.trace, Resumption(0, Yielded), Resumption(1, Stopped));
  }

  /**
   * A pass with both tasks listed and the queue empty: One stops and is
   * removed, so Two moves to position 0 and the pass, at position 1, is over
   * without resuming it; Two is still listed and `done` is not set.
   */
  lemma StopSkipPass(names: seq<string>, w: World)
    requires Inv(names, w) && w.live == [0, 1] && w.q == []
    ensures var p := PassFrom(names, 0, w);
      && p.live == [1] && p.q == [] && !p.done && p.taken == w.taken
      && p.trace == w.trace + [Resumption(0, Stopped)]
      && PassSegment(names, 0, w) == [Resumption(0, Stopped)]
  {
    var v := StopStep(names, 0, w);
    PassNext(names, 0, w);
    assert v.live == [1];
    PassOver(names, 1, v);
    assert PassFrom(names, 0, w) == v;
  }

  /** The last pass: the one task left finds the queue empty, stops, and `done` is set. */
  lemma LastPass(names: seq<string>, w: World)
    requires Inv(names, w) && |w.live| == 1 && w.q == []
    ensures var p := PassFrom(names, 0, w);
      && p.live == [] && p.done && p.taken == w.taken
      && p.trace == w.trace + [Resumption(w.live[0], Stopped)]
      && RunFrom(names, p) == p
  {
    var v := StopStep(names, 0, w);
    PassNext(names, 0, w);
    assert v.live == [];
    PassOver(names, 1, v);
    assert PassFrom(names, 0, w) == v;
  }

  lemma TwoTaskTakesUnfold(a: seq<Take<string>>, q: seq<string>)
    requires |q| >= 2
    ensures a + [Take(0, q[0]), Take(1, q[1])] + TwoTaskTakes(q[2..]) == a + TwoTaskTakes(q)
  {
    var b, c := [Take(0, q[0]), Take(1, q[1])], TwoTaskTakes(q[2..]);
    assert TwoTaskTakes(q) == b + c;
    AppendAssoc(a, b, c);
  }

  lemma TwoTaskTraceUnfold(d: seq<Resumption>, n: nat)
    ensures n >= 2 ==> d + [Resumption(0, Yielded), Resumption(1, Yielded)] + TwoTaskTrace(n - 2) == d + TwoTaskTrace(n)
    ensures n == 1 ==> d + [Resumption(0, Yielded), Resumption(1, Stopped)] + [Resumption(0, Stopped)] == d + TwoTaskTrace(n)
    ensures n == 0 ==> d + [Resumption(0, Stopped)] + [Resumption(1, Stopped)] == d + TwoTaskTrace(n)
  {
    if n >= 2 {
      var e, f := [Resumption(0, Yielded), Resumption(1, Yielded)], TwoTaskTrace(n - 2);
      AppendAssoc(d, e, f);
    } else if n == 1 {
      var g, h := [Resumption(0, Yielded), Resumption(1, Stopped)], [Resumption(0, Stopped)];
      AppendAssoc(d, g, h);
    } else {
      var g, h := [Resumption(0, Stopped)], [Resumption(1, Stopped)];
      AppendAssoc(d, g, h);
    }
  }

  /** A run not yet done is one pass followed by the rest of the run. */
  lemma RunUnfold(names: seq<string>, w: World)
    requires Inv(names, w) && !w.done
    ensures RunFrom(names, w) == RunFrom(names, PassFrom(names, 0, w))
  {
  }

  /** From any world with both tasks listed, the rest of the run alternates them over the queue as above. */
  lemma {:induction false} TwoTaskRun(names: seq<string>, w: World)
    requires Inv(names, w) && w.live == [0, 1]
    ensures var r := RunFrom(names, w);
      && r.taken == w.taken + TwoTaskTakes(w.q)
      && r.trace == w.trace + TwoTaskTrace(|w.q|)
    decreases |w.q|
  {
    RunUnfold(names, w);
    var p := PassFrom(names, 0, w);
    TwoTaskTraceUnfold(w.trace, |w.q|);
    if |w.q| >= 2 {
      YieldYieldPass(names, w);
      TwoTaskRun(names, p);
      TwoTaskTakesUnfold(w.taken, w.q);
    } else if |w.q| == 1 {
      YieldStopPass(names, w);
      LastPass(names, p);
    } else {
      StopSkipPass(names, w);
      LastPass(names, p);
    }
  }

  /** The run of two fresh (or suspended) tasks on the queue q0: who takes what, who is resumed when, and what is printed. */
  lemma TwoTaskSchedule(names: seq<string>, pcs0: seq<Pc>, q0: seq<string>)
    requires Ready(names, pcs0) && |names| == 2
    ensures var w := Schedule(names, pcs0, q0, []);
      && w.taken == TwoTaskTakes(q0)
      && w.trace == TwoTaskTrace(|q0|)
      && TakenBy(names, w.taken) && w.log == Fetches(names, TwoTaskTakes(q0))
  {
    var w0 := Start(names, pcs0, q0, []);
    assert w0.live == [0, 1];
    TwoTaskRun(names, w0);
    ScheduleLogs(names, pcs0, q0, []);
  }

  // ---------------------------------------------------------------------------
  // example_5.py's run
  // ---------------------------------------------------------------------------

  /** The URLs `main()` puts on the queue. */
  const Urls: seq<string> := ["http://google.com", "http://yahoo.com", "http://linkedin.com",
                              "http://shutterfly.com", "http://mypublisher.com", "http://facebook.com"]

  /**
   * The run `main()` starts: fresh tasks 'One' and 'Two' on the six URLs,
   * nothing printed yet. It ends done with the queue empty, One and Two
   * alternating over the URLs, and 'getting'/'got' printed for each.
   */
  ghost function MainRun(): (w: World)
    ensures w.done && w.q == []
    ensures w.taken == TwoTaskTakes(Urls) && w.trace == TwoTaskTrace(|Urls|)
    ensures TakenBy(["One", "Two"], w.taken) && w.log == Fetches(["One", "Two"], w.taken)
    ensures GotUrls(w.log) == Urls
  {
    TwoTaskSchedule(["One", "Two"], [NotStarted, NotStarted], Urls);
    ScheduleCompletes(["One", "Two"], [NotStarted, NotStarted], Urls, []);
    ScheduleLogs(["One", "Two"], [NotStarted, NotStarted], Urls, []);
    Schedule(["One", "Two"], [NotStarted, NotStarted], Urls, [])
  }

  /** With two tasks, whatever is queued is taken by one of them. */
  lemma TwoTaskTakenBy(names: seq<string>, q: seq<string>)
    requires |names| == 2
    ensures TakenBy(names, TwoTaskTakes(q))
  {
    TwoTaskTakesAt(q);
  }

  /** One pass's worth of two-task takes: One takes q[0], then Two takes q[1]. */
  lemma TwoTaskPair(q: seq<string>)
    requires |q| >= 2
    ensures var ts, rest := TwoTaskTakes(q), TwoTaskTakes(q[2..]);
      && ts == [Take(0, q[0]), Take(1, q[1])] + rest
      && ItemsOf(ts, 0) == [q[0]] + ItemsOf(rest, 0)
      && ItemsOf(ts, 1) == [q[1]] + ItemsOf(rest, 1)
  {
    ItemsOfPair(q[0], q[1], TwoTaskTakes(q[2..]));
  }

  /** What those two takes print: 'getting' and 'got' by One for q[0], then by Two for q[1]. */
  lemma TwoTaskPairFetches(names: seq<string>, q: seq<string>)
    requires |names| == 2 && |q| >= 2
    ensures TakenBy(names, TwoTaskTakes(q)) && TakenBy(names, TwoTaskTakes(q[2..]))
    ensures Fetches(names, TwoTaskTakes(q)) ==
      [Getting(names[0], q[0]), Got(names[0], q[0]), Getting(names[1], q[1]), Got(names[1], q[1])]
      + Fetches(names, TwoTaskTakes(q[2..]))
  {
    var rest := TwoTaskTakes(q[2..]);
    TwoTaskPair(q);
    TwoTaskTakenBy(names, q);
    TwoTaskTakenBy(names, q[2..]);
    var ts1 := [Take(1, q[1])] + rest;
    FetchesCons(names, Take(0, q[0]), ts1);
    FetchesCons(names, Take(1, q[1]), rest);
    var e0, e1 := [Getting(names[0], q[0]), Got(names[0], q[0])], [Getting(names[1], q[1]), Got(names[1], q[1])];
    AppendAssoc(e0, e1, Fetches(names, rest));
  }

  /** Six alternating yields, then One stops, then Two. */
  lemma SixTrace()
    ensures TwoTaskTrace(6) == [Resumption(0, Yielded), Resumption(1, Yielded), Resumption(0, Yielded),
                                Resumption(1, Yielded), Resumption(0, Yielded), Resumption(1, Yielded),
                                Resumption(0, Stopped), Resumption(1, Stopped)]
  {
    TwoTaskTraceEnds(6);
    TwoTaskTraceYields(6);
    var t := TwoTaskTrace(6);
    assert t == t[..6] + t[6..];
  }

  /** Six URLs split between two tasks: One takes the first, third and fifth, Two the others. */
  lemma SixTakes(q: seq<string>)
    requires |q| == 6
    ensures ItemsOf(TwoTaskTakes(q), 0) == [q[0], q[2], q[4]]
    ensures ItemsOf(TwoTaskTakes(q), 1) == [q[1], q[3], q[5]]
  {
    var q2, q4 := q[2..], q[4..];
    TwoTaskPair(q);
    TwoTaskPair(q2);
    TwoTaskPair(q4);
    assert q2[2..] == q4 && q4[2..] == [];
    assert q2[0] == q[2] && q2[1] == q[3] && q4[0] == q[4] && q4[1] == q[5];
  }

  /** What two tasks print for six URLs. */
  lemma SixFetches(names: seq<string>, q: seq<string>)
    requires |names| == 2 && |q| == 6
    ensures TakenBy(names, TwoTaskTakes(q))
    ensures Fetches(names, TwoTaskTakes(q)) ==
      [Getting(names[0], q[0]), Got(names[0], q[0]), Getting(names[1], q[1]), Got(names[1], q[1]),
       Getting(names[0], q[2]), Got(names[0], q[2]), Getting(names[1], q[3]), Got(names[1], q[3]),
       Getting(names[0], q[4]), Got(names[0], q[4]), Getting(names[1], q[5]), Got(names[1], q[5])]
  {
    var q2, q4 := q[2..], q[4..];
    TwoTaskPairFetches(names, q);
    TwoTaskPairFetches(names, q2);
    TwoTaskPairFetches(names, q4);
    assert q2[2..] == q4 && q4[2..] == [];
    assert q2[0] == q[2] && q2[1] == q[3] && q4[0] == q[4] && q4[1] == q[5];
  }

  /**
   * Two tasks on six URLs: One fetches the first, third and fifth URL and Two
   * the second, fourth and sixth, each URL once, the two alternating for
   * three passes. In the fourth pass One finds the queue empty and stops,
   * Two is skipped, and in the fifth Two stops and `done` is set.
   */
  lemma SixUrlRun(names: seq<string>, pcs0: seq<Pc>, q: seq<string>)
    requires Ready(names, pcs0) && |names| == 2 && |q| == 6
    ensures var w := Schedule(names, pcs0, q, []);
      && ItemsOf(w.taken, 0) == [q[0], q[2], q[4]]
      && ItemsOf(w.taken, 1) == [q[1], q[3], q[5]]
      && w.trace == [Resumption(0, Yielded), Resumption(1, Yielded), Resumption(0, Yielded),
                     Resumption(1, Yielded), Resumption(0, Yielded), Resumption(1, Yielded),
                     Resumption(0, Stopped), Resumption(1, Stopped)]
      && w.log == [Getting(names[0], q[0]), Got(names[0], q[0]), Getting(names[1], q[1]), Got(names[1], q[1]),
                   Getting(names[0], q[2]), Got(names[0], q[2]), Getting(names[1], q[3]), Got(names[1], q[3]),
                   Getting(names[0], q[4]), Got(names[0], q[4]), Getting(names[1], q[5]), Got(names[1], q[5])]
  {
    TwoTaskSchedule(names, pcs0, q);
    SixTrace();
    SixTakes(q);
    SixFetches(names, q);
  }

  /** example_5.py's run, on its six URLs. */
  lemma Example5Scenario()
    ensures var w := MainRun();
      && ItemsOf(w.taken, 0) == [Urls[0], Urls[2], Urls[4]]
      && ItemsOf(w.taken, 1) == [Urls[1], Urls[3], Urls[5]]
      && w.trace == [Resumption(0, Yielded), Resumption(1, Yielded), Resumption(0, Yielded),
                     Resumption(1, Yielded), Resumption(0, Yielded), Resumption(1, Yielded),
                     Resumption(0, Stopped), Resumption(1, Stopped)]
      && w.log == [Getting("One", Urls[0]), Got("One", Urls[0]), Getting("Two", Urls[1]), Got("Two", Urls[1]),
                   Getting("One", Urls[2]), Got("One", Urls[2]), Getting("Two", Urls[3]), Got("Two", Urls[3]),
                   Getting("One", Urls[4]), Got("One", Urls[4]), Getting("Two", Urls[5]), Got("Two", Urls[5])]
  {
    SixUrlRun(["One", "Two"], [NotStarted, NotStarted], Urls);
  }

  // ---------------------------------------------------------------------------
  // The scheduler loop itself
  // ---------------------------------------------------------------------------

  function Names(tasks: seq<Task>): (r: seq<string>)
    ensures |r| == |tasks| && forall k :: 0 <= k < |tasks| ==> r[k] == tasks[k].name
  {
    seq(|tasks|, k requires 0 <= k < |tasks| => tasks[k].name)
  }

  /** The generators' states, by task number. */
  ghost function Pcs(tasks: seq<Task>): (r: seq<Pc>)
    reads tasks
    ensures |r| == |tasks| && forall k :: 0 <= k < |tasks| ==> r[k] == tasks[k].Pc()
  {
    if tasks == [] then [] else [tasks[0].Pc()] + Pcs(tasks[1..])
  }

  /** All generators were created on the same queue and print to the same output. */
  predicate Shares(tasks: seq<Task>, queue: WorkQueue<string>, out: Log)
  {
    forall k :: 0 <= k < |tasks| ==> tasks[k].queue == queue && tasks[k].out == out
  }

  /** The objects are in the state w describes: generators, queue, output and the list `tasks`. */
  ghost predicate Models(tasks: seq<Task>, list: seq<Task>, w: World, queue: WorkQueue<string>, out: Log)
    reads tasks, queue, out
  {
    && |w.pcs| == |tasks|
    && (forall k :: 0 <= k < |tasks| ==> tasks[k].Pc() == w.pcs[k])
    && queue.items == w.q && out.events == w.log
    && Selects(tasks, list, w.live)
  }

  /** w is the world after the `for` body resumed the task at position i of w0. */
  ghost predicate ResumedTo(names: seq<string>, i: nat, w0: World, w: World)
    requires Inv(names, w0) && i < |w0.live|
  {
    w == Resumed(names, i, w0)
  }

  /**
   * The body of `for t in tasks:` at position i: `t.next()`, `tasks.remove(t)`
   * on StopIteration, then `done = True` if the list is empty.
   */
  method ResumeAt(tasks: seq<Task>, queue: WorkQueue<string>, out: Log, list0: seq<Task>, i: nat, done0: bool,
                  ghost names: seq<string>, ghost w0: World)
    returns (list: seq<Task>, done: bool, ghost w: World)
    requires names == Names(tasks) && Distinct(tasks) && Shares(tasks, queue, out)
    requires Inv(names, w0) && i < |w0.live| && done0 == w0.done && Models(tasks, list0, w0, queue, out)
    modifies tasks, queue, out
    ensures ResumedTo(names, i, w0, w) && done == w.done
    ensures Models(tasks, list, w, queue, out)
    ensures Inv(names, w) && |list| <= |list0| && PassFrom(names, i, w0) == PassFrom(names, i + 1, w)
  {
    var t := list0[i];
    ghost var k := w0.live[i];
    w := Resumed(names, i, w0);
    assert w == Apply(names, i, w0, Step(names[k], w0.pcs[k], w0.q));
    var r := t.Next();
    list, done := list0, done0;
    if r == Stopped {
      RemoveSelected(tasks, list, w0.live, i);
      list := RemoveFirst(list, t);
    }
    if |list| == 0 {
      done := true;
    }
  }

  /** One pass of `for t in tasks:` over the list, by position; a removal shifts the rest of the list left. */
  method Pass(tasks: seq<Task>, queue: WorkQueue<string>, out: Log, list0: seq<Task>,
              ghost names: seq<string>, ghost w0: World)
    returns (list: seq<Task>, done: bool, ghost w: World)
    requires names == Names(tasks) && Distinct(tasks) && Shares(tasks, queue, out)
    requires Inv(names, w0) && !w0.done && Models(tasks, list0, w0, queue, out)
    modifies tasks, queue, out
    ensures w == PassFrom(names, 0, w0) && done == w.done
    ensures Models(tasks, list, w, queue, out)
  {
    list, done, w := list0, false, w0;
    var i := 0;
    while i < |list|
      invariant Inv(names, w) && Models(tasks, list, w, queue, out)
      invariant done == w.done
      invariant PassFrom(names, i, w) == PassFrom(names, 0, w0)
      decreases |list| - i
    {
      list, done, w := ResumeAt(tasks, queue, out, list, i, done, names, w);
      i := i + 1;
    }
  }

  /**
   * `done = False; while not done: <pass>`: runs the generators round-robin until
   * the list is empty. The generators, the queue and the output end as the
   * ghost run Schedule says, and the list `tasks` ends empty.
   */
  method Run(tasks: seq<Task>, queue: WorkQueue<string>, out: Log) returns (left: seq<Task>)
    requires |tasks| > 0 && Distinct(tasks) && Shares(tasks, queue, out)
    requires forall k :: 0 <= k < |tasks| ==> tasks[k].Pc() != Done
    modifies tasks, queue, out
    ensures var w := Schedule(Names(tasks), old(Pcs(tasks)), old(queue.items), old(out.events));
      && Pcs(tasks) == w.pcs && queue.items == w.q && out.events == w.log
    ensures left == []
  {
    ghost var names := Names(tasks);
    ghost var w := Start(names, Pcs(tasks), queue.items, out.events);
    ghost var w0 := w;
    left := tasks;
    var done := false;
    while !done
      invariant Inv(names, w) && done == w.done
      invariant Models(tasks, left, w, queue, out)
      invariant RunFrom(names, w) == RunFrom(names, w0)
      decreases Work(w)
    {
      left, done, w := Pass(tasks, queue, out, left, names, w);
    }
  }

  /** The set-up half of `main()`: the URLs queued, the tasks 'One' and 'Two' created on them, nothing printed. */
  method Spawn() returns (tasks: seq<Task>, queue: WorkQueue<string>, out: Log)
    ensures fresh(queue) && fresh(out) && forall k :: 0 <= k < |tasks| ==> fresh(tasks[k])
    ensures Names(tasks) == ["One", "Two"] && Pcs(tasks) == [NotStarted, NotStarted]
    ensures queue.items == Urls && out.events == []
    ensures Distinct(tasks) && Shares(tasks, queue, out)
    ensures forall k :: 0 <= k < |tasks| ==> tasks[k].Pc() != Done
  {
    queue := new WorkQueue<string>();
    queue.PutAll(Urls);
    out := new Log();
    var one := new Task("One", queue, out);
    var two := new Task("Two", queue, out);
    tasks := [one, two];
    assert Names(tasks) == ["One", "Two"];
  }

  /**
   * `main()` of example_5.py: queues the six URLs, creates the tasks 'One'
   * and 'Two' and runs the scheduler. Every URL is reported as got once, in
   * queue order, and the output is the run Example5Scenario describes.
   */
  method RunMain() returns (events: seq<Event>)
    ensures events == MainRun().log
    ensures GotUrls(events) == Urls
  {
    var tasks, queue, out := Spawn();
    var left := Run(tasks, queue, out);
    events := out.events;
  }
}
