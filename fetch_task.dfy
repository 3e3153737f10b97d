/**
 * The generator `task(name, queue)` of example_5.py: while the shared queue
 * of URLs is not empty it dequeues one URL, reports getting it, fetches it,
 * reports having got it, and yields; one yield per URL. The fetch
 * (`requests.get`) and the elapsed-time line are not modelled: neither
 * touches the queue or the list of tasks, and a request is taken to
 * succeed (a failing one would raise out of `next()` and end the program).
 */
module FetchTask {
  import opened Queues
  import opened Reports
  import opened Traces

  /** Where a generator stands between two `next()` calls. */
  datatype Pc =
    | NotStarted   // created, body not entered
    | AtYield      // suspended at the `yield` after reporting a URL
    | Done         // found the queue empty and ran off the end of its body

  /** The effect of one `next()` call: new program point, queue left, lines printed, URLs dequeued, outcome. */
  datatype Transition = Transition(pc: Pc, q: seq<string>, events: seq<Event>, took: seq<string>, outcome: Outcome)

  /**
   * One `next()` call while the queue holds q. Fresh or resumed after its
   * `yield`, the generator is at the head of `while not queue.empty()`.
   */
  function Step(name: string, pc: Pc, q: seq<string>): (t: Transition)
  {
    if pc == Done || q == [] then Transition(Done, q, [], [], Stopped)
    else Transition(AtYield, q[1..], [Getting(name, q[0]), Got(name, q[0])], [q[0]], Yielded)
  }

  /** What a task prints for the URLs it fetched, in order: 'getting' and then 'got' for each. */
  function Reported(name: string, urls: seq<string>): (r: seq<Event>)
    ensures |r| == 2 * |urls| && GotUrls(r) == urls
    ensures forall e :: e in r ==> e.task == name
  {
    if urls == [] then []
    else
      var e := [Getting(name, urls[0]), Got(name, urls[0])];
      assert e[1..] == [Got(name, urls[0])] && e[1..][1..] == [];
      assert GotUrls(e[1..][1..]) == [];
      assert GotUrls(e[1..]) == [urls[0]] + GotUrls(e[1..][1..]);
      assert GotUrls(e) == [] + GotUrls(e[1..]);
      GotUrlsAppend(e, Reported(name, urls[1..]));
      e + Reported(name, urls[1..])
  }

  /** The `next()` calls this generator still needs if no URL is left: the one that raises StopIteration. */
  function Remaining(pc: Pc): nat
  {
    if pc == Done then 0 else 1
  }

  /**
   * A `next()` call on an unfinished generator yields exactly when the queue
   * is not empty, having dequeued its head and reported getting and then
   * having got that URL under its own name; otherwise it raises
   * StopIteration and leaves the generator Done. The queue only loses the
   * URL dequeued, and every call uses up one unit of the work left.
   */
  lemma StepOutcome(name: string, pc: Pc, q: seq<string>)
    requires pc != Done
    ensures var t := Step(name, pc, q);
      && (t.outcome == Yielded <==> q != [])
      && (t.outcome == Yielded ==>
            t.pc == AtYield && t.took == [q[0]] && t.events == [Getting(name, q[0]), Got(name, q[0])])
      && (t.outcome == Stopped ==> t.pc == Done && t.took == [] && t.events == [])
      && t.took + t.q == q
      && t.events == Reported(name, t.took)
      && Remaining(t.pc) + |t.q| + 1 == Remaining(pc) + |q|
  {
    if q != [] {
      assert q == [q[0]] + q[1..];
      assert Reported(name, [q[0]]) == [Getting(name, q[0]), Got(name, q[0])] + Reported(name, []);
    }
  }

  /** A finished generator stays finished: `next()` raises StopIteration again and changes nothing. */
  lemma StepOnDone(name: string, q: seq<string>)
    ensures Step(name, Done, q) == Transition(Done, q, [], [], Stopped)
  {
  }

  /** The program point of the generator's body. */
  datatype Phase = Fresh | Suspended | Finished

  /** A generator object `task(name, queue)`. */
  class Task {
    const name: string
    const queue: WorkQueue<string>
    const out: Log
    var phase: Phase
    // the saved local of the body
    var url: string

    /** The abstract state of the generator. */
    function Pc(): Pc
      reads this
    {
      match phase
      case Fresh => NotStarted
      case Suspended => AtYield
      case Finished => Done
    }

    /** `task(name, queue)`: creates the generator without running any of its body. */
    constructor (name: string, queue: WorkQueue<string>, out: Log)
      ensures this.name == name && this.queue == queue && this.out == out
      ensures Pc() == NotStarted
    {
      this.name := name;
      this.queue := queue;
      this.out := out;
      phase := Fresh;
      url := "";
    }

    /** `t.next()`: runs the body to its next `yield` (Yielded) or off its end (Stopped). */
    method Next() returns (r: Outcome)
      modifies this, queue, out
      ensures var t := Step(name, old(Pc()), old(queue.items));
        && Pc() == t.pc && queue.items == t.q && out.events == old(out.events) + t.events
        && r == t.outcome
    {
      var empty := true;
      if phase != Finished {
        // the head of `while not queue.empty()`
        empty := queue.Empty();
      }
      if empty {
        phase := Finished;
        r := Stopped;
      } else {
        url := queue.Get();
        out.Emit(Getting(name, url));
        // requests.get(url) is network I/O and is not modelled
        out.Emit(Got(name, url));
        phase := Suspended;
        r := Yielded;
      }
    }
  }
}
