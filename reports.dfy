/** The tasks' printed reports, kept as a log of events instead of text on standard output. */
module Reports {

  datatype Event =
    | Running(task: string)               // 'Task %s running'
    | Total(task: string, total: int)     // 'Task %s total: %s'
    | NothingToDo(task: string)           // 'Task %s nothing to do'
    | Getting(task: string, url: string)  // 'Task %s getting URL: %s'
    | Got(task: string, url: string)      // 'Task %s got URL: %s'

  /** Standard output: every `print` appends one event. */
  class Log {
    var events: seq<Event>

    constructor ()
      ensures events == []
    {
      events := [];
    }

    method Emit(e: Event)
      modifies this
      ensures events == old(events) + [e]
    {
      events := events + [e];
    }
  }

  /** The reported totals, in the order they were printed. */
  function Totals(evs: seq<Event>): seq<int>
  {
    if evs == [] then []
    else (if evs[0].Total? then [evs[0].total] else []) + Totals(evs[1..])
  }

  /** The totals printed by the task called `name`, in order. */
  function TotalsBy(evs: seq<Event>, name: string): seq<int>
  {
    if evs == [] then []
    else (if evs[0].Total? && evs[0].task == name then [evs[0].total] else []) + TotalsBy(evs[1..], name)
  }

  /** The number of 'running' lines, one per unit of work done. */
  function RunningCount(evs: seq<Event>): nat
  {
    if evs == [] then 0
    else (if evs[0].Running? then 1 else 0) + RunningCount(evs[1..])
  }

  /** The URLs reported as fetched, in the order they were printed. */
  function GotUrls(evs: seq<Event>): seq<string>
  {
    if evs == [] then []
    else (if evs[0].Got? then [evs[0].url] else []) + GotUrls(evs[1..])
  }

  lemma {:induction false} TotalsAppend(a: seq<Event>, b: seq<Event>)
    ensures Totals(a + b) == Totals(a) + Totals(b)
  {
    if a != [] {
      assert (a + b)[1..] == a[1..] + b;
      TotalsAppend(a[1..], b);
    } else {
      assert a + b == b;
    }
  }

  lemma {:induction false} RunningCountAppend(a: seq<Event>, b: seq<Event>)
    ensures RunningCount(a + b) == RunningCount(a) + RunningCount(b)
  {
    if a != [] {
      assert (a + b)[1..] == a[1..] + b;
      RunningCountAppend(a[1..], b);
    } else {
      assert a + b == b;
    }
  }

  lemma {:induction false} GotUrlsAppend(a: seq<Event>, b: seq<Event>)
    ensures GotUrls(a + b) == GotUrls(a) + GotUrls(b)
  {
    if a != [] {
      assert (a + b)[1..] == a[1..] + b;
      GotUrlsAppend(a[1..], b);
    } else {
      assert a + b == b;
    }
  }

  lemma {:induction false} TotalsByAppend(a: seq<Event>, b: seq<Event>, name: string)
    ensures TotalsBy(a + b, name) == TotalsBy(a, name) + TotalsBy(b, name)
  {
    if a != [] {
      assert (a + b)[1..] == a[1..] + b;
      TotalsByAppend(a[1..], b, name);
    } else {
      assert a + b == b;
    }
  }

  /** In a stretch printed by one task only, its totals are all the totals, and no other name has any. */
  lemma {:induction false} TotalsByOneTask(evs: seq<Event>, name: string, other: string)
    requires forall e :: e in evs ==> e.task == name
    ensures TotalsBy(evs, name) == Totals(evs)
    ensures other != name ==> TotalsBy(evs, other) == []
  {
    if evs != [] {
      assert evs[0] in evs;
      assert forall e :: e in evs[1..] ==> e in evs;
      TotalsByOneTask(evs[1..], name, other);
    }
  }
}
