# Cooperative round-robin scheduling of generator tasks

This project models the scheduling core of the "async Python programming"
presentation examples in Dafny, and proves properties of that model.

- **The synchronous baseline** (`code/example_1.py`). Each task is an ordinary call. It drains the shared queue of counts, prints one 'running' line per unit of each item and then the item's total. A task that finds the queue empty prints 'nothing to do'. The tasks run one after the other.
- **The counting generators** (`code/example_2.py`, `code/example_3.py`). The same task is a generator that yields once per unit. A round-robin scheduler drives it:

  ```
  while not done:
      for t in tasks:
          t.next()
          # on StopIteration: tasks.remove(t)
          # if the list is empty: done = True
  ```

  The two files differ only in `time.sleep` and elapsed-time lines, so one model covers both.
- **The fetching generators** (`code/example_5.py`). Each `next()` call dequeues one URL, prints 'getting' and 'got' for it, and yields. The same scheduler drives them.

How the model is built:

- **The queue** is a class over a `seq` (`Queues.WorkQueue`).
- **Printing** appends an event to a log (`Reports.Log`).
- **A generator** is a class whose fields are its program point and its saved locals `count`, `x` and `total`.
  - Its `Next` method is proved equal to a pure function `Step` on an abstract state `Pc`. `Pc` is `NotStarted`, `InItem(count, x, total)` or `Done`.
  - `next()` returns `Yielded`, or `Stopped` for StopIteration.
- **The scheduler** is modelled as the source writes it.
  - It has a `while` loop over passes and an index-based loop over the list `tasks`.
  - `list.remove` shifts the later tasks left, and the index still advances.
  - It is proved equal to ghost functions (`Resumed`, `PassFrom`, `RunFrom`, `Schedule`) over a `World` value. A `World` holds:
    - the list as task numbers;
    - every generator's `Pc`;
    - the queue and the log;
    - the `done` flag;
    - two ghost records: who dequeued what (`taken`) and who was resumed with what outcome (`trace`).
- **The properties** are lemmas about those functions:
  - termination;
  - FIFO order;
  - each item dequeued exactly once;
  - totals equal to counts;
  - work conservation;
  - the number of resumptions;
  - removal exactly at StopIteration;
  - the shape of one pass;
  - the concrete runs of the three `main()` functions.

Three behaviours of the code shape the model:

- **The task after a removed one is skipped for the rest of that pass.** `tasks.remove(t)` shifts the later tasks left while the `for` loop's position moves on. `PassSkipsAfterRemoval` states exactly when this happens, and `StopSkipPass` shows it in the two-task run.
- **`while not done` never ends on an empty task list.** `done` is only set inside the `for` body. So `Run` and `Schedule` require a non-empty list of unfinished generators (`Ready`, and `Run`'s `requires`).
- **Every `get()` is guarded by `empty()`.** So `Queues.WorkQueue.Get` requires a non-empty queue.

The two schedulers, `CountingScheduler` and `FetchScheduler`, are deliberately written out twice, as the source writes the loop once per example. Each runs over its own generator type (`CountingTask.Pc`, `FetchTask.Pc`) and its own queue element type. So `Resumed`, `PassFrom`, `RunFrom`, the pass-shape lemmas and the run lemmas appear in both modules with the same statements.

Counts are unbounded integers. `for x in range(count)` runs `max(count, 0)` times (`Counts.Units`). An item whose count is not positive is reported with total 0 and causes no `yield`. So a `next()` call can dequeue several such items before it reaches a `yield` (`CountingTask.SkipItem`).

## Model

| member | source | states |
|---|---|---|
| Queues.WorkQueue.constructor | code/example_2.py:27 | `Queue.Queue()` starts empty |
| Queues.WorkQueue.Put | code/example_2.py:30 | `put` appends the item at the tail |
| Queues.WorkQueue.PutAll | code/example_2.py:30 | `map(queue.put, xs)` appends all of xs, in order |
| Queues.WorkQueue.Empty | code/example_2.py:13 | `empty()` is true exactly when no item is queued, and changes nothing |
| Queues.WorkQueue.Get | code/example_2.py:14 | `get()` on a non-empty queue returns the head and leaves the rest (FIFO) |
| Reports.Log.Emit | code/example_2.py:17 | each `print` appends one event to the output |
| Reports.TotalsAppend | code/example_2.py:20 | the totals printed by two stretches of output are those of the first, then those of the second |
| Reports.TotalsByOneTask | code/example_2.py:20 | output made only by one task contains no total of another task |
| Synchronous.Repeat | code/example_1.py:16-17 | `for x in range(count)` prints n 'running' lines, all under the task's name |
| Synchronous.Drain | code/example_1.py:13-19 | draining q prints, per item in queue order, its units as 'running' lines and then its total: one line per unit plus one per item |
| Synchronous.TaskEvents | code/example_1.py:9-19 | a call prints one 'nothing to do' line on an empty queue, and otherwise drains it |
| Synchronous.Sequential | code/example_1.py:39-40 | the tasks run one after another on the same queue: the first finds q, the later ones what it left |
| Synchronous.Task | code/example_1.py:9-19 | a call leaves the queue empty; it prints 'nothing to do' for an empty queue, and otherwise, per item in queue order, count 'running' lines and then the total |
| Synchronous.RunAll | code/example_1.py:39-40 | the tasks called in order print what `Sequential` says, and the queue ends empty |
| Synchronous.RunMain | code/example_1.py:22-40 | `main()` on any work: the totals printed are the counts in queue order, with one 'running' line per unit |
| Synchronous.RepeatReports | code/example_1.py:16-18 | the inner loop prints no total and exactly n 'running' lines |
| Synchronous.DrainReports | code/example_1.py:13-19 | draining reports one total per item, in queue order, equal to its count, with one 'running' line per unit, all under the task's own name |
| Synchronous.SequentialFirstDrains | code/example_1.py:10-13 | run one after another, the first task drains everything and each later task has nothing to do; with an empty queue every task has nothing to do |
| Synchronous.IdleReports | code/example_1.py:10-11 | 'nothing to do' lines report no total and no unit |
| Synchronous.SequentialReports | code/example_1.py:19 | across all tasks, the totals are the counts in queue order, their sum is the sum of the counts, and there is one 'running' line per unit |
| Synchronous.Example1Scenario | code/example_1.py:30-40 | on [15, 10, 5, 2] One processes all four items, reporting 15, 10, 5 and 2 (sum 32), and Two reports nothing to do |
| CountingTask.LoopHead | code/example_2.py:13-19 | from the `while` head the generator reaches a consistent state (x within range(count), total == x + 1) |
| CountingTask.Step | code/example_2.py:12-20 | one `next()` keeps the saved locals consistent |
| CountingTask.LoopHeadTakesPrefix | code/example_2.py:13-14 | from the `while` head, what is dequeued followed by what is left is the queue found |
| CountingTask.StepTakesPrefix | code/example_2.py:13-14 | one `next()` dequeues only a prefix of the queue, in order |
| CountingTask.LoopHeadWork | code/example_2.py:13-19 | from the `while` head, the units left to yield plus the units queued are the units queued before |
| CountingTask.StepWork | code/example_3.py:14-22 | every `next()` on an unfinished generator uses up exactly one unit of the work left (its own remaining calls plus the queued units) |
| CountingTask.LoopHeadOutcome | code/example_2.py:13 | from the `while` head the generator stops exactly when no queued item has a unit, and then leaves the queue empty |
| CountingTask.StepOutcome | code/example_2.py:13-19 | a `next()` raises StopIteration exactly when the current item and the queue have no unit left, leaving the queue empty; otherwise it yields after exactly one increment of total (one 'running' line), starting again at 1 for a new item |
| CountingTask.StepOnDone | code/example_2.py:12-20 | a finished generator raises StopIteration again and changes nothing |
| CountingTask.LoopHeadTotals | code/example_2.py:15-20 | from the `while` head, the totals printed, then the item held, are the units of the items dequeued |
| CountingTask.FinishItemTotals | code/example_2.py:20 | leaving `for x in range(count)` prints the item's count as its total |
| CountingTask.StepTotals | code/example_3.py:16-23 | total is reset per item and reported equal to its count: totals printed, then the item held, are the item held before, then the units dequeued |
| CountingTask.LoopHeadEventsBy | code/example_2.py:17-20 | from the `while` head every line printed carries the task's own name |
| CountingTask.StepEventsBy | code/example_2.py:17-20 | every line a `next()` prints carries the task's own name |
| CountingTask.SkipItem | code/example_2.py:13-20 | an item with no unit is reported with total 0, and the loop goes round again without yielding |
| CountingTask.Task.Pc | code/example_2.py:12-20 | the object's fields are consistent exactly when its abstract state is |
| CountingTask.Task.constructor | code/example_2.py:33-36 | `task(name, queue)` creates a generator that has not started |
| CountingTask.Task.Next | code/example_2.py:12-20 | `t.next()` moves the generator, the queue and the output exactly as `Step` says, and returns its outcome |
| CountingTask.Task.FromLoopHead | code/example_2.py:13-19 | the `while not queue.empty()` loop with its per-item counting behaves as `LoopHead` |
| CountingScheduler.LiveAfterStep | code/example_2.py:44-47 | after one resumption the list holds only unfinished generators, in order, and it is empty exactly when the last task stopped |
| CountingScheduler.StepSound | code/example_2.py:13-20 | one `next()` keeps the queue a FIFO suffix, uses up one unit of work, and prints and holds totals equal to the counts dequeued |
| CountingScheduler.Apply | code/example_2.py:42-47 | the effect of the `for` body: the generator moves as the transition says, the queue and output follow it, the take and the resumption are recorded, and the task leaves the list on StopIteration |
| CountingScheduler.ApplyInv | code/example_2.py:42-47 | the `for` body keeps the list ordered, holding only unfinished generators, with `done` set exactly when it is empty |
| CountingScheduler.ApplyWork | code/example_2.py:42-47 | the `for` body uses up one unit of work and records one resumption |
| CountingScheduler.ApplyTakesInOrder | code/example_2.py:14 | one resumption keeps the items dequeued, followed by the queue, equal to the initial queue |
| CountingScheduler.ApplyResumesCounted | code/example_2.py:12-19 | one resumption keeps, for each generator, its resumptions so far plus those it still owes equal to the units of the items it dequeued plus what it owed at the start |
| CountingScheduler.ApplyTotalsKept | code/example_2.py:20 | one resumption keeps every item's units reported, held or queued, once each |
| CountingScheduler.ApplyTaskTotals | code/example_2.py:15-20 | one resumption keeps task m's printed totals, plus the units it holds, equal to the units of the items it dequeued |
| CountingScheduler.ApplyTotalsByTask | code/example_2.py:15-20 | one resumption keeps every task's printed totals, plus the units it holds, equal to the units of the items it dequeued |
| CountingScheduler.ApplyRunningKept | code/example_2.py:17-19 | one resumption keeps one 'running' line per yield |
| CountingScheduler.ApplyRemovedOnStop | code/example_2.py:44-45 | one resumption keeps every task listed exactly while it has not stopped, and stopped once when removed |
| CountingScheduler.ApplyTaskRemoved | code/example_2.py:44-45 | the same for task m alone |
| CountingScheduler.ApplyDrainedOnStop | code/example_2.py:13 | one resumption keeps the queue empty from the first removal of a task onwards, since a task stops only on an empty queue |
| CountingScheduler.Resumed | code/example_2.py:42-47 | resuming a listed task keeps the list ordered and the `done` flag set exactly when the list is empty, and uses up one unit of work |
| CountingScheduler.PassFrom | code/example_2.py:41-47 | a pass keeps the invariant, only extends the record of resumptions, and resumes at least once on a non-empty list |
| CountingScheduler.PassOver | code/example_2.py:41 | past the end of the list the `for` loop is over |
| CountingScheduler.PassNext | code/example_2.py:41-43 | within the list the `for` loop resumes position i and goes on at i + 1 |
| CountingScheduler.RunFrom | code/example_2.py:39-47 | `while not done` terminates with `done` set and the list empty |
| CountingScheduler.Start | code/example_2.py:33-39 | the starting world, with every task listed in order, satisfies the scheduler invariant: the list is ordered and holds only unfinished generators, and `done` is false because the list is not empty |
| CountingScheduler.Schedule | code/example_2.py:39-47 | the whole run ends with `done` set |
| CountingScheduler.ResumedTracks | code/example_2.py:42-47 | one resumption keeps the run invariants (`Tracks`): FIFO, resumptions counted, work kept, removal at StopIteration, queue empty once a task stopped |
| CountingScheduler.PassTracks | code/example_2.py:41-47 | a pass keeps the run invariants |
| CountingScheduler.RunTracks | code/example_2.py:39-47 | the whole loop keeps the run invariants |
| CountingScheduler.ScheduleTracks | code/example_2.py:39-47 | the run invariants hold between the start and the end of the run |
| CountingScheduler.ScheduleCompletes | code/example_2.py:39-47 | the loop terminates with `done` set, the list empty, every generator finished and the queue empty, after one `next()` per unit of work plus one final call per generator |
| CountingScheduler.ScheduleTakesInOrder | code/example_2.py:14 | every queued item is dequeued exactly once, in queue order |
| CountingScheduler.ScheduleTotals | code/example_2.py:20 | work conservation: the totals printed are the units of the queued items (and of any held at the start), each once |
| CountingScheduler.ScheduleTotalsSum | code/example_2.py:20 | with fresh generators the printed totals add up to the queued units |
| CountingScheduler.ScheduleTotalsByTask | code/example_2.py:15-20 | each item's total equals its count: with distinct names, the totals task k printed are, in order, the units of the items it dequeued |
| CountingScheduler.ScheduleResumes | code/example_3.py:18-22 | each generator is resumed once per unit it dequeued, plus once for its StopIteration; one 'running' line per yield |
| CountingScheduler.ScheduleStopsOnce | code/example_2.py:42-45 | every generator raised StopIteration exactly once, on its last resumption, so it was removed then and never resumed again |
| CountingScheduler.ResumedLive | code/example_2.py:42-45 | the `for` body records one resumption of the listed task and removes it from the list on StopIteration |
| CountingScheduler.PassShape | code/example_2.py:41-45 | a pass is its first resumption followed by the pass over the list that resumption left, from the next position |
| CountingScheduler.PassEnd | code/example_2.py:41 | a pass from past the end of the list resumes nothing |
| CountingScheduler.PassStep | code/example_2.py:41-45 | the step of the induction over a pass |
| CountingScheduler.PassIsShaped | code/example_2.py:41-47 | whatever the generators do, the resumptions of a pass follow the index-based `for` over the shifting list |
| CountingScheduler.PassResumesInOrder | code/example_2.py:41-45 | a pass resumes listed tasks in list order, each at most once, from the task at the starting position |
| CountingScheduler.PassSkipsAfterRemoval | code/example_2.py:41-45 | in a pass, the task after position j is resumed exactly when the task at j was not removed earlier in that pass |
| CountingScheduler.Example2FirstResume | code/example_2.py:30-43 | One's first resumption on [15, 10, 5, 2] dequeues 15 and prints one 'running' line |
| CountingScheduler.Example2SecondResume | code/example_2.py:30-43 | Two's first resumption then dequeues 10 and prints one 'running' line |
| CountingScheduler.Example2FirstPass | code/example_2.py:30-43 | the first pass on [15, 10, 5, 2]: One takes 15 and Two takes 10, each yields once, so they interleave |
| CountingScheduler.Example2Totals | code/example_2.py:30-47 | the whole run on [15, 10, 5, 2] reports 15, 10, 5 and 2 once each, summing to 32, with 32 'running' lines |
| CountingScheduler.Names | code/example_2.py:33-36 | the tasks' names, by task number |
| CountingScheduler.Pcs | code/example_2.py:33-36 | the generators' states, by task number |
| CountingScheduler.ResumeAt | code/example_2.py:42-47 | the `for` body calls `next()`, removes the task on StopIteration and sets `done` on an empty list, exactly as `Resumed` says |
| CountingScheduler.Pass | code/example_2.py:41-47 | the index-based `for` loop over the list mutated in place does exactly one `PassFrom` |
| CountingScheduler.Run | code/example_2.py:39-47 | `while not done` leaves the generators, the queue and the output as `Schedule` says, and the list empty |
| CountingScheduler.FreshReport | code/example_3.py:35-52 | fresh generators print each queued count once as a total, summing to the queued units, with one 'running' line per unit |
| CountingScheduler.MainRun | code/example_2.py:22-47 | `main()`'s run ends done with the queue empty, each count reported once, and one 'running' line per unit |
| CountingScheduler.Spawn | code/example_2.py:27-36 | `main()` queues the work and creates fresh tasks 'One' and 'Two' on it |
| CountingScheduler.RunMain | code/example_2.py:22-47 | `main()` prints what `MainRun` says: each count once as a total, and one 'running' line per unit |
| FetchTask.Step | code/example_5.py:14-22 | one `next()`: with a URL queued the generator dequeues it, prints 'getting' and 'got' and yields; on an empty queue, or when finished, it stops |
| FetchTask.Reported | code/example_5.py:17-20 | a task prints 'getting' and then 'got' under its own name for each URL it fetched, in order |
| FetchTask.StepOutcome | code/example_5.py:15-22 | a `next()` yields exactly when a URL is queued, having dequeued the head and printed 'getting' and 'got' for it; otherwise it stops; one unit of work per call |
| FetchTask.StepOnDone | code/example_5.py:14-22 | a finished generator raises StopIteration again and changes nothing |
| FetchTask.Task.constructor | code/example_5.py:42-45 | `task(name, queue)` creates a generator that has not started |
| FetchTask.Task.Next | code/example_5.py:14-22 | `t.next()` moves the generator, the queue and the output exactly as `Step` says, and returns its outcome |
| FetchScheduler.LiveAfterStep | code/example_5.py:53-56 | after one resumption the list holds only unfinished generators, in order, and it is empty exactly when the last task stopped |
| FetchScheduler.StepSound | code/example_5.py:15-22 | one `next()` dequeues a prefix of the queue, uses up one unit of work and prints 'getting'/'got' for what it dequeued |
| FetchScheduler.Apply | code/example_5.py:51-56 | the effect of the `for` body: the generator moves as the transition says, the queue and output follow it, the take and the resumption are recorded, and the task leaves the list on StopIteration |
| FetchScheduler.ApplyInv | code/example_5.py:51-56 | the `for` body keeps the list ordered, holding only unfinished generators, with `done` set exactly when it is empty |
| FetchScheduler.ApplyWork | code/example_5.py:51-56 | the `for` body uses up one unit of work and records one resumption |
| FetchScheduler.ApplyTakesInOrder | code/example_5.py:16 | one resumption keeps the URLs dequeued, followed by the queue, equal to the initial queue |
| FetchScheduler.ApplyLogsFetches | code/example_5.py:17-20 | one resumption keeps the output equal to 'getting' and 'got' for each URL dequeued, in order |
| FetchScheduler.ApplyResumesCounted | code/example_5.py:15-22 | one resumption keeps, for each generator, its resumptions so far plus those it still owes equal to the number of URLs it dequeued plus what it owed at the start |
| FetchScheduler.ApplyRemovedOnStop | code/example_5.py:53-54 | one resumption keeps every task listed exactly while it has not stopped, and stopped once when removed |
| FetchScheduler.ApplyTaskRemoved | code/example_5.py:53-54 | the same for task m alone |
| FetchScheduler.ApplyDrainedOnStop | code/example_5.py:15 | one resumption keeps the queue empty from the first removal of a task onwards, since a task stops only on an empty queue |
| FetchScheduler.Resumed | code/example_5.py:51-56 | resuming a listed task keeps the list ordered and `done` set exactly when the list is empty, and uses up one unit of work |
| FetchScheduler.PassFrom | code/example_5.py:50-56 | a pass keeps the invariant, only extends the record of resumptions, and resumes at least once on a non-empty list |
| FetchScheduler.RunFrom | code/example_5.py:48-56 | `while not done` terminates with `done` set and the list empty |
| FetchScheduler.Start | code/example_5.py:42-48 | the starting world, with every task listed in order, satisfies the scheduler invariant: the list is ordered and holds only unfinished generators, and `done` is false because the list is not empty |
| FetchScheduler.Schedule | code/example_5.py:48-56 | the whole run ends with `done` set |
| FetchScheduler.Fetches | code/example_5.py:17-20 | one 'getting' and one 'got' line per URL dequeued |
| FetchScheduler.FetchesGot | code/example_5.py:20 | the URLs reported as got are the URLs dequeued, in order |
| FetchScheduler.FetchesAppend | code/example_5.py:17-20 | the lines for two stretches of takes are those of the first, then those of the second |
| FetchScheduler.FetchesTakesBy | code/example_5.py:17-20 | the lines for one task's takes are what that task reports for its URLs |
| FetchScheduler.ResumedTracks | code/example_5.py:51-56 | one resumption keeps the run invariants: FIFO, output equal to the fetches, resumptions counted, removal at StopIteration, queue empty once a task stopped |
| FetchScheduler.PassTracks | code/example_5.py:50-56 | a pass keeps the run invariants |
| FetchScheduler.RunTracks | code/example_5.py:48-56 | the whole loop keeps the run invariants |
| FetchScheduler.ScheduleTracks | code/example_5.py:48-56 | the run invariants hold between the start and the end of the run |
| FetchScheduler.ScheduleCompletes | code/example_5.py:48-56 | the loop terminates with `done` set, the list empty, every generator finished and the queue empty, after one `next()` per URL plus one per task |
| FetchScheduler.ScheduleTakesInOrder | code/example_5.py:16 | every queued URL is dequeued exactly once, in queue order |
| FetchScheduler.ScheduleLogs | code/example_5.py:15-22 | the output is 'getting' and 'got' for each URL dequeued, by the task that dequeued it, in order, so every URL is reported as got once, in queue order |
| FetchScheduler.ScheduleResumes | code/example_5.py:15-22 | each generator is resumed once per URL it dequeued plus once to stop, and exactly one `next()` per URL yields |
| FetchScheduler.ScheduleStopsOnce | code/example_5.py:51-54 | every generator raised StopIteration exactly once, on its last resumption, so it was removed then and never resumed again |
| FetchScheduler.ResumedLive | code/example_5.py:51-54 | the `for` body records one resumption of the listed task and removes it on StopIteration |
| FetchScheduler.PassShape | code/example_5.py:50-54 | a pass is its first resumption followed by the pass over the list that resumption left |
| FetchScheduler.PassEnd | code/example_5.py:50 | a pass from past the end of the list resumes nothing |
| FetchScheduler.PassStep | code/example_5.py:50-54 | the step of the induction over a pass |
| FetchScheduler.PassIsShaped | code/example_5.py:50-56 | the resumptions of a pass follow the index-based `for` over the shifting list |
| FetchScheduler.PassResumesInOrder | code/example_5.py:50-54 | a pass resumes listed tasks in list order, each at most once |
| FetchScheduler.PassSkipsAfterRemoval | code/example_5.py:50-54 | the task after position j is resumed in a pass exactly when the task at j was not removed earlier in that pass |
| FetchScheduler.YieldStep | code/example_5.py:15-22 | resuming a task with a URL queued dequeues its head, records the take and the yield, and keeps the task listed |
| FetchScheduler.StopStep | code/example_5.py:15 | resuming a task with the queue empty stops it and removes it from the list |
| FetchScheduler.PassOver | code/example_5.py:50 | past the end of the list the `for` loop is over |
| FetchScheduler.PassNext | code/example_5.py:50-52 | within the list the `for` loop resumes position i and goes on at i + 1 |
| FetchScheduler.YieldTwice | code/example_5.py:50-52 | two listed tasks, two URLs queued: each dequeues one in turn |
| FetchScheduler.YieldYieldPass | code/example_5.py:49-56 | with both tasks listed and two URLs or more queued, a pass has One then Two each dequeue one URL and yield |
| FetchScheduler.YieldStopPass | code/example_5.py:49-56 | with one URL left, One dequeues it and Two stops and is removed |
| FetchScheduler.StopSkipPass | code/example_5.py:49-56 | with the queue empty, One stops and is removed, and Two is skipped for the rest of that pass, still listed, with `done` not set |
| FetchScheduler.LastPass | code/example_5.py:49-56 | the one task left stops, `done` is set and the run ends |
| FetchScheduler.TwoTaskTakes | code/example_5.py:50-52 | two tasks take one URL each per pass |
| FetchScheduler.TwoTaskTakesAt | code/example_5.py:16 | with two tasks, the URL at queue position j is dequeued by task j mod 2 |
| FetchScheduler.TwoTaskTrace | code/example_5.py:49-56 | two tasks on n URLs are resumed n + 2 times |
| FetchScheduler.TwoTaskTraceYields | code/example_5.py:50-52 | the first n resumptions alternate One and Two, each yielding |
| FetchScheduler.TwoTaskTraceEnds | code/example_5.py:53-56 | on an even count One stops first, then Two; on an odd count Two stops first, then One |
| FetchScheduler.TwoTaskTakesUnfold | code/example_5.py:50-52 | one pass's takes followed by the rest of the run are the run's takes |
| FetchScheduler.TwoTaskTraceUnfold | code/example_5.py:50-56 | one pass's resumptions followed by the rest of the run are the run's resumptions |
| FetchScheduler.RunUnfold | code/example_5.py:49-50 | a run not yet done is one pass followed by the rest of the run |
| FetchScheduler.TwoTaskRun | code/example_5.py:49-56 | from both tasks listed, the rest of the run alternates them over the queue and ends as `TwoTaskTrace` says |
| FetchScheduler.TwoTaskSchedule | code/example_5.py:42-56 | two fresh tasks on any queue: who takes which URL, who is resumed when, and what is printed |
| FetchScheduler.TwoTaskTakenBy | code/example_5.py:42-45 | with two tasks, every URL is taken by one of them |
| FetchScheduler.TwoTaskPair | code/example_5.py:50-52 | One takes the first URL of the pass, and Two the second |
| FetchScheduler.TwoTaskPairFetches | code/example_5.py:17-20 | those two takes print 'getting' and 'got' by One, then by Two |
| FetchScheduler.SixTrace | code/example_5.py:49-56 | on six URLs: six alternating yields, then One stops, then Two |
| FetchScheduler.SixTakes | code/example_5.py:33-45 | of six URLs, One takes the first, third and fifth, and Two the others |
| FetchScheduler.SixFetches | code/example_5.py:17-20 | what two tasks print for six URLs |
| FetchScheduler.SixUrlRun | code/example_5.py:42-56 | two tasks on six URLs: One fetches URLs 1, 3 and 5 and Two 2, 4 and 6, once each; in the fourth pass One stops and Two is skipped, and Two stops in the fifth |
| FetchScheduler.Example5Scenario | code/example_5.py:33-56 | `main()`'s run on its six URLs: who fetches which URL, the order of resumptions and the complete output |
| FetchScheduler.MainRun | code/example_5.py:25-56 | `main()`'s run ends done with the queue empty, One and Two alternating over the URLs, and each URL reported as got once, in order |
| FetchScheduler.Names | code/example_5.py:42-45 | the tasks' names, by task number |
| FetchScheduler.Pcs | code/example_5.py:42-45 | the generators' states, by task number |
| FetchScheduler.ResumeAt | code/example_5.py:51-56 | the `for` body calls `next()`, removes the task on StopIteration and sets `done` on an empty list, exactly as `Resumed` says |
| FetchScheduler.Pass | code/example_5.py:50-56 | the index-based `for` loop over the list mutated in place does exactly one `PassFrom` |
| FetchScheduler.Run | code/example_5.py:48-56 | `while not done` leaves the generators, the queue and the output as `Schedule` says, and the list empty |
| FetchScheduler.Spawn | code/example_5.py:30-45 | `main()` queues the six URLs and creates fresh tasks 'One' and 'Two' on them |
| FetchScheduler.RunMain | code/example_5.py:25-56 | `main()` prints what `MainRun` says; every URL is reported as got once, in queue order |
| Passes.AfterResume | code/example_2.py:44-45 | the list after StopIteration has lost one task |
| Passes.AfterResumeFacts | code/example_2.py:44-45 | `tasks.remove(t)` keeps the list ordered, adds no task, drops the stopped one, and shifts the next task into its position |
| Passes.ShapedCons | code/example_2.py:41-45 | a pass is the resumption at position i followed by the pass over the list it left |
| Passes.ExtendWithin | code/example_2.py:41-45 | the induction step of `ShapedWithin` |
| Passes.ShapedWithin | code/example_2.py:41-45 | a pass starts with the task at its position and resumes only tasks listed at or after it |
| Passes.ExtendIncreasing | code/example_2.py:41-45 | the induction step of `ShapedIncreasing` |
| Passes.ShapedIncreasing | code/example_2.py:41-45 | a pass resumes tasks in strictly increasing task number, so each at most once |
| Passes.ExtendSkips | code/example_2.py:41-45 | the induction step of `ShapedSkips` |
| Passes.ShapedSkips | code/example_2.py:41-45 | the task after position j is resumed exactly when the task at j did not stop earlier in the pass |
| Passes.SelectedFirst | code/example_2.py:45 | a generator never appears earlier in the list than its own position |
| Passes.DropSelected | code/example_2.py:45 | dropping one position from the list and from its task numbers keeps them matched |
| Passes.RemoveSelected | code/example_2.py:45 | `tasks.remove(t)` on the list of distinct generators removes exactly position i |
| Traces.RemoveFirst | code/example_2.py:45 | `list.remove(x)` drops one element |
| Traces.RemoveFirstAt | code/example_2.py:45 | when x first occurs at position i, `remove` closes the gap at i |
| Traces.RemoveFromIncreasing | code/example_2.py:45 | in an increasing list of task numbers, `remove` drops position i and the list stays increasing |
| Traces.Iota | code/example_2.py:33-36 | the task numbers of the initial list |
| Traces.YieldsAndStops | code/example_2.py:42-45 | every resumption either yielded or stopped |
| Counts.Units | code/example_1.py:16 | `range(count)` runs count times, and no times when count is not positive |
| Counts.SumOfPermutation | code/example_2.py:20 | reordering the totals does not change their sum |

## Left out

- Timing is not modelled. This covers `time.sleep(1)`, `lib.elapsed_time.ET` and every elapsed-time line (example_3.py lines 17, 20 and 24; example_5.py lines 18 and 21; the final 'Total elapsed time' lines). They are wall-clock time and floating point, and they do not affect control flow. `lib.elapsed_time` is not part of this model.
- `requests.get(url)` is network I/O. The fetch is treated as a step with no effect on the queue or the tasks. A failing request is not modelled: in the source its exception would leave `t.next()` uncaught, because only StopIteration is caught, and end `main()`.
- The print format is not modelled. Every `print` becomes one `Reports.Event` appended to a log, and the bare `print` of an empty line is dropped.
- `Queue.Queue` locking and blocking are not modelled, because there is a single thread and every `get()` is guarded by `empty()`. `Queues.WorkQueue.Get` requires a non-empty queue.
- Tasks with an empty list: `Run` and `Schedule` require a non-empty list of unfinished generators. On an empty list the source's `while not done` never ends. Finished generators are never passed in by the source.
- Standard output itself: the `RunMain` methods return the printed events as a sequence instead of writing them anywhere.
- CountingTask.Step: its own ensures says only that the saved locals stay consistent. What a call does is stated by `StepOutcome`, `StepTakesPrefix`, `StepWork`, `StepTotals` and `StepEventsBy`.
- CountingTask.LoopHead: the same holds; its behaviour is stated by the `LoopHead*` lemmas.
- CountingScheduler.Schedule: its own ensures says only that the run ends done. The properties of the run are the `Schedule*` lemmas.
- FetchScheduler.Schedule: the same holds as for the counting scheduler.
- FetchTask.Step: it has no ensures of its own. What a call does is stated by `StepOutcome` and proved of `Task.Next`.
- Synchronous.Sequential: it has no ensures of its own. Its properties are `SequentialFirstDrains` and `SequentialReports`.
- CountingScheduler.Apply: it has no ensures of its own. Its properties are the `Apply*` lemmas beside it.
- FetchScheduler.Apply: the same holds as for the counting scheduler.
- The other examples (example_4.py, example_6.py, example_7.py and example_8.py) use gevent and Twisted. Their concurrency comes from those runtimes, which are not part of this model.
