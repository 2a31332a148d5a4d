# Round-robin CPU scheduling simulator, modelled in Dafny

The simulator takes a list of processes. Each process has an id, an arrival time and a burst time. The simulator runs them under round-robin scheduling with a fixed time quantum and records what happened:

- a Gantt chart of CPU slices;
- a history of snapshots, one value copy of the scheduler's state per event;
- statistics: average waiting time, average turnaround time, throughput and CPU utilisation.

An animation controller sits on top. It validates the add-process form and plays the history back with a cursor (`currentStep`) that moves one step at a time, by a jump, or on each tick of a timer. It can also export the history as a text trace.

The model has these parts:

- `ProcessModel` (process.dfy): the process record, its fresh metrics and its palette colour. The colour uses JavaScript's `replace`, `parseInt` and `%`, written out.
- `Numerals` (numerals.dfy): decimal rendering of integers, JavaScript's `trim`, and `parseInt`: the integer it reads, rounded to the nearest double.
- `RoundRobinSpec`, `RoundRobinLemmas` and `RoundRobinRun` (rr_spec.dfy, rr_lemmas.dfy, rr_run.dfy): the scheduling loop on values, one iteration at a time.
  - The processes sit in an arena indexed by position.
  - `Step` is one iteration of the `while` loop. `Schedule` is the state in which repeating it stops.
  - The loop invariant `Inv` is proved to be kept by every step, and the loop is proved to terminate with a quantum of at least 1.
  - At the end, every process has completed with the textbook metric identities, and the Gantt chart and history are well ordered.
- `ProcessList` (process_list.dfy): the stable insertion by arrival time that `push` followed by `sort` amounts to.
- `Scheduler` (scheduler.dfy): the `RoundRobinScheduler` class. Its methods update the fields in place.
  - `Simulate` runs the `while` loop over those fields.
  - Each method is proved against the value model through the coupling predicate `Mirrors`.
- `Playback` (playback.dfy): the cursor moves as functions, and the lemmas about them.
- `Trace` (trace.dfy): the text of the exported trace, and lemmas that read one row back.
- `Controller` (controller.dfy): the `AnimationController` class. It holds the form validation, the cursor methods, the simulation and reset entry points, and the trace export loop.

## Model

| member | source | states |
|---|---|---|
| ProcessModel.NewProcess | js/Process.js:12-23 | a new process keeps its id, arrival and burst; all its work is still to do (`remainingTime == burstTime`); waiting, turnaround and completion are 0; it has no start time; its state is ready; its colour comes from its id |
| ProcessModel.ColorIndex | js/Process.js:36 | the palette index exists exactly when the parsed id is a number whose JavaScript remainder by 10 is not negative; it always lies inside the 10-entry palette; for a non-negative number it is `n % 10` |
| ProcessModel.GenerateColor | js/Process.js:29-37 | a colour, when there is one, is one of the ten palette entries; the id's number is the double `parseInt` returns, and `NaN` or Infinity gives no colour |
| ProcessModel.ColorOfNumberedId | js/Process.js:29-37 | the process numbered `n` below 2^53 (so read exactly), written with or without a leading `P`, gets palette entry `n % 10` |
| ProcessModel.NoColorForNegativeId | js/Process.js:35-36 | a negative numeric id above -2^53 whose last digit is not 0 gets no colour, because JavaScript's `%` yields a negative index |
| ProcessModel.RoundedIdColor | js/Process.js:35-36 | the id `9007199254740993` (2^53 + 1) is read as the double 2^53 and gets palette entry 2, not 3 |
| ProcessModel.RoundedNegativeIdColor | js/Process.js:35-36 | the id `-100000000000000001` is read as the double -10^17, whose remainder is -0, and gets palette entry 0 instead of no colour |
| ProcessModel.JsRem | js/Process.js:36 | JavaScript's `%`: the dividend is the quotient truncated toward zero times the modulus plus the remainder; the remainder's magnitude is below the modulus; it is at most 0 for a negative dividend, and on a non-negative dividend it is the mathematical remainder |
| ProcessModel.RemoveFirst | js/Process.js:35 | `replace('P', '')` leaves an id without `P` unchanged, and otherwise removes the first `P` and keeps every other character in order |
| Numerals.ParseIntOfIntToString | js/Process.js:36 | the value `parseInt` reads, before rounding to a double, is any rendered integer again, also when text that cannot continue the number follows it |
| Numerals.RoundNearest | js/Process.js:36 | the value `parseInt` reads is rounded to a multiple of the doubles' spacing at most half a spacing away |
| Numerals.ToDouble | js/Process.js:36 | an integer of magnitude below 2^53 is a double, so `parseInt` returns it unchanged |
| Numerals.TrimEmpty | js/AnimationController.js:125 | `trim()` gives the empty string exactly when the text is all white space |
| Numerals.TrimMiddle | js/AnimationController.js:125 | the trimmed id is a middle slice of the text, with only white space before and after it |
| Numerals.TrimIdempotent | js/AnimationController.js:125 | trimming a trimmed id changes nothing |
| Numerals.Trim | js/AnimationController.js:125 | the trimmed id is no longer than the text, and neither starts nor ends with white space |
| Controller.ValidateFields | js/AnimationController.js:125-158 | with the number fields read by `parseInt`, as the process stores them: an accepted process has the parsed arrival of at least 0, the parsed burst of at least 1, and a fresh non-empty trimmed id; a non-empty id with no number in the arrival field is refused for the arrival |
| Controller.FractionalFieldsSlipThrough | js/AnimationController.js:138-148 | the guards as written let an arrival of `.5` through although `parseInt` reads no number from it, and a burst of `0.1e2` although `parseInt` reads 0 from it; validation on the parsed values refuses both |
| Controller.ValidateAccepts | js/AnimationController.js:132-155 | the form is accepted exactly when the trimmed id is non-empty, the arrival is present and at least 0, the burst is present and at least 1, and no listed process has that id |
| Controller.AcceptedFits | js/AnimationController.js:125-158 | an accepted process carries the trimmed id and the two numbers with fresh metrics, and meets what the scheduler's `addProcess` relies on |
| Controller.BlankIdRejected | js/AnimationController.js:132-136 | an id made only of white space is refused as missing, whatever the other fields hold |
| Controller.DuplicateRejected | js/AnimationController.js:151-155 | an id that trims to a listed one is refused as a duplicate once the numbers are valid |
| Controller.AnimationController.constructor | js/AnimationController.js:9-18 | the controller owns a fresh scheduler with quantum 3, as `new RoundRobinScheduler(3)` builds it: every list, the Gantt chart and the history empty, clock 0, no process on the CPU and not running; its cursor is at 0 and it is not playing |
| Controller.AnimationController.AddProcess | js/AnimationController.js:120-169 | the verdict is that of validating the field texts as the process reads them; a refused form leaves the scheduler unchanged; an accepted one inserts exactly the new process (the multiset grows by it) at its stable place by arrival, and the ready queue and completed list designate the same processes as before |
| Controller.AnimationController.ClearProcesses | js/AnimationController.js:174-179 | the scheduler's lists, Gantt chart and history are empty, its clock is 0 and no process holds the CPU; the quantum and `isRunning` are kept; the cursor is at 0 and playback has stopped |
| Controller.AnimationController.StartSimulation | js/AnimationController.js:207-221 | with no processes nothing changes; otherwise no process's id, arrival, burst or colour changes, every field of the scheduler is the final state `Schedule` gives for them, the scheduler is no longer running, and the cursor is at 0 |
| Controller.AnimationController.ResetSimulation | js/AnimationController.js:226-232 | playback stops; the scheduler's lists, Gantt chart and history are empty, its clock is 0, no process holds the CPU, and its quantum and `isRunning` are kept; the cursor is at 0 |
| Controller.AnimationController.ResetAnimation | js/AnimationController.js:613-619 | playback stops and the cursor is at 0, which is in range for any history |
| Controller.AnimationController.TogglePlayPause | js/AnimationController.js:237-243 | a playing animation stops; a stopped one starts exactly as `Start` says |
| Controller.AnimationController.StartAnimation | js/AnimationController.js:248-256 | playing starts unless the history is empty or the cursor is at its last snapshot; the cursor does not move |
| Controller.AnimationController.StopAnimation | js/AnimationController.js:273-281 | playback has stopped |
| Controller.AnimationController.TimerTick | js/AnimationController.js:258-266 | one timer firing moves the cursor one snapshot on, or, at the last snapshot, stops playback; the cursor stays in range |
| Controller.AnimationController.StepForward | js/AnimationController.js:296-303 | the cursor moves one on exactly when it is before the last snapshot, and stays in range |
| Controller.AnimationController.StepBackward | js/AnimationController.js:308-315 | the cursor moves one back exactly when it is after the first snapshot, and stays in range |
| Controller.AnimationController.JumpToStep | js/AnimationController.js:321-327 | the cursor goes to the target exactly when the target is an index of the history, and otherwise stays |
| Controller.AnimationController.ExportTrace | js/AnimationController.js:748-776 | refused exactly when the history is empty; otherwise the text is the header, one row per snapshot in history order, and the statistics block exactly when some process has completed |
| Controller.AppendRows | js/AnimationController.js:763-765 | the `forEach` appends the rows of every snapshot, in history order, to the text built so far |
| Playback.Forward | js/AnimationController.js:296-303 | one step on exactly when before the last snapshot, else unchanged; a position in range stays in range |
| Playback.Backward | js/AnimationController.js:308-315 | one step back exactly when after the first snapshot, else unchanged; never below 0 |
| Playback.Jump | js/AnimationController.js:321-327 | the target exactly when it is an index of the history, else unchanged; a position in range stays in range |
| Playback.Start | js/AnimationController.js:249-254 | playing afterwards exactly when it was playing already, or the history is non-empty and the cursor is before its last snapshot |
| Playback.Tick | js/AnimationController.js:258-266 | one firing moves the cursor as `stepForward` does, and playing continues exactly when a step was taken |
| Playback.ForwardBackward | js/AnimationController.js:296-315 | stepping forward then back returns to the same snapshot, except at the last one |
| Playback.BackwardForward | js/AnimationController.js:296-315 | stepping back then forward returns to the same snapshot, except at the first one |
| Playback.TicksAdvance | js/AnimationController.js:258-266 | `k` firings advance the cursor by `k` but never past the last snapshot, and playing continues exactly while a firing found a step |
| Playback.PlaybackRunsToEnd | js/AnimationController.js:248-266 | playback from any snapshot but the last starts, visits every later snapshot in order, and stops on the last one |
| Trace.RowCells | js/AnimationController.js:764 | when no id holds a tab, splitting a row at its tabs gives back the time, the current id (or `IDLE`), the ready ids (or `-`) and the completed ids (or `-`), with an empty field before each list |
| Trace.RowsLines | js/AnimationController.js:763-765 | when no id holds a newline, the rows part has exactly one line per snapshot |
| Trace.OrElse | js/AnimationController.js:764 | the fallback of a row cell is taken exactly when the value is the empty string, and an empty result means an empty fallback |
| Scheduler.RoundRobinScheduler.constructor | js/RoundRobinScheduler.js:10-22 | a new scheduler has the given quantum, empty lists, clock 0 and no running process |
| Scheduler.RoundRobinScheduler.AddProcess | js/RoundRobinScheduler.js:28-32 | the list becomes the stable insertion by arrival of the new process; the ready queue and completed list go on designating the same processes; the scheduler stays sorted with unique ids |
| Scheduler.RoundRobinScheduler.ClearProcesses | js/RoundRobinScheduler.js:37-45 | every list is empty, the clock is 0 and no process holds the CPU |
| Scheduler.RoundRobinScheduler.StartSimulation | js/RoundRobinScheduler.js:50-75 | with no processes nothing changes; otherwise no process's id, arrival, burst or colour changes and the final fields are exactly the state `Schedule` gives for them, so running it again gives the same Gantt chart and history |
| Scheduler.RoundRobinScheduler.ResetMetrics | js/RoundRobinScheduler.js:65-72 | every process gets back fresh metrics, and no id, arrival, burst or colour changes |
| Scheduler.RoundRobinScheduler.Simulate | js/RoundRobinScheduler.js:80-160 | the `while` loop ends, leaving the fields in the state `Schedule` computes, with no process on the CPU and `isRunning` false; no id, arrival, burst or colour changes |
| Scheduler.RoundRobinScheduler.Iteration | js/RoundRobinScheduler.js:86-156 | one pass of the loop body turns the fields from the `n`-th state of the value loop into the next one |
| Scheduler.RoundRobinScheduler.Advance | js/RoundRobinScheduler.js:87-155 | the loop body does exactly what `Step` does to the state the fields hold |
| Scheduler.RoundRobinScheduler.AdmitArrivals | js/RoundRobinScheduler.js:88-95 | the arrived pending processes join the tail of the ready queue in pending order and leave the pending copy, as `Admit` says |
| Scheduler.RoundRobinScheduler.RunHead | js/RoundRobinScheduler.js:97-150 | a dispatch does exactly what `Dispatch` does and leaves the CPU free |
| Scheduler.RoundRobinScheduler.BeginSlice | js/RoundRobinScheduler.js:99-119 | the head leaves the queue and is the running process; its slice is `min(timeQuantum, remainingTime)`; the snapshot is taken with it on the CPU |
| Scheduler.RoundRobinScheduler.Board | js/RoundRobinScheduler.js:101-117 | the start time is set on the first dispatch only; the time since the process last left the CPU, or since its arrival, is added to its waiting time; the slice is `min(timeQuantum, remainingTime)` |
| Scheduler.RoundRobinScheduler.EndSlice | js/RoundRobinScheduler.js:121-150 | the Gantt bar, the clock advance, and the termination or requeue happen exactly as `Land` says |
| Scheduler.RoundRobinScheduler.Leave | js/RoundRobinScheduler.js:131-146 | the remaining time drops by the slice; at zero the process terminates with completion time now and turnaround `completion - arrival`, otherwise it waits |
| Scheduler.RoundRobinScheduler.IdleTick | js/RoundRobinScheduler.js:151-155 | with nothing ready, the clock advances one tick and one snapshot is appended, as `Idle` says |
| Scheduler.RoundRobinScheduler.RecordState | js/RoundRobinScheduler.js:166-181 | exactly one snapshot is appended; it is a value copy of the clock, the running id, the ready and completed ids, and every process's metrics |
| Scheduler.RoundRobinScheduler.GetStatistics | js/RoundRobinScheduler.js:187-211 | nothing exactly when no process has completed; otherwise the integer totals behind the four figures, with busy time summed over the Gantt chart by the loop; busy time is at most the clock and the clock is at least 1; no field changes |
| ProcessList.InsertSorted | js/RoundRobinScheduler.js:28-32 | inserting keeps the list sorted by arrival |
| ProcessList.InsertPermutes | js/RoundRobinScheduler.js:28-32 | the list grows by exactly the new process (multiset) |
| ProcessList.InsertStable | js/RoundRobinScheduler.js:31 | for every arrival time, processes with that arrival keep their insertion order, as the stable sort of `push` then `sort` does |
| ProcessList.InsertUniqueIds | js/RoundRobinScheduler.js:28-32 | a process with a fresh id keeps the ids of the list distinct |
| ProcessList.InsertMembers | js/RoundRobinScheduler.js:28-32 | nothing but the new process and the old ones is in the list |
| ProcessList.InsertAt | js/RoundRobinScheduler.js:28-32 | the insertion puts the new process at one position and keeps the rest in order around it |
| ProcessList.ShiftFollows | js/RoundRobinScheduler.js:28-32 | positions shifted past the insertion point still designate the same processes |
| ProcessList.ViewsOfRecs | js/RoundRobinScheduler.js:172-178 | the per-process views a snapshot copies are those of the value model |
| RoundRobinSpec.WaitingOnPlainObject | js/RoundRobinScheduler.js:83-111 | on the plain object the scheduler uses, the waiting time is `NaN` exactly when the id is not stored and is a name every object inherits; otherwise it is the one `Dispatched` computes |
| RoundRobinSpec.InheritedIdLosesWaiting | js/RoundRobinScheduler.js:106-111 | a process with id `constructor` gets a `NaN` waiting time at its first dispatch, where the per-process record adds the time since its arrival |
| RoundRobinSpec.ArrivedByMembers | js/RoundRobinScheduler.js:88 | the arrived set is exactly the pending processes with arrival time at most the clock |
| RoundRobinSpec.WithoutMembers | js/RoundRobinScheduler.js:95 | the filtered pending copy holds exactly the pending processes that did not arrive |
| RoundRobinRun.InitInv | js/RoundRobinScheduler.js:56-83 | the loop's initial state satisfies the loop invariant |
| RoundRobinRun.FreshWork | js/RoundRobinScheduler.js:65-72 | after the reset, the work left is the sum of all bursts |
| RoundRobinRun.AdmitInv | js/RoundRobinScheduler.js:88-95 | admission keeps the invariant, appends the arrived processes to the queue in pending order, removes them from the pending copy, changes nothing else, and leaves only later arrivals pending |
| RoundRobinRun.DispatchShape | js/RoundRobinScheduler.js:97-150 | a dispatch runs the head for `min(quantum, remaining)` ticks, between 1 and the quantum; it appends one Gantt bar from the old clock to the new; it terminates the head or puts it at the tail of the queue; and it appends two snapshots |
| RoundRobinRun.DispatchedOk | js/RoundRobinScheduler.js:102-146 | a dispatch spends at least one tick and removes exactly that much work from the head; a finished head has completed metrics, an unfinished one is back in the queue |
| RoundRobinRun.DispatchInv | js/RoundRobinScheduler.js:97-150 | a dispatch keeps the invariant, leaves the pending copy alone and strictly reduces the work left |
| RoundRobinRun.DispatchAccounts | js/RoundRobinScheduler.js:122-131 | the width a dispatch adds to the Gantt chart equals the work it removes |
| RoundRobinRun.PreemptedBeforeArrivals | js/RoundRobinScheduler.js:88-146 | a preempted process goes to the tail before the processes that arrived during its slice, which join behind it at the top of the next iteration |
| RoundRobinRun.IdleInv | js/RoundRobinScheduler.js:151-155 | an idle tick keeps the invariant |
| RoundRobinRun.StepInv | js/RoundRobinScheduler.js:86-156 | each iteration keeps the invariant and decreases (work left, latest arrival minus clock) lexicographically |
| RoundRobinRun.Reaches | js/RoundRobinScheduler.js:86-156 | from any state satisfying the invariant, the loop reaches its exit condition after finitely many iterations |
| RoundRobinRun.Stops | js/RoundRobinScheduler.js:86-156 | with a quantum of at least 1 the loop terminates |
| RoundRobinRun.ScheduleInv | js/RoundRobinScheduler.js:80-160 | the final state satisfies the loop invariant |
| RoundRobinRun.ScheduleFits | js/RoundRobinScheduler.js:80-160 | at the end, nothing is pending or ready, the clock is non-negative, the Gantt chart and history fit it, and a completed process implies a clock of at least 1 |
| RoundRobinRun.Finished | js/RoundRobinScheduler.js:80-160 | at the end, every process completed exactly once with no work left and state terminated; turnaround is completion minus arrival; waiting is turnaround minus burst and is non-negative; start time is that of its first Gantt bar; the busy time is the sum of all bursts; and the last bar ends at the final clock |
| RoundRobinLemmas.GanttOrdered | js/RoundRobinScheduler.js:122-131 | Gantt bars have positive width, lie within the clock, and follow one another without overlap |
| RoundRobinLemmas.BusyWithin | js/RoundRobinScheduler.js:197-203 | the busy time is between 0 and the clock, so utilisation is at most 100% |
| RoundRobinLemmas.FirstStartAppend | js/RoundRobinScheduler.js:102-104 | a process's first Gantt bar does not change once it exists |
| RoundRobinLemmas.TotalRemainingUpdate | js/RoundRobinScheduler.js:131 | updating one process changes the work left by that process's change |
| RoundRobinLemmas.TotalRemainingBounds | js/RoundRobinScheduler.js:86 | the work left is non-negative, and zero exactly when every process is finished |
| Common.NoDupPairwise | js/RoundRobinScheduler.js:90 | the "no duplicate" form used for the ready queue and completed list is equivalent to all positions holding distinct elements |

## Left out

- Rendering is not modelled: the DOM, the event wiring, `alert`s, console logging, the screenshot and the notifications. `renderProcessList`, `renderAnimation`, `updateTimelineSlider` and `updateStatistics` change nothing the model tracks.
- Timing is not modelled: `setInterval` and `clearInterval`, `animationSpeed`, its change handler, and `restartAnimation`. One firing of the timer is the method `TimerTick`, so `isPlaying` is kept but the timer handle is not.
- The trace file itself is not modelled: the `Blob`, the object URL, the anchor click and the file name built from the current date. `ExportTrace` returns the text instead.
- Floating-point division and `toFixed` are not modelled. `getStatistics` returns the integer totals (`Stats`), and the figures come from a `fixed` function parameter that stands for `((num / den) * scale).toFixed(digits)`, so the utilisation is divided before it is scaled by 100, in the order `getStatistics` computes it.
- Controller.AnimationController.AddProcess validates the numbers that `parseInt` reads from the field texts (`ValidateFields`), not the `Number` conversions the original's guards compare; the original's guards are modelled separately, with `Number` as a parameter, and the difference is recorded under Findings. Values a browser's number input would never hand over are not excluded.
- The time-quantum change handler (js/AnimationController.js:65-67) is not modelled. `StartSimulation` requires a quantum of at least 1. The original has no guard, and with quantum 0 its loop never advances the clock.
- Scheduler.RoundRobinScheduler.AddProcess requires a fresh id, an arrival of at least 0 and a burst of at least 1. The original does not check these. The modelled controller's `ValidateFields` guarantees them, and so does the sample workload; the original's guards guarantee them only when `Number` and `parseInt` agree on the field text, as they do on plain integer literals (see Findings).
- Processes are values, not shared objects. The ready queue, the completed list and the running process hold positions into `processes`, where the original holds references to the same objects. An update to a process is written back at its position, and `AddProcess` shifts the stored positions so that they keep designating the same processes. Aliasing is therefore not modelled; the position lists designate what the references did.
- The Gantt entry's `state` field is always `'running'`, so it is dropped, and busy time sums every entry. `animationInterval` is never used and is dropped.
- The demo workload in js/main.js:29-48 is not modelled. `Schedule` is a ghost function defined by the loop's fixpoint, so no lemma evaluates it on concrete processes.
- Scheduler.RoundRobinScheduler.Board reads `lastProcessTime` as a map keyed by id, holding only what dispatches stored; the original's plain object also answers for the names every object inherits (`constructor`, `toString`, ...), which gives a `NaN` waiting time (see Findings, `WaitingOnPlainObject`).
- RoundRobinSpec.Dispatched adds the time since the arrival for an id not yet stored, also for an inherited name, where the original yields `NaN`.
- RoundRobinRun.Finished promises a non-negative waiting time for every process; the original gives `NaN` to a process whose id is an inherited name.
- ProcessModel.GenerateColor reads the id's number exactly and rounds it once to the nearest double. ECMAScript lets `parseInt` treat the digits after the 20th significant one as 0 before rounding, so for longer ids an engine may pick a neighbouring double and colour.

## Findings

| source | as written | input that shows it | evidently intended | confidence | as-written member | corrected member |
|---|---|---|---|---|---|---|
| js/RoundRobinScheduler.js:83-111 | `lastProcessTime = {}` is a plain object, so `lastProcessTime[process.id] !== undefined` holds for the inherited `Object.prototype` members for ids that no dispatch stored | a process with id `constructor`, accepted by the form: at its first dispatch `this.lastProcessTime['constructor']` is a function, and the waiting time becomes `NaN` | a per-process record of the last time it left the CPU (a `Map`, or an object without a prototype), so the first dispatch adds the time since arrival | high, not executed | RoundRobinSpec.WaitingOnPlainObject, RoundRobinSpec.InheritedIdLosesWaiting | RoundRobinSpec.Dispatched, RoundRobinRun.Finished |
| js/AnimationController.js:138-148 | the guards compare the field text with a number (`Number` conversion) while the process stores `parseInt` of the same text (js/Process.js:14-16) | arrival `.5` passes (`0.5 >= 0`) but `parseInt('.5')` is `NaN`, so the process never arrives and the `while` loop never ends; burst `0.1e2` passes (`10 >= 1`) but `parseInt` reads 0 | the stored arrival is at least 0 and the stored burst at least 1 | high, not executed | Controller.GuardsPassAsWritten, Controller.FractionalFieldsSlipThrough | Controller.ValidateFields, Controller.AnimationController.AddProcess |
