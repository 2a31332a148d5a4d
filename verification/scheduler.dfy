/**
 * The scheduler object: its process list, ready queue, completed list, clock, Gantt chart and history,
 * updated step by step as the original does. `Simulate` runs the round-robin `while` loop on the
 * object's fields and is proved to end in the state `RoundRobinRun.Schedule` computes.
 *
 * The original's ready queue, completed list and running process hold references to the objects in
 * `processes`, and the loop updates those objects in place. Here processes are values kept in
 * `processes`, the three hold positions into it, and an update to a process writes it back at its
 * position.
 */
module Scheduler {
  import opened Common
  import opened ProcessModel
  import opened RoundRobinSpec
  import opened RoundRobinLemmas
  import opened RoundRobinRun
  import opened ProcessList

  /**
   * The integer totals behind `getStatistics`' four figures: average waiting time is
   * `totalWaitingTime / completedCount`, average turnaround `totalTurnaroundTime / completedCount`,
   * throughput `completedCount / currentTime` and utilisation `100 * busyTime / currentTime`.
   */
  datatype Stats = Stats(totalWaitingTime: int, totalTurnaroundTime: int, completedCount: nat, busyTime: int, currentTime: int)

  /** `reduce((sum, p) => sum + p.waitingTime, 0)` over the processes at positions `idx`. */
  function SumWaiting(ps: seq<Process>, idx: seq<nat>): int
    requires AllBelow(idx, |ps|)
  {
    if idx == [] then 0 else SumWaiting(ps, idx[..|idx| - 1]) + ps[idx[|idx| - 1]].waitingTime
  }

  /** `reduce((sum, p) => sum + p.turnaroundTime, 0)` over the processes at positions `idx`. */
  function SumTurnaround(ps: seq<Process>, idx: seq<nat>): int
    requires AllBelow(idx, |ps|)
  {
    if idx == [] then 0 else SumTurnaround(ps, idx[..|idx| - 1]) + ps[idx[|idx| - 1]].turnaroundTime
  }

  class RoundRobinScheduler {
    var timeQuantum: int
    var processes: seq<Process>
    /** Positions in `processes`, head first. */
    var readyQueue: seq<nat>
    /** Positions in `processes`, in completion order. */
    var completedProcesses: seq<nat>
    var currentTime: int
    /** The position of the process on the CPU, if any. */
    var currentProcess: Option<nat>
    var isRunning: bool
    var history: seq<Snapshot>
    var ganttChart: seq<GanttEntry>

    /**
     * The process list holds well-formed processes with distinct ids, ordered by arrival; the lists
     * of positions stay in range; no process holds the CPU between runs; the Gantt chart and the
     * history fit the clock; a non-empty completed list means the clock has moved.
     */
    ghost predicate Valid()
      reads this
    {
      && JobsOk(JobsOf(processes))
      && SortedByArrival(processes)
      && AllBelow(readyQueue, |processes|) && AllBelow(completedProcesses, |processes|)
      && currentProcess == None
      && currentTime >= 0
      && GanttOk(ganttChart, currentTime)
      && HistoryOk(history, currentTime)
      && (completedProcesses != [] ==> currentTime >= 1)
    }

    constructor (timeQuantum: int)
      ensures Valid()
      ensures this.timeQuantum == timeQuantum
      ensures processes == [] && readyQueue == [] && completedProcesses == []
      ensures currentTime == 0 && currentProcess == None && !isRunning && history == [] && ganttChart == []
    {
      this.timeQuantum := timeQuantum;
      processes := [];
      readyQueue := [];
      completedProcesses := [];
      currentTime := 0;
      currentProcess := None;
      isRunning := false;
      history := [];
      ganttChart := [];
    }

    /**
     * `push` then the stable sort on arrival time. The ready queue and the completed list go on
     * designating the same processes. The caller guarantees a fresh id, a non-negative arrival and
     * a positive burst (the controller's validation does).
     */
    method AddProcess(p: Process)
      requires Valid()
      requires p.arrivalTime >= 0 && p.burstTime >= 1
      requires forall q :: q in processes ==> q.id != p.id
      modifies this`processes, this`readyQueue, this`completedProcesses
      ensures Valid()
      ensures processes == InsertByArrival(old(processes), p)
      ensures |readyQueue| == |old(readyQueue)|
      ensures forall i :: 0 <= i < |readyQueue| ==> processes[readyQueue[i]] == old(processes)[old(readyQueue)[i]]
      ensures |completedProcesses| == |old(completedProcesses)|
      ensures forall i :: 0 <= i < |completedProcesses| ==>
        processes[completedProcesses[i]] == old(processes)[old(completedProcesses)[i]]
    {
      InsertSorted(processes, p);
      JobsOkInsert(processes, p);
      ShiftFollows(processes, p, readyQueue);
      ShiftFollows(processes, p, completedProcesses);
      var pos := InsertPos(processes, p);
      processes := InsertByArrival(processes, p);
      readyQueue := Shift(readyQueue, pos);
      completedProcesses := Shift(completedProcesses, pos);
    }

    /** `clearProcesses`: every list empties, the clock returns to 0 and no process holds the CPU. */
    method ClearProcesses()
      modifies this`processes, this`readyQueue, this`completedProcesses, this`currentTime
      modifies this`currentProcess, this`history, this`ganttChart
      ensures Valid()
      ensures processes == [] && readyQueue == [] && completedProcesses == []
      ensures currentTime == 0 && currentProcess == None && history == [] && ganttChart == []
    {
      processes := [];
      readyQueue := [];
      completedProcesses := [];
      currentTime := 0;
      currentProcess := None;
      history := [];
      ganttChart := [];
    }

    /** The value state the fields hold, with `pending`, `time` and `last` the loop's locals. */
    ghost function Abstract(pending: seq<nat>, time: int, last: map<string, int>): SimState
      reads this`processes, this`readyQueue, this`completedProcesses, this`ganttChart, this`history
    {
      SimState(time, pending, readyQueue, completedProcesses, RecsOf(processes), last, ganttChart, history)
    }

    /** The fields hold the value state `s`. */
    ghost predicate Mirrors(s: SimState, pending: seq<nat>, time: int, last: map<string, int>)
      reads this`processes, this`readyQueue, this`completedProcesses, this`ganttChart, this`history
    {
      Abstract(pending, time, last) == s
    }

    /**
     * `startSimulation`: with no processes nothing changes; otherwise every list and the clock are
     * reset, every process gets fresh metrics, and the loop runs. The outcome depends only on the
     * processes' ids, arrivals and bursts and on the quantum.
     */
    method StartSimulation()
      requires Valid() && timeQuantum >= 1
      modifies this
      ensures Valid()
      ensures JobsOf(processes) == JobsOf(old(processes)) && timeQuantum == old(timeQuantum)
      ensures old(processes) == [] ==> unchanged(this)
      ensures old(processes) != [] ==>
        var r := Schedule(JobsOf(processes), timeQuantum);
        Mirrors(r, [], currentTime, r.last) && !isRunning
    {
      if |processes| == 0 {
        return;
      }
      ghost var jobs := JobsOf(processes);
      isRunning := true;
      readyQueue := [];
      completedProcesses := [];
      currentTime := 0;
      currentProcess := None;
      history := [];
      ganttChart := [];
      ResetMetrics();
      Simulate();
      ScheduleFits(jobs, timeQuantum);
      SortedByJobs(processes, old(processes));
    }

    /** The `forEach` that gives every process its initial metrics back. */
    method ResetMetrics()
      modifies this`processes
      ensures JobsOf(processes) == JobsOf(old(processes))
      ensures RecsOf(processes) == Init(JobsOf(processes)).recs
    {
      ghost var jobs := JobsOf(processes);
      var i := 0;
      while i < |processes|
        invariant 0 <= i <= |processes| && JobsOf(processes) == jobs
        invariant forall j :: 0 <= j < i ==> processes[j].Rec() == FreshRec(processes[j].burstTime)
      {
        var p := processes[i];
        p := p.(remainingTime := p.burstTime, waitingTime := 0, turnaroundTime := 0, completionTime := 0,
                startTime := None, state := Ready);
        UpdateMetrics(processes, i, p);
        processes := processes[i := p];
        i := i + 1;
      }
    }

    /** `simulate`: the round-robin loop. */
    method Simulate()
      requires JobsOk(JobsOf(processes)) && timeQuantum >= 1
      requires readyQueue == [] && completedProcesses == [] && ganttChart == [] && history == []
      requires currentProcess == None
      requires RecsOf(processes) == Init(JobsOf(processes)).recs
      modifies this`processes, this`readyQueue, this`completedProcesses, this`currentTime
      modifies this`currentProcess, this`isRunning, this`history, this`ganttChart
      ensures JobsOf(processes) == JobsOf(old(processes))
      ensures var r := Schedule(JobsOf(processes), timeQuantum);
        && Mirrors(r, [], currentTime, r.last)
        && currentProcess == None && !isRunning
    {
      ghost var jobs := JobsOf(processes);
      Path(jobs, timeQuantum);
      ghost var n := 0;
      var processesCopy := Range(|processes|);
      var time := 0;
      var lastProcessTime: map<string, int> := map[];
      while processesCopy != [] || readyQueue != []
        invariant JobsOf(processes) == jobs && currentProcess == None
        invariant 0 <= n <= Trips(jobs, timeQuantum)
        invariant Mirrors(Nth(jobs, timeQuantum, n), processesCopy, time, lastProcessTime)
        decreases Trips(jobs, timeQuantum) - n
      {
        processesCopy, time, lastProcessTime := Iteration(processesCopy, time, lastProcessTime, jobs, n);
        n := n + 1;
      }
      currentTime := time;
      isRunning := false;
    }

    /**
     * One pass of the loop body: admit the arrivals, then run the head of the ready queue for a slice,
     * or, with the queue empty, let the CPU idle for one tick and take a snapshot.
     */
    method Iteration(pending: seq<nat>, time: int, last: map<string, int>, ghost jobs: seq<Job>, ghost n: nat)
      returns (pending': seq<nat>, time': int, last': map<string, int>)
      requires JobsOf(processes) == jobs
      requires Shaped(jobs, Nth(jobs, timeQuantum, n)) && !Done(Nth(jobs, timeQuantum, n))
      requires Mirrors(Nth(jobs, timeQuantum, n), pending, time, last) && currentProcess == None
      modifies this`processes, this`readyQueue, this`completedProcesses, this`currentProcess
      modifies this`history, this`ganttChart
      ensures JobsOf(processes) == jobs && currentProcess == None
      ensures Mirrors(Nth(jobs, timeQuantum, n + 1), pending', time', last')
    {
      NthStep(jobs, timeQuantum, n);
      pending', time', last' := Advance(pending, time, last, jobs, Nth(jobs, timeQuantum, n));
    }

    /** The loop body on the state `s` the fields hold. */
    method Advance(pending: seq<nat>, time: int, last: map<string, int>, ghost jobs: seq<Job>, ghost s: SimState)
      returns (pending': seq<nat>, time': int, last': map<string, int>)
      requires JobsOf(processes) == jobs && Shaped(jobs, s)
      requires Mirrors(s, pending, time, last) && currentProcess == None
      modifies this`processes, this`readyQueue, this`completedProcesses, this`currentProcess
      modifies this`history, this`ganttChart
      ensures JobsOf(processes) == jobs && currentProcess == None
      ensures Mirrors(Step(jobs, timeQuantum, s), pending', time', last')
    {
      pending' := AdmitArrivals(pending, time, last, s);
      ghost var a := Admit(jobs, s);
      AdmitKeepsBelow(jobs, s);
      if readyQueue != [] {
        time', last' := RunHead(time, last, pending', a);
      } else {
        time' := IdleTick(time, last, pending', a);
        last' := last;
      }
    }

    /** With the ready queue empty, the CPU idles: the clock advances one tick and a snapshot is taken. */
    method IdleTick(time: int, ghost last: map<string, int>, ghost pending: seq<nat>, ghost a: SimState) returns (time': int)
      requires |a.recs| == |processes| && AllBelow(a.queue, |processes|) && AllBelow(a.completed, |processes|)
      requires Mirrors(a, pending, time, last) && currentProcess == None
      modifies this`history
      ensures Mirrors(Idle(JobsOf(processes), a), pending, time', last)
    {
      time' := time + 1;
      RecordState(time');
    }

    /**
     * The top of an iteration: the pending processes that have arrived go, in pending order, to the
     * tail of the ready queue (unless already there or completed) with state `Ready`, and leave the
     * pending copy.
     */
    method AdmitArrivals(pending: seq<nat>, time: int, ghost last: map<string, int>, ghost s: SimState)
      returns (rest: seq<nat>)
      requires |s.recs| == |processes|
      requires AllBelow(s.pending, |processes|) && AllBelow(s.queue, |processes|) && AllBelow(s.completed, |processes|)
      requires Mirrors(s, pending, time, last)
      modifies this`readyQueue, this`processes
      ensures JobsOf(processes) == JobsOf(old(processes))
      ensures Mirrors(Admit(JobsOf(processes), s), rest, time, last)
    {
      ghost var jobs := JobsOf(processes);
      var arrivedProcesses := ArrivedBy(JobsOf(processes), pending, time);
      ghost var t := s;
      var i := 0;
      while i < |arrivedProcesses|
        invariant 0 <= i <= |arrivedProcesses|
        invariant JobsOf(processes) == jobs
        invariant t == AdmitPrefix(s, arrivedProcesses, i)
        invariant AllBelow(t.queue, |jobs|) && AllBelow(t.completed, |jobs|)
        invariant Mirrors(t, pending, time, last)
      {
        var k := arrivedProcesses[i];
        if k !in readyQueue && k !in completedProcesses {
          readyQueue := readyQueue + [k];
          var p := processes[k].(state := Ready);
          UpdateMetrics(processes, k, p);
          processes := processes[k := p];
          t := t.(queue := t.queue + [k], recs := t.recs[k := t.recs[k].(state := Ready)]);
        }
        i := i + 1;
      }
      rest := Without(pending, arrivedProcesses);
    }

    /**
     * The head of the ready queue runs for `min(timeQuantum, remainingTime)` ticks: start and waiting
     * time are updated, a snapshot is taken with it on the CPU, its Gantt bar is appended, and it
     * either terminates or rejoins the tail of the queue; a second snapshot follows with the CPU free.
     */
    method RunHead(time: int, last: map<string, int>, ghost pending: seq<nat>, ghost a: SimState)
      returns (time': int, last': map<string, int>)
      requires |a.recs| == |processes| && a.queue != []
      requires AllBelow(a.queue, |processes|) && AllBelow(a.completed, |processes|)
      requires Mirrors(a, pending, time, last)
      modifies this`processes, this`readyQueue, this`completedProcesses, this`currentProcess
      modifies this`history, this`ganttChart
      ensures JobsOf(processes) == JobsOf(old(processes))
      ensures Mirrors(Dispatch(JobsOf(processes), timeQuantum, a), pending, time', last')
      ensures currentProcess == None
    {
      ghost var jobs := JobsOf(processes);
      var k, process, executionTime := BeginSlice(time, last, jobs, pending, a);
      time', last' := EndSlice(k, process, executionTime, time, last, jobs, pending, Launch(jobs, a));
    }

    /** The first half of a slice: the head leaves the queue, is marked running, and a snapshot is taken. */
    method BeginSlice(time: int, last: map<string, int>, ghost jobs: seq<Job>, ghost pending: seq<nat>, ghost a: SimState)
      returns (k: nat, process: Process, executionTime: int)
      requires JobsOf(processes) == jobs && |a.recs| == |jobs| && a.queue != []
      requires AllBelow(a.queue, |jobs|) && AllBelow(a.completed, |jobs|)
      requires Mirrors(a, pending, time, last)
      modifies this`processes, this`readyQueue, this`currentProcess, this`history
      ensures JobsOf(processes) == jobs && Mirrors(Launch(jobs, a), pending, time, last)
      ensures k == a.queue[0] && currentProcess == Some(k)
      ensures k < |processes| && processes[k] == process
      ensures executionTime == Min(timeQuantum, a.recs[k].remainingTime)
    {
      k := readyQueue[0];
      readyQueue := readyQueue[1..];
      process, executionTime := Board(processes[k], time, last);
      UpdateMetrics(processes, k, process);
      processes := processes[k := process];
      currentProcess := Some(k);
      ghost var l := Launch(jobs, a);
      assert RecsOf(processes) == l.recs;
      assert readyQueue == l.queue;
      RecordState(time);
    }

    /**
     * What the first half of a slice does to the process itself: its start time is set on its first
     * dispatch, the time since it last left the CPU (or since its arrival) is added to its waiting
     * time, it is marked running, and its slice is `min(timeQuantum, remainingTime)`.
     */
    method Board(p: Process, time: int, last: map<string, int>) returns (process: Process, executionTime: int)
      ensures process.AsJob() == p.AsJob()
      ensures process.Rec() == Dispatched(p.AsJob(), p.Rec(), last, time)
      ensures executionTime == Min(timeQuantum, p.remainingTime)
    {
      process := p;
      if process.startTime.None? {
        process := process.(startTime := Some(time));
      }
      if process.id in last {
        process := process.(waitingTime := process.waitingTime + (time - last[process.id]));
      } else {
        process := process.(waitingTime := process.waitingTime + (time - process.arrivalTime));
      }
      executionTime := Min(timeQuantum, process.remainingTime);
      process := process.(state := Running);
    }

    /** The second half of a slice: the Gantt bar, the clock, and the process terminated or requeued. */
    method EndSlice(k: nat, process: Process, executionTime: int, time: int, last: map<string, int>,
                    ghost jobs: seq<Job>, ghost pending: seq<nat>, ghost b: SimState)
      returns (time': int, last': map<string, int>)
      requires JobsOf(processes) == jobs && Mirrors(b, pending, time, last)
      requires k < |processes| && processes[k] == process
      requires AllBelow(b.queue, |jobs|) && AllBelow(b.completed, |jobs|)
      modifies this`processes, this`readyQueue, this`completedProcesses, this`currentProcess
      modifies this`history, this`ganttChart
      ensures JobsOf(processes) == jobs && currentProcess == None
      ensures Mirrors(Land(jobs, k, executionTime, b), pending, time', last')
    {
      ganttChart := ganttChart + [GanttEntry(process.id, time, time + executionTime)];
      time' := time + executionTime;
      last' := last[process.id := time'];
      var process := Leave(process, executionTime, time');
      UpdateMetrics(processes, k, process);
      processes := processes[k := process];
      if process.remainingTime == 0 {
        completedProcesses := completedProcesses + [k];
      } else {
        readyQueue := readyQueue + [k];
      }
      currentProcess := None;
      RecordState(time');
      LandIs(jobs, k, executionTime, b, time', RecsOf(processes), readyQueue, completedProcesses, last', ganttChart, history);
    }

    /**
     * What the second half of a slice does to the process itself: its remaining time drops by the
     * slice; at zero it is terminated with its completion and turnaround time set, otherwise it waits.
     */
    method Leave(p: Process, executionTime: int, time: int) returns (process: Process)
      ensures process.AsJob() == p.AsJob()
      ensures process.Rec() == AfterSlice(p.AsJob(), p.Rec(), executionTime, time)
    {
      process := p.(remainingTime := p.remainingTime - executionTime);
      if process.remainingTime == 0 {
        process := process.(completionTime := time);
        process := process.(turnaroundTime := process.completionTime - process.arrivalTime);
        process := process.(state := Terminated);
      } else {
        process := process.(state := Waiting);
      }
    }

    /** `recordState`: appends a copy, by value, of the clock, the running process, both lists and every process's metrics. */
    method RecordState(time: int)
      requires AllBelow(readyQueue, |processes|) && AllBelow(completedProcesses, |processes|)
      requires currentProcess.Some? ==> currentProcess.value < |processes|
      modifies this`history
      ensures history == old(history) +
        [Snap(JobsOf(processes), time, currentProcess, readyQueue, completedProcesses, RecsOf(processes))]
    {
      ViewsOfRecs(processes);
      var state := Snapshot(
        time,
        if currentProcess.Some? then Some(processes[currentProcess.value].id) else None,
        Ids(JobsOf(processes), readyQueue),
        Ids(JobsOf(processes), completedProcesses),
        ViewsOf(processes));
      history := history + [state];
    }

    /**
     * `getStatistics`: nothing when no process has completed; otherwise the totals it divides, with
     * the busy time summed over the Gantt chart by a loop. Busy time never exceeds the clock, and the
     * clock is at least 1, so the divisions are defined and utilisation is at most 100%.
     */
    method GetStatistics() returns (stats: Option<Stats>)
      requires Valid()
      ensures stats.None? <==> completedProcesses == []
      ensures stats.Some? ==> stats.value == Stats(
        SumWaiting(processes, completedProcesses), SumTurnaround(processes, completedProcesses),
        |completedProcesses|, BusyTime(ganttChart), currentTime)
      ensures stats.Some? ==> 0 <= stats.value.busyTime <= stats.value.currentTime && stats.value.currentTime >= 1
    {
      if completedProcesses == [] {
        return None;
      }
      var totalWaitingTime := SumWaiting(processes, completedProcesses);
      var totalTurnaroundTime := SumTurnaround(processes, completedProcesses);
      var busyTime := 0;
      var i := 0;
      while i < |ganttChart|
        invariant 0 <= i <= |ganttChart|
        invariant busyTime == BusyTime(ganttChart[..i])
      {
        assert ganttChart[..i + 1][..i] == ganttChart[..i];
        busyTime := busyTime + (ganttChart[i].end - ganttChart[i].start);
        i := i + 1;
      }
      assert ganttChart[..i] == ganttChart;
      BusyWithin(ganttChart, currentTime);
      stats := Some(Stats(totalWaitingTime, totalTurnaroundTime, |completedProcesses|, busyTime, currentTime));
    }
  }
}
