/**
 * The round-robin loop of the scheduler, one iteration at a time, on values. Processes live in an arena
 * indexed by position (`jobs` holds what never changes, `recs` what the scheduler updates); the pending
 * copy, the ready queue and the completed list hold indices into it. `Step` is one iteration of the
 * `while` loop, repeated until nothing is pending or ready. The scheduler class runs the same loop in
 * place and is proved to end in the state the repetition stops in.
 */
module RoundRobinSpec {
  import opened Common
  import opened ProcessModel

  /** One bar of the Gantt chart: `process` held the CPU from `start` to `end`. */
  datatype GanttEntry = GanttEntry(process: string, start: int, end: int)

  /** What a snapshot records about one process. */
  datatype ProcView = ProcView(id: string, state: ProcState, remainingTime: int, waitingTime: int, turnaroundTime: int)

  /** One entry of `history`: a copy, by value, of the scheduler's state at `time`. */
  datatype Snapshot = Snapshot(
    time: int,
    currentProcess: Option<string>,
    readyQueue: seq<string>,
    completedProcesses: seq<string>,
    processes: seq<ProcView>)

  /**
   * The state of the loop at the top of an iteration: the simulated clock, the not yet arrived
   * processes (`processesCopy`), the ready queue, the completed list, every process's metrics, the
   * `lastProcessTime` map (keyed by id), and the Gantt chart and history built so far.
   */
  datatype SimState = SimState(
    time: int,
    pending: seq<nat>,
    queue: seq<nat>,
    completed: seq<nat>,
    recs: seq<PRec>,
    last: map<string, int>,
    gantt: seq<GanttEntry>,
    history: seq<Snapshot>)

  /** The well-formed arenas: arrival times non-negative, bursts positive, ids pairwise distinct. */
  ghost predicate JobsOk(jobs: seq<Job>) {
    && (forall i :: 0 <= i < |jobs| ==> jobs[i].arrivalTime >= 0 && jobs[i].burstTime >= 1)
    && (forall i, j :: 0 <= i < j < |jobs| ==> jobs[i].id != jobs[j].id)
  }

  /** The state `simulate` starts from: everything pending, in arena order, with fresh metrics. */
  function Init(jobs: seq<Job>): SimState {
    SimState(0, Range(|jobs|), [], [], seq(|jobs|, i requires 0 <= i < |jobs| => FreshRec(jobs[i].burstTime)), map[], [], [])
  }

  /** The positions a state holds are positions of the arena, and there is one metrics record per process. */
  predicate Shaped(jobs: seq<Job>, s: SimState) {
    |s.recs| == |jobs| && AllBelow(s.pending, |jobs|) && AllBelow(s.queue, |jobs|) && AllBelow(s.completed, |jobs|)
  }

  /** The loop's exit condition: nothing pending and nothing ready. */
  predicate Done(s: SimState) {
    s.pending == [] && s.queue == []
  }

  // ---------------------------------------------------------------------------------------------
  // Snapshots

  function ViewOf(j: Job, r: PRec): ProcView {
    ProcView(j.id, r.state, r.remainingTime, r.waitingTime, r.turnaroundTime)
  }

  function Ids(jobs: seq<Job>, idx: seq<nat>): (r: seq<string>)
    requires AllBelow(idx, |jobs|)
    ensures |r| == |idx|
  {
    if idx == [] then [] else Ids(jobs, idx[..|idx| - 1]) + [jobs[idx[|idx| - 1]].id]
  }

  function Views(jobs: seq<Job>, recs: seq<PRec>): (r: seq<ProcView>)
    requires |recs| == |jobs|
    ensures |r| == |recs|
  {
    if recs == [] then [] else Views(jobs[..|recs| - 1], recs[..|recs| - 1]) + [ViewOf(jobs[|recs| - 1], recs[|recs| - 1])]
  }

  /** What `recordState` appends, given the process on the CPU (if any). */
  function Snap(jobs: seq<Job>, time: int, cur: Option<nat>, queue: seq<nat>, completed: seq<nat>, recs: seq<PRec>): Snapshot
    requires cur.Some? ==> cur.value < |jobs|
    requires AllBelow(queue, |jobs|) && AllBelow(completed, |jobs|) && |recs| == |jobs|
  {
    Snapshot(time, if cur.Some? then Some(jobs[cur.value].id) else None, Ids(jobs, queue), Ids(jobs, completed), Views(jobs, recs))
  }

  // ---------------------------------------------------------------------------------------------
  // Arrivals: `filter(p => p.arrivalTime <= time)`, the guarded `forEach` push, and the pending filter

  /** The pending processes that have arrived by `time`, in pending order. */
  function ArrivedBy(jobs: seq<Job>, pending: seq<nat>, time: int): (r: seq<nat>)
    requires AllBelow(pending, |jobs|)
    ensures AllBelow(r, |jobs|)
  {
    if pending == [] then []
    else (if jobs[pending[0]].arrivalTime <= time then [pending[0]] else []) + ArrivedBy(jobs, pending[1..], time)
  }

  /** Exactly the pending processes that have arrived by `time` are kept. */
  lemma {:induction false} ArrivedByMembers(jobs: seq<Job>, pending: seq<nat>, time: int)
    requires AllBelow(pending, |jobs|)
    ensures forall k :: k in ArrivedBy(jobs, pending, time) <==> k in pending && jobs[k].arrivalTime <= time
    decreases |pending|
  {
    if pending != [] {
      ArrivedByMembers(jobs, pending[1..], time);
      assert pending == [pending[0]] + pending[1..];
    }
  }

  /** `xs` without the elements of `ys`, order kept. */
  function Without(xs: seq<nat>, ys: seq<nat>): (r: seq<nat>)
    ensures |r| <= |xs|
  {
    if xs == [] then [] else (if xs[0] in ys then [] else [xs[0]]) + Without(xs[1..], ys)
  }

  /** Exactly the elements of `xs` not in `ys` are kept. */
  lemma {:induction false} WithoutMembers(xs: seq<nat>, ys: seq<nat>)
    ensures forall k :: k in Without(xs, ys) <==> k in xs && k !in ys
    decreases |xs|
  {
    if xs != [] {
      WithoutMembers(xs[1..], ys);
      assert xs == [xs[0]] + xs[1..];
    }
  }

  /**
   * The state after the guarded push of `arrived[0..j)`: each arrived process not already in the ready
   * queue or the completed list goes to the tail of the queue with state `Ready`.
   */
  function AdmitPrefix(s: SimState, arrived: seq<nat>, j: nat): (r: SimState)
    requires j <= |arrived| && AllBelow(arrived, |s.recs|)
    ensures |r.recs| == |s.recs|
  {
    if j == 0 then s
    else
      var t := AdmitPrefix(s, arrived, j - 1);
      var k := arrived[j - 1];
      if k !in t.queue && k !in t.completed then
        t.(queue := t.queue + [k], recs := t.recs[k := t.recs[k].(state := Ready)])
      else t
  }

  /** The first phase of an iteration: move every arrived process from pending to the ready queue. */
  function Admit(jobs: seq<Job>, s: SimState): (r: SimState)
    requires |s.recs| == |jobs| && AllBelow(s.pending, |jobs|)
    ensures |r.recs| == |jobs|
  {
    var arrived := ArrivedBy(jobs, s.pending, s.time);
    AdmitPrefix(s, arrived, |arrived|).(pending := Without(s.pending, arrived))
  }

  // ---------------------------------------------------------------------------------------------
  // Dispatch and idle

  /** The metrics of process `k` when it is dispatched at `time`: start time, waiting time, `Running`. */
  function Dispatched(j: Job, r: PRec, last: map<string, int>, time: int): PRec {
    var since := if j.id in last then last[j.id] else j.arrivalTime;
    r.(startTime := if r.startTime.None? then Some(time) else r.startTime,
       waitingTime := r.waitingTime + (time - since),
       state := Running)
  }

  /**
   * The names a plain JavaScript object inherits from `Object.prototype`: a lookup of one of them
   * in `lastProcessTime` finds a function (for `__proto__`, the prototype object itself) although no
   * dispatch stored anything under it.
   */
  const InheritedKeys: set<string> :=
    {"constructor", "toString", "toLocaleString", "valueOf", "hasOwnProperty", "isPrototypeOf",
     "propertyIsEnumerable", "__proto__", "__defineGetter__", "__defineSetter__",
     "__lookupGetter__", "__lookupSetter__"}

  /**
   * The waiting time a dispatch computes when `lastProcessTime` is a plain object, as the scheduler
   * has it: an own entry is used as stored, an inherited name is found as something that is not
   * `undefined` and the arithmetic yields `NaN` (`None`), any other name falls back to the arrival time.
   * A store under `__proto__` is ignored by the object, so that id finds the prototype again, and gets
   * `NaN`, at every later dispatch too; `last` here does hold the key after a store, so for that id
   * only the first dispatch is captured. Nothing more follows from the later ones, since a waiting
   * time that is already `NaN` stays `NaN`.
   */
  function WaitingOnPlainObject(j: Job, r: PRec, last: map<string, int>, time: int): (w: Option<int>)
    ensures j.id in last || j.id !in InheritedKeys <==> w == Some(Dispatched(j, r, last, time).waitingTime)
    ensures j.id !in last && j.id in InheritedKeys <==> w.None?
  {
    if j.id in last then Some(r.waitingTime + (time - last[j.id]))
    else if j.id in InheritedKeys then None
    else Some(r.waitingTime + (time - j.arrivalTime))
  }

  /**
   * The discrepancy: the first dispatch of a process whose id is an inherited name gives it a `NaN`
   * waiting time, where the per-process record the model keeps adds the time since its arrival.
   */
  lemma InheritedIdLosesWaiting(j: Job, r: PRec, time: int)
    requires j.id == "constructor"
    ensures WaitingOnPlainObject(j, r, map[], time).None?
    ensures Dispatched(j, r, map[], time).waitingTime == r.waitingTime + (time - j.arrivalTime)
  {
    assert "constructor" in InheritedKeys;
  }

  /** The metrics of a process after running `slice` ticks that ended at `time`. */
  function AfterSlice(j: Job, r: PRec, slice: int, time: int): PRec {
    var remaining := r.remainingTime - slice;
    if remaining == 0 then
      r.(remainingTime := 0, completionTime := time, turnaroundTime := time - j.arrivalTime, state := Terminated)
    else
      r.(remainingTime := remaining, state := Waiting)
  }

  /**
   * The first half of a dispatch: the head of the ready queue leaves it, its start and waiting time
   * are updated and it is marked running, and a snapshot is taken with it on the CPU.
   */
  function Launch(jobs: seq<Job>, a: SimState): (r: SimState)
    requires |a.recs| == |jobs| && a.queue != []
    requires AllBelow(a.queue, |jobs|) && AllBelow(a.completed, |jobs|)
  {
    var k := a.queue[0];
    var recs := a.recs[k := Dispatched(jobs[k], a.recs[k], a.last, a.time)];
    a.(queue := a.queue[1..], recs := recs,
       history := a.history + [Snap(jobs, a.time, Some(k), a.queue[1..], a.completed, recs)])
  }

  /**
   * The second half of a dispatch: process `k` has run for `slice` ticks from `b.time`; its Gantt bar
   * is appended, it terminates or goes back to the tail of the queue, and a snapshot is taken with
   * the CPU free.
   */
  function Land(jobs: seq<Job>, k: nat, slice: int, b: SimState): (r: SimState)
    requires |b.recs| == |jobs| && k < |jobs|
    requires AllBelow(b.queue, |jobs|) && AllBelow(b.completed, |jobs|)
  {
    var t := b.time + slice;
    var recs := b.recs[k := AfterSlice(jobs[k], b.recs[k], slice, t)];
    var finished := recs[k].remainingTime == 0;
    var queue := if finished then b.queue else b.queue + [k];
    var completed := if finished then b.completed + [k] else b.completed;
    SimState(t, b.pending, queue, completed, recs, b.last[jobs[k].id := t],
             b.gantt + [GanttEntry(jobs[k].id, b.time, t)], b.history + [Snap(jobs, t, None, queue, completed, recs)])
  }

  /**
   * The second phase when the ready queue is not empty: the head runs for `min(quantum, remaining)`
   * ticks; one Gantt bar and two snapshots (at dispatch, with the process on the CPU, and after the
   * slice, with none) are appended; the process terminates or goes back to the tail of the queue.
   */
  function Dispatch(jobs: seq<Job>, quantum: int, a: SimState): (r: SimState)
    requires |a.recs| == |jobs| && a.queue != []
    requires AllBelow(a.queue, |jobs|) && AllBelow(a.completed, |jobs|)
  {
    var k := a.queue[0];
    Land(jobs, k, Min(quantum, a.recs[k].remainingTime), Launch(jobs, a))
  }

  /** The second phase when the ready queue is empty: the CPU idles one tick and one snapshot is taken. */
  function Idle(jobs: seq<Job>, a: SimState): (r: SimState)
    requires |a.recs| == |jobs| && AllBelow(a.queue, |jobs|) && AllBelow(a.completed, |jobs|)
  {
    var t := a.time + 1;
    a.(time := t, history := a.history + [Snap(jobs, t, None, a.queue, a.completed, a.recs)])
  }

  /** One iteration of the `while` loop of `simulate`. */
  function Step(jobs: seq<Job>, quantum: int, s: SimState): SimState
    requires |s.recs| == |jobs|
    requires AllBelow(s.pending, |jobs|) && AllBelow(s.queue, |jobs|) && AllBelow(s.completed, |jobs|)
  {
    var a := Admit(jobs, s);
    AdmitKeepsBelow(jobs, s);
    if a.queue != [] then Dispatch(jobs, quantum, a) else Idle(jobs, a)
  }

  lemma {:induction false} AdmitPrefixKeepsBelow(s: SimState, arrived: seq<nat>, j: nat)
    requires j <= |arrived| && AllBelow(arrived, |s.recs|)
    requires AllBelow(s.queue, |s.recs|) && AllBelow(s.completed, |s.recs|)
    ensures var r := AdmitPrefix(s, arrived, j);
      && AllBelow(r.queue, |s.recs|) && r.completed == s.completed && r.pending == s.pending
      && r.time == s.time && r.last == s.last && r.gantt == s.gantt && r.history == s.history
  {
    if j > 0 { AdmitPrefixKeepsBelow(s, arrived, j - 1); }
  }

  lemma AdmitKeepsBelow(jobs: seq<Job>, s: SimState)
    requires |s.recs| == |jobs|
    requires AllBelow(s.pending, |jobs|) && AllBelow(s.queue, |jobs|) && AllBelow(s.completed, |jobs|)
    ensures var a := Admit(jobs, s);
      AllBelow(a.pending, |jobs|) && AllBelow(a.queue, |jobs|) && AllBelow(a.completed, |jobs|)
  {
    var arrived := ArrivedBy(jobs, s.pending, s.time);
    AdmitPrefixKeepsBelow(s, arrived, |arrived|);
    var p := Without(s.pending, arrived);
    WithoutMembers(s.pending, arrived);
    forall i | 0 <= i < |p| ensures p[i] < |jobs| {
      assert p[i] in s.pending;
    }
  }

  // ---------------------------------------------------------------------------------------------
  // Measures

  /** Total work still to do. */
  function TotalRemaining(recs: seq<PRec>): int {
    if recs == [] then 0 else TotalRemaining(recs[..|recs| - 1]) + recs[|recs| - 1].remainingTime
  }

  /** Total work demanded. */
  function TotalBurst(jobs: seq<Job>): int {
    if jobs == [] then 0 else TotalBurst(jobs[..|jobs| - 1]) + jobs[|jobs| - 1].burstTime
  }

  /** The latest arrival time. */
  function Horizon(jobs: seq<Job>): int {
    if jobs == [] then 0 else
      var h := Horizon(jobs[..|jobs| - 1]);
      var a := jobs[|jobs| - 1].arrivalTime;
      if a > h then a else h
  }

  /** The total width of the Gantt bars: the time the CPU was busy. */
  function BusyTime(g: seq<GanttEntry>): int {
    if g == [] then 0 else BusyTime(g[..|g| - 1]) + (g[|g| - 1].end - g[|g| - 1].start)
  }

  /** The start of the first Gantt bar of `id`, if there is one. */
  function FirstStart(g: seq<GanttEntry>, id: string): Option<int> {
    if g == [] then None else if g[0].process == id then Some(g[0].start) else FirstStart(g[1..], id)
  }

  // ---------------------------------------------------------------------------------------------
  // The loop invariant

  /** Pending, ready and completed split the arena: each index is in exactly one of them, once. */
  ghost predicate Partition(s: SimState, n: nat) {
    Split(s.pending, s.queue, s.completed, n)
  }

  /** `p`, `q` and `c` are disjoint, duplicate-free, and together hold exactly the indices below `n`. */
  ghost predicate Split(p: seq<nat>, q: seq<nat>, c: seq<nat>, n: nat) {
    && AllBelow(p, n) && AllBelow(q, n) && AllBelow(c, n)
    && NoDup(p) && NoDup(q) && NoDup(c)
    && (forall k :: k in p ==> k !in q && k !in c)
    && (forall k :: k in q ==> k !in c)
    && (forall k :: 0 <= k < n ==> k in p || k in q || k in c)
  }

  /** A process not yet arrived has fresh metrics and has never run. */
  ghost predicate PendingOk(jobs: seq<Job>, s: SimState, k: nat) {
    && k < |jobs| == |s.recs|
    && s.recs[k] == FreshRec(jobs[k].burstTime)
    && jobs[k].id !in s.last
    && FirstStart(s.gantt, jobs[k].id) == None
  }

  /**
   * A process in the ready queue has arrived and has work left; if it has run, `lastProcessTime` holds
   * the end of its last slice, its start time is the start of its first Gantt bar, and its waiting time
   * is the time since arrival not spent running.
   */
  ghost predicate QueuedOk(jobs: seq<Job>, s: SimState, k: nat) {
    && k < |jobs| == |s.recs|
    && var j := jobs[k];
    var r := s.recs[k];
    && (r.state == Ready || r.state == Waiting)
    && 1 <= r.remainingTime <= j.burstTime
    && j.arrivalTime <= s.time
    && r.waitingTime >= 0
    && if j.id in s.last then
         && r.startTime.Some? && FirstStart(s.gantt, j.id) == r.startTime
         && j.arrivalTime <= r.startTime.value < s.last[j.id] <= s.time
         && r.waitingTime == s.last[j.id] - j.arrivalTime - (j.burstTime - r.remainingTime)
       else
         && r.startTime.None? && FirstStart(s.gantt, j.id) == None
         && r.remainingTime == j.burstTime && r.waitingTime == 0
  }

  /** A completed process is terminated and its metrics satisfy the textbook identities. */
  ghost predicate DoneOk(jobs: seq<Job>, s: SimState, k: nat) {
    && k < |jobs| == |s.recs|
    && var j := jobs[k];
    var r := s.recs[k];
    && r.remainingTime == 0 && r.state == Terminated
    && j.id in s.last && s.last[j.id] == r.completionTime
    && r.startTime.Some? && FirstStart(s.gantt, j.id) == r.startTime
    && j.arrivalTime <= r.startTime.value < r.completionTime <= s.time
    && r.turnaroundTime == r.completionTime - j.arrivalTime
    && r.waitingTime == r.turnaroundTime - j.burstTime
    && r.waitingTime >= 0
  }

  /**
   * Gantt bars have positive width, start at or after 0, and follow one another without overlap, the
   * last one ending by `time`.
   */
  ghost predicate GanttOk(g: seq<GanttEntry>, time: int)
    decreases |g|
  {
    g == [] || (0 <= g[|g| - 1].start < g[|g| - 1].end <= time && GanttOk(g[..|g| - 1], g[|g| - 1].start))
  }

  /** Snapshot times are non-negative, never decrease, and do not pass `time`. */
  ghost predicate TimesUpTo(h: seq<Snapshot>, time: int)
    decreases |h|
  {
    h == [] || (0 <= h[|h| - 1].time <= time && TimesUpTo(h[..|h| - 1], h[|h| - 1].time))
  }

  /** Snapshot times never decrease, never pass `time`, and the last one is `time`. */
  ghost predicate HistoryOk(h: seq<Snapshot>, time: int) {
    TimesUpTo(h, time) && (|h| > 0 ==> h[|h| - 1].time == time)
  }

  /** The invariant of the `while` loop of `simulate`. */
  ghost predicate Inv(jobs: seq<Job>, s: SimState) {
    && JobsOk(jobs)
    && |s.recs| == |jobs|
    && s.time >= 0
    && Partition(s, |jobs|)
    && (forall k :: k in s.pending ==> PendingOk(jobs, s, k))
    && (forall k :: k in s.queue ==> QueuedOk(jobs, s, k))
    && (forall k :: k in s.completed ==> DoneOk(jobs, s, k))
    && GanttOk(s.gantt, s.time)
    && BusyTime(s.gantt) == TotalBurst(jobs) - TotalRemaining(s.recs)
    && HistoryOk(s.history, s.time)
    && (Done(s) && |jobs| > 0 ==> s.gantt != [] && s.gantt[|s.gantt| - 1].end == s.time)
  }
}
