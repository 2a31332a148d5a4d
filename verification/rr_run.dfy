/**
 * The loop invariant is established by `Init` and kept by every `Step`; `Nth` iterates `Step`, the loop
 * stops after `Trips` iterations (every dispatch removes work and every idle tick moves the clock
 * towards the last arrival), and what holds of the state it stops in is what `simulate` guarantees.
 */
module RoundRobinRun {
  import opened Common
  import opened ProcessModel
  import opened RoundRobinSpec
  import opened RoundRobinLemmas

  lemma InitInv(jobs: seq<Job>)
    requires JobsOk(jobs)
    ensures Inv(jobs, Init(jobs))
  {
    var s := Init(jobs);
    forall k | 0 <= k < |jobs| ensures k in s.pending { assert s.pending[k] == k; }
    NoDupPairwise(s.pending);
    FreshWork(jobs);
  }

  /** Before anything runs, the work left is the work demanded. */
  lemma {:induction false} FreshWork(jobs: seq<Job>)
    ensures TotalRemaining(Init(jobs).recs) == TotalBurst(jobs)
    decreases |jobs|
  {
    if jobs != [] {
      var n := |jobs|;
      assert Init(jobs).recs[..n - 1] == Init(jobs[..n - 1]).recs;
      FreshWork(jobs[..n - 1]);
    }
  }

  /** Every arrived process is absent from the queue and the completed list, so every push happens. */
  lemma {:induction false} AdmitPrefixAppends(s: SimState, arrived: seq<nat>, j: nat)
    requires j <= |arrived| && AllBelow(arrived, |s.recs|) && NoDup(arrived)
    requires forall k :: k in arrived ==> k !in s.queue && k !in s.completed && s.recs[k].state == Ready
    ensures AdmitPrefix(s, arrived, j) == s.(queue := s.queue + arrived[..j])
    decreases j
  {
    if j > 0 {
      AdmitPrefixAppends(s, arrived, j - 1);
      NoDupPairwise(arrived);
      var k := arrived[j - 1];
      assert arrived[..j] == arrived[..j - 1] + [k];
      assert k !in arrived[..j - 1] by {
        forall i | 0 <= i < j - 1 ensures arrived[i] != k { }
      }
      assert s.recs[k := s.recs[k].(state := Ready)] == s.recs;
    }
  }

  /** The arrival phase: arrived processes join the tail of the queue in pending order; nothing else moves. */
  lemma AdmitInv(jobs: seq<Job>, s: SimState)
    requires Inv(jobs, s)
    ensures var a := Admit(jobs, s);
      && Inv(jobs, a)
      && a.queue == s.queue + ArrivedBy(jobs, s.pending, s.time)
      && a.pending == Without(s.pending, ArrivedBy(jobs, s.pending, s.time))
      && a.recs == s.recs && a.time == s.time && a.completed == s.completed && a.last == s.last
      && a.gantt == s.gantt && a.history == s.history
      && (forall k :: k in a.pending ==> jobs[k].arrivalTime > s.time)
  {
    var arrived := ArrivedBy(jobs, s.pending, s.time);
    AdmitIs(jobs, s);
    ArrivedByMembers(jobs, s.pending, s.time);
    WithoutMembers(s.pending, arrived);
    AdmitPartition(jobs, s, arrived);
    AdmitProcessesOk(jobs, s, arrived);
  }

  /** The arrival phase appends the arrived processes to the queue and removes them from the pending list. */
  lemma AdmitIs(jobs: seq<Job>, s: SimState)
    requires Inv(jobs, s)
    ensures var arrived := ArrivedBy(jobs, s.pending, s.time);
      Admit(jobs, s) == s.(queue := s.queue + arrived, pending := Without(s.pending, arrived))
  {
    var arrived := ArrivedBy(jobs, s.pending, s.time);
    ArrivedByNoDup(jobs, s.pending, s.time);
    ArrivedByMembers(jobs, s.pending, s.time);
    forall k | k in arrived ensures k !in s.queue && k !in s.completed && s.recs[k].state == Ready {
      assert PendingOk(jobs, s, k);
    }
    AdmitPrefixAppends(s, arrived, |arrived|);
    assert arrived[..|arrived|] == arrived;
  }

  /** After the arrival phase, every process satisfies the condition of the list it is in. */
  lemma AdmitProcessesOk(jobs: seq<Job>, s: SimState, arrived: seq<nat>)
    requires Inv(jobs, s) && arrived == ArrivedBy(jobs, s.pending, s.time)
    requires forall k :: k in arrived <==> k in s.pending && jobs[k].arrivalTime <= s.time
    requires Partition(s.(queue := s.queue + arrived, pending := Without(s.pending, arrived)), |jobs|)
    ensures var a := s.(queue := s.queue + arrived, pending := Without(s.pending, arrived));
      && (forall k :: k in a.pending ==> PendingOk(jobs, a, k))
      && (forall k :: k in a.queue ==> QueuedOk(jobs, a, k))
      && (forall k :: k in a.completed ==> DoneOk(jobs, a, k))
  {
    var a := s.(queue := s.queue + arrived, pending := Without(s.pending, arrived));
    WithoutMembers(s.pending, arrived);
    forall k | k in a.pending ensures PendingOk(jobs, a, k) {
      assert PendingOk(jobs, s, k);
    }
    forall k | k in a.queue ensures QueuedOk(jobs, a, k) {
      if k in s.queue {
        assert QueuedOk(jobs, s, k);
      } else {
        assert PendingOk(jobs, s, k);
      }
    }
    forall k | k in a.completed ensures DoneOk(jobs, a, k) {
      assert DoneOk(jobs, s, k);
    }
  }

  /** The arrival phase keeps pending, queued and completed processes a partition of all processes. */
  lemma AdmitPartition(jobs: seq<Job>, s: SimState, arrived: seq<nat>)
    requires |s.recs| == |jobs| && Partition(s, |jobs|)
    requires arrived == ArrivedBy(jobs, s.pending, s.time)
    ensures Partition(s.(queue := s.queue + arrived, pending := Without(s.pending, arrived)), |jobs|)
  {
    ArrivedByNoDup(jobs, s.pending, s.time);
    ArrivedByMembers(jobs, s.pending, s.time);
    SplitAdmit(s.pending, s.queue, s.completed, arrived, |jobs|);
  }

  /** Moving some pending indices to the tail of the queue keeps the split. */
  lemma SplitAdmit(p: seq<nat>, q: seq<nat>, c: seq<nat>, arrived: seq<nat>, n: nat)
    requires Split(p, q, c, n) && NoDup(arrived)
    requires forall k :: k in arrived ==> k in p
    ensures Split(Without(p, arrived), q + arrived, c, n)
  {
    WithoutNoDup(p, arrived);
    WithoutMembers(p, arrived);
    AppendNoDup(q, arrived);
    var p' := Without(p, arrived);
    forall i | 0 <= i < |p'| ensures p'[i] < n { assert p'[i] in p; }
    forall i | 0 <= i < |arrived| ensures arrived[i] < n { assert arrived[i] in p; }
  }

  /** A process the step did not touch keeps its per-process invariant. */
  lemma FrameOk(jobs: seq<Job>, a: SimState, d: SimState, k: nat)
    requires k < |jobs| == |a.recs| == |d.recs|
    requires d.recs[k] == a.recs[k] && a.time <= d.time
    requires jobs[k].id in d.last <==> jobs[k].id in a.last
    requires jobs[k].id in a.last ==> d.last[jobs[k].id] == a.last[jobs[k].id]
    requires FirstStart(d.gantt, jobs[k].id) == FirstStart(a.gantt, jobs[k].id)
    ensures PendingOk(jobs, a, k) ==> PendingOk(jobs, d, k)
    ensures QueuedOk(jobs, a, k) ==> QueuedOk(jobs, d, k)
    ensures DoneOk(jobs, a, k) ==> DoneOk(jobs, d, k)
  {
  }

  /** The dispatched process: terminated with the textbook metrics, or back in the queue, consistent. */
  lemma DispatchedOk(jobs: seq<Job>, quantum: int, a: SimState)
    requires |a.recs| == |jobs| && a.queue != [] && quantum >= 1
    requires AllBelow(a.queue, |jobs|) && AllBelow(a.completed, |jobs|)
    requires QueuedOk(jobs, a, a.queue[0])
    ensures var d := Dispatch(jobs, quantum, a);
      var k := a.queue[0];
      && 1 <= d.time - a.time == a.recs[k].remainingTime - d.recs[k].remainingTime
      && (d.recs[k].remainingTime == 0 ==> DoneOk(jobs, d, k))
      && (d.recs[k].remainingTime != 0 ==> QueuedOk(jobs, d, k))
  {
    var k := a.queue[0];
    var j := jobs[k];
    var r := a.recs[k];
    var d := Dispatch(jobs, quantum, a);
    var r2 := d.recs[k];
    var slice := Min(quantum, r.remainingTime);
    assert d.time == a.time + slice && d.last == a.last[j.id := d.time];
    assert d.gantt == a.gantt + [GanttEntry(j.id, a.time, d.time)];
    FirstStartAppend(a.gantt, GanttEntry(j.id, a.time, d.time), j.id);
    var since := if j.id in a.last then a.last[j.id] else j.arrivalTime;
    var start := if r.startTime.None? then a.time else r.startTime.value;
    assert r2.startTime == Some(start) == FirstStart(d.gantt, j.id);
    assert r2.waitingTime == r.waitingTime + (a.time - since);
    assert r2.waitingTime == a.time - j.arrivalTime - (j.burstTime - r.remainingTime);
    assert r2.remainingTime == r.remainingTime - slice;
  }

  /** Moving the head of the queue to its tail keeps the split. */
  lemma SplitRotate(p: seq<nat>, q: seq<nat>, c: seq<nat>, n: nat)
    requires Split(p, q, c, n) && q != []
    ensures Split(p, q[1..] + [q[0]], c, n)
  {
    AppendNoDup(q[1..], [q[0]]);
    var q' := q[1..] + [q[0]];
    forall i | 0 <= i < |q'| ensures q'[i] < n {
      if i < |q| - 1 { assert q'[i] == q[i + 1]; }
    }
    forall k | k in q ensures k in q' {
      if k != q[0] { var i :| 0 <= i < |q| && q[i] == k; assert q'[i - 1] == k; }
    }
  }

  /** Moving the head of the queue to the completed list keeps the split. */
  lemma SplitRetire(p: seq<nat>, q: seq<nat>, c: seq<nat>, n: nat)
    requires Split(p, q, c, n) && q != []
    ensures Split(p, q[1..], c + [q[0]], n)
  {
    AppendNoDup(c, [q[0]]);
    forall i | 0 <= i < |q| - 1 ensures q[1..][i] < n { assert q[1..][i] == q[i + 1]; }
    forall k | k in q ensures k in q[1..] || k == q[0] {
      if k != q[0] { var i :| 0 <= i < |q| && q[i] == k; assert q[1..][i - 1] == k; }
    }
  }

  lemma DispatchPartition(jobs: seq<Job>, quantum: int, a: SimState)
    requires Inv(jobs, a) && a.queue != [] && quantum >= 1
    ensures Partition(Dispatch(jobs, quantum, a), |jobs|)
  {
    var k := a.queue[0];
    var d := Dispatch(jobs, quantum, a);
    if d.recs[k].remainingTime == 0 {
      SplitRetire(a.pending, a.queue, a.completed, |jobs|);
    } else {
      SplitRotate(a.pending, a.queue, a.completed, |jobs|);
    }
  }

  /** The dispatch phase keeps the invariant and strictly reduces the work left. */
  lemma DispatchInv(jobs: seq<Job>, quantum: int, a: SimState)
    requires Inv(jobs, a) && a.queue != [] && quantum >= 1
    ensures var d := Dispatch(jobs, quantum, a);
      && Inv(jobs, d)
      && d.pending == a.pending
      && TotalRemaining(d.recs) < TotalRemaining(a.recs)
  {
    assert QueuedOk(jobs, a, a.queue[0]);
    DispatchPartition(jobs, quantum, a);
    DispatchProcessesOk(jobs, quantum, a);
    DispatchAccounts(jobs, quantum, a);
    DispatchHistory(jobs, quantum, a);
  }

  /** A dispatch turns exactly the work it removes from the dispatched process into busy time. */
  lemma DispatchAccounts(jobs: seq<Job>, quantum: int, a: SimState)
    requires |a.recs| == |jobs| && a.queue != [] && quantum >= 1
    requires AllBelow(a.queue, |jobs|) && AllBelow(a.completed, |jobs|)
    requires QueuedOk(jobs, a, a.queue[0])
    ensures var d := Dispatch(jobs, quantum, a);
      && TotalRemaining(d.recs) < TotalRemaining(a.recs)
      && BusyTime(d.gantt) - BusyTime(a.gantt) == TotalRemaining(a.recs) - TotalRemaining(d.recs)
  {
    var k := a.queue[0];
    var d := Dispatch(jobs, quantum, a);
    DispatchedOk(jobs, quantum, a);
    TotalRemainingUpdate(a.recs, k, d.recs[k]);
    assert d.recs == a.recs[k := d.recs[k]];
    BusyTimeAppend(a.gantt, GanttEntry(jobs[k].id, a.time, d.time));
  }

  /** A dispatch leaves every process other than the dispatched one as it was. */
  lemma DispatchFrame(jobs: seq<Job>, quantum: int, a: SimState)
    requires JobsOk(jobs) && Shaped(jobs, a) && a.queue != [] && quantum >= 1
    requires QueuedOk(jobs, a, a.queue[0])
    ensures var d := Dispatch(jobs, quantum, a);
      forall k' :: 0 <= k' < |jobs| && k' != a.queue[0] ==>
        && (PendingOk(jobs, a, k') ==> PendingOk(jobs, d, k'))
        && (QueuedOk(jobs, a, k') ==> QueuedOk(jobs, d, k'))
        && (DoneOk(jobs, a, k') ==> DoneOk(jobs, d, k'))
  {
    var k := a.queue[0];
    var j := jobs[k];
    var d := Dispatch(jobs, quantum, a);
    var e := GanttEntry(j.id, a.time, d.time);
    assert d.gantt == a.gantt + [e];
    assert a.time <= d.time;
    forall k' | 0 <= k' < |jobs| && k' != k
      ensures PendingOk(jobs, a, k') ==> PendingOk(jobs, d, k')
      ensures QueuedOk(jobs, a, k') ==> QueuedOk(jobs, d, k')
      ensures DoneOk(jobs, a, k') ==> DoneOk(jobs, d, k')
    {
      assert jobs[k'].id != j.id;
      FirstStartAppend(a.gantt, e, jobs[k'].id);
      FrameOk(jobs, a, d, k');
    }
  }

  /** After a dispatch, every process satisfies the condition of the list it is in. */
  lemma DispatchProcessesOk(jobs: seq<Job>, quantum: int, a: SimState)
    requires JobsOk(jobs) && |a.recs| == |jobs| && Partition(a, |jobs|) && a.queue != [] && quantum >= 1
    requires forall k :: k in a.pending ==> PendingOk(jobs, a, k)
    requires forall k :: k in a.queue ==> QueuedOk(jobs, a, k)
    requires forall k :: k in a.completed ==> DoneOk(jobs, a, k)
    ensures var d := Dispatch(jobs, quantum, a);
      && (forall k' :: k' in d.pending ==> PendingOk(jobs, d, k'))
      && (forall k' :: k' in d.queue ==> QueuedOk(jobs, d, k'))
      && (forall k' :: k' in d.completed ==> DoneOk(jobs, d, k'))
  {
    var k := a.queue[0];
    var d := Dispatch(jobs, quantum, a);
    assert QueuedOk(jobs, a, k);
    DispatchedOk(jobs, quantum, a);
    DispatchFrame(jobs, quantum, a);
    forall k' | k' in d.pending ensures PendingOk(jobs, d, k') {
      assert PendingOk(jobs, a, k');
    }
    forall k' | k' in d.queue ensures QueuedOk(jobs, d, k') {
      if k' != k { assert k' in a.queue; assert QueuedOk(jobs, a, k'); }
    }
    forall k' | k' in d.completed ensures DoneOk(jobs, d, k') {
      if k' != k { assert DoneOk(jobs, a, k'); }
    }
  }

  /** The new bar starts where the clock stood and the two snapshots are taken at its two ends. */
  lemma DispatchHistory(jobs: seq<Job>, quantum: int, a: SimState)
    requires |a.recs| == |jobs| && a.queue != [] && quantum >= 1 && a.time >= 0
    requires AllBelow(a.queue, |jobs|) && AllBelow(a.completed, |jobs|)
    requires a.recs[a.queue[0]].remainingTime >= 1
    requires GanttOk(a.gantt, a.time) && HistoryOk(a.history, a.time)
    ensures var d := Dispatch(jobs, quantum, a);
      && GanttOk(d.gantt, d.time) && HistoryOk(d.history, d.time)
      && d.gantt != [] && d.gantt[|d.gantt| - 1].end == d.time
  {
    var d := Dispatch(jobs, quantum, a);
    var slice := Min(quantum, a.recs[a.queue[0]].remainingTime);
    assert d.time == a.time + slice;
    assert d.gantt == a.gantt + [GanttEntry(jobs[a.queue[0]].id, a.time, d.time)];
    assert |d.history| == |a.history| + 2;
    var h1 := d.history[..|a.history| + 1];
    assert h1[..|a.history|] == a.history;
    assert d.history[..|d.history| - 1] == h1;
    assert d.history[|a.history|].time == a.time && d.history[|a.history| + 1].time == d.time;
  }

  /** The idle phase keeps the invariant. */
  lemma IdleInv(jobs: seq<Job>, a: SimState)
    requires Inv(jobs, a) && !Done(a)
    ensures Inv(jobs, Idle(jobs, a))
  {
    var d := Idle(jobs, a);
    forall k | 0 <= k < |jobs|
      ensures PendingOk(jobs, a, k) ==> PendingOk(jobs, d, k)
      ensures QueuedOk(jobs, a, k) ==> QueuedOk(jobs, d, k)
      ensures DoneOk(jobs, a, k) ==> DoneOk(jobs, d, k)
    {
      FrameOk(jobs, a, d, k);
    }
  }

  /**
   * One iteration keeps the invariant and makes progress: either work is done, or (the CPU idled) the
   * clock moves one tick closer to the latest arrival.
   */
  lemma StepInv(jobs: seq<Job>, quantum: int, s: SimState)
    requires Inv(jobs, s) && !Done(s) && quantum >= 1
    ensures var t := Step(jobs, quantum, s);
      && Inv(jobs, t)
      && 0 <= TotalRemaining(t.recs) <= TotalRemaining(s.recs)
      && (TotalRemaining(t.recs) == TotalRemaining(s.recs) ==> 0 <= Horizon(jobs) - t.time < Horizon(jobs) - s.time)
  {
    AdmitInv(jobs, s);
    var a := Admit(jobs, s);
    forall i | 0 <= i < |s.recs| ensures s.recs[i].remainingTime >= 0 {
      assert i in s.pending || i in s.queue || i in s.completed;
      if i in s.pending { assert PendingOk(jobs, s, i); }
      else if i in s.queue { assert QueuedOk(jobs, s, i); }
      else { assert DoneOk(jobs, s, i); }
    }
    TotalRemainingBounds(s.recs);
    if a.queue != [] {
      DispatchInv(jobs, quantum, a);
      var t := Dispatch(jobs, quantum, a);
      forall i | 0 <= i < |t.recs| ensures t.recs[i].remainingTime >= 0 {
        assert i in t.pending || i in t.queue || i in t.completed;
        if i in t.pending { assert PendingOk(jobs, t, i); }
        else if i in t.queue { assert QueuedOk(jobs, t, i); }
        else { assert DoneOk(jobs, t, i); }
      }
      TotalRemainingBounds(t.recs);
    } else {
      ArrivedByMembers(jobs, s.pending, s.time);
      assert s.queue == [] && ArrivedBy(jobs, s.pending, s.time) == [];
      var k0 := s.pending[0];
      assert k0 in a.pending;
      HorizonBound(jobs, k0);
      IdleInv(jobs, a);
    }
  }

  /**
   * The state at the top of iteration `n` of `simulate`'s `while` loop, started from the start state.
   * `After` is the state at the end of iteration `n`, which stays put once the loop condition fails,
   * and `Body` is the loop body run once from the top of iteration `n`.
   */
  ghost function Nth(jobs: seq<Job>, quantum: int, n: nat): SimState
    decreases n, 0
  {
    if n == 0 then Init(jobs) else After(jobs, quantum, n - 1)
  }

  ghost function After(jobs: seq<Job>, quantum: int, n: nat): SimState
    decreases n, 2
  {
    if Done(Nth(jobs, quantum, n)) then Nth(jobs, quantum, n) else Body(jobs, quantum, n)
  }

  ghost function Body(jobs: seq<Job>, quantum: int, n: nat): SimState
    decreases n, 1
  {
    var s := Nth(jobs, quantum, n);
    if Shaped(jobs, s) then Step(jobs, quantum, s) else s
  }

  /** While the loop goes on, the state at the top of iteration `n + 1` is one `Step` after that of iteration `n`. */
  lemma NthStep(jobs: seq<Job>, quantum: int, n: nat)
    requires Shaped(jobs, Nth(jobs, quantum, n)) && !Done(Nth(jobs, quantum, n))
    ensures Nth(jobs, quantum, n + 1) == Step(jobs, quantum, Nth(jobs, quantum, n))
  {
    assert Nth(jobs, quantum, n + 1) == After(jobs, quantum, n) == Body(jobs, quantum, n);
  }

  /** The loop's condition fails for the first time at the top of iteration `m`. */
  ghost predicate StopsAt(jobs: seq<Job>, quantum: int, m: nat) {
    Done(Nth(jobs, quantum, m)) && forall k :: 0 <= k < m ==> !Done(Nth(jobs, quantum, k))
  }

  /**
   * The loop terminates: from the top of an iteration where the invariant holds, it reaches, after
   * finitely many iterations, a state where its condition fails. Every dispatch removes work, and
   * every idle tick moves the clock towards the latest arrival.
   */
  lemma {:induction false} Reaches(jobs: seq<Job>, quantum: int, n: nat) returns (m: nat)
    requires quantum >= 1 && Inv(jobs, Nth(jobs, quantum, n))
    ensures n <= m && Done(Nth(jobs, quantum, m))
    ensures forall k :: n <= k < m ==> !Done(Nth(jobs, quantum, k))
    decreases TotalRemaining(Nth(jobs, quantum, n).recs), Horizon(jobs) - Nth(jobs, quantum, n).time
  {
    if Done(Nth(jobs, quantum, n)) {
      m := n;
    } else {
      NthInv(jobs, quantum, n);
      m := Reaches(jobs, quantum, n + 1);
    }
  }

  /** `StepInv` along the iterations of the loop. */
  lemma NthInv(jobs: seq<Job>, quantum: int, n: nat)
    requires quantum >= 1 && Inv(jobs, Nth(jobs, quantum, n)) && !Done(Nth(jobs, quantum, n))
    ensures var s := Nth(jobs, quantum, n);
      var t := Nth(jobs, quantum, n + 1);
      && Inv(jobs, t)
      && 0 <= TotalRemaining(t.recs) <= TotalRemaining(s.recs)
      && (TotalRemaining(t.recs) == TotalRemaining(s.recs) ==> 0 <= Horizon(jobs) - t.time < Horizon(jobs) - s.time)
  {
    StepInv(jobs, quantum, Nth(jobs, quantum, n));
    NthStep(jobs, quantum, n);
  }

  /** The loop started from the start state stops. */
  lemma Stops(jobs: seq<Job>, quantum: int)
    requires JobsOk(jobs) && quantum >= 1
    ensures exists m: nat :: StopsAt(jobs, quantum, m)
  {
    InitInv(jobs);
    var m := Reaches(jobs, quantum, 0);
    assert StopsAt(jobs, quantum, m);
  }

  /** The number of iterations `simulate`'s loop makes. */
  ghost function Trips(jobs: seq<Job>, quantum: int): (m: nat)
    requires JobsOk(jobs) && quantum >= 1
    ensures StopsAt(jobs, quantum, m)
  {
    Stops(jobs, quantum);
    var m: nat :| StopsAt(jobs, quantum, m);
    m
  }

  /** `simulate` from the start state `startSimulation` resets to: the state in which the loop stops. */
  ghost function Schedule(jobs: seq<Job>, quantum: int): (r: SimState)
    requires JobsOk(jobs) && quantum >= 1
    ensures Done(r)
  {
    Nth(jobs, quantum, Trips(jobs, quantum))
  }

  /** The loop's invariant holds at the top of every iteration, up to and including where the loop stops. */
  lemma {:induction false} OnPath(jobs: seq<Job>, quantum: int, k: nat)
    requires JobsOk(jobs) && quantum >= 1 && k <= Trips(jobs, quantum)
    ensures Inv(jobs, Nth(jobs, quantum, k))
  {
    if k == 0 {
      InitInv(jobs);
    } else {
      OnPath(jobs, quantum, k - 1);
      assert !Done(Nth(jobs, quantum, k - 1));
      NthInv(jobs, quantum, k - 1);
    }
  }

  /** Every state the loop runs its body on has its positions in range. */
  lemma Path(jobs: seq<Job>, quantum: int)
    requires JobsOk(jobs) && quantum >= 1
    ensures forall k :: 0 <= k <= Trips(jobs, quantum) ==> Shaped(jobs, Nth(jobs, quantum, k))
  {
    forall k | 0 <= k <= Trips(jobs, quantum) ensures Shaped(jobs, Nth(jobs, quantum, k)) {
      OnPath(jobs, quantum, k);
    }
  }

  /** The final state of the schedule satisfies the loop's invariant. */
  lemma ScheduleInv(jobs: seq<Job>, quantum: int)
    requires JobsOk(jobs) && quantum >= 1
    ensures Inv(jobs, Schedule(jobs, quantum))
  {
    OnPath(jobs, quantum, Trips(jobs, quantum));
  }

  /** The state the loop stops in is shaped like one the scheduler's object can rest in. */
  lemma ScheduleFits(jobs: seq<Job>, quantum: int)
    requires JobsOk(jobs) && quantum >= 1
    ensures var r := Schedule(jobs, quantum);
      && r.pending == [] && r.queue == [] && |r.recs| == |jobs| && AllBelow(r.completed, |jobs|)
      && r.time >= 0 && GanttOk(r.gantt, r.time) && HistoryOk(r.history, r.time)
      && (r.completed != [] ==> r.time >= 1)
  {
    var r := Schedule(jobs, quantum);
    ScheduleInv(jobs, quantum);
    Finished(jobs, r);
    if r.completed != [] {
      assert r.gantt[|r.gantt| - 1] in r.gantt;
    }
  }

  /**
   * What holds when the loop exits: every process ran to completion exactly once, its metrics satisfy
   * the textbook identities, its start time is the start of its first Gantt bar, the bars add up to the
   * total burst, and the last bar ends at the final clock.
   */
  lemma {:induction false} Finished(jobs: seq<Job>, s: SimState)
    requires Inv(jobs, s) && Done(s)
    ensures s.queue == [] && s.pending == [] && NoDup(s.completed)
    ensures forall k :: 0 <= k < |jobs| ==> k in s.completed
    ensures forall k :: 0 <= k < |jobs| ==>
      var j := jobs[k];
      var r := s.recs[k];
      && r.remainingTime == 0 && r.state == Terminated
      && r.turnaroundTime == r.completionTime - j.arrivalTime
      && r.waitingTime == r.turnaroundTime - j.burstTime >= 0
      && r.startTime.Some? && r.startTime == FirstStart(s.gantt, j.id)
      && j.arrivalTime <= r.startTime.value < r.completionTime <= s.time
    ensures BusyTime(s.gantt) == TotalBurst(jobs)
    ensures GanttOk(s.gantt, s.time) && HistoryOk(s.history, s.time)
    ensures |jobs| > 0 ==> s.gantt != [] && s.gantt[|s.gantt| - 1].end == s.time
  {
    forall k | 0 <= k < |jobs|
      ensures k in s.completed
      ensures var j := jobs[k];
        var r := s.recs[k];
        && r.remainingTime == 0 && r.state == Terminated
        && r.turnaroundTime == r.completionTime - j.arrivalTime
        && r.waitingTime == r.turnaroundTime - j.burstTime >= 0
        && r.startTime.Some? && r.startTime == FirstStart(s.gantt, j.id)
        && j.arrivalTime <= r.startTime.value < r.completionTime <= s.time
    {
      assert k in s.completed;
      assert DoneOk(jobs, s, k);
    }
    TotalRemainingBounds(s.recs);
  }

  /**
   * One dispatch, seen from outside: the head runs for `min(quantum, remaining)` ticks, one bar and
   * one snapshot at each end of it are appended, and the process goes to the completed list or back
   * to the tail of the queue.
   */
  lemma DispatchShape(jobs: seq<Job>, quantum: int, a: SimState)
    requires |a.recs| == |jobs| && a.queue != [] && quantum >= 1
    requires AllBelow(a.queue, |jobs|) && AllBelow(a.completed, |jobs|)
    requires a.recs[a.queue[0]].remainingTime >= 1
    ensures var k := a.queue[0];
      var t := Dispatch(jobs, quantum, a);
      var slice := Min(quantum, a.recs[k].remainingTime);
      var finished := a.recs[k].remainingTime <= quantum;
      && 1 <= slice <= quantum
      && t.pending == a.pending
      && t.time == a.time + slice
      && t.gantt == a.gantt + [GanttEntry(jobs[k].id, a.time, t.time)]
      && t.queue == (if finished then a.queue[1..] else a.queue[1..] + [k])
      && t.completed == (if finished then a.completed + [k] else a.completed)
      && t.recs[k].remainingTime == a.recs[k].remainingTime - slice
      && |t.history| == |a.history| + 2 && t.history[..|a.history|] == a.history
      && t.history[|a.history|].time == a.time && t.history[|a.history|].currentProcess == Some(jobs[k].id)
      && t.history[|a.history| + 1].time == t.time && t.history[|a.history| + 1].currentProcess == None
  {
    var k := a.queue[0];
    var l := Launch(jobs, a);
    assert l.queue == a.queue[1..] && l.completed == a.completed && l.time == a.time && l.pending == a.pending;
    assert l.recs[k].remainingTime == a.recs[k].remainingTime && l.gantt == a.gantt;
    assert l.history == a.history + [l.history[|a.history|]];
  }

  /**
   * A preempted process is queued ahead of every process that arrived while it ran: it is the last
   * element of the queue after the slice, and the next iteration appends the new arrivals behind it.
   */
  lemma PreemptedBeforeArrivals(jobs: seq<Job>, quantum: int, a: SimState)
    requires Inv(jobs, a) && a.queue != [] && quantum >= 1
    requires forall k :: k in a.pending ==> jobs[k].arrivalTime > a.time
    requires a.recs[a.queue[0]].remainingTime > quantum
    ensures var t := Dispatch(jobs, quantum, a);
      var newcomers := ArrivedBy(jobs, t.pending, t.time);
      && t.queue != [] && t.queue[|t.queue| - 1] == a.queue[0]
      && Admit(jobs, t).queue == t.queue + newcomers
      && (forall k :: k in newcomers ==> a.time < jobs[k].arrivalTime <= t.time)
  {
    DispatchInv(jobs, quantum, a);
    var t := Dispatch(jobs, quantum, a);
    assert QueuedOk(jobs, a, a.queue[0]);
    DispatchShape(jobs, quantum, a);
    AdmitInv(jobs, t);
    ArrivedByMembers(jobs, t.pending, t.time);
  }

  /** `Land` written out field by field, for callers that build the fields one at a time. */
  lemma LandIs(jobs: seq<Job>, k: nat, slice: int, b: SimState, t: int, recs: seq<PRec>, queue: seq<nat>,
               completed: seq<nat>, last: map<string, int>, g: seq<GanttEntry>, h: seq<Snapshot>)
    requires |b.recs| == |jobs| && k < |jobs|
    requires AllBelow(b.queue, |jobs|) && AllBelow(b.completed, |jobs|)
    requires t == b.time + slice && recs == b.recs[k := AfterSlice(jobs[k], b.recs[k], slice, t)]
    requires queue == (if recs[k].remainingTime == 0 then b.queue else b.queue + [k])
    requires completed == (if recs[k].remainingTime == 0 then b.completed + [k] else b.completed)
    requires last == b.last[jobs[k].id := t] && g == b.gantt + [GanttEntry(jobs[k].id, b.time, t)]
    requires AllBelow(queue, |jobs|) && AllBelow(completed, |jobs|)
    requires h == b.history + [Snap(jobs, t, None, queue, completed, recs)]
    ensures Land(jobs, k, slice, b) == SimState(t, b.pending, queue, completed, recs, last, g, h)
  {
    var r := Land(jobs, k, slice, b);
    assert r.recs == recs;
    assert r.queue == queue && r.completed == completed;
  }
}
