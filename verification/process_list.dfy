/**
 * The scheduler's `processes` list: keeping it ordered by arrival time (`addProcess`'s push followed
 * by a stable sort), reading off its fixed part and its metrics, and keeping positions into it
 * pointing at the same processes when a process is inserted.
 */
module ProcessList {
  import opened Common
  import opened ProcessModel
  import opened RoundRobinSpec

  /** Arrival times never decrease along the list. */
  predicate SortedByArrival(ps: seq<Process>) {
    forall i, j :: 0 <= i < j < |ps| ==> ps[i].arrivalTime <= ps[j].arrivalTime
  }

  /** No two entries share an id. */
  predicate UniqueIds(ps: seq<Process>) {
    forall i, j :: 0 <= i < j < |ps| ==> ps[i].id != ps[j].id
  }

  /** The fixed part of every process, in list order. */
  function JobsOf(ps: seq<Process>): (r: seq<Job>)
    ensures |r| == |ps|
    ensures forall i :: 0 <= i < |ps| ==> r[i] == ps[i].AsJob()
  {
    seq(|ps|, i requires 0 <= i < |ps| => ps[i].AsJob())
  }

  /** The updatable part of every process, in list order. */
  function RecsOf(ps: seq<Process>): (r: seq<PRec>)
    ensures |r| == |ps|
    ensures forall i :: 0 <= i < |ps| ==> r[i] == ps[i].Rec()
  {
    seq(|ps|, i requires 0 <= i < |ps| => ps[i].Rec())
  }

  /**
   * `push(p)` followed by the stable `sort` on arrival time, for a list that is already sorted: `p`
   * goes right after the last process whose arrival time is not later than its own.
   */
  function InsertByArrival(ps: seq<Process>, p: Process): (r: seq<Process>)
    ensures |r| == |ps| + 1
  {
    if ps == [] then [p]
    else if ps[|ps| - 1].arrivalTime <= p.arrivalTime then ps + [p]
    else InsertByArrival(ps[..|ps| - 1], p) + [ps[|ps| - 1]]
  }

  /** The entries whose arrival time is `t`, in list order. */
  function WithArrival(ps: seq<Process>, t: int): seq<Process> {
    if ps == [] then []
    else WithArrival(ps[..|ps| - 1], t) + (if ps[|ps| - 1].arrivalTime == t then [ps[|ps| - 1]] else [])
  }

  /** The list after inserting is still sorted by arrival time. */
  lemma {:induction false} InsertSorted(ps: seq<Process>, p: Process)
    requires SortedByArrival(ps)
    ensures SortedByArrival(InsertByArrival(ps, p))
    decreases |ps|
  {
    if ps != [] && ps[|ps| - 1].arrivalTime > p.arrivalTime {
      var init := ps[..|ps| - 1];
      InsertSorted(init, p);
      InsertMembers(init, p);
      var r := InsertByArrival(init, p);
      forall i | 0 <= i < |r| ensures r[i].arrivalTime <= ps[|ps| - 1].arrivalTime {
        if r[i] != p { assert r[i] in init; }
      }
    }
  }

  /** Every entry of the new list is `p` or was already there. */
  lemma {:induction false} InsertMembers(ps: seq<Process>, p: Process)
    ensures forall x :: x in InsertByArrival(ps, p) ==> x == p || x in ps
    decreases |ps|
  {
    if ps != [] && ps[|ps| - 1].arrivalTime > p.arrivalTime {
      var init := ps[..|ps| - 1];
      InsertMembers(init, p);
      forall x | x in init ensures x in ps { }
    }
  }

  /** Inserting a process with a fresh id keeps the ids distinct. */
  lemma {:induction false} InsertUniqueIds(ps: seq<Process>, p: Process)
    requires UniqueIds(ps) && forall q :: q in ps ==> q.id != p.id
    ensures UniqueIds(InsertByArrival(ps, p))
    decreases |ps|
  {
    var r := InsertByArrival(ps, p);
    if ps == [] {
    } else if ps[|ps| - 1].arrivalTime <= p.arrivalTime {
      forall i, j | 0 <= i < j < |r| ensures r[i].id != r[j].id {
        if j == |ps| { assert r[i] in ps; }
      }
    } else {
      var init := ps[..|ps| - 1];
      var last := ps[|ps| - 1];
      forall q | q in init ensures q.id != p.id { assert q in ps; }
      InsertUniqueIds(init, p);
      InsertMembers(init, p);
      var r0 := InsertByArrival(init, p);
      forall i, j | 0 <= i < j < |r| ensures r[i].id != r[j].id {
        if j == |r| - 1 {
          assert r[i] == r0[i] && r[j] == last;
          if r0[i] != p {
            assert r0[i] in init;
            var m :| 0 <= m < |init| && init[m] == r0[i];
            assert ps[m] == r0[i];
          }
        } else {
          assert r[i] == r0[i] && r[j] == r0[j];
        }
      }
    }
  }

  /** Inserting adds exactly `p` and loses nothing. */
  lemma {:induction false} InsertPermutes(ps: seq<Process>, p: Process)
    ensures multiset(InsertByArrival(ps, p)) == multiset(ps) + multiset{p}
    decreases |ps|
  {
    if ps != [] && ps[|ps| - 1].arrivalTime > p.arrivalTime {
      var init := ps[..|ps| - 1];
      InsertPermutes(init, p);
      assert ps == init + [ps[|ps| - 1]];
    }
  }

  /**
   * The insertion is what a stable sort of `ps + [p]` yields: for every arrival time, the processes
   * with that arrival time keep the order they had, with `p` after those already present.
   */
  lemma {:induction false} InsertStable(ps: seq<Process>, p: Process, t: int)
    requires SortedByArrival(ps)
    ensures WithArrival(InsertByArrival(ps, p), t) == WithArrival(ps + [p], t)
    decreases |ps|
  {
    if ps != [] && ps[|ps| - 1].arrivalTime > p.arrivalTime {
      var init := ps[..|ps| - 1];
      var last := ps[|ps| - 1];
      InsertStable(init, p, t);
      assert (init + [p])[..|init|] == init;
      assert (ps + [p])[..|ps|] == ps;
      if last.arrivalTime == t {
        // `p` arrives earlier than `last`, so it is not among the processes arriving at `t`
        assert WithArrival(init + [p], t) == WithArrival(init, t);
        assert WithArrival(ps + [p], t) == WithArrival(ps, t);
      } else {
        assert WithArrival(ps, t) == WithArrival(init, t);
      }
    }
  }

  /** Where `InsertByArrival` puts `p`: after every entry of the sorted list arriving no later than it. */
  function InsertPos(ps: seq<Process>, p: Process): (pos: nat)
    ensures pos <= |ps|
  {
    if ps == [] then 0
    else if ps[|ps| - 1].arrivalTime <= p.arrivalTime then |ps|
    else InsertPos(ps[..|ps| - 1], p)
  }

  /** The insertion splices `p` in at `InsertPos`; everything before it stays, everything after moves up by one. */
  lemma {:induction false} InsertAt(ps: seq<Process>, p: Process)
    ensures InsertByArrival(ps, p) == ps[..InsertPos(ps, p)] + [p] + ps[InsertPos(ps, p)..]
    decreases |ps|
  {
    if ps != [] && ps[|ps| - 1].arrivalTime > p.arrivalTime {
      var init := ps[..|ps| - 1];
      InsertAt(init, p);
      var pos := InsertPos(init, p);
      assert init[..pos] == ps[..pos];
      assert init[pos..] + [ps[|ps| - 1]] == ps[pos..];
    } else {
      assert ps[..|ps|] == ps;
    }
  }

  /** Positions into a list after an entry is inserted at `pos`: those from `pos` on move up by one. */
  function Shift(idx: seq<nat>, pos: nat): (r: seq<nat>)
    ensures |r| == |idx|
  {
    seq(|idx|, i requires 0 <= i < |idx| => if idx[i] < pos then idx[i] else idx[i] + 1)
  }

  /** After the insertion, the shifted positions designate the same processes as before. */
  lemma ShiftFollows(ps: seq<Process>, p: Process, idx: seq<nat>)
    requires AllBelow(idx, |ps|)
    ensures var r := InsertByArrival(ps, p);
      var shifted := Shift(idx, InsertPos(ps, p));
      && AllBelow(shifted, |r|)
      && forall i :: 0 <= i < |idx| ==> r[shifted[i]] == ps[idx[i]]
  {
    InsertAt(ps, p);
  }

  /** What a snapshot copies from each process (`processes.map(p => ({...}))`). */
  function ViewsOf(ps: seq<Process>): (r: seq<ProcView>)
    ensures |r| == |ps|
  {
    if ps == [] then []
    else
      var p := ps[|ps| - 1];
      ViewsOf(ps[..|ps| - 1]) + [ProcView(p.id, p.state, p.remainingTime, p.waitingTime, p.turnaroundTime)]
  }

  /** A snapshot's per-process views are the ones the value model records. */
  lemma {:induction false} ViewsOfRecs(ps: seq<Process>)
    ensures ViewsOf(ps) == Views(JobsOf(ps), RecsOf(ps))
    decreases |ps|
  {
    if ps != [] {
      var n := |ps|;
      assert JobsOf(ps)[..n - 1] == JobsOf(ps[..n - 1]);
      assert RecsOf(ps)[..n - 1] == RecsOf(ps[..n - 1]);
      ViewsOfRecs(ps[..n - 1]);
    }
  }

  /** Sortedness by arrival depends only on the fixed parts of the processes. */
  lemma SortedByJobs(ps: seq<Process>, qs: seq<Process>)
    requires JobsOf(ps) == JobsOf(qs) && SortedByArrival(qs)
    ensures SortedByArrival(ps)
  {
    forall i, j | 0 <= i < j < |ps| ensures ps[i].arrivalTime <= ps[j].arrivalTime {
      assert ps[i].AsJob() == qs[i].AsJob() && ps[j].AsJob() == qs[j].AsJob();
    }
  }

  /** Replacing a process by one with the same fixed part changes only that process's metrics. */
  lemma UpdateMetrics(ps: seq<Process>, k: nat, p: Process)
    requires k < |ps| && p.AsJob() == ps[k].AsJob()
    ensures JobsOf(ps[k := p]) == JobsOf(ps)
    ensures RecsOf(ps[k := p]) == RecsOf(ps)[k := p.Rec()]
  {
  }

  /** Inserting a well-formed process with a fresh id keeps the list well-formed. */
  lemma JobsOkInsert(ps: seq<Process>, p: Process)
    requires JobsOk(JobsOf(ps))
    requires p.arrivalTime >= 0 && p.burstTime >= 1 && forall q :: q in ps ==> q.id != p.id
    ensures JobsOk(JobsOf(InsertByArrival(ps, p)))
  {
    var jobs := JobsOf(ps);
    assert UniqueIds(ps) by {
      forall i, j | 0 <= i < j < |ps| ensures ps[i].id != ps[j].id { assert jobs[i].id != jobs[j].id; }
    }
    InsertUniqueIds(ps, p);
    InsertMembers(ps, p);
    var r := InsertByArrival(ps, p);
    forall i | 0 <= i < |r| ensures r[i].arrivalTime >= 0 && r[i].burstTime >= 1 {
      assert r[i] in r;
      if r[i] != p {
        assert r[i] in ps;
        var m :| 0 <= m < |ps| && ps[m] == r[i];
        assert jobs[m] == r[i].AsJob();
      }
    }
  }
}
