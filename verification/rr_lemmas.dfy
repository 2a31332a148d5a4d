/** Facts about the sequence functions the round-robin specification is built from. */
module RoundRobinLemmas {
  import opened Common
  import opened ProcessModel
  import opened RoundRobinSpec

  lemma {:induction false} TotalRemainingUpdate(recs: seq<PRec>, k: nat, r: PRec)
    requires k < |recs|
    ensures TotalRemaining(recs[k := r]) == TotalRemaining(recs) - recs[k].remainingTime + r.remainingTime
    decreases |recs|
  {
    var n := |recs|;
    var u := recs[k := r];
    if k < n - 1 {
      assert u[..n - 1] == recs[..n - 1][k := r];
      TotalRemainingUpdate(recs[..n - 1], k, r);
    } else {
      assert u[..n - 1] == recs[..n - 1];
    }
  }

  lemma {:induction false} TotalRemainingBounds(recs: seq<PRec>)
    requires forall i :: 0 <= i < |recs| ==> recs[i].remainingTime >= 0
    ensures TotalRemaining(recs) >= 0
    ensures TotalRemaining(recs) == 0 <==> forall i :: 0 <= i < |recs| ==> recs[i].remainingTime == 0
    decreases |recs|
  {
    if recs != [] {
      var n := |recs|;
      TotalRemainingBounds(recs[..n - 1]);
      if TotalRemaining(recs) == 0 {
        forall i | 0 <= i < n ensures recs[i].remainingTime == 0 {
          if i < n - 1 { assert recs[..n - 1][i] == recs[i]; }
        }
      }
    }
  }

  lemma {:induction false} HorizonBound(jobs: seq<Job>, k: nat)
    requires k < |jobs|
    ensures jobs[k].arrivalTime <= Horizon(jobs)
    decreases |jobs|
  {
    var n := |jobs|;
    if k < n - 1 {
      assert jobs[..n - 1][k] == jobs[k];
      HorizonBound(jobs[..n - 1], k);
    }
  }

  lemma BusyTimeAppend(g: seq<GanttEntry>, e: GanttEntry)
    ensures BusyTime(g + [e]) == BusyTime(g) + (e.end - e.start)
  {
    assert (g + [e])[..|g|] == g;
  }

  lemma {:induction false} FirstStartAppend(g: seq<GanttEntry>, e: GanttEntry, id: string)
    ensures FirstStart(g + [e], id) ==
      if FirstStart(g, id).Some? then FirstStart(g, id)
      else if e.process == id then Some(e.start) else None
    decreases |g|
  {
    if g != [] {
      assert (g + [e])[1..] == g[1..] + [e];
      FirstStartAppend(g[1..], e, id);
    }
  }

  lemma {:induction false} ArrivedByNoDup(jobs: seq<Job>, pending: seq<nat>, time: int)
    requires AllBelow(pending, |jobs|) && NoDup(pending)
    ensures NoDup(ArrivedBy(jobs, pending, time))
    decreases |pending|
  {
    if pending != [] {
      var tail := pending[1..];
      ArrivedByNoDup(jobs, tail, time);
      ArrivedByMembers(jobs, tail, time);
      var r := ArrivedBy(jobs, pending, time);
      if jobs[pending[0]].arrivalTime <= time {
        assert r == [pending[0]] + ArrivedBy(jobs, tail, time);
        assert r[1..] == ArrivedBy(jobs, tail, time);
      } else {
        assert r == ArrivedBy(jobs, tail, time);
      }
    }
  }

  lemma {:induction false} WithoutNoDup(xs: seq<nat>, ys: seq<nat>)
    requires NoDup(xs)
    ensures NoDup(Without(xs, ys))
    decreases |xs|
  {
    if xs != [] {
      var tail := xs[1..];
      WithoutNoDup(tail, ys);
      WithoutMembers(tail, ys);
      var r := Without(xs, ys);
      if xs[0] !in ys {
        assert r == [xs[0]] + Without(tail, ys);
        assert r[1..] == Without(tail, ys);
      } else {
        assert r == Without(tail, ys);
      }
    }
  }

  /** Appending an element absent from a duplicate-free sequence keeps it duplicate-free. */
  lemma AppendNoDup(xs: seq<nat>, ys: seq<nat>)
    requires NoDup(xs) && NoDup(ys)
    requires forall k :: k in ys ==> k !in xs
    ensures NoDup(xs + ys)
  {
    NoDupPairwise(xs);
    NoDupPairwise(ys);
    NoDupPairwise(xs + ys);
    var zs := xs + ys;
    forall i, j | 0 <= i < j < |zs| ensures zs[i] != zs[j] {
      if j >= |xs| && i < |xs| {
        assert zs[j] == ys[j - |xs|];
        assert zs[i] in xs;
      } else if i >= |xs| {
        assert zs[i] == ys[i - |xs|] && zs[j] == ys[j - |xs|];
      }
    }
  }

  /** Bars that do not overlap and end by `time` cannot add up to more than `time`. */
  lemma {:induction false} BusyWithin(g: seq<GanttEntry>, time: int)
    requires GanttOk(g, time) && time >= 0
    ensures 0 <= BusyTime(g) <= time
    decreases |g|
  {
    if g != [] {
      var n := |g|;
      BusyWithin(g[..n - 1], g[n - 1].start);
    }
  }

  /** `GanttOk` spelled out: every bar lies in `[0, time]` with positive width, and bars never overlap. */
  lemma {:induction false} GanttOrdered(g: seq<GanttEntry>, time: int)
    requires GanttOk(g, time)
    ensures forall i :: 0 <= i < |g| ==> 0 <= g[i].start < g[i].end <= time
    ensures forall i, j :: 0 <= i < j < |g| ==> g[i].end <= g[j].start
    decreases |g|
  {
    if g != [] {
      var n := |g|;
      var init := g[..n - 1];
      GanttOrdered(init, g[n - 1].start);
      forall i, j | 0 <= i < j < n ensures g[i].end <= g[j].start {
        assert g[i] == init[i];
        if j < n - 1 { assert g[j] == init[j]; }
      }
      forall i | 0 <= i < n ensures 0 <= g[i].start < g[i].end <= time {
        if i < n - 1 { assert g[i] == init[i]; }
      }
    }
  }

  /** A later clock still bounds the chart. */
  lemma GanttLater(g: seq<GanttEntry>, time: int, later: int)
    requires GanttOk(g, time) && time <= later
    ensures GanttOk(g, later)
  {
  }

  /** A later clock still bounds the snapshot times. */
  lemma TimesLater(h: seq<Snapshot>, time: int, later: int)
    requires TimesUpTo(h, time) && time <= later
    ensures TimesUpTo(h, later)
  {
  }
}
