/**
 * The text of the exported execution trace: a header, one tab-separated row per snapshot of the
 * history, in order, and, when there are statistics, a block of the four figures.
 */
module Trace {
  import opened Common
  import opened Numerals
  import opened RoundRobinSpec

  /** `ids.join(' ')`. */
  function JoinSpaced(ids: seq<string>): string
    decreases |ids|
  {
    if ids == [] then "" else if |ids| == 1 then ids[0] else ids[0] + " " + JoinSpaced(ids[1..])
  }

  /** `x || fallback` on a string: the empty string is falsy and gives way to the fallback. */
  function OrElse(x: string, fallback: string): (r: string)
    ensures r == x || r == fallback
    ensures r == [] ==> fallback == []
  {
    if x == [] then fallback else x
  }

  /** `state.currentProcess || "IDLE"`: `null` and the empty id both print as `IDLE`. */
  function CurrentCell(cur: Option<string>): string {
    match cur
    case None => "IDLE"
    case Some(id) => OrElse(id, "IDLE")
  }

  /** `ids.join(' ') || "-"`. */
  function ListCell(ids: seq<string>): string {
    OrElse(JoinSpaced(ids), "-")
  }

  /** A row without its newline: time, current process, ready queue, completed list, with two tabs before each list. */
  function RowLine(s: Snapshot): string {
    IntToString(s.time) + "\t" + CurrentCell(s.currentProcess) + "\t\t" + ListCell(s.readyQueue)
      + "\t\t" + ListCell(s.completedProcesses)
  }

  function Row(s: Snapshot): string {
    RowLine(s) + "\n"
  }

  /** The rows of the snapshots, in history order. */
  function Rows(h: seq<Snapshot>): string
    decreases |h|
  {
    if h == [] then "" else Rows(h[..|h| - 1]) + Row(h[|h| - 1])
  }

  const Title := "Round Robin Scheduling Execution Trace\n"
  const TitleRule := "=========================================\n"
  const ColumnTitles := "Time\tCurrent Process\tReady Queue\tCompleted Processes\n"
  const ColumnRule := "----\t---------------\t-----------\t-------------------\n"

  /** The lines above the rows: the quantum, the number of processes and the time of the last snapshot. */
  function Header(quantum: int, count: int, lastTime: int): string {
    Title + TitleRule
      + "Time Quantum: " + IntToString(quantum) + "\n"
      + "Total Processes: " + IntToString(count) + "\n"
      + "Total Simulation Time: " + IntToString(lastTime) + "\n\n"
      + ColumnTitles + ColumnRule
  }

  /** The four figures of `getStatistics`, already formatted. */
  datatype Figures = Figures(avgWaitingTime: string, avgTurnaroundTime: string, throughput: string, cpuUtilization: string)

  function StatsBlock(f: Figures): string {
    "\nStatistics:\n"
      + "- Average Waiting Time: " + f.avgWaitingTime + "\n"
      + "- Average Turnaround Time: " + f.avgTurnaroundTime + "\n"
      + "- Throughput: " + f.throughput + "\n"
      + "- CPU Utilization: " + f.cpuUtilization + "%\n"
  }

  /** The whole trace for a non-empty history. */
  function TraceText(quantum: int, count: int, h: seq<Snapshot>, stats: Option<Figures>): string
    requires h != []
  {
    var body := Header(quantum, count, h[|h| - 1].time) + Rows(h);
    match stats
    case None => body
    case Some(f) => body + StatsBlock(f)
  }

  // ---------------------------------------------------------------------------------------------
  // Reading a row back

  /** `s.split(c)`. */
  function SplitAt(c: char, s: string): (r: seq<string>)
    ensures |r| >= 1
    decreases |s|
  {
    if s == [] then [""]
    else if s[0] == c then [""] + SplitAt(c, s[1..])
    else var t := SplitAt(c, s[1..]); [[s[0]] + t[0]] + t[1..]
  }

  /** How many times `c` occurs in `s`. */
  function Count(c: char, s: string): nat
    decreases |s|
  {
    if s == [] then 0 else (if s[0] == c then 1 else 0) + Count(c, s[1..])
  }

  /** No snapshot id contains `c`. */
  predicate IdsFree(s: Snapshot, c: char) {
    && (s.currentProcess.Some? ==> c !in s.currentProcess.value)
    && (forall id :: id in s.readyQueue ==> c !in id)
    && (forall id :: id in s.completedProcesses ==> c !in id)
  }

  lemma {:induction false} SplitWithout(c: char, a: string)
    requires c !in a
    ensures SplitAt(c, a) == [a]
    decreases |a|
  {
    if a != [] {
      assert c !in a[1..] by { forall i | 0 <= i < |a| - 1 ensures a[1..][i] != c { assert a[1..][i] == a[i + 1]; } }
      SplitWithout(c, a[1..]);
      assert a[0] in a;
      assert [a[0]] + a[1..] == a;
    }
  }

  /** Splitting at `c` a string that has a `c` after a `c`-free prefix `a`. */
  lemma {:induction false} SplitAfter(c: char, a: string, b: string)
    requires c !in a
    ensures SplitAt(c, a + [c] + b) == [a] + SplitAt(c, b)
    decreases |a|
  {
    if a == [] {
      assert a + [c] + b == [c] + b;
      assert ([c] + b)[1..] == b;
    } else {
      assert c !in a[1..] by { forall i | 0 <= i < |a| - 1 ensures a[1..][i] != c { assert a[1..][i] == a[i + 1]; } }
      SplitAfter(c, a[1..], b);
      assert (a + [c] + b)[1..] == a[1..] + [c] + b;
      assert (a + [c] + b)[0] == a[0] && a[0] in a;
      var r := SplitAt(c, a[1..] + [c] + b);
      assert r[0] == a[1..] && r[1..] == SplitAt(c, b);
      assert [a[0]] + a[1..] == a;
    }
  }

  lemma {:induction false} CountAppend(c: char, a: string, b: string)
    ensures Count(c, a + b) == Count(c, a) + Count(c, b)
    decreases |a|
  {
    if a != [] {
      assert (a + b)[1..] == a[1..] + b;
      CountAppend(c, a[1..], b);
      assert (a + b)[0] == a[0];
      assert Count(c, a + b) == (if a[0] == c then 1 else 0) + Count(c, (a + b)[1..]);
    } else {
      assert a + b == b;
    }
  }

  lemma {:induction false} CountWithout(c: char, a: string)
    requires c !in a
    ensures Count(c, a) == 0
    decreases |a|
  {
    if a != [] {
      assert c !in a[1..] by { forall i | 0 <= i < |a| - 1 ensures a[1..][i] != c { assert a[1..][i] == a[i + 1]; } }
      CountWithout(c, a[1..]);
    }
  }

  lemma {:induction false} JoinSpacedFree(ids: seq<string>, c: char)
    requires c != ' ' && forall id :: id in ids ==> c !in id
    ensures c !in JoinSpaced(ids)
    decreases |ids|
  {
    if |ids| > 1 {
      assert ids[0] in ids;
      JoinSpacedFree(ids[1..], c);
    } else if |ids| == 1 {
      assert ids[0] in ids;
    }
  }

  lemma IntToStringFree(n: int, c: char)
    requires c != '-' && !IsDigit(c)
    ensures c !in IntToString(n)
  {
    var d := NatToString(if n < 0 then -n else n);
    assert forall i :: 0 <= i < |d| ==> IsRadixDigit(d[i], 10);
  }

  /** Neither cell of a row holds a tab or a newline when no id does. */
  lemma CellsFree(s: Snapshot, c: char)
    requires c == '\t' || c == '\n'
    requires IdsFree(s, c)
    ensures c !in IntToString(s.time) && c !in CurrentCell(s.currentProcess)
    ensures c !in ListCell(s.readyQueue) && c !in ListCell(s.completedProcesses)
  {
    IntToStringFree(s.time, c);
    JoinSpacedFree(s.readyQueue, c);
    JoinSpacedFree(s.completedProcesses, c);
  }

  /**
   * When no id holds a tab, splitting a row at its tabs gives back the time, the current process,
   * the ready queue and the completed list, with an empty field between each of the last three.
   */
  lemma RowCells(s: Snapshot)
    requires IdsFree(s, '\t')
    ensures SplitAt('\t', RowLine(s)) ==
      [IntToString(s.time), CurrentCell(s.currentProcess), "", ListCell(s.readyQueue), "", ListCell(s.completedProcesses)]
  {
    var t, cur, rq, done := IntToString(s.time), CurrentCell(s.currentProcess), ListCell(s.readyQueue), ListCell(s.completedProcesses);
    CellsFree(s, '\t');
    assert RowLine(s) == t + ['\t'] + (cur + ['\t'] + ("" + ['\t'] + (rq + ['\t'] + ("" + ['\t'] + done))));
    SplitAfter('\t', t, cur + ['\t'] + ("" + ['\t'] + (rq + ['\t'] + ("" + ['\t'] + done))));
    SplitAfter('\t', cur, "" + ['\t'] + (rq + ['\t'] + ("" + ['\t'] + done)));
    SplitAfter('\t', "", rq + ['\t'] + ("" + ['\t'] + done));
    SplitAfter('\t', rq, "" + ['\t'] + done);
    SplitAfter('\t', "", done);
    SplitWithout('\t', done);
  }

  /** When no id holds a newline, the rows part of the trace has exactly one line per snapshot. */
  lemma {:induction false} RowsLines(h: seq<Snapshot>)
    requires forall i :: 0 <= i < |h| ==> IdsFree(h[i], '\n')
    ensures Count('\n', Rows(h)) == |h|
    decreases |h|
  {
    if h != [] {
      var s := h[|h| - 1];
      RowsLines(h[..|h| - 1]);
      CellsFree(s, '\n');
      var line := RowLine(s);
      assert line == IntToString(s.time) + "\t" + CurrentCell(s.currentProcess) + "\t\t" + ListCell(s.readyQueue)
        + "\t\t" + ListCell(s.completedProcesses);
      assert '\n' !in line;
      CountWithout('\n', line);
      CountAppend('\n', line, "\n");
      CountAppend('\n', Rows(h[..|h| - 1]), Row(s));
    }
  }
}
