/**
 * The process record: the identity and demand a process is created with, the metrics the scheduler
 * later updates in place, and the display colour derived from the id.
 */
module ProcessModel {
  import opened Common
  import opened Numerals

  /** The four values of a process's `state` field. */
  datatype ProcState = Ready | Running | Waiting | Terminated

  /** What a process is created with and never changes afterwards, its display colour included. */
  datatype Job = Job(id: string, arrivalTime: int, burstTime: int, color: Option<string>)

  /** The fields the scheduler updates, taken together as a value. */
  datatype PRec = PRec(
    remainingTime: int,
    waitingTime: int,
    turnaroundTime: int,
    completionTime: int,
    startTime: Option<int>,
    state: ProcState)

  /** The metrics of a process that has not run yet: all the work is still to do. */
  function FreshRec(burstTime: int): PRec {
    PRec(burstTime, 0, 0, 0, None, Ready)
  }

  /** The ten display colours, indexed by the number in the process id. */
  const Palette: seq<string> := [
    "#3498db", "#2ecc71", "#e74c3c", "#f39c12", "#9b59b6",
    "#1abc9c", "#d35400", "#c0392b", "#16a085", "#8e44ad"]

  /** The position of the first `c` in `s`. */
  function IndexOf(s: string, c: char): (i: nat)
    requires c in s
    ensures i < |s| && s[i] == c && c !in s[..i]
  {
    if s[0] == c then 0
    else
      var j := IndexOf(s[1..], c);
      assert s[..j + 1] == [s[0]] + s[1..][..j];
      j + 1
  }

  /** JavaScript's `s.replace(c, '')` for a one-character pattern: only the first occurrence goes. */
  function RemoveFirst(s: string, c: char): (r: string)
    ensures c !in s ==> r == s
    ensures c in s ==> exists i :: 0 <= i < |s| && s[i] == c && c !in s[..i] && r == s[..i] + s[i + 1..]
  {
    if c in s then s[..IndexOf(s, c)] + s[IndexOf(s, c) + 1..] else s
  }

  /** The quotient of JavaScript's integer division, truncated toward zero. */
  function JsQuot(a: int, m: int): int
    requires m > 0
  {
    if a >= 0 then a / m else -((-a) / m)
  }

  /**
   * JavaScript's `%` on integers: the remainder of the division truncated toward zero, so it takes the
   * sign of the dividend.
   */
  function JsRem(a: int, m: int): (r: int)
    requires m > 0
    ensures a == JsQuot(a, m) * m + r
    ensures -m < r < m
    ensures a >= 0 ==> 0 <= r && r == a % m
    ensures a < 0 ==> r <= 0
  {
    if a >= 0 then a % m else -((-a) % m)
  }

  /**
   * The palette index `colors[n % 10]` looks up: none when `n` is `NaN` or the remainder is negative
   * (a negative index reads `undefined`). A remainder of minus zero reads index 0, as the integer 0 does here.
   */
  function ColorIndex(n: Option<int>): (r: Option<nat>)
    ensures r.Some? ==> r.value < |Palette|
    ensures r.Some? <==> n.Some? && JsRem(n.value, |Palette|) >= 0
    ensures n.Some? && n.value >= 0 ==> r == Some(n.value % |Palette|)
  {
    match n
    case None => None
    case Some(v) =>
      var i := JsRem(v, |Palette|);
      if i >= 0 then Some(i) else None
  }

  /** The colour a process gets from its id; `None` is the `undefined` a non-numeric id yields. */
  function GenerateColor(id: string): (c: Option<string>)
    ensures c.Some? ==> c.value in Palette
  {
    match ColorIndex(JsParseInt(RemoveFirst(id, 'P')))
    case None => None
    case Some(i) => Some(Palette[i])
  }

  /** A rendered integer holds only a sign and digits. */
  lemma NoLetterInNumber(n: int)
    ensures 'P' !in IntToString(n)
  {
    var s := IntToString(n);
    var d := NatToString(if n < 0 then -n else n);
    assert s == if n < 0 then "-" + d else d;
    forall i | 0 <= i < |d| ensures d[i] != 'P' { assert IsRadixDigit(d[i], 10); }
  }

  /**
   * The colour of the process numbered `n`, with or without a leading `P`, is palette entry `n % 10`,
   * as long as `n` is below 2^53 and so read exactly.
   */
  lemma ColorOfNumberedId(n: nat)
    requires n < TwoTo53
    ensures GenerateColor(IntToString(n)) == Some(Palette[n % 10])
    ensures GenerateColor("P" + IntToString(n)) == Some(Palette[n % 10])
  {
    var s := IntToString(n);
    NoLetterInNumber(n);
    assert IndexOf("P" + s, 'P') == 0;
    assert RemoveFirst("P" + s, 'P') == s;
    ParseIntOfIntToString(n, []);
    assert s + [] == s;
  }

  /**
   * A negative id of magnitude below 2^53 whose last digit is not 0 gets no colour: the remainder is a
   * negative index.
   */
  lemma NoColorForNegativeId(n: int)
    requires -TwoTo53 < n < 0 && (-n) % 10 != 0
    ensures GenerateColor(IntToString(n)) == None
  {
    var s := IntToString(n);
    NoLetterInNumber(n);
    assert RemoveFirst(s, 'P') == s;
    ParseIntOfIntToString(n, []);
    assert s + [] == s;
    assert ColorIndex(Some(n)) == None;
  }

  /** Above 2^53 an id is read as the nearest double: 2^53 + 1 is read as 2^53, which ends in 2. */
  lemma RoundedIdColor()
    ensures GenerateColor(IntToString(TwoTo53 + 1)) == Some(Palette[2])
  {
    var n := TwoTo53 + 1;
    var s := IntToString(n);
    NoLetterInNumber(n);
    assert RemoveFirst(s, 'P') == s;
    ParseIntOfIntToString(n, []);
    assert s + [] == s;
    assert Ulp(n / 2) == 1;
    assert ToDouble(n) == Some(TwoTo53);
  }

  /**
   * -(10^17 + 1) is read as -10^17, a multiple of 10: the remainder is minus zero, which indexes entry 0
   * although the exact number's last digit is 1.
   */
  lemma RoundedNegativeIdColor()
    ensures GenerateColor(IntToString(-100000000000000001)) == Some(Palette[0])
  {
    var n := -100000000000000001;
    var s := IntToString(n);
    NoLetterInNumber(n);
    assert RemoveFirst(s, 'P') == s;
    ParseIntOfIntToString(n, []);
    assert s + [] == s;
    assert Ulp(6250000000000000) == 1;
    assert Ulp(12500000000000000) == 2;
    assert Ulp(25000000000000000) == 4;
    assert Ulp(50000000000000000) == 8;
    assert Ulp(100000000000000001) == 16;
    assert ToDouble(n) == Some(-100000000000000000);
  }

  /**
   * One process. The id, arrival time, burst time and colour are fixed at creation; the scheduler
   * updates the rest.
   */
  datatype Process = Process(
    id: string,
    arrivalTime: int,
    burstTime: int,
    remainingTime: int,
    waitingTime: int,
    turnaroundTime: int,
    completionTime: int,
    /** `None` until the first dispatch. */
    startTime: Option<int>,
    color: Option<string>,
    state: ProcState)
  {
    /** The fixed part of this process. */
    function AsJob(): Job {
      Job(id, arrivalTime, burstTime, color)
    }

    /** The updatable part of this process. */
    function Rec(): PRec {
      PRec(remainingTime, waitingTime, turnaroundTime, completionTime, startTime, state)
    }
  }

  /**
   * `new Process(id, arrivalTime, burstTime)`: all the work is still to do, nothing has been waited
   * or completed, the process has never run, and the colour comes from the id.
   */
  function NewProcess(id: string, arrivalTime: int, burstTime: int): (p: Process)
    ensures p.AsJob() == Job(id, arrivalTime, burstTime, GenerateColor(id))
    ensures p.Rec() == FreshRec(burstTime) && p.remainingTime == p.burstTime
  {
    Process(id, arrivalTime, burstTime, burstTime, 0, 0, 0, None, GenerateColor(id), Ready)
  }
}
