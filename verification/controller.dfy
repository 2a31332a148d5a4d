/**
 * The logic of the animation controller: the add-process form's validation, the playback cursor
 * over the scheduler's history, and the text of the exported trace. The controller owns one
 * scheduler, created with a quantum of 3.
 */
module Controller {
  import opened Common
  import opened Numerals
  import opened ProcessModel
  import opened RoundRobinSpec
  import opened RoundRobinRun
  import opened ProcessList
  import opened Scheduler
  import opened Playback
  import opened Trace

  /** Why the form was refused, one reason per alert, checked in this order. */
  datatype Rejection = MissingId | InvalidArrival | InvalidBurst | DuplicateId(id: string)

  datatype Verdict = Accepted(process: Process) | Rejected(reason: Rejection)

  /**
   * The guards of `addProcess` on the form's fields: the id text, trimmed, must not be empty; the
   * arrival time must be present and not negative; the burst time must be present and at least 1; and
   * no listed process may have the trimmed id. `None` is an empty number input.
   */
  function Validate(idText: string, arrival: Option<int>, burst: Option<int>, ps: seq<Process>): Verdict {
    var id := Trim(idText);
    if id == [] then Rejected(MissingId)
    else if arrival.None? || arrival.value < 0 then Rejected(InvalidArrival)
    else if burst.None? || burst.value < 1 then Rejected(InvalidBurst)
    else if exists q :: q in ps && q.id == id then Rejected(DuplicateId(id))
    else Accepted(NewProcess(id, arrival.value, burst.value))
  }

  /** The form is accepted exactly when every guard passes. */
  lemma ValidateAccepts(idText: string, arrival: Option<int>, burst: Option<int>, ps: seq<Process>)
    ensures Validate(idText, arrival, burst, ps).Accepted? <==>
      && Trim(idText) != [] && arrival.Some? && arrival.value >= 0 && burst.Some? && burst.value >= 1
      && forall q :: q in ps ==> q.id != Trim(idText)
  {
  }

  /**
   * An accepted process carries the trimmed id and the two numbers with fresh metrics, and it meets what the scheduler's
   * `addProcess` relies on: a non-negative arrival, a positive burst and a non-empty id no listed
   * process has (trimmed, so without surrounding white space).
   */
  lemma AcceptedFits(idText: string, arrival: Option<int>, burst: Option<int>, ps: seq<Process>)
    requires Validate(idText, arrival, burst, ps).Accepted?
    ensures var p := Validate(idText, arrival, burst, ps).process;
      && arrival.Some? && burst.Some?
      && p.id == Trim(idText) && p.arrivalTime == arrival.value && p.burstTime == burst.value
      && p.Rec() == FreshRec(burst.value)
      && p.arrivalTime >= 0 && p.burstTime >= 1
      && (forall q :: q in ps ==> q.id != p.id)
      && p.id != []
  {
  }

  /** An id made only of white space is refused as missing, whatever the other fields hold. */
  lemma BlankIdRejected(idText: string, arrival: Option<int>, burst: Option<int>, ps: seq<Process>)
    requires forall i :: 0 <= i < |idText| ==> IsJsSpace(idText[i])
    ensures Validate(idText, arrival, burst, ps) == Rejected(MissingId)
  {
    TrimEmpty(idText);
  }

  /** An id that trims to one already listed is refused once the number fields are valid. */
  lemma DuplicateRejected(idText: string, arrival: Option<int>, burst: Option<int>, ps: seq<Process>, k: nat)
    requires k < |ps| && ps[k].id == Trim(idText) && Trim(idText) != []
    requires arrival.Some? && arrival.value >= 0 && burst.Some? && burst.value >= 1
    ensures Validate(idText, arrival, burst, ps) == Rejected(DuplicateId(Trim(idText)))
  {
    assert ps[k] in ps;
  }

  /**
   * The form as `addProcess` sees it: the number fields are the inputs' texts, and the process reads
   * them with `parseInt` (`None` is `NaN`, which an empty field also gives), so the guards are checked
   * on the very values the process stores.
   */
  function ValidateFields(idText: string, arrivalText: string, burstText: string, ps: seq<Process>): (v: Verdict)
    ensures v.Accepted? ==>
      && JsParseInt(arrivalText).Some? && JsParseInt(burstText).Some?
      && v.process.arrivalTime == JsParseInt(arrivalText).value >= 0
      && v.process.burstTime == JsParseInt(burstText).value >= 1
      && v.process.id == Trim(idText) && v.process.id != []
      && forall q :: q in ps ==> q.id != v.process.id
    ensures JsParseInt(arrivalText).None? && Trim(idText) != [] ==> v == Rejected(InvalidArrival)
  {
    var v := Validate(idText, JsParseInt(arrivalText), JsParseInt(burstText), ps);
    if v.Accepted? then AcceptedFits(idText, JsParseInt(arrivalText), JsParseInt(burstText), ps); v else v
  }

  /**
   * The number guards of `addProcess` as written: each is a comparison of the field's text with a
   * number, so it converts the text with `Number` (a decimal floating-point reading, taken here as
   * the parameter `number`, with `None` for `NaN`); the process then reads the same text with
   * `parseInt`, which stops at the first character that is not a digit.
   */
  predicate GuardsPassAsWritten(arrivalText: string, burstText: string, number: string -> Option<real>) {
    && arrivalText != [] && !(number(arrivalText).Some? && number(arrivalText).value < 0.0)
    && burstText != [] && !(number(burstText).Some? && number(burstText).value < 1.0)
  }

  /**
   * The discrepancy: an arrival of `.5` passes the guards although `parseInt` reads no number from it
   * (the process arrives at `NaN`, which no clock value reaches, so the simulation never ends), and a
   * burst of `0.1e2` passes them although `parseInt` reads 0 from it. Checked on the fields' text,
   * both are refused.
   */
  lemma FractionalFieldsSlipThrough(number: string -> Option<real>)
    requires number(".5") == Some(0.5) && number("5") == Some(5.0)
    requires number("0") == Some(0.0) && number("0.1e2") == Some(10.0)
    ensures GuardsPassAsWritten(".5", "5", number) && JsParseInt(".5").None?
    ensures GuardsPassAsWritten("0", "0.1e2", number) && JsParseInt("0.1e2") == Some(0)
    ensures ValidateFields("P1", ".5", "5", []) == Rejected(InvalidArrival)
    ensures ValidateFields("P1", "0", "0.1e2", []) == Rejected(InvalidBurst)
  {
    ReadsOfFractions();
    ReadsOfWholes();
    assert Trim("P1") == "P1" by {
      assert !IsJsSpace('P') && !IsJsSpace('1');
      assert SkipSpaces("P1") == "P1";
    }
  }

  lemma ReadsOfFractions()
    ensures ParseInt(".5").None? && ParseInt("0.1e2") == Some(0)
  {
    ParseUnsigned(".5");
    assert DigitPrefixLength(".5", 10) == 0;
    assert NatToString(0) + ".1e2" == "0.1e2";
    ParseNonNegative(0, ".1e2");
  }

  lemma ReadsOfWholes()
    ensures ParseInt("0") == Some(0) && ParseInt("5") == Some(5)
  {
    assert NatToString(0) + [] == "0" && NatToString(5) + [] == "5";
    ParseNonNegative(0, []);
    ParseNonNegative(5, []);
  }

  /**
   * `((num / den) * scale).toFixed(digits)`, each operation on doubles: floating-point arithmetic and
   * formatting, taken as a parameter. A scale of 1 is the plain quotient, since multiplying by 1 is exact.
   */
  type Fixed = (int, int, int, nat) -> string

  /** The four figures `getStatistics` formats from its integer totals. */
  function FiguresOf(st: Stats, fixed: Fixed): Figures {
    Figures(
      fixed(st.totalWaitingTime, st.completedCount, 1, 2),
      fixed(st.totalTurnaroundTime, st.completedCount, 1, 2),
      fixed(st.completedCount, st.currentTime, 1, 3),
      fixed(st.busyTime, st.currentTime, 100, 1))
  }

  /** The `forEach` over the history that appends one row per snapshot to `traceData`. */
  method AppendRows(traceData: string, h: seq<Snapshot>) returns (r: string)
    ensures r == traceData + Rows(h)
  {
    r := traceData;
    var i := 0;
    while i < |h|
      invariant 0 <= i <= |h|
      invariant r == traceData + Rows(h[..i])
    {
      RowsSnoc(h, i);
      Associate(traceData, Rows(h[..i]), Row(h[i]));
      r := r + Row(h[i]);
      i := i + 1;
    }
    assert h[..i] == h;
  }

  lemma RowsSnoc(h: seq<Snapshot>, i: nat)
    requires i < |h|
    ensures Rows(h[..i + 1]) == Rows(h[..i]) + Row(h[i])
  {
    assert h[..i + 1][..i] == h[..i];
  }

  lemma Associate(a: string, b: string, c: string)
    ensures a + b + c == a + (b + c)
  {
  }

  lemma TraceWithStats(quantum: int, count: int, h: seq<Snapshot>, f: Figures)
    requires h != []
    ensures TraceText(quantum, count, h, Some(f)) == Header(quantum, count, h[|h| - 1].time) + Rows(h) + StatsBlock(f)
  {
  }

  lemma TraceWithoutStats(quantum: int, count: int, h: seq<Snapshot>)
    requires h != []
    ensures TraceText(quantum, count, h, None) == Header(quantum, count, h[|h| - 1].time) + Rows(h)
  {
  }

  class AnimationController {
    const scheduler: RoundRobinScheduler
    var currentStep: int
    var isPlaying: bool

    /** The scheduler is in a state it can rest in and the cursor designates a snapshot of its history. */
    ghost predicate Valid()
      reads this, scheduler
    {
      scheduler.Valid() && InRange(currentStep, |scheduler.history|)
    }

    constructor ()
      ensures Valid() && fresh(scheduler)
      ensures scheduler.timeQuantum == 3 && scheduler.processes == [] && scheduler.history == []
      ensures scheduler.readyQueue == [] && scheduler.completedProcesses == []
      ensures scheduler.currentTime == 0 && scheduler.currentProcess == None
      ensures !scheduler.isRunning && scheduler.ganttChart == []
      ensures currentStep == 0 && !isPlaying
    {
      scheduler := new RoundRobinScheduler(3);
      currentStep := 0;
      isPlaying := false;
    }

    /**
     * `addProcess`: a refused form changes nothing; an accepted one inserts exactly the new process
     * into the scheduler's list, keeping it ordered by arrival.
     */
    method AddProcess(idText: string, arrivalText: string, burstText: string) returns (v: Verdict)
      requires Valid()
      modifies scheduler`processes, scheduler`readyQueue, scheduler`completedProcesses
      ensures Valid()
      ensures v == ValidateFields(idText, arrivalText, burstText, old(scheduler.processes))
      ensures v.Rejected? ==> unchanged(scheduler)
      ensures v.Accepted? ==>
        && scheduler.processes == InsertByArrival(old(scheduler.processes), v.process)
        && multiset(scheduler.processes) == multiset(old(scheduler.processes)) + multiset{v.process}
        && |scheduler.readyQueue| == |old(scheduler.readyQueue)|
        && (forall i :: 0 <= i < |scheduler.readyQueue| ==>
              scheduler.processes[scheduler.readyQueue[i]] == old(scheduler.processes)[old(scheduler.readyQueue)[i]])
        && |scheduler.completedProcesses| == |old(scheduler.completedProcesses)|
        && (forall i :: 0 <= i < |scheduler.completedProcesses| ==>
              scheduler.processes[scheduler.completedProcesses[i]] ==
              old(scheduler.processes)[old(scheduler.completedProcesses)[i]])
    {
      v := ValidateFields(idText, arrivalText, burstText, scheduler.processes);
      if v.Accepted? {
        AcceptedFits(idText, JsParseInt(arrivalText), JsParseInt(burstText), scheduler.processes);
        InsertPermutes(scheduler.processes, v.process);
        scheduler.AddProcess(v.process);
      }
    }

    /** `clearProcesses`: the scheduler is emptied and the animation is reset. */
    method ClearProcesses()
      requires Valid()
      modifies scheduler, this`currentStep, this`isPlaying
      ensures Valid()
      ensures scheduler.processes == [] && scheduler.readyQueue == [] && scheduler.completedProcesses == []
      ensures scheduler.currentTime == 0 && scheduler.currentProcess == None
      ensures scheduler.history == [] && scheduler.ganttChart == []
      ensures scheduler.timeQuantum == old(scheduler.timeQuantum) && scheduler.isRunning == old(scheduler.isRunning)
      ensures currentStep == 0 && !isPlaying
    {
      scheduler.ClearProcesses();
      ResetAnimation();
    }

    /**
     * `startSimulation`: refused with no processes; otherwise the scheduler runs and the cursor goes
     * back to the first snapshot of the history it records.
     */
    method StartSimulation()
      requires Valid() && scheduler.timeQuantum >= 1
      modifies scheduler, this`currentStep
      ensures Valid() && scheduler.timeQuantum == old(scheduler.timeQuantum)
      ensures old(scheduler.processes) == [] ==> unchanged(scheduler) && currentStep == old(currentStep)
      ensures old(scheduler.processes) != [] ==>
        && currentStep == 0
        && JobsOf(scheduler.processes) == JobsOf(old(scheduler.processes))
        && var r := Schedule(JobsOf(scheduler.processes), scheduler.timeQuantum);
           scheduler.Mirrors(r, [], scheduler.currentTime, r.last) && !scheduler.isRunning
    {
      if |scheduler.processes| == 0 {
        return;
      }
      scheduler.StartSimulation();
      currentStep := 0;
    }

    /** `resetSimulation`: playback stops, the scheduler is emptied and the animation is reset. */
    method ResetSimulation()
      requires Valid()
      modifies scheduler, this`currentStep, this`isPlaying
      ensures Valid()
      ensures scheduler.processes == [] && scheduler.readyQueue == [] && scheduler.completedProcesses == []
      ensures scheduler.currentTime == 0 && scheduler.currentProcess == None
      ensures scheduler.history == [] && scheduler.ganttChart == []
      ensures scheduler.timeQuantum == old(scheduler.timeQuantum) && scheduler.isRunning == old(scheduler.isRunning)
      ensures currentStep == 0 && !isPlaying
    {
      StopAnimation();
      scheduler.ClearProcesses();
      ResetAnimation();
    }

    /** `resetAnimation`: playback stops and the cursor goes back to the first snapshot. */
    method ResetAnimation()
      requires scheduler.Valid()
      modifies this`currentStep, this`isPlaying
      ensures Valid() && currentStep == 0 && !isPlaying
    {
      StopAnimation();
      currentStep := 0;
    }

    /** `togglePlayPause`. */
    method TogglePlayPause()
      modifies this`isPlaying
      ensures old(isPlaying) ==> !isPlaying
      ensures !old(isPlaying) ==> Play(currentStep, isPlaying) == Start(Play(currentStep, false), |scheduler.history|)
    {
      if isPlaying {
        StopAnimation();
      } else {
        StartAnimation();
      }
    }

    /** `startAnimation`, without the timer: playing starts unless there is nothing left to play. */
    method StartAnimation()
      modifies this`isPlaying
      ensures Play(currentStep, isPlaying) == Start(Play(currentStep, old(isPlaying)), |scheduler.history|)
    {
      if |scheduler.history| == 0 || currentStep >= |scheduler.history| - 1 {
        return;
      }
      isPlaying := true;
    }

    /** `stopAnimation`, without the timer. */
    method StopAnimation()
      modifies this`isPlaying
      ensures !isPlaying
    {
      isPlaying := false;
    }

    /** One firing of the playback timer set up by `startAnimation`. */
    method TimerTick()
      requires Valid()
      modifies this`currentStep, this`isPlaying
      ensures Valid()
      ensures Play(currentStep, isPlaying) == Tick(Play(old(currentStep), old(isPlaying)), |scheduler.history|)
    {
      if currentStep < |scheduler.history| - 1 {
        currentStep := currentStep + 1;
      } else {
        StopAnimation();
      }
    }

    /** `stepForward`. */
    method StepForward()
      requires Valid()
      modifies this`currentStep
      ensures Valid()
      ensures currentStep == Forward(old(currentStep), |scheduler.history|)
    {
      if currentStep < |scheduler.history| - 1 {
        currentStep := currentStep + 1;
      }
    }

    /** `stepBackward`. */
    method StepBackward()
      requires Valid()
      modifies this`currentStep
      ensures Valid()
      ensures currentStep == Backward(old(currentStep))
    {
      if currentStep > 0 {
        currentStep := currentStep - 1;
      }
    }

    /** `jumpToStep(step)`, as the timeline slider calls it. */
    method JumpToStep(step: int)
      requires Valid()
      modifies this`currentStep
      ensures Valid()
      ensures currentStep == Jump(old(currentStep), step, |scheduler.history|)
    {
      if step >= 0 && step < |scheduler.history| {
        currentStep := step;
      }
    }

    /** The statistics block's figures: none while no process has completed. */
    function Figures(fixed: Fixed): Option<Figures>
      reads scheduler
      requires AllBelow(scheduler.completedProcesses, |scheduler.processes|)
    {
      if scheduler.completedProcesses == [] then None
      else Some(FiguresOf(Stats(
        SumWaiting(scheduler.processes, scheduler.completedProcesses),
        SumTurnaround(scheduler.processes, scheduler.completedProcesses),
        |scheduler.completedProcesses|, BusyTime(scheduler.ganttChart), scheduler.currentTime), fixed))
    }

    /**
     * `exportTrace`: refused with an empty history; otherwise the header, one row per snapshot in
     * history order, and the statistics block when there are statistics.
     */
    method ExportTrace(fixed: Fixed) returns (text: Option<string>)
      requires Valid()
      ensures text.None? <==> scheduler.history == []
      ensures text.Some? ==>
        text.value == TraceText(scheduler.timeQuantum, |scheduler.processes|, scheduler.history, Figures(fixed))
    {
      var h := scheduler.history;
      if |h| == 0 {
        return None;
      }
      var header := Header(scheduler.timeQuantum, |scheduler.processes|, h[|h| - 1].time);
      var traceData := AppendRows(header, h);
      var stats := scheduler.GetStatistics();
      if stats.Some? {
        var figures := FiguresOf(stats.value, fixed);
        assert Figures(fixed) == Some(figures);
        TraceWithStats(scheduler.timeQuantum, |scheduler.processes|, h, figures);
        traceData := traceData + StatsBlock(figures);
      } else {
        assert Figures(fixed) == None;
        TraceWithoutStats(scheduler.timeQuantum, |scheduler.processes|, h);
      }
      return Some(traceData);
    }
  }
}
