/**
 * The playback cursor over the recorded history: `currentStep` moves within the indices of the
 * history one step at a time, by a jump from the timeline slider, or by the playback timer's ticks.
 * The functions here say where the cursor goes; the controller's methods move it accordingly.
 */
module Playback {
  import opened Common

  /** A cursor position fits a history of `n` snapshots: an index into it, or 0 when it is empty. */
  predicate InRange(step: int, n: nat) {
    0 <= step && (step < n || step == 0)
  }

  /** `stepForward`: one step on, unless the cursor is at (or past) the last snapshot. */
  function Forward(step: int, n: nat): (r: int)
    ensures InRange(step, n) ==> InRange(r, n)
    ensures r == step + 1 <==> step < n - 1
    ensures r != step + 1 ==> r == step
  {
    if step < n - 1 then step + 1 else step
  }

  /** `stepBackward`: one step back, unless the cursor is at the first snapshot. */
  function Backward(step: int): (r: int)
    ensures step >= 0 ==> 0 <= r <= step
    ensures r == step - 1 <==> step > 0
    ensures r != step - 1 ==> r == step
  {
    if step > 0 then step - 1 else step
  }

  /** `jumpToStep(target)`: the cursor goes to `target` when it is an index of the history. */
  function Jump(step: int, target: int, n: nat): (r: int)
    ensures InRange(step, n) ==> InRange(r, n)
    ensures 0 <= target < n ==> r == target
    ensures !(0 <= target < n) ==> r == step
  {
    if 0 <= target < n then target else step
  }

  /** The cursor together with the playing flag. */
  datatype Play = Play(step: int, playing: bool)

  /** `startAnimation`: refused with an empty history or at the last snapshot; otherwise playing starts. */
  function Start(p: Play, n: nat): (r: Play)
    ensures r.step == p.step
    ensures r.playing <==> p.playing || (n > 0 && p.step < n - 1)
  {
    if n == 0 || p.step >= n - 1 then p else p.(playing := true)
  }

  /** One firing of the playback timer: a step on, or, at the last snapshot, playing stops. */
  function Tick(p: Play, n: nat): (r: Play)
    ensures InRange(p.step, n) ==> InRange(r.step, n)
    ensures r.step == Forward(p.step, n)
    ensures r.playing <==> p.playing && p.step < n - 1
  {
    if p.step < n - 1 then p.(step := p.step + 1) else p.(playing := false)
  }

  /** `k` firings of the playback timer. */
  function Ticks(p: Play, n: nat, k: nat): Play
    decreases k
  {
    if k == 0 then p else Ticks(Tick(p, n), n, k - 1)
  }

  /** Stepping forward and then back returns to where the cursor was, except at the last snapshot. */
  lemma ForwardBackward(step: int, n: nat)
    requires InRange(step, n) && step < n - 1
    ensures Backward(Forward(step, n)) == step
  {
  }

  /** Stepping back and then forward returns to where the cursor was, except at the first snapshot. */
  lemma BackwardForward(step: int, n: nat)
    requires InRange(step, n) && step > 0
    ensures Forward(Backward(step), n) == step
  {
  }

  /**
   * From a position inside the history, `k` ticks advance the cursor by `k` but never past the last
   * snapshot, and playing goes on exactly while a tick still found a step to take.
   */
  lemma {:induction false} TicksAdvance(p: Play, n: nat, k: nat)
    requires 0 <= p.step < n
    ensures Ticks(p, n, k).step == Min(p.step + k, n - 1)
    ensures Ticks(p, n, k).playing <==> p.playing && p.step + k <= n - 1
    decreases k
  {
    if k > 0 {
      TicksAdvance(Tick(p, n), n, k - 1);
    }
  }

  /**
   * Playback from any snapshot but the last plays every remaining snapshot in order: after
   * `n - 1 - s` ticks the cursor is on the last one and still playing, and the next tick stops it there.
   */
  lemma PlaybackRunsToEnd(s: int, n: nat)
    requires 0 <= s < n - 1
    ensures Start(Play(s, false), n) == Play(s, true)
    ensures Ticks(Play(s, true), n, n - 1 - s) == Play(n - 1, true)
    ensures Tick(Play(n - 1, true), n) == Play(n - 1, false)
  {
    TicksAdvance(Play(s, true), n, n - 1 - s);
  }
}
