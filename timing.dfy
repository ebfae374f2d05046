/**
 * The fixed-timestep rule of the WebGame loop, as pure functions.
 *
 * One frame measures the raw delay since the previous frame, clamps it to
 * twice the frame delay, adds it to the accumulator and then runs one update
 * per whole update delay the accumulator holds. `Accumulate` is the value
 * that loop computes; `RunFrames` folds it over a run of frame timestamps.
 * Timestamps are whole milliseconds, delays are mathematical reals.
 */
module Timing {

  /** The delay the accumulator gains: the raw delay, but never more than two frame delays. */
  function Clamp(rawDelay: int, frameDelay: real): (d: real)
    ensures d <= rawDelay as real && d <= 2.0 * frameDelay
    ensures d == rawDelay as real || d == 2.0 * frameDelay
  {
    if rawDelay as real <= 2.0 * frameDelay then rawDelay as real else 2.0 * frameDelay
  }

  /** How many update steps of `updateDelay` fit in `budget`: none for a budget
      below one step (a negative one included), otherwise floor(budget / updateDelay). */
  function UpdatesDue(budget: real, updateDelay: real): (n: nat)
    requires updateDelay > 0.0
    ensures budget < updateDelay ==> n == 0
    ensures budget >= 0.0 ==> n as real * updateDelay <= budget < (n + 1) as real * updateDelay
  {
    if budget < 0.0 then 0
    else
      var q := budget / updateDelay;
      ScaleFloor(q, q.Floor, updateDelay, budget);
      q.Floor
  }

  /** Scaling the bounds floor(q) <= q < floor(q) + 1 by the step size. */
  lemma ScaleFloor(q: real, f: int, updateDelay: real, budget: real)
    requires updateDelay > 0.0 && q * updateDelay == budget && budget >= 0.0
    requires f as real <= q < (f + 1) as real
    ensures f >= 0
    ensures budget < updateDelay ==> f == 0
    ensures f as real * updateDelay <= budget < (f + 1) as real * updateDelay
  {
    MulRight(q, 0.0, updateDelay);
    MulRight(1.0, q, updateDelay);
    MulRight(f as real, q, updateDelay);
    MulRight(q, (f + 1) as real, updateDelay);
  }

  /** Multiplying by a positive real keeps the order. */
  lemma MulRight(a: real, b: real, c: real)
    requires c > 0.0
    ensures a <= b ==> a * c <= b * c
    ensures a < b ==> a * c < b * c
  {
    if a < b {
      assert (b - a) * c > 0.0;
    }
  }

  /** The step count is the only k with k steps fitting in the budget and k + 1 not. */
  lemma UpdatesDueUnique(budget: real, updateDelay: real, k: nat)
    requires updateDelay > 0.0
    requires k as real * updateDelay <= budget < (k + 1) as real * updateDelay
    ensures UpdatesDue(budget, updateDelay) == k
  {
    var n := UpdatesDue(budget, updateDelay);
    assert budget >= 0.0 by {
      MulRight(0.0, k as real, updateDelay);
    }
    if n < k {
      MulRight((n + 1) as real, k as real, updateDelay);
      assert false;
    } else if n > k {
      MulRight((k + 1) as real, n as real, updateDelay);
      assert false;
    }
  }

  /** What one frame leaves behind: the new accumulator and the number of updates run. */
  datatype CatchUp = CatchUp(accumulator: real, steps: nat)

  /**
   * One frame's update phase. The time accumulated so far plus the clamped
   * delay is split into whole steps and a remainder; the remainder is below
   * one step, and it is not negative whenever at least one step ran (the last
   * step was taken from an accumulator of at least one step).
   */
  function Accumulate(accumulator: real, rawDelay: int, frameDelay: real, updateDelay: real): (r: CatchUp)
    requires updateDelay > 0.0
    ensures r.accumulator + r.steps as real * updateDelay == accumulator + Clamp(rawDelay, frameDelay)
    ensures r.accumulator < updateDelay
    ensures r.steps > 0 ==> r.accumulator >= 0.0
  {
    var budget := accumulator + Clamp(rawDelay, frameDelay);
    var n := UpdatesDue(budget, updateDelay);
    CatchUp(budget - n as real * updateDelay, n)
  }

  /** The three properties of `Accumulate` pin it down: any split of the budget
      that has them is the one the loop computes. */
  lemma AccumulateIsDetermined(accumulator: real, rawDelay: int, frameDelay: real, updateDelay: real, rest: real, k: nat)
    requires updateDelay > 0.0
    requires rest + k as real * updateDelay == accumulator + Clamp(rawDelay, frameDelay)
    requires rest < updateDelay
    requires k > 0 ==> rest >= 0.0
    ensures Accumulate(accumulator, rawDelay, frameDelay, updateDelay) == CatchUp(rest, k)
  {
    var budget := accumulator + Clamp(rawDelay, frameDelay);
    if k == 0 {
      assert budget < updateDelay;
    } else {
      UpdatesDueUnique(budget, updateDelay, k);
    }
  }

  /** Starting from an accumulator in [0, updateDelay) and a clock that does not go
      backwards, the accumulator stays in [0, updateDelay). */
  lemma AccumulatorStaysInRange(accumulator: real, rawDelay: int, frameDelay: real, updateDelay: real)
    requires updateDelay > 0.0 && frameDelay > 0.0
    requires accumulator >= 0.0 && rawDelay >= 0
    ensures var r := Accumulate(accumulator, rawDelay, frameDelay, updateDelay);
            0.0 <= r.accumulator < updateDelay
  {
  }

  /** A stall of one second with a 20 ms frame delay and a 10 ms update delay runs
      4 updates (the delay is clamped to 40 ms), not 100. */
  lemma StallIsClamped()
    ensures Accumulate(0.0, 1000, 20.0, 10.0) == CatchUp(0.0, 4)
  {
    UpdatesDueUnique(40.0, 10.0, 4);
  }

  /** The timestamp before frame `i` of a run that started at `frameTime`. */
  function Previous(frameTime: int, nows: seq<int>, i: nat): int
    requires i < |nows|
  {
    if i == 0 then frameTime else nows[i - 1]
  }

  /** The timestamp of the last frame, or the start if there was none. */
  function Latest(frameTime: int, nows: seq<int>): int
  {
    if nows == [] then frameTime else nows[|nows| - 1]
  }

  /**
   * The accumulator and the total update count after one frame at each of
   * `nows`, the previous frame having been at `frameTime`.
   */
  function RunFrames(accumulator: real, frameTime: int, nows: seq<int>, frameDelay: real, updateDelay: real): (r: CatchUp)
    requires updateDelay > 0.0
    ensures nows != [] ==> r.accumulator < updateDelay
    decreases |nows|
  {
    if nows == [] then CatchUp(accumulator, 0)
    else
      var before := nows[..|nows| - 1];
      var prior := RunFrames(accumulator, frameTime, before, frameDelay, updateDelay);
      var last := Accumulate(prior.accumulator, nows[|nows| - 1] - Latest(frameTime, before), frameDelay, updateDelay);
      CatchUp(last.accumulator, prior.steps + last.steps)
  }

  /** Frame `i` came no earlier than its predecessor and at most two frame delays after it. */
  ghost predicate OnTime(frameTime: int, nows: seq<int>, i: nat, frameDelay: real)
    requires i < |nows|
  {
    Previous(frameTime, nows, i) <= nows[i] && (nows[i] - Previous(frameTime, nows, i)) as real <= 2.0 * frameDelay
  }

  /** No frame of the run was clamped and the clock never went backwards. */
  ghost predicate Unstalled(frameTime: int, nows: seq<int>, frameDelay: real)
  {
    forall i :: 0 <= i < |nows| ==> OnTime(frameTime, nows, i, frameDelay)
  }

  /** `c` is what the update loop makes of `budget`: whole steps, and a rest below one step. */
  ghost predicate Consumes(c: CatchUp, budget: real, updateDelay: real)
  {
    c.accumulator + c.steps as real * updateDelay == budget && 0.0 <= c.accumulator < updateDelay
  }

  /**
   * When no frame is clamped, the frames together run exactly
   * floor((accumulator + elapsed) / updateDelay) updates, where elapsed is the
   * time from the start to the last frame, and the accumulator keeps the rest.
   */
  lemma FramesRunElapsedUpdates(accumulator: real, frameTime: int, nows: seq<int>, frameDelay: real, updateDelay: real)
    requires updateDelay > 0.0
    requires 0.0 <= accumulator < updateDelay
    requires Unstalled(frameTime, nows, frameDelay)
    ensures RunFrames(accumulator, frameTime, nows, frameDelay, updateDelay).steps
            == UpdatesDue(accumulator + (Latest(frameTime, nows) - frameTime) as real, updateDelay)
  {
    ElapsedTimeIsConsumed(accumulator, frameTime, nows, frameDelay, updateDelay);
    ConsumedIsFloor(RunFrames(accumulator, frameTime, nows, frameDelay, updateDelay),
                    accumulator + (Latest(frameTime, nows) - frameTime) as real, updateDelay);
  }

  /** A split into whole steps and a rest below one step takes `UpdatesDue` steps. */
  lemma ConsumedIsFloor(c: CatchUp, budget: real, updateDelay: real)
    requires updateDelay > 0.0 && Consumes(c, budget, updateDelay)
    ensures c.steps == UpdatesDue(budget, updateDelay)
    ensures c.accumulator == budget - c.steps as real * updateDelay
  {
    assert (c.steps + 1) as real * updateDelay == c.steps as real * updateDelay + updateDelay;
    UpdatesDueUnique(budget, updateDelay, c.steps);
  }

  /** The induction behind `FramesRunElapsedUpdates`: the run splits the elapsed
      time plus the starting accumulator into whole steps and a rest below one step. */
  lemma {:induction false} ElapsedTimeIsConsumed(accumulator: real, frameTime: int, nows: seq<int>, frameDelay: real, updateDelay: real)
    requires updateDelay > 0.0
    requires 0.0 <= accumulator < updateDelay
    requires Unstalled(frameTime, nows, frameDelay)
    ensures Latest(frameTime, nows) >= frameTime
    ensures Consumes(RunFrames(accumulator, frameTime, nows, frameDelay, updateDelay),
                     accumulator + (Latest(frameTime, nows) - frameTime) as real, updateDelay)
    decreases |nows|
  {
    if nows == [] {
    } else {
      var before := nows[..|nows| - 1];
      assert Unstalled(frameTime, before, frameDelay) by {
        forall i | 0 <= i < |before|
          ensures OnTime(frameTime, before, i, frameDelay)
        {
          assert OnTime(frameTime, nows, i, frameDelay);
        }
      }
      ElapsedTimeIsConsumed(accumulator, frameTime, before, frameDelay, updateDelay);
      var prior := RunFrames(accumulator, frameTime, before, frameDelay, updateDelay);
      var delay := nows[|nows| - 1] - Latest(frameTime, before);
      assert OnTime(frameTime, nows, |nows| - 1, frameDelay);
      var priorBudget := accumulator + (Latest(frameTime, before) - frameTime) as real;
      OneMoreFrame(priorBudget, prior, delay, frameDelay, updateDelay);
      assert accumulator + (Latest(frameTime, nows) - frameTime) as real == priorBudget + delay as real;
    }
  }

  /** The step of `ElapsedTimeIsConsumed`: an unclamped frame after a run that
      has consumed `budget` leaves the extended budget consumed. */
  lemma OneMoreFrame(budget: real, prior: CatchUp, delay: int, frameDelay: real, updateDelay: real)
    requires updateDelay > 0.0 && budget >= 0.0
    requires Consumes(prior, budget, updateDelay)
    requires 0 <= delay && delay as real <= 2.0 * frameDelay
    ensures var last := Accumulate(prior.accumulator, delay, frameDelay, updateDelay);
            Consumes(CatchUp(last.accumulator, prior.steps + last.steps), budget + delay as real, updateDelay)
  {
    var last := Accumulate(prior.accumulator, delay, frameDelay, updateDelay);
    assert Clamp(delay, frameDelay) == delay as real;
    StepsAdd(budget, delay as real, prior.accumulator, prior.steps, last.accumulator, last.steps, updateDelay);
  }

  /** Steps taken over two frames add up: if the first frame split `budget` into
      `ps` steps and `pa`, and the second split `pa + delay` into `ls` steps and
      `la`, the two frames split `budget + delay` into `ps + ls` steps and `la`. */
  lemma StepsAdd(budget: real, delay: real, pa: real, ps: nat, la: real, ls: nat, updateDelay: real)
    requires pa + ps as real * updateDelay == budget
    requires la + ls as real * updateDelay == pa + delay
    requires 0.0 <= la < updateDelay
    ensures la + (ps + ls) as real * updateDelay == budget + delay
  {
    assert (ps + ls) as real * updateDelay == ps as real * updateDelay + ls as real * updateDelay;
  }
}
