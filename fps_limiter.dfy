/**
 * FPSLimiter (FPSLimiter.h, FPSLimiter.cpp): a frame-pacing controller that sleeps fpsDelay ms per
 * call and, every fourth call, compares the measured average frame time with the target and moves
 * the delay by one millisecond. The clock reading is a parameter (milliseconds since the clock's
 * epoch) and the sleep is returned instead of performed. Single-precision floats are exact reals.
 */
module FrameLimiter {
  import opened Wrappers

  /** Calls per sample window (FrameDelayAdjustmentMod). */
  const FrameDelayAdjustmentMod: int := 4

  /** The controller's five fields. lastTime == 0.0 is a default-constructed time point: no sample yet. */
  datatype LimiterState = LimiterState(simFrameTime: real, avgFrameTime: real, fpsDelay: int,
                                       adjustmentCtr: int, lastTime: real)

  /** What holds between calls: a non-negative delay and a counter in 1..4. */
  predicate Inv(s: LimiterState)
  {
    s.fpsDelay >= 0 && 1 <= s.adjustmentCtr <= FrameDelayAdjustmentMod
  }

  /** The state the constructor builds for a target rate of fps frames per second. */
  function Initial(fps: int): (s: LimiterState)
    requires fps > 0
    ensures Inv(s) && s.adjustmentCtr == FrameDelayAdjustmentMod
    ensures s.simFrameTime * fps as real == 1000.0
    ensures s.avgFrameTime == 0.0 && s.lastTime == 0.0
    // int(simFrameTime * 0.6): the whole part of 60% of the frame time
    ensures s.fpsDelay as real <= s.simFrameTime * 0.6 < s.fpsDelay as real + 1.0
  {
    var simFrameTime := 1000.0 / fps as real;
    LimiterState(simFrameTime, 0.0, (simFrameTime * 0.6).Floor, FrameDelayAdjustmentMod, 0.0)
  }

  /** The new delay after a sample with average frame time avg: one step up, one step down (not below 0), or kept. */
  function Adjusted(fpsDelay: int, simFrameTime: real, avg: real): int
  {
    var diff := simFrameTime - avg;
    if diff >= 1.0 then fpsDelay + 1
    else if diff <= -1.0 then (if fpsDelay > 0 then fpsDelay - 1 else 0)
    else fpsDelay
  }

  /** Whether a call takes a sample: the counter runs down to zero. */
  predicate Samples(s: LimiterState)
  {
    s.adjustmentCtr - 1 == 0
  }

  /** The state after one Regulate call made when the clock reads now. */
  function Step(s: LimiterState, now: real): LimiterState
  {
    if !Samples(s) then s.(adjustmentCtr := s.adjustmentCtr - 1)
    else if s.lastTime != 0.0 then
      var avg := (now - s.lastTime) / FrameDelayAdjustmentMod as real;
      s.(avgFrameTime := avg, fpsDelay := Adjusted(s.fpsDelay, s.simFrameTime, avg),
         lastTime := now, adjustmentCtr := FrameDelayAdjustmentMod)
    else
      s.(lastTime := now, adjustmentCtr := FrameDelayAdjustmentMod)
  }

  /** The sleep a call requests before anything else: fpsDelay ms, or none when the delay is 0. */
  function Sleep(s: LimiterState): (r: Option<int>)
    ensures r.Some? <==> s.fpsDelay != 0
    ensures r.Some? ==> r.value == s.fpsDelay
  {
    if s.fpsDelay != 0 then Some(s.fpsDelay) else None
  }

  class FPSLimiter {
    var simFrameTime: real
    var avgFrameTime: real
    var fpsDelay: int
    var adjustmentCtr: int
    var lastTime: real

    function State(): LimiterState
      reads this
    {
      LimiterState(simFrameTime, avgFrameTime, fpsDelay, adjustmentCtr, lastTime)
    }

    constructor (fps: int)
      requires fps > 0
      ensures State() == Initial(fps)
    {
      var frameTime := 1000.0 / fps as real;
      simFrameTime := frameTime;
      adjustmentCtr := FrameDelayAdjustmentMod;
      avgFrameTime := 0.0;
      fpsDelay := (frameTime * 0.6).Floor;
      lastTime := 0.0;
    }

    /** 1000 / avgFrameTime; defined once a second sample has set a non-zero average. */
    function AverageFPS(): (r: real)
      reads this
      requires avgFrameTime != 0.0
      ensures r * avgFrameTime == 1000.0
    {
      1000.0 / avgFrameTime
    }

    method Regulate(now: real) returns (sleep: Option<int>)
      modifies this`avgFrameTime, this`fpsDelay, this`adjustmentCtr, this`lastTime
      ensures sleep == Sleep(old(State()))
      ensures State() == Step(old(State()), now)
    {
      sleep := if fpsDelay != 0 then Some(fpsDelay) else None;
      adjustmentCtr := adjustmentCtr - 1;
      if adjustmentCtr == 0 {
        if lastTime != 0.0 {
          avgFrameTime := (now - lastTime) / FrameDelayAdjustmentMod as real;
          var diff := simFrameTime - avgFrameTime;
          if diff >= 1.0 {
            fpsDelay := fpsDelay + 1;
          } else if diff <= -1.0 {
            fpsDelay := if fpsDelay > 0 then fpsDelay - 1 else 0;
          }
        }
        lastTime := now;
        adjustmentCtr := FrameDelayAdjustmentMod;
      }
    }
  }

  /** Regulate keeps the delay non-negative and the counter in 1..4, and moves the delay by at most 1. */
  lemma StepKeepsInv(s: LimiterState, now: real)
    requires Inv(s)
    ensures Inv(Step(s, now))
    ensures -1 <= Step(s, now).fpsDelay - s.fpsDelay <= 1
  {
  }

  /**
   * A sampling call with a previous sample stores avg = elapsed / 4 and moves the delay up
   * exactly when the frames ran at least 1 ms faster than the target, down exactly when they ran
   * at least 1 ms slower and the delay was positive, and keeps it otherwise (the dead band).
   */
  lemma SampleAdjusts(s: LimiterState, now: real)
    requires Inv(s) && Samples(s) && s.lastTime != 0.0
    ensures Step(s, now).avgFrameTime == (now - s.lastTime) / 4.0
    ensures Step(s, now).fpsDelay == s.fpsDelay + 1 <==> s.simFrameTime - Step(s, now).avgFrameTime >= 1.0
    ensures Step(s, now).fpsDelay == s.fpsDelay - 1
            <==> s.simFrameTime - Step(s, now).avgFrameTime <= -1.0 && s.fpsDelay > 0
    ensures Step(s, now).fpsDelay == s.fpsDelay
            <==> -1.0 < s.simFrameTime - Step(s, now).avgFrameTime < 1.0
                 || (s.simFrameTime - Step(s, now).avgFrameTime <= -1.0 && s.fpsDelay == 0)
    ensures Step(s, now).lastTime == now && Step(s, now).adjustmentCtr == 4
  {
  }

  /** The first sample only records the time stamp. */
  lemma FirstSampleOnlyRecords(s: LimiterState, now: real)
    requires Samples(s) && s.lastTime == 0.0
    ensures Step(s, now) == s.(lastTime := now, adjustmentCtr := 4)
  {
  }

  /** The state after a sequence of calls, one per clock reading. */
  function Calls(s: LimiterState, times: seq<real>): LimiterState
    decreases |times|
  {
    if times == [] then s else Calls(Step(s, times[0]), times[1..])
  }

  /** The sleeps the calls request, one per clock reading, each taken from the state before it. */
  function Sleeps(s: LimiterState, times: seq<real>): (r: seq<Option<int>>)
    ensures |r| == |times|
    decreases |times|
  {
    if times == [] then [] else [Sleep(s)] + Sleeps(Step(s, times[0]), times[1..])
  }

  /** How many of those calls take a sample. */
  function SampleCount(s: LimiterState, times: seq<real>): nat
    decreases |times|
  {
    if times == [] then 0
    else (if Samples(s) then 1 else 0) + SampleCount(Step(s, times[0]), times[1..])
  }

  /**
   * Over n calls from counter c the counter moves through 4..1 cyclically and a sample is taken
   * on the c-th call and every fourth call after it.
   */
  lemma {:induction false} CounterCycles(s: LimiterState, times: seq<real>)
    requires Inv(s)
    ensures Inv(Calls(s, times))
    ensures Calls(s, times).adjustmentCtr == (s.adjustmentCtr - 1 - |times|) % 4 + 1
    ensures SampleCount(s, times) == (|times| + 4 - s.adjustmentCtr) / 4
    decreases |times|
  {
    if times != [] {
      StepKeepsInv(s, times[0]);
      CounterCycles(Step(s, times[0]), times[1..]);
    }
  }

  /** Each call moves the delay by at most one step per sample it takes. */
  lemma {:induction false} DelayDriftBounded(s: LimiterState, times: seq<real>)
    requires Inv(s)
    ensures Calls(s, times).fpsDelay >= 0
    ensures s.fpsDelay - SampleCount(s, times) <= Calls(s, times).fpsDelay <= s.fpsDelay + SampleCount(s, times)
    decreases |times|
  {
    if times != [] {
      StepKeepsInv(s, times[0]);
      DelayDriftBounded(Step(s, times[0]), times[1..]);
    }
  }

  /** Any four consecutive calls take exactly one sample, so they move the delay by at most 1 ms. */
  lemma FourCallsMoveDelayByAtMostOne(s: LimiterState, times: seq<real>)
    requires Inv(s) && |times| == 4
    ensures SampleCount(s, times) == 1
    ensures -1 <= Calls(s, times).fpsDelay - s.fpsDelay <= 1
  {
    CounterCycles(s, times);
    DelayDriftBounded(s, times);
  }

  /**
   * From the constructed state the average stays 0 for the first seven calls: the fourth call
   * takes the first sample, which only records the time, and the eighth is the next sample.
   */
  lemma {:induction false} AverageZeroUntilSecondSample(fps: int, times: seq<real>)
    requires fps > 0 && |times| < 8
    ensures Calls(Initial(fps), times).avgFrameTime == 0.0
  {
    var s := Initial(fps);
    var k := 0;
    while k < |times|
      invariant 0 <= k <= |times|
      invariant Calls(s, times) == Calls(Calls(s, times[..k]), times[k..])
      invariant Calls(s, times[..k]).avgFrameTime == 0.0
      invariant k < 4 ==> Calls(s, times[..k]).lastTime == 0.0
      invariant Calls(s, times[..k]).adjustmentCtr == (if k < 4 then 4 - k else 8 - k)
    {
      CallsSnoc(s, times[..k], times[k]);
      assert times[..k + 1] == times[..k] + [times[k]];
      assert times[k..] == [times[k]] + times[k + 1..];
      k := k + 1;
    }
    assert times[k..] == [];
  }

  /** Calls over a sequence extended by one reading is one more Step. */
  lemma {:induction false} CallsSnoc(s: LimiterState, times: seq<real>, t: real)
    ensures Calls(s, times + [t]) == Step(Calls(s, times), t)
    decreases |times|
  {
    if times != [] {
      assert (times + [t])[1..] == times[1..] + [t];
      CallsSnoc(Step(s, times[0]), times[1..], t);
    }
  }

  /** One more clock reading adds the sleep requested by the state the earlier calls left. */
  lemma {:induction false} SleepsSnoc(s: LimiterState, times: seq<real>, t: real)
    ensures Sleeps(s, times + [t]) == Sleeps(s, times) + [Sleep(Calls(s, times))]
    decreases |times|
  {
    if times != [] {
      assert (times + [t])[1..] == times[1..] + [t];
      SleepsSnoc(Step(s, times[0]), times[1..], t);
    }
  }

  /** The k-th sleep is the one requested after the first k calls. */
  lemma {:induction false} SleepsAt(s: LimiterState, times: seq<real>, k: nat)
    requires k < |times|
    ensures Sleeps(s, times)[k] == Sleep(Calls(s, times[..k]))
    decreases k
  {
    if k > 0 {
      assert times[1..][..k - 1] == times[..k][1..];
      SleepsAt(Step(s, times[0]), times[1..], k - 1);
    }
  }
}
