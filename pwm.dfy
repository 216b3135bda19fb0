/** The PWM output: its 16-bit duty cycle, the 1024-unit step ladder driven by
    the UP and DOWN buttons, and the duty and pixel-index formulas of the
    ramp sequence. */
module Pwm {

  const PwmMax := 65535
  const PwmMaxHalf := PwmMax / 2
  const PwmStep := 1024
  const MaxSteps := 64
  /** Steps in each of the ramp-up and ramp-down phases. */
  const RampSteps := 50
  /** The ramp's lowest duty as a fraction of full scale (`min_frac`). */
  const MinFrac: real := 0.5

  /** A value `pwm.duty_cycle` accepts. */
  type Duty = d: int | 0 <= d <= PwmMax
  /** The step counter `pwm_step_n`. */
  type StepCount = n: int | 0 <= n <= MaxSteps
  /** The ramp progress counter `i`. */
  type Progress = n: int | 0 <= n <= RampSteps

  /** The duty the step ladder gives for `n` steps. The ladder is dense at the
      top (64 steps reach full scale exactly), and the RIGHT button's
      half-scale jump lands on the rung that its step count of 32 names. */
  function StepDuty(n: StepCount): (d: Duty)
    ensures d == 0 <==> n == 0
    ensures n > 0 ==> PwmStep - 1 <= d && (d + 1) % PwmStep == 0 && (d + 1) / PwmStep == n
    ensures n == MaxSteps ==> d == PwmMax
    ensures n == MaxSteps / 2 ==> d == PwmMaxHalf
  {
    if n == 0 then 0 else n * PwmStep - 1
  }

  /** Rungs of the ladder are strictly ordered. */
  lemma StepDutyIncreasing(m: StepCount, n: StepCount)
    requires m < n
    ensures StepDuty(m) < StepDuty(n)
  {
  }

  /** Duty written at ramp-up step `i`: the exact-arithmetic floor of
      pwm_max * (1 + (1 - min_frac) * (i / steps - 1)) with min_frac = 0.5. */
  function RampUpDuty(i: int): (d: Duty)
    requires 0 <= i < RampSteps
    ensures d as real <= PwmMax as real * (1.0 + (1.0 - MinFrac) * ((i as real) / (RampSteps as real) - 1.0)) < d as real + 1.0
    ensures PwmMaxHalf <= d < PwmMax
    ensures i == 0 ==> d == PwmMaxHalf
  {
    PwmMax * (RampSteps + i) / (2 * RampSteps)
  }

  /** Duty written at ramp-down step `i`: the exact-arithmetic floor of
      pwm_max * (1 - (1 - min_frac) * i / steps) with min_frac = 0.5. */
  function RampDownDuty(i: int): (d: Duty)
    requires 0 <= i < RampSteps
    ensures d as real <= PwmMax as real * (1.0 - (1.0 - MinFrac) * (i as real) / (RampSteps as real)) < d as real + 1.0
    ensures PwmMaxHalf < d <= PwmMax
    ensures i == 0 ==> d == PwmMax
  {
    PwmMax * (2 * RampSteps - i) / (2 * RampSteps)
  }

  /** The ramp-up duty rises strictly with every step. */
  lemma RampUpRises(i: int, j: int)
    requires 0 <= i < j < RampSteps
    ensures RampUpDuty(i) < RampUpDuty(j)
  {
  }

  /** The ramp-down duty falls strictly with every step. */
  lemma RampDownFalls(i: int, j: int)
    requires 0 <= i < j < RampSteps
    ensures RampDownDuty(i) > RampDownDuty(j)
  {
  }

  /** Cell lit at ramp-up step `i` (`i // 5`). */
  function UpIndex(i: int): (k: int)
    requires 0 <= i < RampSteps
    ensures 0 <= k < 10
  {
    i / 5
  }

  /** Cell lit at ramp-down step `i` (`9 - i // 5`). */
  function DownIndex(i: int): (k: int)
    requires 0 <= i < RampSteps
    ensures 0 <= k < 10
  {
    9 - i / 5
  }

  /** Ramp-up lights cell `k` at exactly the five steps 5k .. 5k+4, so the
      fifty steps sweep the bar from cell 0 to cell 9, five steps per cell. */
  lemma UpIndexPreimage(i: int, k: int)
    requires 0 <= i < RampSteps && 0 <= k < 10
    ensures UpIndex(i) == k <==> 5 * k <= i < 5 * k + 5
  {
  }

  /** Ramp-down lights cell `k` at exactly the five steps 5(9-k) .. 5(9-k)+4,
      sweeping back from cell 9 to cell 0. */
  lemma DownIndexPreimage(i: int, k: int)
    requires 0 <= i < RampSteps && 0 <= k < 10
    ensures DownIndex(i) == k <==> 5 * (9 - k) <= i < 5 * (9 - k) + 5
  {
  }
}
