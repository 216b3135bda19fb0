/** What the ramp sequencer does tick by tick, and the whole sequence it runs
    when nothing interrupts it. */
module RampProperties {
  import opened Colors
  import opened Packets
  import opened Pwm
  import opened Machine
  import DispatchProperties

  /** The `initial` branch paints the strip AQUA, sets half-scale duty and
      starts the ramp-up at step 0. */
  lemma InitialStep(s: State, now: int)
    requires Fires(s, now) && s.phase == Initial
    ensures var t := Tick(s, now);
      t.phase == RampUp && t.mode == Ramp && t.i == 0 && t.duty == PwmMaxHalf &&
      t.pixels == Filled(AQUA) && t.color == s.color && t.stepN == s.stepN && t.lastTime == now
  {
  }

  /** A ramp-up step writes RED into the one in-range cell `i / 5` and no
      other, sets the ramp-up duty, which lies between half and full scale,
      and advances the counter. */
  lemma RampUpStep(s: State, now: int)
    requires Fires(s, now) && s.phase == RampUp && s.i < RampSteps
    ensures var t := Tick(s, now); var k := s.i / 5;
      0 <= k < NumPixels && t.pixels[k] == RED &&
      (forall j :: 0 <= j < NumPixels && j != k ==> t.pixels[j] == s.pixels[j]) &&
      t.duty == RampUpDuty(s.i) && PwmMaxHalf <= t.duty <= PwmMax &&
      t.i == s.i + 1 && t.phase == RampUp && t.mode == Ramp && t.lastTime == now
  {
  }

  /** A ramp-down step writes AQUA into the one in-range cell `9 - i / 5`
      and no other, sets the ramp-down duty, which lies between half and full
      scale, and advances the counter. */
  lemma RampDownStep(s: State, now: int)
    requires Fires(s, now) && s.phase == RampDown && s.i < RampSteps
    ensures var t := Tick(s, now); var k := 9 - s.i / 5;
      0 <= k < NumPixels && t.pixels[k] == AQUA &&
      (forall j :: 0 <= j < NumPixels && j != k ==> t.pixels[j] == s.pixels[j]) &&
      t.duty == RampDownDuty(s.i) && PwmMaxHalf <= t.duty <= PwmMax &&
      t.i == s.i + 1 && t.phase == RampDown && t.mode == Ramp && t.lastTime == now
  {
  }

  /** When a ramp phase has done its fifty steps, the next fired tick only
      moves on to the next phase (and records the time). */
  lemma SilentTransitions(s: State, now: int)
    requires Fires(s, now) && s.i == RampSteps
    ensures s.phase == RampUp ==> Tick(s, now) == s.(phase := RampDown, i := 0, lastTime := now)
    ensures s.phase == RampDown ==> Tick(s, now) == s.(phase := End, lastTime := now)
  {
  }

  /** The `end` branch switches the PWM off, repaints the strip with the
      current colour and stops the sequencer. */
  lemma EndStep(s: State, now: int)
    requires Fires(s, now) && s.phase == End
    ensures var t := Tick(s, now);
      t.duty == 0 && t.pixels == Filled(s.color) && t.mode == Inactive && t.phase == Idle &&
      t.color == s.color && t.stepN == s.stepN && t.i == s.i && t.lastTime == now
  {
  }

  /** Under the mode/phase invariant, the sequencer is stopped exactly when no
      ticks remain. */
  lemma StoppedIffNothingRemains(s: State)
    requires Consistent(s)
    ensures s.mode == Inactive <==> Remaining(s) == 0
  {
  }

  /** Every fired tick brings the end of the ramp exactly one tick closer. */
  lemma FiredTickCountsDown(s: State, now: int)
    requires Consistent(s) && Fires(s, now)
    ensures Remaining(s) > 0 && Remaining(Tick(s, now)) == Remaining(s) - 1
  {
  }

  /** Ticks that each come an interval after the previous one all fire while
      the ramp runs: each takes one tick off the count, and the last one's
      time is recorded. */
  lemma {:induction false} RunCountsDown(s: State, ts: seq<int>)
    requires Consistent(s) && Spaced(s.lastTime, ts) && |ts| <= Remaining(s)
    ensures var t := Run(s, ts);
      Consistent(t) && Remaining(t) == Remaining(s) - |ts| &&
      t.lastTime == LastOf(s.lastTime, ts) && t.color == s.color && t.stepN == s.stepN
    decreases |ts|
  {
    if ts != [] {
      FiredTickCountsDown(s, ts[0]);
      RunCountsDown(Tick(s, ts[0]), ts[1..]);
    }
  }

  /** A prefix of spaced ticks is spaced. */
  lemma {:induction false} SpacedPrefix(last: int, ts: seq<int>, k: nat)
    requires Spaced(last, ts) && k <= |ts|
    ensures Spaced(last, ts[..k])
    decreases k
  {
    if k > 0 {
      assert ts[..k][1..] == ts[1..][..k - 1];
      SpacedPrefix(ts[0], ts[1..], k - 1);
    }
  }

  /** Peeling off the last of spaced ticks: the rest are spaced, and the last
      one comes an interval after them. */
  lemma {:induction false} SpacedSnoc(last: int, ts: seq<int>)
    requires Spaced(last, ts) && ts != []
    ensures Spaced(last, ts[..|ts| - 1])
    ensures ts[|ts| - 1] >= LastOf(last, ts[..|ts| - 1]) + Interval
    decreases |ts|
  {
    SpacedPrefix(last, ts, |ts| - 1);
    if |ts| > 1 {
      SpacedSnoc(ts[0], ts[1..]);
      assert ts[1..][..|ts| - 2] == ts[..|ts| - 1][1..];
    }
  }

  /** Running the ticks `ts` is running all but the last, then the last. */
  lemma {:induction false} RunSnoc(s: State, ts: seq<int>)
    requires ts != []
    ensures Run(s, ts) == Tick(Run(s, ts[..|ts| - 1]), ts[|ts| - 1])
    decreases |ts|
  {
    if |ts| == 1 {
      assert ts[..0] == [];
    } else {
      RunSnoc(Tick(s, ts[0]), ts[1..]);
      assert ts[1..][..|ts| - 2] == ts[..|ts| - 1][1..];
    }
  }

  /** From any state, a ramp that is running stops after exactly as many
      spaced ticks as `Remaining` says, and not one tick earlier. */
  lemma RampStopsWhenNothingRemains(s: State, ts: seq<int>)
    requires Consistent(s) && Spaced(s.lastTime, ts) && |ts| == Remaining(s)
    ensures Run(s, ts).mode == Inactive
    ensures forall k :: 0 <= k < |ts| ==> Run(s, ts[..k]).mode == Ramp
  {
    RunCountsDown(s, ts);
    forall k | 0 <= k < |ts|
      ensures Run(s, ts[..k]).mode == Ramp
    {
      SpacedPrefix(s.lastTime, ts, k);
      RunCountsDown(s, ts[..k]);
    }
  }

  /** One pass of the connected loop while a ramp runs: the packet, which is
      not a BUTTON_1 press, leaves the count and the clock alone, so a tick
      an interval after the last one fires and takes one off the count. */
  lemma IterationCountsDown(s: State, p: Option<Packet>, now: int)
    requires Consistent(s) && Remaining(s) > 0 && now >= s.lastTime + Interval
    requires p != Some(ButtonPacket(Button1, true))
    ensures var t := Iteration(s, p, now);
      Consistent(t) && Remaining(t) == Remaining(s) - 1 && t.lastTime == now
  {
    var s' := if p.Some? then Dispatch(s, p.value) else s;
    if p.Some? {
      DispatchProperties.NoAbort(s, p.value);
    }
    FiredTickCountsDown(s', now);
  }

  /** Passes of the connected loop whose ticks are spaced by an interval and
      that bring no BUTTON_1 press each take one tick off a running ramp,
      whatever other packets they carry. */
  lemma {:induction false} LoopCountsDown(s: State, ps: seq<(Option<Packet>, int)>)
    requires Consistent(s) && Spaced(s.lastTime, Times(ps)) && NoRestart(ps)
    requires |ps| <= Remaining(s)
    ensures var t := Loop(s, ps);
      Consistent(t) && Remaining(t) == Remaining(s) - |ps| &&
      t.lastTime == LastOf(s.lastTime, Times(ps))
    decreases |ps|
  {
    if ps != [] {
      IterationCountsDown(s, ps[0].0, ps[0].1);
      assert Times(ps)[1..] == Times(ps[1..]);
      LoopCountsDown(Iteration(s, ps[0].0, ps[0].1), ps[1..]);
    }
  }

  /** Making the passes `ps` is making all but the last, then the last. */
  lemma {:induction false} LoopSnoc(s: State, ps: seq<(Option<Packet>, int)>)
    requires ps != []
    ensures Loop(s, ps) == Iteration(Loop(s, ps[..|ps| - 1]), ps[|ps| - 1].0, ps[|ps| - 1].1)
    decreases |ps|
  {
    if |ps| == 1 {
      assert ps[..0] == [];
    } else {
      LoopSnoc(Iteration(s, ps[0].0, ps[0].1), ps[1..]);
      assert ps[1..][..|ps| - 2] == ps[..|ps| - 1][1..];
    }
  }

  /** The last pass of a ramp: whatever packet (other than a BUTTON_1
      press) comes first, the `end` tick switches the PWM off and shows the
      current colour. */
  lemma EndPass(u: State, p: Option<Packet>, now: int)
    requires Consistent(u) && u.phase == End && now >= u.lastTime + Interval
    requires p != Some(ButtonPacket(Button1, true))
    ensures var t := Iteration(u, p, now);
      t.mode == Inactive && t.duty == 0 && t.pixels == Filled(t.color)
  {
  }

  /** The count after the first `k` of the passes `ps`. */
  lemma LoopPrefixCountsDown(s: State, ps: seq<(Option<Packet>, int)>, k: nat)
    requires Consistent(s) && Spaced(s.lastTime, Times(ps)) && NoRestart(ps)
    requires k <= |ps| <= Remaining(s)
    ensures var t := Loop(s, ps[..k]);
      Consistent(t) && Remaining(t) == Remaining(s) - k &&
      t.lastTime == LastOf(s.lastTime, Times(ps)[..k])
  {
    assert Times(ps[..k]) == Times(ps)[..k];
    SpacedPrefix(s.lastTime, Times(ps), k);
    assert NoRestart(ps[..k]);
    LoopCountsDown(s, ps[..k]);
  }

  /** The pass that takes a ramp's count from 1 to 0 ends it. */
  lemma LastLoopPass(s: State, ps: seq<(Option<Packet>, int)>)
    requires Consistent(s) && Spaced(s.lastTime, Times(ps)) && NoRestart(ps)
    requires |ps| == Remaining(s) > 0
    ensures var t := Loop(s, ps);
      t.mode == Inactive && t.duty == 0 && t.pixels == Filled(t.color)
  {
    var n := |ps| - 1;
    LoopPrefixCountsDown(s, ps, n);
    SpacedSnoc(s.lastTime, Times(ps));
    LoopSnoc(s, ps);
    EndPass(Loop(s, ps[..n]), ps[n].0, ps[n].1);
  }

  /** A running ramp is not cancelled by packets: with no BUTTON_1 press in
      between, the connected loop stops it after exactly `Remaining` spaced
      passes (104 from `initial`), and not one pass earlier. The last pass
      leaves the PWM off and the strip in the current colour. */
  lemma RampStopsDespitePackets(s: State, ps: seq<(Option<Packet>, int)>)
    requires Consistent(s) && s.mode == Ramp
    requires Spaced(s.lastTime, Times(ps)) && NoRestart(ps)
    requires |ps| == Remaining(s)
    ensures forall k :: 0 <= k < |ps| ==> Loop(s, ps[..k]).mode == Ramp
    ensures var t := Loop(s, ps);
      t.mode == Inactive && t.duty == 0 && t.pixels == Filled(t.color)
  {
    forall k | 0 <= k < |ps|
      ensures Loop(s, ps[..k]).mode == Ramp
    {
      LoopPrefixCountsDown(s, ps, k);
    }
    LastLoopPass(s, ps);
  }

  /** The progress bar after `n` ramp-up steps: RED up to cell (n-1)/5,
      AQUA beyond. */
  predicate UpBar(px: Strip, n: int) {
    forall k :: 0 <= k < NumPixels ==> px[k] == (if 5 * k < n then RED else AQUA)
  }

  /** The progress bar after `n` ramp-down steps: AQUA from cell 9 down to
      cell 9 - (n-1)/5, RED below. */
  predicate DownBar(px: Strip, n: int) {
    forall k :: 0 <= k < NumPixels ==> px[k] == (if 5 * (9 - k) < n then AQUA else RED)
  }

  /** Where an uninterrupted ramp stands, started from state `s` in phase
      `initial`, after `k` fired ticks. */
  predicate OnSchedule(s: State, t: State, k: int) {
    t.color == s.color && t.stepN == s.stepN && t.statusLed == s.statusLed &&
    if k == 0 then
      t == s
    else if k <= RampSteps + 1 then
      t.mode == Ramp && t.phase == RampUp && t.i == k - 1 && UpBar(t.pixels, k - 1) &&
      t.duty == (if k == 1 then PwmMaxHalf else RampUpDuty(k - 2))
    else if k <= 2 * RampSteps + 2 then
      t.mode == Ramp && t.phase == RampDown && t.i == k - RampSteps - 2 && DownBar(t.pixels, k - RampSteps - 2) &&
      t.duty == (if k == RampSteps + 2 then RampUpDuty(RampSteps - 1) else RampDownDuty(k - RampSteps - 3))
    else if k == 2 * RampSteps + 3 then
      t.mode == Ramp && t.phase == End && t.pixels == Filled(AQUA) && t.duty == RampDownDuty(RampSteps - 1)
    else
      t.mode == Inactive && t.phase == Idle && t.duty == 0 && t.pixels == Filled(s.color)
  }

  lemma UpBarStep(px: Strip, n: int)
    requires 0 <= n < RampSteps && UpBar(px, n)
    ensures UpBar(px[UpIndex(n) := RED], n + 1)
  {
  }

  lemma DownBarStep(px: Strip, n: int)
    requires 0 <= n < RampSteps && DownBar(px, n)
    ensures DownBar(px[DownIndex(n) := AQUA], n + 1)
  {
  }

  /** One more fired tick keeps an uninterrupted ramp on schedule. */
  lemma ScheduleStep(s: State, t: State, k: int, now: int)
    requires 0 <= k < RampTicks && s.phase == Initial && s.mode == Ramp
    requires OnSchedule(s, t, k) && now >= t.lastTime + Interval
    ensures OnSchedule(s, Tick(t, now), k + 1)
  {
    if 1 <= k <= RampSteps {
      UpBarStep(t.pixels, k - 1);
    } else if RampSteps + 2 <= k <= 2 * RampSteps + 1 {
      DownBarStep(t.pixels, k - RampSteps - 2);
    }
  }

  /** An uninterrupted ramp follows its schedule: after `k` spaced ticks from
      `initial` it is at the point `OnSchedule` describes. */
  lemma {:induction false} FollowsSchedule(s: State, ts: seq<int>)
    requires s.mode == Ramp && s.phase == Initial
    requires Spaced(s.lastTime, ts) && |ts| <= RampTicks
    ensures OnSchedule(s, Run(s, ts), |ts|)
    ensures Run(s, ts).lastTime == LastOf(s.lastTime, ts)
    decreases |ts|
  {
    if ts != [] {
      var n := |ts| - 1;
      SpacedSnoc(s.lastTime, ts);
      FollowsSchedule(s, ts[..n]);
      RunSnoc(s, ts);
      ScheduleStep(s, Run(s, ts[..n]), n, ts[n]);
    }
  }

  /** Started by a BUTTON_1 press and with no packet in between, the ramp
      takes exactly 104 spaced ticks (`RampStopsDespitePackets` allows other
      packets in between):
      one `initial`, 51 for `ramp_up`, 51 for `ramp_down`, one `end`. On the
      way the bar fills RED from cell 0 and then AQUA from cell 9; at the end
      the PWM is off, the strip shows the current colour again and the
      sequencer is inactive. */
  lemma UninterruptedRamp(s: State, ts: seq<int>)
    requires s.mode == Ramp && s.phase == Initial
    requires Spaced(s.lastTime, ts) && |ts| == RampTicks
    ensures forall k :: 0 <= k < RampTicks ==> Run(s, ts[..k]).mode == Ramp
    ensures Run(s, ts[..RampSteps + 1]).pixels == Filled(RED)
    ensures Run(s, ts[..2 * RampSteps + 2]).pixels == Filled(AQUA)
    ensures var t := Run(s, ts);
      t.mode == Inactive && t.duty == 0 && t.pixels == Filled(s.color) &&
      t.color == s.color && t.stepN == s.stepN
  {
    forall k | 0 <= k < RampTicks
      ensures Run(s, ts[..k]).mode == Ramp
    {
      SpacedPrefix(s.lastTime, ts, k);
      FollowsSchedule(s, ts[..k]);
    }
    SpacedPrefix(s.lastTime, ts, RampSteps + 1);
    FollowsSchedule(s, ts[..RampSteps + 1]);
    assert Run(s, ts[..RampSteps + 1]).pixels == Filled(RED);
    SpacedPrefix(s.lastTime, ts, 2 * RampSteps + 2);
    FollowsSchedule(s, ts[..2 * RampSteps + 2]);
    assert Run(s, ts[..2 * RampSteps + 2]).pixels == Filled(AQUA);
    FollowsSchedule(s, ts);
  }

  /** Ticks every `Interval` from `start` on are spaced after `last`. */
  lemma {:induction false} EvenTicksSpaced(last: int, start: int, n: nat)
    requires start >= last + Interval
    ensures Spaced(last, seq(n, k => start + Interval * k))
    decreases n
  {
    var ts := seq(n, k => start + Interval * k);
    if n > 0 {
      EvenTicksSpaced(start, start + Interval, n - 1);
      assert ts[1..] == seq(n - 1, k => start + Interval + Interval * k);
    }
  }

  /** Wait for a connection, connect, press BUTTON_1, and tick every half second from time 0: after
      104 ticks the PWM is off, the sequencer inactive and the strip the
      PURPLE it was before the press. */
  lemma BootRampScenario()
    ensures var s := Dispatch(OnConnect(OnDisconnect(Boot())), ButtonPacket(Button1, true));
      var t := Run(s, seq(RampTicks, k => Interval * k));
      t.mode == Inactive && t.duty == 0 && t.pixels == Filled(PURPLE)
  {
    var s := Dispatch(OnConnect(OnDisconnect(Boot())), ButtonPacket(Button1, true));
    EvenTicksSpaced(s.lastTime, 0, RampTicks);
    assert seq(RampTicks, k => 0 + Interval * k) == seq(RampTicks, k => Interval * k);
    UninterruptedRamp(s, seq(RampTicks, k => Interval * k));
  }
}
