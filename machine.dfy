/** The controller's state and its transitions as pure functions: what one
    decoded packet does (`Dispatch`), what one pass of the ramp sequencer does
    (`Tick`), the pixel-0 connection indicator, and one pass of the main loop.
    The imperative controller in module Device is proved to follow these. */
module Machine {
  import opened Colors
  import opened Packets
  import opened Pwm

  /** `mode`: whether the ramp sequencer runs ('' or 'ramp'). */
  datatype Mode = Inactive | Ramp

  /** `state`: the sequencer's phase ('', 'initial', 'ramp_up', 'ramp_down', 'end'). */
  datatype Phase = Idle | Initial | RampUp | RampDown | End

  /** Milliseconds between two fired ticks (TIME_INTERVAL = 0.5 s). */
  const Interval := 500
  /** `LAST_TIME` at boot (-1 s). */
  const BootTime := -1000

  datatype State = State(
    color: Color,        // current fill colour
    pixels: Strip,       // the NeoPixel buffer
    duty: Duty,          // pwm.duty_cycle
    stepN: StepCount,    // pwm_step_n
    mode: Mode,
    phase: Phase,
    i: Progress,         // ramp progress counter
    lastTime: int,       // LAST_TIME, in milliseconds
    statusLed: bool)     // red_led.value

  /** The sequencer runs exactly when it is in some phase: `mode` and `state`
      are only ever set and cleared together. */
  predicate Consistent(s: State) {
    s.mode == Ramp <==> s.phase != Idle
  }

  /** The state the program starts in. */
  function Boot(): (s: State)
    ensures Consistent(s) && s.mode == Inactive
    ensures s.pixels == Filled(PURPLE) && s.color == PURPLE
    ensures s.duty == StepDuty(s.stepN) && s.stepN == 0
  {
    State(PURPLE, Filled(PURPLE), 0, 0, Inactive, Idle, 0, BootTime, false)
  }

  /** The current colour becomes `c` and fills the strip. */
  function Paint(s: State, c: Color): State {
    s.(color := c, pixels := Filled(c))
  }

  /** Effect of a pressed button; the status LED is already set. */
  function Press(s: State, b: Button): State {
    match b
    case Up =>
      if s.stepN < MaxSteps then
        s.(pixels := Filled(s.color), stepN := s.stepN + 1, duty := (s.stepN + 1) * PwmStep - 1)
      else s
    case Down =>
      if s.stepN > 0 then
        var n := s.stepN - 1;
        s.(pixels := Filled(s.color), stepN := n, duty := if n != 0 then n * PwmStep - 1 else 0)
      else s
    case Right => Paint(s, YELLOW).(stepN := MaxSteps / 2, duty := PwmMaxHalf)
    case Left => Paint(s, YELLOW).(stepN := 0, duty := 0)
    case Button1 => s.(mode := Ramp, phase := Initial)
    case Button2 => Paint(s, GREEN)
    case Button3 => Paint(s, BLUE)
    case Button4 => Paint(s, PURPLE)
  }

  /** Effect of a released button: UP and DOWN show a red strip. */
  function Release(s: State, b: Button): State {
    if b == Up || b == Down then s.(pixels := Filled(RED)) else s
  }

  /** One decoded packet. The status LED goes off as the packet arrives and
      back on when it is a button press; packets never touch the clock, and
      only a BUTTON_1 press touches the sequencer. */
  function Dispatch(s: State, p: Packet): (t: State)
    ensures Consistent(s) ==> Consistent(t)
    ensures t.lastTime == s.lastTime
    ensures t.statusLed <==> p.ButtonPacket? && p.pressed
    ensures p != ButtonPacket(Button1, true) ==> t.mode == s.mode && t.phase == s.phase && t.i == s.i
  {
    var s := s.(statusLed := false);
    match p
    case ColorPacket(c) => Paint(s, c)
    case ButtonPacket(b, pressed) =>
      if pressed then Press(s.(statusLed := true), b) else Release(s, b)
    case Unrecognized => s
  }

  /** The branch a fired tick runs, chosen by the phase. */
  function Advance(s: State): State {
    match s.phase
    case Idle => s
    case Initial => s.(pixels := Filled(AQUA), duty := PwmMaxHalf, phase := RampUp, i := 0)
    case RampUp =>
      if s.i < RampSteps then
        s.(duty := RampUpDuty(s.i), pixels := s.pixels[UpIndex(s.i) := RED], i := s.i + 1)
      else s.(phase := RampDown, i := 0)
    case RampDown =>
      if s.i < RampSteps then
        s.(duty := RampDownDuty(s.i), pixels := s.pixels[DownIndex(s.i) := AQUA], i := s.i + 1)
      else s.(phase := End)
    case End => s.(duty := 0, pixels := Filled(s.color), phase := Idle, mode := Inactive)
  }

  /** Whether a tick at time `now` fires. */
  predicate Fires(s: State, now: int) {
    s.mode == Ramp && now >= s.lastTime + Interval
  }

  /** One pass of the sequencer at time `now`. It changes nothing unless the
      ramp runs and an interval has passed since the last fired tick; a fired
      tick runs one branch and records `now`. The colour, the step counter
      and the status LED are never touched. */
  function Tick(s: State, now: int): (t: State)
    ensures Consistent(s) ==> Consistent(t)
    ensures !Fires(s, now) ==> t == s
    ensures Fires(s, now) ==> t.lastTime == now
    ensures t.color == s.color && t.stepN == s.stepN && t.statusLed == s.statusLed
  {
    if Fires(s, now) then Advance(s).(lastTime := now) else s
  }

  /** Pixel 0 shows BLACK while the board waits for a connection. */
  function OnDisconnect(s: State): (t: State)
    ensures t.pixels[0] == BLACK
    ensures forall k :: 0 < k < NumPixels ==> t.pixels[k] == s.pixels[k]
    ensures t == s.(pixels := t.pixels)
  {
    s.(pixels := s.pixels[0 := BLACK])
  }

  /** Pixel 0 shows BLUE once connected. */
  function OnConnect(s: State): (t: State)
    ensures t.pixels[0] == BLUE
    ensures forall k :: 0 < k < NumPixels ==> t.pixels[k] == s.pixels[k]
    ensures t == s.(pixels := t.pixels)
  {
    s.(pixels := s.pixels[0 := BLUE])
  }

  /** One pass of the connected loop: the waiting packet, if any, then one
      sequencer tick. */
  function Iteration(s: State, p: Option<Packet>, now: int): (t: State)
    ensures Consistent(s) ==> Consistent(t)
    ensures p.None? && s.mode == Inactive ==> t == s
  {
    var s' := if p.Some? then Dispatch(s, p.value) else s;
    Tick(s', now)
  }

  /** Fired ticks still needed before the sequencer stops: 1 for `initial`,
      RampSteps + 1 each for `ramp_up` and `ramp_down` (the last of which
      only changes the phase), and 1 for `end`. */
  function Remaining(s: State): nat {
    match s.phase
    case Idle => 0
    case Initial => 2 * RampSteps + 4
    case RampUp => 2 * RampSteps + 3 - s.i
    case RampDown => RampSteps + 2 - s.i
    case End => 1
  }

  /** Fired ticks from `initial` until the sequencer stops. */
  const RampTicks := 2 * RampSteps + 4

  /** The sequencer steps through the ticks taken at the times `ts`. */
  function Run(s: State, ts: seq<int>): State
    decreases |ts|
  {
    if ts == [] then s else Run(Tick(s, ts[0]), ts[1..])
  }

  /** Every tick at the times `ts` comes at least an interval after the one
      before it, the first one an interval after `last`. */
  predicate Spaced(last: int, ts: seq<int>)
    decreases |ts|
  {
    ts == [] || (ts[0] >= last + Interval && Spaced(ts[0], ts[1..]))
  }

  /** The connected loop makes the passes `ps`, each the waiting packet (if
      any) and the time of its tick. */
  function Loop(s: State, ps: seq<(Option<Packet>, int)>): State
    decreases |ps|
  {
    if ps == [] then s else Loop(Iteration(s, ps[0].0, ps[0].1), ps[1..])
  }

  /** The tick times of the passes `ps`. */
  function Times(ps: seq<(Option<Packet>, int)>): (ts: seq<int>)
    ensures |ts| == |ps| && forall k :: 0 <= k < |ps| ==> ts[k] == ps[k].1
  {
    seq(|ps|, k requires 0 <= k < |ps| => ps[k].1)
  }

  /** No pass of `ps` brings a BUTTON_1 press. */
  predicate NoRestart(ps: seq<(Option<Packet>, int)>) {
    forall k :: 0 <= k < |ps| ==> ps[k].0 != Some(ButtonPacket(Button1, true))
  }

  /** The time of the last tick in `ts`, or `last` if there is none. */
  function LastOf(last: int, ts: seq<int>): int {
    if ts == [] then last else ts[|ts| - 1]
  }
}
