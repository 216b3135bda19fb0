# Interactive globe controller — Dafny model

A model of the controller in `code.py` of the Circuit Playground Bluefruit
"interactive globe". The board takes decoded Bluefruit Connect packets
(colour picks, button presses and releases) and drives a 10-cell NeoPixel
strip, a PWM output with a 16-bit duty cycle and a red status LED. On
BUTTON_1 it runs a timed ramp sequence: `initial`, then `ramp_up` with a
RED progress bar and the duty rising from half to full scale, then
`ramp_down` with an AQUA bar and the duty falling back, then `end`. The
sequencer steps at most once every half second.

Layout:

- `colors.dfy` (module `Colors`): colours, the presets, the strip type and `fill`.
- `packets.dfy` (module `Packets`): buttons and decoded packets.
- `pwm.dfy` (module `Pwm`): the duty range, the 1024-unit step ladder, the ramp
  duty formulas and the progress-bar indices.
- `machine.dfy` (module `Machine`): the controller state as a value, and pure
  functions for a packet (`Dispatch`), a sequencer pass (`Tick`), the pixel-0
  connection indicator and one pass of the connected loop.
- `device.dfy` (module `Device`): class `Controller`. Its fields stand for the
  program's module-level variables. The pixel buffer is an `array<Color>`
  changed in place. Each method is proved to move `Snapshot()` exactly as the
  matching `Machine` function does, and to keep `Valid()`.
- `dispatch_properties.dfy` and `ramp_properties.dfy`: lemmas about the
  `Machine` functions.

Modelling decisions:

- The string variables `mode` and `state` are datatypes `Mode` and `Phase`.
  They are only ever assigned `''`, `'ramp'`, `'initial'`, `'ramp_up'`,
  `'ramp_down'` and `'end'`, so the substring tests act as equality tests.
- Time is integer milliseconds. The interval is 500 ms. `LAST_TIME` starts at
  -1000 ms.
- Ramp duties are exact integer floors: `65535*(50+i)/100` going up and
  `65535*(100-i)/100` going down.
- The duty, the step counter and the ramp counter have subset types (0..65535,
  0..64, 0..50). So every write to `pwm.duty_cycle` is proved in range, and so
  is every pixel index.
- `Packets.Unrecognized` stands for any other packet kind the decoder may
  return, or none. It only switches the status LED off. When no packet is
  waiting, `Machine.Iteration` gets `None` and the LED is left alone.
- The number of fired ticks from `initial` to inactive follows the code: 104.
  That is 1 `initial` tick, 50 ramp-up steps plus 1 tick that only moves to
  `ramp_down`, 50 ramp-down steps plus 1 tick that only moves to `end`, and 1
  `end` tick. A count of 102 would leave out the two phase-change ticks.
- Connecting and disconnecting only repaint pixel 0. Colour, PWM, strip and
  sequencer state carry over a reconnect, so a running ramp goes on.

## Model

| member | source | states |
|---|---|---|
| Colors.Filled | code.py:89 | `fill(c)` leaves every one of the 10 cells equal to `c` |
| Pwm.StepDuty | code.py:99-115 | the step-ladder duty is 0 exactly at step 0, otherwise one below a multiple of 1024 that gives back the step count; 64 steps is full scale and 32 steps is exactly the half-scale value RIGHT writes |
| Pwm.StepDutyIncreasing | code.py:99-115 | higher steps give strictly higher duties |
| Pwm.RampUpDuty | code.py:199-209 | the ramp-up duty is the floor of `pwm_max * (1 + (1 - min_frac) * (i/steps - 1))` in exact arithmetic, lies in [32767, 65535) and starts at half scale |
| Pwm.RampDownDuty | code.py:222-224 | the ramp-down duty is the floor of `pwm_max * (1 - (1 - min_frac) * i / steps)` in exact arithmetic, lies in (32767, 65535] and starts at full scale |
| Pwm.RampUpRises | code.py:207-213 | the ramp-up duty rises strictly from step to step |
| Pwm.RampDownFalls | code.py:222-228 | the ramp-down duty falls strictly from step to step |
| Pwm.UpIndex | code.py:211 | the ramp-up cell `i // 5` is within the strip |
| Pwm.DownIndex | code.py:226 | the ramp-down cell `9 - i // 5` is within the strip |
| Pwm.UpIndexPreimage | code.py:207-212 | ramp-up lights cell k at exactly steps 5k..5k+4, so it sweeps cells 0 to 9 |
| Pwm.DownIndexPreimage | code.py:222-227 | ramp-down lights cell k at exactly steps 5(9-k)..5(9-k)+4, so it sweeps cells 9 to 0 |
| Machine.Boot | code.py:38-54 | the start state: PURPLE strip and colour, duty 0 at step 0, sequencer inactive and consistent |
| Machine.Dispatch | code.py:81-158 | a packet keeps mode and phase consistent and never changes `LAST_TIME`; the LED ends on exactly for button presses; only a BUTTON_1 press changes mode, phase or `i` |
| Machine.Tick | code.py:162-240 | a tick is the identity unless the ramp runs and 500 ms have passed; a fired tick records `now`; colour, step counter and LED never change; consistency is kept |
| Machine.OnDisconnect | code.py:63 | pixel 0 becomes BLACK and nothing else changes |
| Machine.OnConnect | code.py:72 | pixel 0 becomes BLUE and nothing else changes |
| Machine.Iteration | code.py:77-240 | one loop pass, the packet (if any) and then a tick, keeps mode and phase consistent; with no packet waiting and the ramp inactive it changes nothing |
| Device.Controller.constructor | code.py:38-54 | the fresh controller is in the state `Machine.Boot` describes |
| Device.Controller.Fill | code.py:89 | the buffer afterwards holds `Filled(c)` |
| Device.Controller.Dispatch | code.py:81-158 | the in-place packet handler moves the state exactly as `Machine.Dispatch` and keeps `Valid()` |
| Device.Controller.Tick | code.py:162-240 | the in-place sequencer pass moves the state exactly as `Machine.Tick` and keeps `Valid()` |
| Device.Controller.OnDisconnect | code.py:63 | writes pixel 0 as `Machine.OnDisconnect` says |
| Device.Controller.OnConnect | code.py:72 | writes pixel 0 as `Machine.OnConnect` says |
| Device.Controller.Iterate | code.py:77-240 | one pass of the connected loop, as `Machine.Iteration` |
| DispatchProperties.UpPress | code.py:96-103 | below step 64, UP fills with the current colour, adds one step and sets the ladder duty (1023..65535), and changes nothing else; at 64 only the LED changes |
| DispatchProperties.DownPress | code.py:105-117 | above step 0, DOWN fills with the current colour, removes one step and sets the ladder duty (0 exactly at step 0); at 0 only the LED changes |
| DispatchProperties.RightLeftPress | code.py:119-133 | RIGHT gives YELLOW, step 32, duty 32767 and LEFT gives YELLOW, step 0, duty 0, from any state, leaving the sequencer alone |
| DispatchProperties.PwmButtonsKeepLadder | code.py:96-133 | after LEFT, RIGHT, or an UP or DOWN that moves the step, the duty is the ladder duty of the step; a duty already on the ladder stays on it |
| DispatchProperties.ColorPacketPaints | code.py:86-89 | a colour packet sets the colour and fills the strip with it, and only the LED changes besides |
| DispatchProperties.PresetButtons | code.py:140-150 | BUTTON_2, BUTTON_3 and BUTTON_4 set and fill GREEN, BLUE and PURPLE, and only the LED changes besides |
| DispatchProperties.Releases | code.py:152-158 | releasing UP or DOWN fills RED and keeps colour, duty and step; any other release only clears the LED |
| DispatchProperties.UnrecognizedIsNoOp | code.py:81-89 | an unrecognised packet only switches the LED off, and with the LED already off it changes nothing |
| DispatchProperties.Button1Arms | code.py:135-138 | BUTTON_1 sets mode ramp, phase `initial` and the LED and nothing else, also mid-ramp, which restarts the full 104-tick count |
| DispatchProperties.NoAbort | code.py:81-158 | no packet other than a BUTTON_1 press changes the mode or the ticks a running ramp still needs |
| DispatchProperties.ReconnectKeepsState | code.py:60-77 | a disconnect followed by a reconnect only repaints pixel 0 BLUE; PWM, colour, sequencer and the other cells carry over |
| DispatchProperties.ThreeStepsUp | code.py:60-103 | from boot, pixel 0 BLACK then BLUE, colour PURPLE, UP three times gives duty 3071, step 3 and a PURPLE strip |
| RampProperties.InitialStep | code.py:190-201 | the `initial` tick fills AQUA, sets half-scale duty and enters `ramp_up` at `i = 0` |
| RampProperties.RampUpStep | code.py:207-213 | a ramp-up step writes RED to the in-range cell `i // 5` and no other, sets the ramp-up duty (within 32767..65535) and adds one to `i` |
| RampProperties.RampDownStep | code.py:222-228 | a ramp-down step writes AQUA to the in-range cell `9 - i // 5` and no other, sets the ramp-down duty (within 32767..65535) and adds one to `i` |
| RampProperties.SilentTransitions | code.py:214-230 | after 50 steps the next fired tick only changes the phase (and `i` on the way to `ramp_down`) and records the time |
| RampProperties.EndStep | code.py:232-237 | the `end` tick sets duty 0, fills with the current colour and stops the sequencer |
| RampProperties.StoppedIffNothingRemains | code.py:162-237 | in a consistent state the sequencer is inactive exactly when no ticks remain |
| RampProperties.FiredTickCountsDown | code.py:167-240 | each fired tick takes exactly one off the ticks remaining |
| RampProperties.RunCountsDown | code.py:162-240 | spaced ticks all fire while the ramp runs, each takes one off the count, the last tick's time is recorded, and colour and step are kept |
| RampProperties.RampStopsWhenNothingRemains | code.py:162-240 | from any consistent state, the ramp is still running after fewer than `Remaining` spaced ticks and inactive after exactly that many |
| RampProperties.UpBarStep | code.py:211-212 | one ramp-up write extends the RED bar by one step |
| RampProperties.DownBarStep | code.py:226-227 | one ramp-down write extends the AQUA bar by one step |
| RampProperties.ScheduleStep | code.py:171-240 | one fired tick moves an uninterrupted ramp from its k-th scheduled state to its (k+1)-th |
| RampProperties.FollowsSchedule | code.py:171-240 | after k ≤ 104 spaced ticks from `initial`, phase, `i`, duty and progress bar are as the schedule says |
| RampProperties.UninterruptedRamp | code.py:171-240 | from `initial` with no packet in between, the ramp runs for exactly 104 spaced ticks; the strip is all RED after 51 and all AQUA after 102; at the end the duty is 0, the strip shows the current colour and the sequencer is inactive |
| RampProperties.IterationCountsDown | code.py:77-240 | while a ramp runs, a loop pass whose packet is not a BUTTON_1 press and whose tick comes an interval after the last takes exactly one tick off the count and records its time |
| RampProperties.LoopCountsDown | code.py:77-240 | spaced loop passes with no BUTTON_1 press, carrying any other packets, each take one tick off a running ramp, and the last pass's time is recorded |
| RampProperties.EndPass | code.py:81-240 | a loop pass in phase `end` switches the PWM off, shows the current colour and stops the sequencer, whatever other packet it handles first |
| RampProperties.LastLoopPass | code.py:77-240 | the loop pass that takes a running ramp's count from 1 to 0 leaves it inactive with duty 0 and the strip in the current colour |
| RampProperties.RampStopsDespitePackets | code.py:77-240 | packets other than a BUTTON_1 press cannot cancel or delay a running ramp: the connected loop keeps it running for fewer than `Remaining` spaced passes (104 from `initial`) and stops it after exactly that many, with duty 0 and the current colour |
| RampProperties.BootRampScenario | code.py:60-240 | from boot, disconnect and connect, BUTTON_1, then ticks every 500 ms from time 0: after 104 ticks the PWM is off and the strip is back to PURPLE |

## Left out

- BLE radio, advertising, the wait for a connection and the `in_waiting` poll (code.py:25-27, 65-69, 77, 81): these are I/O against foreign libraries. A connection edge is modelled only as its pixel-0 update, and a pending packet as the `Option` argument of `Iteration`.
- `Packet.from_stream` (code.py:84): the decoder is a foreign library. The model takes an already-decoded packet.
- NeoPixel brightness, construction and `show()` (code.py:30, 64, 73): hardware details. The strip is a plain buffer.
- The `print` calls that log PWM levels (code.py:103, 117, 125, 133, 210, 225): a side channel.
- The commented-out `kick` phase (code.py:172-188): it is dead code, so `initial` goes straight to `ramp_up`.
- Pwm.RampUpDuty: the device's floating-point evaluation of the formula is not modelled, because CircuitPython floats have reduced precision. The model uses the exact rational floor. Pwm.RampDownDuty is in the same position.
- Machine.Tick: `time.monotonic()` is a float in seconds on the device. The model takes an integer count of milliseconds from the caller, so rounding of the float sum `LAST_TIME + TIME_INTERVAL` is not modelled.
