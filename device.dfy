/** The controller as the program runs it: module-level variables updated in
    place, a ten-cell pixel buffer written by `fill` and by index, and the PWM
    and status-LED outputs as fields. Every method is proved to move the
    abstract state exactly as the corresponding function of module Machine. */
module Device {
  import opened Colors
  import opened Packets
  import opened Pwm
  import Machine

  class Controller {
    var color: Color
    const pixels: array<Color>
    var duty: Duty
    var stepN: StepCount
    var mode: Machine.Mode
    var phase: Machine.Phase
    var i: Progress
    var lastTime: int
    var statusLed: bool

    /** The abstract state held by the fields and the buffer. */
    ghost function Snapshot(): Machine.State
      reads this, pixels
      requires pixels.Length == NumPixels
    {
      Machine.State(color, pixels[..], duty, stepN, mode, phase, i, lastTime, statusLed)
    }

    ghost predicate Valid()
      reads this, pixels
    {
      pixels.Length == NumPixels && Machine.Consistent(Snapshot())
    }

    /** Start-up: PURPLE strip, PWM off, sequencer inactive. */
    constructor ()
      ensures Valid() && fresh(pixels)
      ensures Snapshot() == Machine.Boot()
    {
      color := PURPLE;
      pixels := new Color[NumPixels](k => PURPLE);
      duty := 0;
      stepN := 0;
      mode := Machine.Inactive;
      phase := Machine.Idle;
      i := 0;
      lastTime := Machine.BootTime;
      statusLed := false;
      new;
      assert pixels[..] == Filled(PURPLE);
    }

    /** `neopixels.fill(c)`: every cell of the buffer becomes `c`. */
    method Fill(c: Color)
      requires pixels.Length == NumPixels
      modifies pixels
      ensures pixels[..] == Filled(c)
    {
      var k := 0;
      while k < pixels.Length
        invariant 0 <= k <= pixels.Length
        invariant forall j :: 0 <= j < k ==> pixels[j] == c
      {
        pixels[k] := c;
        k := k + 1;
      }
      assert pixels[..] == Filled(c);
    }

    /** Handle one decoded packet. */
    method Dispatch(p: Packet)
      requires Valid()
      modifies this, pixels
      ensures Valid()
      ensures Snapshot() == Machine.Dispatch(old(Snapshot()), p)
    {
      statusLed := false;
      match p {
        case ColorPacket(c) =>
          color := c;
          Fill(color);
        case ButtonPacket(b, pressed) =>
          if pressed {
            statusLed := true;
            match b {
              case Up =>
                if stepN < MaxSteps {
                  Fill(color);
                  stepN := stepN + 1;
                  duty := stepN * PwmStep - 1;
                }
              case Down =>
                if stepN > 0 {
                  Fill(color);
                  stepN := stepN - 1;
                  if stepN != 0 {
                    duty := stepN * PwmStep - 1;
                  } else {
                    duty := 0;
                  }
                }
              case Right =>
                color := YELLOW;
                Fill(color);
                stepN := MaxSteps / 2;
                duty := PwmMaxHalf;
              case Left =>
                color := YELLOW;
                Fill(color);
                stepN := 0;
                duty := 0;
              case Button1 =>
                mode := Machine.Ramp;
                phase := Machine.Initial;
              case Button2 =>
                color := GREEN;
                Fill(color);
              case Button3 =>
                color := BLUE;
                Fill(color);
              case Button4 =>
                color := PURPLE;
                Fill(color);
            }
          } else {
            if b == Up {
              Fill(RED);
            }
            if b == Down {
              Fill(RED);
            }
          }
        case Unrecognized =>
      }
    }

    /** One pass of the ramp sequencer at time `now` (milliseconds). */
    method Tick(now: int)
      requires Valid()
      modifies this, pixels
      ensures Valid()
      ensures Snapshot() == Machine.Tick(old(Snapshot()), now)
    {
      if mode == Machine.Ramp {
        if now >= lastTime + Machine.Interval {
          match phase {
            case Initial =>
              Fill(AQUA);
              duty := PwmMaxHalf;
              phase := Machine.RampUp;
              i := 0;
            case RampUp =>
              if i < RampSteps {
                duty := RampUpDuty(i);
                pixels[UpIndex(i)] := RED;
                i := i + 1;
              } else {
                phase := Machine.RampDown;
                i := 0;
              }
            case RampDown =>
              if i < RampSteps {
                duty := RampDownDuty(i);
                pixels[DownIndex(i)] := AQUA;
                i := i + 1;
              } else {
                phase := Machine.End;
              }
            case End =>
              duty := 0;
              Fill(color);
              phase := Machine.Idle;
              mode := Machine.Inactive;
            case Idle =>
          }
          lastTime := now;
        }
      }
    }

    /** Pixel 0 goes BLACK when the connection is lost. */
    method OnDisconnect()
      requires Valid()
      modifies pixels
      ensures Valid()
      ensures Snapshot() == Machine.OnDisconnect(old(Snapshot()))
    {
      pixels[0] := BLACK;
    }

    /** Pixel 0 goes BLUE when a central connects. */
    method OnConnect()
      requires Valid()
      modifies pixels
      ensures Valid()
      ensures Snapshot() == Machine.OnConnect(old(Snapshot()))
    {
      pixels[0] := BLUE;
    }

    /** One pass of the connected loop: handle the waiting packet, if any,
        then tick the sequencer. */
    method Iterate(p: Option<Packet>, now: int)
      requires Valid()
      modifies this, pixels
      ensures Valid()
      ensures Snapshot() == Machine.Iteration(old(Snapshot()), p, now)
    {
      if p.Some? {
        Dispatch(p.value);
      }
      Tick(now);
    }
  }
}
