/** What one decoded packet does to the controller, button by button. */
module DispatchProperties {
  import opened Colors
  import opened Packets
  import opened Pwm
  import opened Machine

  /** UP below the top of the ladder refills the strip with the current colour
      and climbs one rung; at the top only the status LED changes. */
  lemma UpPress(s: State)
    ensures var t := Dispatch(s, ButtonPacket(Up, true));
      t.statusLed &&
      (s.stepN < MaxSteps ==>
        t.stepN == s.stepN + 1 && t.duty == StepDuty(t.stepN) &&
        PwmStep - 1 <= t.duty <= PwmMax && t.pixels == Filled(s.color) &&
        t == s.(pixels := t.pixels, stepN := t.stepN, duty := t.duty, statusLed := true)) &&
      (s.stepN == MaxSteps ==> t == s.(statusLed := true))
  {
  }

  /** DOWN above the bottom of the ladder refills the strip and descends one
      rung, the bottom rung meaning PWM off; at the bottom only the status LED
      changes. */
  lemma DownPress(s: State)
    ensures var t := Dispatch(s, ButtonPacket(Down, true));
      t.statusLed &&
      (s.stepN > 0 ==>
        t.stepN == s.stepN - 1 && t.duty == StepDuty(t.stepN) &&
        (t.duty == 0 <==> t.stepN == 0) && t.pixels == Filled(s.color) &&
        t == s.(pixels := t.pixels, stepN := t.stepN, duty := t.duty, statusLed := true)) &&
      (s.stepN == 0 ==> t == s.(statusLed := true))
  {
  }

  /** RIGHT jumps to half scale and LEFT to zero, whatever came before; both
      paint the strip YELLOW. */
  lemma RightLeftPress(s: State)
    ensures var t := Dispatch(s, ButtonPacket(Right, true));
      t.color == YELLOW && t.pixels == Filled(YELLOW) && t.stepN == 32 && t.duty == 32767 &&
      t.mode == s.mode && t.phase == s.phase && t.i == s.i
    ensures var t := Dispatch(s, ButtonPacket(Left, true));
      t.color == YELLOW && t.pixels == Filled(YELLOW) && t.stepN == 0 && t.duty == 0 &&
      t.mode == s.mode && t.phase == s.phase && t.i == s.i
  {
  }

  /** The PWM buttons keep the duty on the step ladder: a press that moves the
      step counter, and every LEFT or RIGHT press, leaves the duty at the rung
      the counter names; a press that does nothing keeps a duty that was
      already there. */
  lemma PwmButtonsKeepLadder(s: State, b: Button)
    requires b == Up || b == Down || b == Left || b == Right
    ensures var t := Dispatch(s, ButtonPacket(b, true));
      (t.stepN != s.stepN || b == Left || b == Right ==> t.duty == StepDuty(t.stepN)) &&
      (s.duty == StepDuty(s.stepN) ==> t.duty == StepDuty(t.stepN))
  {
  }

  /** A colour packet sets the current colour and paints the strip with it;
      nothing else but the status LED changes. */
  lemma ColorPacketPaints(s: State, c: Color)
    ensures Dispatch(s, ColorPacket(c)) == s.(color := c, pixels := Filled(c), statusLed := false)
  {
  }

  /** BUTTON_2, BUTTON_3 and BUTTON_4 select GREEN, BLUE and PURPLE and paint
      the strip, leaving the PWM and the sequencer alone. */
  lemma PresetButtons(s: State, b: Button)
    requires b == Button2 || b == Button3 || b == Button4
    ensures var c := if b == Button2 then GREEN else if b == Button3 then BLUE else PURPLE;
      Dispatch(s, ButtonPacket(b, true)) == s.(color := c, pixels := Filled(c), statusLed := true)
  {
  }

  /** Releasing UP or DOWN shows a RED strip but keeps the current colour and
      the PWM; every other release changes only the status LED. */
  lemma Releases(s: State, b: Button)
    ensures var t := Dispatch(s, ButtonPacket(b, false));
      !t.statusLed &&
      (b == Up || b == Down ==>
        t.pixels == Filled(RED) && t.color == s.color && t.duty == s.duty && t.stepN == s.stepN &&
        t == s.(pixels := Filled(RED), statusLed := false)) &&
      (b != Up && b != Down ==> t == s.(statusLed := false))
  {
  }

  /** An unrecognized packet only switches the status LED off, so it leaves
      colour, PWM, strip and sequencer exactly as they were. */
  lemma UnrecognizedIsNoOp(s: State)
    ensures Dispatch(s, Unrecognized) == s.(statusLed := false)
    ensures Dispatch(s.(statusLed := false), Unrecognized) == s.(statusLed := false)
  {
  }

  /** BUTTON_1 arms the ramp from the `initial` phase, also in the middle of
      a ramp, which restarts it with the full count of ticks to go; it touches
      nothing else. */
  lemma Button1Arms(s: State)
    ensures var t := Dispatch(s, ButtonPacket(Button1, true));
      t == s.(mode := Ramp, phase := Initial, statusLed := true) &&
      Consistent(t) && Remaining(t) == RampTicks
  {
  }

  /** No packet but a BUTTON_1 press changes how many ticks the running ramp
      still needs: a ramp cannot be cancelled. */
  lemma NoAbort(s: State, p: Packet)
    requires p != ButtonPacket(Button1, true)
    ensures Remaining(Dispatch(s, p)) == Remaining(s)
    ensures Dispatch(s, p).mode == s.mode
  {
  }

  /** Losing and regaining the connection only repaints pixel 0; in
      particular a running ramp carries on where it was. */
  lemma ReconnectKeepsState(s: State)
    ensures var t := OnConnect(OnDisconnect(s));
      t.pixels[0] == BLUE &&
      (forall k :: 0 < k < NumPixels ==> t.pixels[k] == s.pixels[k]) &&
      t.color == s.color && t.duty == s.duty && t.stepN == s.stepN &&
      t.mode == s.mode && t.phase == s.phase && t.i == s.i && t.lastTime == s.lastTime &&
      Remaining(t) == Remaining(s)
  {
  }

  /** Wait for a connection, connect, send PURPLE, press UP three times: PWM at rung 3 (duty 3071)
      and a PURPLE strip. */
  lemma ThreeStepsUp()
    ensures var s0 := OnConnect(OnDisconnect(Boot()));
      var s1 := Dispatch(s0, ColorPacket(PURPLE));
      var s2 := Dispatch(Dispatch(Dispatch(s1, ButtonPacket(Up, true)), ButtonPacket(Up, true)), ButtonPacket(Up, true));
      s2.duty == 3071 && s2.stepN == 3 && s2.pixels == Filled(PURPLE)
  {
  }
}
