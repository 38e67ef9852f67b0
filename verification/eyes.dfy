/** The animation engine (`Eyes`): its fields are updated in place by the setters
    and by the per-frame methods the draw loop calls. Each method is proved to
    leave the fields exactly as the matching function of EyesSpec describes, and
    to keep the invariant EyesSpec.Inv. */
module EyesEngine {
  import opened Easing
  import opened EyesGeometry
  import opened EyesSpec
  import opened EyesFrame

  class Eyes {
    var eyeL: Eye
    var eyeR: Eye
    var eyelidHappyH: real
    var eyelidHappyHNext: real
    var isOpen: bool
    var isIdle: bool
    var mood: Mood
    var idleTimer: real
    var blinkTimer: real

    /** The fields as one value. */
    function State(): EyesState
      reads this
    {
      EyesState(eyeL, eyeR, eyelidHappyH, eyelidHappyHNext, isOpen, isIdle, mood, idleTimer, blinkTimer)
    }

    ghost predicate Valid()
      reads this
    {
      Inv(State())
    }

    /** Both eyes centred and closed; the drawing thread is not modelled. */
    constructor ()
      ensures State() == Initial() && Valid()
    {
      var eyeX := (ScreenWidth - (DefaultEyeW * 2.0 + DefaultEyeGap)) / 2.0;
      var eyeY := (ScreenHeight - DefaultEyeH) / 2.0;
      eyeL := Eye(eyeX, eyeY, DefaultEyeW, ClosedEyeH, eyeX, eyeY, DefaultEyeW, ClosedEyeH,
                  eyeY, eyeY, eyeY, eyeY);
      var rightX := eyeX + DefaultEyeW + DefaultEyeGap;
      eyeR := Eye(rightX, eyeY, DefaultEyeW, ClosedEyeH, rightX, eyeY, DefaultEyeW, ClosedEyeH,
                  eyeY, eyeY, eyeY, eyeY);
      eyelidHappyH := PlainLidH;
      eyelidHappyHNext := PlainLidH;
      isOpen := false;
      isIdle := false;
      mood := Neutral;
      idleTimer := 0.0;
      blinkTimer := 0.0;
    }

    method SetIdle(value: bool)
      requires Valid()
      modifies this
      ensures Valid() && State() == EyesSpec.SetIdle(old(State()), value)
    {
      isIdle := value;
      if !value {
        SetPosition(Center);
      }
    }

    method SetMood(value: Mood)
      requires Valid()
      modifies this
      ensures Valid() && State() == EyesSpec.SetMood(old(State()), value)
    {
      mood := value;
    }

    method SetPosition(value: Position)
      requires Valid()
      modifies this
      ensures Valid() && State() == EyesSpec.SetPosition(old(State()), value)
    {
      var maxX := MaxXLimit(eyeL.w, eyeR.w);
      var maxY := MaxYLimit();
      var target := PositionTarget(value, maxX, maxY);
      eyeL := eyeL.(xNext := target.0, yNext := target.1);
    }

    method Open()
      requires Valid()
      modifies this
      ensures Valid() && State() == EyesSpec.Open(old(State()))
    {
      eyeL := eyeL.(hNext := DefaultEyeH);
      eyeR := eyeR.(hNext := DefaultEyeH);
      isOpen := true;
    }

    method Close()
      requires Valid()
      modifies this
      ensures Valid() && State() == EyesSpec.Close(old(State()))
    {
      eyeL := eyeL.(hNext := ClosedEyeH);
      eyeR := eyeR.(hNext := ClosedEyeH);
      isOpen := false;
      SetPosition(Center);
    }

    method UpdateEyePosition()
      requires Valid()
      modifies this
      ensures Valid() && State() == EyesSpec.UpdateEyePosition(old(State()))
      ensures Rigid(State())
    {
      UpdateEyePositionKeepsInv(State());
      // size
      eyeL := eyeL.(w := Interpolate(eyeL.w, eyeL.wNext));
      eyeL := eyeL.(h := Interpolate(eyeL.h, eyeL.hNext));
      eyeR := eyeR.(w := Interpolate(eyeR.w, eyeR.wNext));
      eyeR := eyeR.(h := Interpolate(eyeR.h, eyeR.hNext));
      assert eyeL == EaseSize(old(eyeL)) && eyeR == EaseSize(old(eyeR));
      // centering
      eyeL := eyeL.(x := eyeL.x + (DefaultEyeW - eyeL.w) / 2.0);
      eyeL := eyeL.(y := eyeL.y + (DefaultEyeH - eyeL.h) / 2.0);
      eyeR := eyeR.(x := eyeR.x + (DefaultEyeW - eyeR.w) / 2.0);
      eyeR := eyeR.(y := eyeR.y + (DefaultEyeH - eyeR.h) / 2.0);
      assert eyeL == Recenter(EaseSize(old(eyeL))) && eyeR == Recenter(EaseSize(old(eyeR)));
      // position
      eyeL := eyeL.(x := Interpolate(eyeL.x, eyeL.xNext));
      eyeL := eyeL.(y := Interpolate(eyeL.y, eyeL.yNext));
      // position of the right eye relative to the left eye
      eyeR := eyeR.(xNext := eyeL.xNext + eyeL.w + DefaultEyeGap);
      eyeR := eyeR.(yNext := eyeL.yNext);
      eyeR := eyeR.(x := Interpolate(eyeR.x, eyeR.xNext));
      eyeR := eyeR.(y := Interpolate(eyeR.y, eyeR.yNext));
      assert State() == old(State()).(eyeL := eyeL, eyeR := eyeR);
    }

    /** `now` is the frame's wall-clock time; `d` holds the frame's `random()` draws. */
    method UpdateEyeState(now: real, d: Draws)
      requires Valid() && UnitDraws(d)
      modifies this
      ensures Valid() && State() == EyesSpec.UpdateEyeState(old(State()), now, d)
    {
      UpdateEyeStateKeepsInv(State(), now, d);
      // open eyes after blinking
      if isOpen {
        if eyeL.h <= ReopenThreshold {
          eyeL := eyeL.(hNext := DefaultEyeH);
        }
        if eyeR.h <= ReopenThreshold {
          eyeR := eyeR.(hNext := DefaultEyeH);
        }
      }
      // blink
      if now >= blinkTimer && isOpen {
        eyeL := eyeL.(hNext := ClosedEyeH);
        eyeR := eyeR.(hNext := ClosedEyeH);
        blinkTimer := now + Uniform(3.0, 6.0, d.blink);
      }
      // idle movement
      if isIdle && isOpen && now >= idleTimer {
        eyeL := eyeL.(xNext := Uniform(0.0, MaxXLimit(eyeL.w, eyeR.w), d.idleX));
        eyeL := eyeL.(yNext := Uniform(0.0, MaxYLimit(), d.idleY));
        idleTimer := now + Uniform(3.0, 6.0, d.idleDelay);
      }
    }

    method UpdateEyelids()
      requires Valid()
      modifies this
      ensures Valid() && State() == EyesSpec.UpdateEyelids(old(State()))
    {
      UpdateEyelidsKeepsInv(State());
      var left := CutoffTargets(mood, LeftEye, eyeL.y, eyeL.h);
      var right := CutoffTargets(mood, RightEye, eyeR.y, eyeR.h);
      eyeL := eyeL.(eyelidHLNext := left.0, eyelidHRNext := left.1);
      eyeR := eyeR.(eyelidHLNext := right.0, eyelidHRNext := right.1);
      // happy
      eyelidHappyHNext := HappyLidTarget(mood);
      eyelidHappyH := Interpolate(eyelidHappyH, eyelidHappyHNext);
      eyeL := eyeL.(eyelidHL := Interpolate(eyeL.eyelidHL, eyeL.eyelidHLNext));
      eyeL := eyeL.(eyelidHR := Interpolate(eyeL.eyelidHR, eyeL.eyelidHRNext));
      eyeR := eyeR.(eyelidHL := Interpolate(eyeR.eyelidHL, eyeR.eyelidHLNext));
      eyeR := eyeR.(eyelidHR := Interpolate(eyeR.eyelidHR, eyeR.eyelidHRNext));
    }

    /** One iteration of the draw loop: the three updates in order, then the
        frame's primitives (handed to the display, which is not modelled). */
    method Step(now: real, d: Draws) returns (frame: seq<Primitive>)
      requires Valid() && UnitDraws(d)
      modifies this
      ensures Valid() && State() == EyesSpec.Step(old(State()), now, d)
      ensures frame == FramePrimitives(State())
      ensures forall p <- frame :: WellFormed(p)
    {
      UpdateEyePosition();
      UpdateEyeState(now, d);
      UpdateEyelids();
      FrameWellFormed(State());
      frame := FramePrimitives(State());
    }
  }
}
