/** The pin protocol both DC motor classes use to set a direction: which of the
    two direction pins is written, at which level, and in which order, plus the
    speed-driven variant that rewrites the pins only on a change of sign. */
module DCDirection {
  import opened Channels
  import opened RtlMath

  /** The four commands of a DC motor. */
  datatype DCMode = Forward | Backward | Brake | Release

  /** The two pin writes of a direction command on pins `pin1`, `pin2`, in order.
      A direction is entered by first taking the pin that must end low low, so
      that the bridge never sees both pins high on the way. */
  function DirectionEvents(mode: DCMode, pin1: Channel, pin2: Channel): (es: seq<Event>)
    ensures |es| == 2 && es[0].Write? && es[1].Write?
    ensures {es[0].ch, es[1].ch} == {pin1, pin2}
    ensures mode == Forward || mode == Backward ==> Duty(es[0]) == 0 && Duty(es[1]) == FullOn
  {
    match mode
    case Forward => [PinEvent(pin2, Low), PinEvent(pin1, High)]
    case Backward => [PinEvent(pin1, Low), PinEvent(pin2, High)]
    case Brake => [PinEvent(pin1, High), PinEvent(pin2, High)]
    case Release => [PinEvent(pin1, Low), PinEvent(pin2, Low)]
  }

  /** The levels a mode leaves on pin 1 and pin 2. */
  function ModeLevels(mode: DCMode): (Level, Level)
  {
    match mode
    case Forward => (High, Low)
    case Backward => (Low, High)
    case Brake => (High, High)
    case Release => (Low, Low)
  }

  /** The direction pins of trace `t` are at the levels of `mode`. */
  predicate PinsMatch(t: seq<Event>, mode: DCMode, pin1: Channel, pin2: Channel)
  {
    && LastWrite(t, pin1) == Some(PinEvent(pin1, ModeLevels(mode).0))
    && LastWrite(t, pin2) == Some(PinEvent(pin2, ModeLevels(mode).1))
  }

  /** Both direction pins are driven high: the bridge shorts the motor. */
  predicate Braking(t: seq<Event>, pin1: Channel, pin2: Channel)
  {
    IsHigh(t, pin1) && IsHigh(t, pin2)
  }

  /** Whatever the pins were, a direction command leaves them at the levels of
      its mode: forward is pin 1 high and pin 2 low, backward the reverse, brake
      both high, release both low. The four end states are pairwise different. */
  lemma {:induction false} DirectionOutcome(t: seq<Event>, mode: DCMode, pin1: Channel, pin2: Channel)
    requires pin1 != pin2
    ensures PinsMatch(t + DirectionEvents(mode, pin1, pin2), mode, pin1, pin2)
    ensures forall m: DCMode :: PinsMatch(t + DirectionEvents(mode, pin1, pin2), m, pin1, pin2) <==> m == mode
  {
    var es := DirectionEvents(mode, pin1, pin2);
    LastWriteAppend(t, es, pin1);
    LastWriteAppend(t, es, pin2);
    assert es[..1] == [es[0]];
    assert LastWrite(es, pin1) == Some(PinEvent(pin1, ModeLevels(mode).0)) by {
      if es[1].ch != pin1 {
        assert es[..1] == [es[0]];
        assert LastWrite(es[..1], pin1) == LastWrite([es[0]], pin1);
        assert [es[0]][..0] == [];
      }
    }
    assert LastWrite(es, pin2) == Some(PinEvent(pin2, ModeLevels(mode).1)) by {
      if es[1].ch != pin2 {
        assert LastWrite(es[..1], pin2) == LastWrite([es[0]], pin2);
        assert [es[0]][..0] == [];
      }
    }
  }

  /** Forward and backward never pass through a brake: after each of their
      writes at least one direction pin is low, whatever state they start from. */
  lemma {:induction false} NoTransientBrake(t: seq<Event>, mode: DCMode, pin1: Channel, pin2: Channel, k: nat)
    requires pin1 != pin2
    requires mode == Forward || mode == Backward
    requires 1 <= k <= 2
    ensures !Braking(t + DirectionEvents(mode, pin1, pin2)[..k], pin1, pin2)
  {
    var es := DirectionEvents(mode, pin1, pin2);
    var low := if mode == Forward then pin2 else pin1;
    assert es[0] == PinEvent(low, Low);
    var u := es[..k];
    LastWriteAppend(t, u, low);
    if k == 1 {
      assert u == [PinEvent(low, Low)];
      assert u[..0] == [];
    } else {
      assert u == es;
      assert u[1].ch != low;
      assert u[..1] == [PinEvent(low, Low)];
      assert u[..1][..0] == [];
    }
    assert LastWrite(u, low) == Some(PinEvent(low, Low));
  }

  /** The order matters: going from backward to forward with the high write
      first would pass through a brake. */
  lemma {:induction false} HighFirstWouldBrake(t: seq<Event>, pin1: Channel, pin2: Channel)
    requires pin1 != pin2
    requires PinsMatch(t, Backward, pin1, pin2)
    ensures Braking(t + [PinEvent(pin1, High)], pin1, pin2)
  {
    var u := [PinEvent(pin1, High)];
    assert u[..0] == [];
    LastWriteAppend(t, u, pin1);
    LastWriteAppend(t, u, pin2);
  }

  // ---------------------------------------------------------------------------
  // Speed-driven direction (sign hysteresis)

  /** The largest speed magnitude. */
  const MaxSpeed := 255

  /** The direction a signed speed stands for: positive forward, negative
      backward, zero stopped with both pins low. */
  function SignMode(speed: int): (m: DCMode)
    ensures m == Forward <==> speed > 0
    ensures m == Backward <==> speed < 0
    ensures m == Release <==> speed == 0
  {
    if speed > 0 then Forward else if speed < 0 then Backward else Release
  }

  /** Two speeds of the same sign stand for the same direction. */
  lemma SignModeBySign(a: int, b: int)
    ensures SignMode(a) == SignMode(b) <==> Sign(a) == Sign(b)
  {
  }

  /** The writes of `Run(speed)` on a motor whose stored speed is `oldSpeed`:
      the direction pins only when the sign changes, then the duty
      `|speed| * 16` on the PWM channel, after limiting speed to ±255. */
  function SpeedEvents(oldSpeed: int, speed: int, pwm: Channel, pin1: Channel, pin2: Channel): (es: seq<Event>)
    ensures |es| == 1 || |es| == 3
    ensures |es| == 3 <==> Sign(oldSpeed) != Sign(speed)
    ensures es[|es| - 1] == PwmEvent(pwm, Abs(Clamp(speed, -MaxSpeed, MaxSpeed)) * 16)
    ensures Duty(es[|es| - 1]) <= 255 * 16
  {
    var c := Clamp(speed, -MaxSpeed, MaxSpeed);
    (if Sign(oldSpeed) != Sign(c) then DirectionEvents(SignMode(c), pin1, pin2) else [])
    + [PwmEvent(pwm, Abs(c) * 16)]
  }

  /** The sign hysteresis is sound: if the direction pins matched the sign of the
      stored speed, they match the sign of the new speed afterwards, whether or
      not they were rewritten. */
  lemma {:induction false} SpeedKeepsPinsMatched(t: seq<Event>, oldSpeed: int, speed: int, pwm: Channel, pin1: Channel, pin2: Channel)
    requires pin1 != pin2 && pwm != pin1 && pwm != pin2
    requires PinsMatch(t, SignMode(oldSpeed), pin1, pin2)
    ensures PinsMatch(t + SpeedEvents(oldSpeed, speed, pwm, pin1, pin2),
                      SignMode(Clamp(speed, -MaxSpeed, MaxSpeed)), pin1, pin2)
  {
    var c := Clamp(speed, -MaxSpeed, MaxSpeed);
    var es := SpeedEvents(oldSpeed, speed, pwm, pin1, pin2);
    var pw := [PwmEvent(pwm, Abs(c) * 16)];
    assert pw[..0] == [];
    if Sign(oldSpeed) != Sign(c) {
      var ds := DirectionEvents(SignMode(c), pin1, pin2);
      DirectionOutcome(t, SignMode(c), pin1, pin2);
      assert t + es == (t + ds) + pw;
      LastWriteAppend(t + ds, pw, pin1);
      LastWriteAppend(t + ds, pw, pin2);
    } else {
      assert SignMode(oldSpeed) == SignMode(c);
      assert t + es == t + pw;
      LastWriteAppend(t, pw, pin1);
      LastWriteAppend(t, pw, pin2);
    }
  }

  /** Running at a speed already stored only rewrites the duty. */
  lemma RunAgainOnlySetsDuty(speed: int, pwm: Channel, pin1: Channel, pin2: Channel)
    ensures var c := Clamp(speed, -MaxSpeed, MaxSpeed);
            SpeedEvents(c, speed, pwm, pin1, pin2) == [PwmEvent(pwm, Abs(c) * 16)]
  {
  }

  /** A forward speed drives forward, a backward speed backward, zero stops,
      each at a duty proportional to the speed's magnitude. */
  lemma SpeedConvention(t: seq<Event>, oldSpeed: int, speed: int, pwm: Channel, pin1: Channel, pin2: Channel)
    requires pin1 != pin2 && pwm != pin1 && pwm != pin2
    requires PinsMatch(t, SignMode(oldSpeed), pin1, pin2)
    ensures var t' := t + SpeedEvents(oldSpeed, speed, pwm, pin1, pin2);
            && (speed > 0 <==> IsHigh(t', pin1) && IsLow(t', pin2))
            && (speed < 0 <==> IsLow(t', pin1) && IsHigh(t', pin2))
            && (speed == 0 <==> IsLow(t', pin1) && IsLow(t', pin2))
            && LastWrite(t', pwm) == Some(PwmEvent(pwm, Abs(Clamp(speed, -MaxSpeed, MaxSpeed)) * 16))
  {
    var es := SpeedEvents(oldSpeed, speed, pwm, pin1, pin2);
    SpeedKeepsPinsMatched(t, oldSpeed, speed, pwm, pin1, pin2);
    LastWriteAppend(t, es, pwm);
    assert es[..|es| - 1] + [es[|es| - 1]] == es;
  }
}
