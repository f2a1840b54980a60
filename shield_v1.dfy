/** The fixed-array motor shield: four DC motors and two steppers owned by the
    shield, bound to the channel table by `Begin`, and the stepper sequencer that
    turns steps into expander writes. Every write the shield and its motors make
    is appended to the shield's `trace`. */
module ShieldV1 {
  import opened Channels
  import opened RtlMath
  import opened Stepping
  import opened DCDirection

  /** The writes `Begin` makes: every channel off, each DC motor released on
      its direction pins, each stepper released on its six channels. */
  function BeginEvents(): seq<Event>
  {
    ZeroWrites(ChannelCount)
    + DirectionEvents(Release, DCPortPins(0).in1, DCPortPins(0).in2)
    + DirectionEvents(Release, DCPortPins(1).in1, DCPortPins(1).in2)
    + DirectionEvents(Release, DCPortPins(2).in1, DCPortPins(2).in2)
    + DirectionEvents(Release, DCPortPins(3).in1, DCPortPins(3).in2)
    + ReleaseEvents(StepperPortPins(0))
    + ReleaseEvents(StepperPortPins(1))
  }

  /** After `Begin` every one of the 16 channels reads low, so in particular
      both direction pins of every DC motor, whatever was written before. */
  lemma BeginLeavesAllLow(t: seq<Event>, ch: Channel)
    ensures IsLow(t + BeginEvents(), ch)
  {
    var zs := ZeroWrites(ChannelCount);
    var rest := BeginEvents()[ChannelCount..];
    assert BeginEvents() == zs + rest;
    assert AllOff(rest);
    ZeroWritesLeaveLow(ChannelCount, ch);
    LastWriteAppend(zs, rest, ch);
    AllOffLeavesLow(rest, ch);
    LastWriteAppend(t, BeginEvents(), ch);
  }

  /** The three stages of `Begin` (channels off, DC motors released,
      steppers released) make up `BeginEvents`. */
  lemma BeginTrace(t0: seq<Event>, t1: seq<Event>, t2: seq<Event>, t3: seq<Event>)
    requires t1 == t0 + ZeroWrites(ChannelCount)
    requires t2 == t1
      + DirectionEvents(Release, DCPortPins(0).in1, DCPortPins(0).in2)
      + DirectionEvents(Release, DCPortPins(1).in1, DCPortPins(1).in2)
      + DirectionEvents(Release, DCPortPins(2).in1, DCPortPins(2).in2)
      + DirectionEvents(Release, DCPortPins(3).in1, DCPortPins(3).in2)
    requires t3 == t2 + ReleaseEvents(StepperPortPins(0)) + ReleaseEvents(StepperPortPins(1))
    ensures t3 == t0 + BeginEvents()
  {
  }

  class MotorShield {
    /** The expander writes and delays made so far, oldest first. */
    var trace: seq<Event>
    const dcMotors: seq<DCMotor>
    const stepperMotors: seq<StepperMotor>

    /** Four DC motors and two steppers, all different objects. */
    predicate Valid()
    {
      && |dcMotors| == 4 && |stepperMotors| == 2
      && (forall i, j :: 0 <= i < j < 4 ==> dcMotors[i] != dcMotors[j])
      && stepperMotors[0] != stepperMotors[1]
    }

    /** A shield with default-constructed motors and no writes yet. */
    constructor ()
      ensures Valid() && trace == []
      ensures forall i :: 0 <= i < 4 ==>
                && fresh(dcMotors[i]) && dcMotors[i].controller == null && dcMotors[i].motorNum == 0
                && dcMotors[i].Pins() == DCPins(0, 0, 0) && dcMotors[i].mode == Release
      ensures forall k :: 0 <= k < 2 ==>
                && fresh(stepperMotors[k]) && stepperMotors[k].motorNum == 0
                && stepperMotors[k].stepsPerRev == 0 && stepperMotors[k].currentStep == 0
    {
      var d0 := new DCMotor();
      var d1 := new DCMotor();
      var d2 := new DCMotor();
      var d3 := new DCMotor();
      var s0 := new StepperMotor();
      var s1 := new StepperMotor();
      dcMotors := [d0, d1, d2, d3];
      stepperMotors := [s0, s1];
      trace := [];
    }

    /** `setPWM(pin, value)` through the expander: full-on above 4095. */
    method SetPWM(pin: Channel, value: uint16)
      modifies this`trace
      ensures trace == old(trace) + [PwmEvent(pin, value)]
    {
      if value > MaxDuty {
        trace := trace + [Write(pin, FullOn, 0)];
      } else {
        trace := trace + [Write(pin, 0, value)];
      }
    }

    /** A digital level on a channel: LOW as off, HIGH as full-on. */
    method SetPin(pin: Channel, level: Level)
      modifies this`trace
      ensures trace == old(trace) + [PinEvent(pin, level)]
    {
      if level == Low {
        trace := trace + [Write(pin, 0, 0)];
      } else {
        trace := trace + [Write(pin, FullOn, 0)];
      }
    }

    /** Turns every channel off, then binds the motors to the channel table:
        DC slot i to `DCPortPins(i)`, stepper slot k to `StepperPortPins(k)`. */
    method Begin()
      requires Valid()
      modifies this`trace, dcMotors, stepperMotors
      ensures trace == old(trace) + BeginEvents()
      ensures forall i :: 0 <= i < 4 ==>
                && dcMotors[i].controller == this && dcMotors[i].motorNum == i
                && dcMotors[i].Pins() == DCPortPins(i) && dcMotors[i].mode == Release
      ensures forall k :: 0 <= k < 2 ==>
                && stepperMotors[k].controller == this && stepperMotors[k].motorNum == k
                && stepperMotors[k].Pins() == StepperPortPins(k)
      ensures forall i :: 0 <= i < 4 ==> dcMotors[i].speed == old(dcMotors[i].speed)
      ensures forall k :: 0 <= k < 2 ==>
                && stepperMotors[k].mode == old(stepperMotors[k].mode)
                && stepperMotors[k].currentStep == old(stepperMotors[k].currentStep)
                && stepperMotors[k].stepsPerRev == old(stepperMotors[k].stepsPerRev)
                && stepperMotors[k].usPerStep == old(stepperMotors[k].usPerStep)
    {
      ClearChannels();
      ghost var t1 := trace;
      InitializeDCMotors();
      ghost var t2 := trace;
      InitializeSteppers();
      BeginTrace(old(trace), t1, t2, trace);
    }

    /** The first stage of `Begin`: all 16 channels off, in channel order. */
    method ClearChannels()
      modifies this`trace
      ensures trace == old(trace) + ZeroWrites(ChannelCount)
    {
      for i := 0 to ChannelCount
        invariant trace == old(trace) + ZeroWrites(i)
      {
        assert ZeroWrites(i + 1) == ZeroWrites(i) + [Write(i, 0, 0)];
        trace := trace + [Write(i, 0, 0)];
      }
    }

    /** The second stage of `Begin`: DC slot i bound to the channels of port i
        and released. */
    method InitializeDCMotors()
      requires Valid()
      modifies this`trace, dcMotors
      ensures trace == old(trace)
        + DirectionEvents(Release, DCPortPins(0).in1, DCPortPins(0).in2)
        + DirectionEvents(Release, DCPortPins(1).in1, DCPortPins(1).in2)
        + DirectionEvents(Release, DCPortPins(2).in1, DCPortPins(2).in2)
        + DirectionEvents(Release, DCPortPins(3).in1, DCPortPins(3).in2)
      ensures forall i :: 0 <= i < 4 ==>
                && dcMotors[i].controller == this && dcMotors[i].motorNum == i
                && dcMotors[i].Pins() == DCPortPins(i) && dcMotors[i].mode == Release
      ensures forall i :: 0 <= i < 4 ==> dcMotors[i].speed == old(dcMotors[i].speed)
    {
      var d0, d1, d2, d3 := dcMotors[0], dcMotors[1], dcMotors[2], dcMotors[3];
      assert d0 != d1 && d0 != d2 && d0 != d3 && d1 != d2 && d1 != d3 && d2 != d3;
      d0.Initialize(this, 0, 8, 10, 9);
      d1.Initialize(this, 1, 13, 11, 12);
      d2.Initialize(this, 2, 2, 4, 3);
      d3.Initialize(this, 3, 7, 5, 6);
    }

    /** The last stage of `Begin`: stepper slot k bound to the channels of DC
        ports 2k and 2k + 1 and released. */
    method InitializeSteppers()
      requires Valid()
      modifies this`trace, stepperMotors
      ensures trace == old(trace) + ReleaseEvents(StepperPortPins(0)) + ReleaseEvents(StepperPortPins(1))
      ensures forall k :: 0 <= k < 2 ==>
                && stepperMotors[k].controller == this && stepperMotors[k].motorNum == k
                && stepperMotors[k].Pins() == StepperPortPins(k)
      ensures forall k :: 0 <= k < 2 ==>
                && stepperMotors[k].mode == old(stepperMotors[k].mode)
                && stepperMotors[k].currentStep == old(stepperMotors[k].currentStep)
                && stepperMotors[k].stepsPerRev == old(stepperMotors[k].stepsPerRev)
                && stepperMotors[k].usPerStep == old(stepperMotors[k].usPerStep)
    {
      stepperMotors[0].Initialize(this, 0, 8, 10, 9, 13, 11, 12);
      stepperMotors[1].Initialize(this, 1, 2, 4, 3, 7, 5, 6);
    }

    /** DC motor `n`, or none when `n` is not a DC slot. */
    method GetDCMotor(n: uint8) returns (m: DCMotor?)
      requires Valid()
      ensures m == null <==> n >= 4
      ensures n < 4 ==> m == dcMotors[n]
    {
      if n >= 4 {
        return null;
      }
      return dcMotors[n];
    }

    /** Stepper `n` with its steps per revolution set to `steps`, or none (and
        no change) when `n` is not a stepper slot. */
    method GetStepperMotor(n: uint8, steps: uint16) returns (m: StepperMotor?)
      requires Valid()
      modifies stepperMotors
      ensures m == null <==> n >= 2
      ensures n >= 2 ==> unchanged(stepperMotors)
      ensures n < 2 ==> && m == stepperMotors[n]
                        && m.State() == old(m.State()).(stepsPerRev := steps)
                        && m.controller == old(m.controller)
                        && unchanged(stepperMotors[1 - n])
    {
      if n >= 2 {
        return null;
      }
      stepperMotors[n].stepsPerRev := steps;
      return stepperMotors[n];
    }
  }

  class DCMotor {
    var controller: MotorShield?
    var motorNum: DCSlot
    var pinPWM: Channel
    var pin1: Channel
    var pin2: Channel
    var mode: DCMode
    var speed: uint8

    function Pins(): DCPins
      reads this`pinPWM, this`pin1, this`pin2
    {
      DCPins(pinPWM, pin1, pin2)
    }

    /** Not yet bound: no controller, number and pins 0, released. The speed
        is left unset. */
    constructor ()
      ensures controller == null && motorNum == 0 && Pins() == DCPins(0, 0, 0) && mode == Release
    {
      controller := null;
      motorNum := 0;
      pinPWM := 0;
      pin1 := 0;
      pin2 := 0;
      mode := Release;
    }

    /** Binds the motor to a shield and its channels, then releases it. */
    method Initialize(c: MotorShield, num: DCSlot, pwm: Channel, p1: Channel, p2: Channel)
      modifies this, c`trace
      ensures controller == c && motorNum == num && Pins() == DCPins(pwm, p1, p2)
      ensures mode == Release && speed == old(speed)
      ensures c.trace == old(c.trace) + DirectionEvents(Release, p1, p2)
    {
      controller := c;
      motorNum := num;
      pinPWM := pwm;
      pin1 := p1;
      pin2 := p2;
      Run(Release);
    }

    /** Stores the command and writes the direction pins in the safe order. */
    method Run(cmd: DCMode)
      requires controller != null
      modifies this`mode, controller`trace
      ensures mode == cmd
      ensures controller.trace == old(controller.trace) + DirectionEvents(cmd, pin1, pin2)
    {
      var p1, p2 := pin1, pin2;
      mode := cmd;
      match cmd
      case Forward =>
        controller.SetPin(p2, Low);
        controller.SetPin(p1, High);
      case Backward =>
        controller.SetPin(p1, Low);
        controller.SetPin(p2, High);
      case Brake =>
        controller.SetPin(p1, High);
        controller.SetPin(p2, High);
      case Release =>
        controller.SetPin(p1, Low);
        controller.SetPin(p2, Low);
    }

    /** Stores the speed and writes it, scaled to 12 bits, to the PWM channel;
        the mode and the direction pins are left alone. */
    method SetSpeed(s: uint8)
      requires controller != null
      modifies this`speed, controller`trace
      ensures speed == s
      ensures controller.trace == old(controller.trace) + [PwmEvent(pinPWM, s * 16)]
    {
      speed := s;
      controller.SetPWM(pinPWM, s * 16);
    }
  }

  /** Everything a stepper stores except its controller. */
  datatype StepperState = StepperState(motorNum: nat, mode: StepMode, pins: StepperPins,
                                       currentStep: uint8, stepsPerRev: uint16, usPerStep: uint32)

  /** The number of `OneStep` calls of `Run(steps, mode)`: |steps|, times the
      resolution in micro-stepping. */
  function StepCount(mode: StepMode, steps: int): nat
  {
    if mode == Microstep then Abs(steps) * Microsteps else Abs(steps)
  }

  /** The direction of `Run(steps)`: forward for a positive count, backward
      otherwise (a count of zero makes no step). */
  function RunDirection(steps: int): (dir: int)
    ensures IsDirection(dir)
    ensures dir == 1 <==> steps > 0
  {
    if steps > 0 then 1 else -1
  }

  class StepperMotor {
    var controller: MotorShield?
    var motorNum: nat
    var mode: StepMode
    var pinPWMA: Channel
    var pinA1: Channel
    var pinA2: Channel
    var pinPWMB: Channel
    var pinB1: Channel
    var pinB2: Channel
    var currentStep: uint8
    var stepsPerRev: uint16
    var usPerStep: uint32

    function Pins(): StepperPins
      reads this`pinPWMA, this`pinA1, this`pinA2, this`pinPWMB, this`pinB1, this`pinB2
    {
      StepperPins(pinPWMA, pinA1, pinA2, pinPWMB, pinB1, pinB2)
    }

    function State(): StepperState
      reads this
    {
      StepperState(motorNum, mode, Pins(), currentStep, stepsPerRev, usPerStep)
    }

    /** Motor number 0, no steps per revolution, at step index 0; the
        controller, pins, mode and timing are left unset. */
    constructor ()
      ensures motorNum == 0 && stepsPerRev == 0 && currentStep == 0
    {
      motorNum := 0;
      stepsPerRev := 0;
      currentStep := 0;
    }

    /** Binds the stepper to a shield and its six channels, then releases it. */
    method Initialize(c: MotorShield, num: nat, pwmA: Channel, a1: Channel, a2: Channel,
                      pwmB: Channel, b1: Channel, b2: Channel)
      requires num < 2
      modifies this, c`trace
      ensures controller == c && motorNum == num
      ensures Pins() == StepperPins(pwmA, a1, a2, pwmB, b1, b2)
      ensures mode == old(mode) && currentStep == old(currentStep)
      ensures stepsPerRev == old(stepsPerRev) && usPerStep == old(usPerStep)
      ensures c.trace == old(c.trace) + ReleaseEvents(Pins())
    {
      controller := c;
      motorNum := num;
      pinPWMA := pwmA;
      pinA1 := a1;
      pinA2 := a2;
      pinPWMB := pwmB;
      pinB1 := b1;
      pinB2 := b2;
      Release();
    }

    /** The mode setter. */
    method SetMode(m: StepMode)
      modifies this`mode
      ensures mode == m
    {
      mode := m;
    }

    /** The speed setter: microseconds per step for `rpm`, the largest whole
        number at which a revolution takes at most a minute. */
    method SetSpeed(rpm: uint16)
      requires stepsPerRev > 0 && rpm > 0
      modifies this`usPerStep
      ensures usPerStep == UsPerStep(stepsPerRev, rpm)
    {
      usPerStep := MicrosPerMinute / (stepsPerRev * rpm);
    }

    /** The speed getter, back from the stored timing. */
    function Speed(): uint16
      reads this`stepsPerRev, this`usPerStep
      requires Wrap32(stepsPerRev * usPerStep) != 0
    {
      RpmOf(stepsPerRev, usPerStep)
    }

    /** Both coil PWM channels off and all four coil pins low. */
    method Release()
      requires controller != null
      modifies controller`trace
      ensures controller.trace == old(controller.trace) + ReleaseEvents(Pins())
    {
      controller.SetPWM(pinPWMA, 0);
      controller.SetPin(pinA1, Low);
      controller.SetPin(pinA2, Low);
      controller.SetPWM(pinPWMB, 0);
      controller.SetPin(pinB1, Low);
      controller.SetPin(pinB2, Low);
    }

    /** Advances the index one step in `dir` within the mode's cycle and writes
        the duties and latch pattern of the new index. */
    method OneStep(dir: int)
      requires controller != null && IsDirection(dir)
      modifies this`currentStep, controller`trace
      ensures currentStep == NextStep(mode, old(currentStep), dir)
      ensures controller.trace == old(controller.trace) + StepAt(Pins(), mode, currentStep)
    {
      ghost var c0 := currentStep;
      var latch: bv8 := 0;
      var pwmA: uint8 := 255;
      var pwmB: uint8 := 255;
      match mode {
      case Single =>
        currentStep := (currentStep + dir + 4) % 4;
        latch := FullStepLatches[currentStep];
      case Double =>
        currentStep := (currentStep + dir + 4) % 4;
        latch := FullStepLatches[currentStep];
      case Interleave =>
        currentStep := (currentStep + dir + 8) % 8;
        latch := HalfStepLatches[currentStep];
      case Microstep =>
        currentStep := (currentStep + dir + Microsteps * 4) % (Microsteps * 4);
        latch, pwmA, pwmB := MicrostepDrive(currentStep);
      }
      assert currentStep == NextStep(mode, c0, dir);
      assert latch == Latch(mode, currentStep);
      assert (pwmA, pwmB) == Duties(mode, currentStep);
      WriteStep(latch, pwmA, pwmB);
    }

    /** The coil drive at micro-step index `step`: the quarter of the cycle
        picks the coil pair, the position inside it the two duties. */
    static method MicrostepDrive(step: nat) returns (latch: bv8, pwmA: uint8, pwmB: uint8)
      requires step < Microsteps * 4
      ensures latch == Latch(Microstep, step) && (pwmA, pwmB) == Duties(Microstep, step)
    {
      var phase := step / Microsteps;
      var microStep := step % Microsteps;
      if phase == 0 {
        pwmA, pwmB := MicrostepCurve[Microsteps - microStep], MicrostepCurve[microStep];
        latch := 0x03;
      } else if phase == 1 {
        pwmA, pwmB := MicrostepCurve[microStep], MicrostepCurve[Microsteps - microStep];
        latch := 0x06;
      } else if phase == 2 {
        pwmA, pwmB := MicrostepCurve[Microsteps - microStep], MicrostepCurve[microStep];
        latch := 0x0C;
      } else {
        pwmA, pwmB := MicrostepCurve[microStep], MicrostepCurve[Microsteps - microStep];
        latch := 0x09;
      }
    }

    /** The six writes of a step, in the order the sequencer makes them. */
    method WriteStep(latch: bv8, pwmA: uint8, pwmB: uint8)
      requires controller != null
      modifies controller`trace
      ensures controller.trace == old(controller.trace) + StepEvents(Pins(), latch, pwmA, pwmB)
    {
      controller.SetPWM(pinPWMA, pwmA * 16);
      controller.SetPWM(pinPWMB, pwmB * 16);
      controller.SetPin(pinA2, if latch & 0x1 != 0 then High else Low);
      controller.SetPin(pinB1, if latch & 0x2 != 0 then High else Low);
      controller.SetPin(pinA1, if latch & 0x4 != 0 then High else Low);
      controller.SetPin(pinB2, if latch & 0x8 != 0 then High else Low);
    }

    /** Runs `|steps|` steps (half-steps in interleave, full steps of eight
        micro-steps in micro-stepping), forward for a positive count and
        backward otherwise, waiting the mode's step interval after each.
        A positive `speed` first sets the timing; the mode is stored. */
    method Run(steps: int32, newMode: StepMode := Single, speed: uint16 := 0)
      requires controller != null
      requires steps != -0x8000_0000
      requires speed > 0 ==> stepsPerRev > 0
      requires newMode == Microstep ==> Abs(steps) * Microsteps < 0x8000_0000
      modifies this`usPerStep, this`mode, this`currentStep, controller`trace
      ensures usPerStep == if speed > 0 then UsPerStep(stepsPerRev, speed) else old(usPerStep)
      ensures mode == newMode
      ensures currentStep == Iterate(newMode, old(currentStep), RunDirection(steps), StepCount(newMode, steps))
      ensures controller.trace == old(controller.trace)
                + RunEvents(Pins(), newMode, old(currentStep), RunDirection(steps),
                            StepCount(newMode, steps), StepInterval(newMode, usPerStep))
    {
      if speed > 0 {
        SetSpeed(speed);
      }
      SetMode(newMode);
      var dir := RunDirection(steps);
      var stepInterval: uint32 := usPerStep;
      var remaining: nat := Abs(steps);
      if newMode == Interleave {
        stepInterval := stepInterval / 2;
      } else if newMode == Microstep {
        stepInterval := stepInterval / Microsteps;
        remaining := remaining * Microsteps;
      }
      assert stepInterval == StepInterval(newMode, usPerStep);
      StepRepeatedly(dir, remaining, stepInterval);
    }

    /** The loop of `Run`: `count` steps in direction `dir` in the stored mode,
        each followed by a wait of `stepInterval` microseconds. */
    method StepRepeatedly(dir: int, count: nat, stepInterval: uint32)
      requires controller != null && IsDirection(dir)
      modifies this`currentStep, controller`trace
      ensures currentStep == Iterate(mode, old(currentStep), dir, count)
      ensures controller.trace == old(controller.trace)
                + RunEvents(Pins(), mode, old(currentStep), dir, count, stepInterval)
    {
      var remaining := count;
      ghost var c0 := currentStep;
      ghost var t0 := controller.trace;
      ghost var p, m := Pins(), mode;
      ghost var i := 0;
      while remaining > 0
        invariant remaining + i == count
        invariant Pins() == p && mode == m
        invariant currentStep == Iterate(m, c0, dir, i)
        invariant controller.trace == t0 + RunEvents(p, m, c0, dir, i, stepInterval)
      {
        StepAndWait(dir, stepInterval, c0, t0, i);
        remaining, i := remaining - 1, i + 1;
      }
      assert i == count;
    }

    /** One turn of the loop of `Run`: step `i + 1` of the run, then its wait. */
    method StepAndWait(dir: int, stepInterval: uint32, ghost c0: nat, ghost t0: seq<Event>, ghost i: nat)
      requires controller != null && IsDirection(dir)
      requires currentStep == Iterate(mode, c0, dir, i)
      requires controller.trace == t0 + RunEvents(Pins(), mode, c0, dir, i, stepInterval)
      modifies this`currentStep, controller`trace
      ensures currentStep == Iterate(mode, c0, dir, i + 1)
      ensures controller.trace == t0 + RunEvents(Pins(), mode, c0, dir, i + 1, stepInterval)
    {
      OneStep(dir);
      controller.trace := controller.trace + [Delay(stepInterval)];
      RunEventsSnoc(t0, Pins(), mode, c0, dir, i, stepInterval);
    }
  }

  /** A stepper run leaves the index where the closed form says, so a whole
      cycle of steps, or a run followed by the reverse run, returns it to where
      it was. */
  lemma RunReturns(mode: StepMode, c: nat, steps: int)
    requires c < Cycle(mode) && steps != 0
    ensures Iterate(mode, c, RunDirection(steps), StepCount(mode, steps))
              == (c + RunDirection(steps) * StepCount(mode, steps)) % Cycle(mode)
    ensures Iterate(mode, Iterate(mode, c, RunDirection(steps), StepCount(mode, steps)),
                    RunDirection(-steps), StepCount(mode, -steps)) == c
  {
    IterateClosedForm(mode, c, RunDirection(steps), StepCount(mode, steps));
    IterateReverse(mode, c, RunDirection(steps), StepCount(mode, steps));
  }
}
