/** The attach-based motor shield: DC motors are separate objects that the
    shield binds to one of four ports on request. The shield keeps a 4-bit
    allocation mask `ports`; bit i is set while some motor holds port i. */
module ShieldV2 {
  import opened Channels
  import opened RtlMath
  import opened DCDirection

  /** Port allocation bits: DC port i is bit i; a stepper port takes two DC ports. */
  const DCPort0: bv8 := 0x01
  const DCPort1: bv8 := 0x02
  const DCPort2: bv8 := 0x04
  const DCPort3: bv8 := 0x08
  const StepperPort0: bv8 := 0x03
  const StepperPort1: bv8 := 0x0C

  /** The allocation bit of DC port `id`. */
  function PortMask(id: DCSlot): bv8
  {
    (1 as bv8) << id
  }

  /** The port bits are the four DC constants, each stepper mask is the union
      of the two DC ports it drives, and distinct ports have disjoint bits
      inside the low nibble. */
  lemma PortMasks(i: DCSlot, j: DCSlot)
    ensures PortMask(0) == DCPort0 && PortMask(1) == DCPort1
    ensures PortMask(2) == DCPort2 && PortMask(3) == DCPort3
    ensures StepperPort0 == DCPort0 | DCPort1 && StepperPort1 == DCPort2 | DCPort3
    ensures PortMask(i) & 0xF0 == 0 && PortMask(i) != 0
    ensures i != j ==> PortMask(i) & PortMask(j) == 0
  {
  }

  /** What `Attach` does to the mask: refuses a port number above 3, a motor
      already attached anywhere, and a port already taken; otherwise sets the
      port's bit. */
  function AttachPorts(ports: bv8, motorID: int, motorAttached: bool): (r: Option<bv8>)
    ensures r.Some? ==> 0 <= motorID <= 3 && !motorAttached
    ensures r.Some? ==> ports & PortMask(motorID) == 0 && r.value & PortMask(motorID) != 0
    ensures r.Some? ==> forall j: DCSlot :: j != motorID ==> r.value & PortMask(j) == ports & PortMask(j)
    ensures r.Some? ==> r.value & 0xF0 == ports & 0xF0
    ensures r.None? ==> motorID < 0 || motorID > 3 || motorAttached || ports & PortMask(motorID) != 0
  {
    if motorID < 0 || motorID > 3 || motorAttached then None
    else if ports & PortMask(motorID) != 0 then None
    else Some(ports | PortMask(motorID))
  }

  /** What `Detach` does to the mask of an attached motor: clears its port's bit. */
  function DetachPorts(ports: bv8, motorID: DCSlot): (r: bv8)
    ensures r & PortMask(motorID) == 0
    ensures forall j: DCSlot :: j != motorID ==> r & PortMask(j) == ports & PortMask(j)
    ensures r & 0xF0 == ports & 0xF0
  {
    ports & !PortMask(motorID)
  }

  /** Detaching a motor right after attaching it restores the mask, and a
      port freed by detaching can be attached again. */
  lemma DetachUndoesAttach(ports: bv8, motorID: DCSlot)
    ensures AttachPorts(ports, motorID, false).Some? ==>
              DetachPorts(AttachPorts(ports, motorID, false).value, motorID) == ports
    ensures AttachPorts(DetachPorts(ports, motorID), motorID, false)
              == Some(DetachPorts(ports, motorID) | PortMask(motorID))
  {
  }

  class MotorShield2 {
    /** The expander writes made so far, oldest first. */
    var trace: seq<Event>
    /** Allocation bits of the four DC ports (only the low nibble is used). */
    var ports: bv8
    /** The motors this shield has attached and not detached. */
    ghost var attached: set<DCMotor2>

    /** Bit i of the mask is set exactly when an attached motor holds port i;
        attached motors point back to this shield and hold distinct ports. */
    ghost predicate Valid()
      reads this, attached
    {
      && ports & 0xF0 == 0
      && (forall m :: m in attached ==> m.controller == this)
      && (forall m, m' :: m in attached && m' in attached && m.motorID == m'.motorID ==> m == m')
      && (forall id: DCSlot :: ports & PortMask(id) != 0 <==> exists m :: m in attached && m.motorID == id)
    }

    /** A shield with every port free (the mask starts cleared). */
    constructor ()
      ensures Valid() && ports == 0 && attached == {} && trace == []
    {
      trace := [];
      ports := 0;
      attached := {};
    }

    /** Turns every channel off. */
    method Begin()
      modifies this`trace
      ensures trace == old(trace) + ZeroWrites(ChannelCount)
    {
      for i := 0 to ChannelCount
        invariant trace == old(trace) + ZeroWrites(i)
      {
        assert ZeroWrites(i + 1) == ZeroWrites(i) + [Write(i, 0, 0)];
        trace := trace + [Write(i, 0, 0)];
      }
    }

    /** `setPWM(pin, value)` through the expander: full-on above 4095. */
    method SetPWM(pin: Channel, value: uint16)
      modifies this`trace
      ensures trace == old(trace) + [PwmEvent(pin, value)]
    {
      if value > MaxDuty {
        trace := trace + [Write(pin, FullOn, 0)];
      } else {
        trace := trace + [Write(pin, 0, value)];
      }
    }

    /** A digital level on a channel: LOW as off, HIGH as full-on. */
    method SetPin(pin: Channel, level: Level)
      modifies this`trace
      ensures trace == old(trace) + [PinEvent(pin, level)]
    {
      if level == Low {
        trace := trace + [Write(pin, 0, 0)];
      } else {
        trace := trace + [Write(pin, FullOn, 0)];
      }
    }

    /** Binds `motor` to port `motorID` and its channels if the port number is
        valid, the motor is free and the port is free; otherwise changes
        nothing and reports failure. */
    method Attach(motor: DCMotor2, motorID: uint8) returns (ok: bool)
      requires Valid()
      modifies this`ports, this`attached, motor
      ensures Valid()
      ensures ok <==> AttachPorts(old(ports), motorID, old(motor.controller) != null).Some?
      ensures ok ==> && ports == AttachPorts(old(ports), motorID, old(motor.controller) != null).value
                     && attached == old(attached) + {motor}
                     && motor.controller == this && motor.motorID == motorID
                     && motor.Pins() == DCPortPins(motorID) && motor.speed == 0
      ensures !ok ==> ports == old(ports) && attached == old(attached) && unchanged(motor)
    {
      // The shift happens before the range check; only its low 8 bits are kept.
      var portMask: bv8 := if motorID < 8 then (1 as bv8) << motorID else 0;

      if motorID > 3 {
        return false;
      }
      if motor.IsAttached() {
        return false;
      }
      if ports & portMask != 0 {
        return false;
      }

      Bind(motor, motorID);
      return true;
    }

    /** The allocating half of `Attach`: marks the free port taken and
        configures the free motor with the port's channels. */
    method Bind(motor: DCMotor2, motorID: DCSlot)
      requires Valid() && motor.controller == null && ports & PortMask(motorID) == 0
      modifies this`ports, this`attached, motor
      ensures Valid()
      ensures ports == old(ports) | PortMask(motorID) && attached == old(attached) + {motor}
      ensures motor.controller == this && motor.motorID == motorID
      ensures motor.Pins() == DCPortPins(motorID) && motor.speed == 0
    {
      assert motor !in attached;
      ports := ports | PortMask(motorID);

      // One case per port, as in the port table.
      var pins := DCPortPins(motorID);
      motor.Configure(this, motorID, pins.pwm, pins.in1, pins.in2);
      attached := attached + {motor};
      forall i: DCSlot
        ensures ports & PortMask(i) != 0 <==> exists m :: m in attached && m.motorID == i
      {
        PortMasks(i, motorID);
        if i != motorID {
          assert ports & PortMask(i) == old(ports) & PortMask(i);
          assert (exists m :: m in attached && m.motorID == i)
              <==> (exists m :: m in old(attached) && old(m.motorID) == i);
        } else {
          assert motor in attached && motor.motorID == i;
        }
      }
    }

    /** Frees the port of `motor` and unbinds it, if it is attached to this
        shield; the direction pins are not written. */
    method Detach(motor: DCMotor2)
      requires Valid()
      requires motor.controller == this ==> motor in attached
      modifies this`ports, this`attached, motor
      ensures Valid()
      ensures old(motor.controller) != this ==>
                ports == old(ports) && attached == old(attached) && unchanged(motor)
      ensures old(motor.controller) == this ==>
                && ports == DetachPorts(old(ports), old(motor.motorID))
                && attached == old(attached) - {motor}
                && motor.controller == null && motor.motorID == 0
                && motor.Pins() == DCPins(0, 0, 0) && motor.speed == 0
    {
      if !motor.IsAttachedTo(this) {
        return;
      }
      var portMask: bv8 := !PortMask(motor.GetID());
      motor.Configure(null, 0, 0, 0, 0);
      ports := ports & portMask;
      attached := attached - {motor};
    }
  }

  class DCMotor2 {
    var controller: MotorShield2?
    var motorID: DCSlot
    var pinPWM: Channel
    var pin1: Channel
    var pin2: Channel
    var speed: int16

    /** The stored speed is one `Run` can leave: within ±255. */
    predicate Valid()
      reads this`speed
    {
      -MaxSpeed <= speed <= MaxSpeed
    }

    function Pins(): DCPins
      reads this`pinPWM, this`pin1, this`pin2
    {
      DCPins(pinPWM, pin1, pin2)
    }

    /** A motor not attached to any shield. */
    constructor ()
      ensures controller == null && motorID == 0 && Pins() == DCPins(0, 0, 0) && speed == 0
      ensures Valid() && !IsAttached()
    {
      new;
      Configure(null, 0, 0, 0, 0);
    }

    /** Overwrites the binding and stops the stored speed. */
    method Configure(c: MotorShield2?, id: DCSlot, pwm: Channel, p1: Channel, p2: Channel)
      modifies this
      ensures controller == c && motorID == id && Pins() == DCPins(pwm, p1, p2) && speed == 0
      ensures Valid()
    {
      controller := c;
      motorID := id;
      pinPWM := pwm;
      pin1 := p1;
      pin2 := p2;
      speed := 0;
    }

    /** Limits the speed to ±255, rewrites the direction pins only if its sign
        differs from the stored speed's, stores it and writes its magnitude,
        scaled to 12 bits, to the PWM channel. */
    method Run(s: int16)
      requires controller != null
      modifies this`speed, controller`trace
      ensures speed == Clamp(s, -MaxSpeed, MaxSpeed) && Valid()
      ensures controller.trace == old(controller.trace) + SpeedEvents(old(speed), s, pinPWM, pin1, pin2)
    {
      var p1, p2 := pin1, pin2;
      var c: int16 := Clamp(s, -MaxSpeed, MaxSpeed);

      if Sign(speed) != Sign(c) {
        if c > 0 {
          controller.SetPin(p2, Low);
          controller.SetPin(p1, High);
        } else if c < 0 {
          controller.SetPin(p1, Low);
          controller.SetPin(p2, High);
        } else {
          controller.SetPin(p1, Low);
          controller.SetPin(p2, Low);
        }
      }

      speed := c;
      controller.SetPWM(pinPWM, Abs(speed) * 16);
    }

    /** The motor is bound to some shield. */
    predicate IsAttached()
      reads this`controller
    {
      controller != null
    }

    /** The motor is bound to shield `c`; for a real shield this implies it is
        attached. */
    predicate IsAttachedTo(c: MotorShield2?)
      reads this`controller
      ensures IsAttachedTo(c) && c != null ==> IsAttached()
    {
      controller == c
    }

    /** The port number, 0 to 3. */
    function GetID(): (id: nat)
      reads this`motorID
      ensures id < 4
    {
      motorID
    }

    /** The last limited speed: within ±255, positive forward, negative
        backward, zero stopped. */
    function GetSpeed(): (s: int16)
      reads this`speed
      requires Valid()
      ensures -MaxSpeed <= s <= MaxSpeed
    {
      speed
    }
  }

  /** A motor created unattached and then attached to a shield is what the
      attaching constructor produces: bound to that port, or still unattached
      when the port is refused. */
  method AttachNew(shield: MotorShield2, motorID: uint8) returns (motor: DCMotor2)
    requires shield.Valid()
    modifies shield`ports, shield`attached
    ensures fresh(motor) && shield.Valid()
    ensures motor.IsAttached() <==> AttachPorts(old(shield.ports), motorID, false).Some?
    ensures motor.IsAttached() ==> motor.IsAttachedTo(shield) && motor.GetID() == motorID
  {
    motor := new DCMotor2();
    var ok := shield.Attach(motor, motorID);
  }
}
