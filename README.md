# Motor shield actuation engine, modelled in Dafny

This project models the part of the Adafruit Motor Shield V2 library (in the
adaptation with the fixed-array shield `AF_MotorShield` and the attach-based
shield `AF_MotorShield2`) that turns motor commands into writes to the
shield's 16-channel PWM expander:

- the **stepper sequencer** (`AF_StepperMotor`): the per-mode step index
  cycle, the latch pattern of each index, the micro-stepping duty curve, the
  six ordered writes of a step, `Run`'s loop of steps and delays, and the
  rpm / microseconds-per-step arithmetic;
- the **DC motor direction protocol**: the four commands of `AF_DCMotor`
  with their "low first" pin order, and the sign hysteresis of
  `AF_DCMotor2::Run(int16_t)`;
- the **port allocator** of `AF_MotorShield2` (`Attach` / `Detach` over the
  4-bit `_ports` mask) and the **fixed-array facade** of `AF_MotorShield`
  (`Begin`, `GetDCMotor`, `GetStepperMotor`, `SetPWM`, `SetPin`).

The expander is represented by the sequence of effects the code has on it: a
shield object holds `trace: seq<Event>`, and every `setPWM(ch, on, off)`
appends `Write(ch, on, off)`; `delayMicroseconds(us)` appends `Delay(us)`.
Ordering properties ("pin 2 is taken low before pin 1 goes high") and outcome
properties ("after `Begin` every channel reads low") are statements about
that trace. A channel's state is the last write to it (`LastWrite`).

Modules, one per concern of the library:

| file | module | models |
|---|---|---|
| `channels.dfy` | `Channels` | integer widths, channels, the trace, `SetPWM`/`SetPin` encodings, the DC and stepper channel tables |
| `rtl_math.dfy` | `RtlMath` | `SIGN`, `abs`, `constrain` |
| `stepping.dfy` | `Stepping` | the stepper's pure specification: index cycle, latch tables, curve, step writes, runs, timing |
| `dc_direction.dfy` | `DCDirection` | the DC direction pin protocol and the signed-speed variant |
| `shield_v1.dfy` | `ShieldV1` | classes `MotorShield`, `DCMotor`, `StepperMotor` (`AF_MotorShield`, `AF_DCMotor`, `AF_StepperMotor`) |
| `shield_v2.dfy` | `ShieldV2` | classes `MotorShield2`, `DCMotor2` (`AF_MotorShield2`, `AF_DCMotor2`) |

The classes keep the library's fields and update them in place; each method
states the new fields and the writes it appends, in terms of the
specification functions of `Stepping` and `DCDirection`, and the lemmas of
those modules state what the writes achieve. `AF_MotorShield.cpp` also
contains copies of the `AF_DCMotor` and `AF_StepperMotor` methods that are
identical apart from logging; they are modelled once, in `ShieldV1`.

The C++ overloads `Speed(rpm)` / `Speed()` and `Mode(m)` of the stepper are
named `SetSpeed` / `Speed` and `SetMode`; `Speed(s)` of `AF_DCMotor` is
`SetSpeed`. The MICROSTEPS setting is the configured 8 (`Stepping.Microsteps`).

## Model

| member | source | states |
|---|---|---|
| Channels.PwmEvent | AF_MotorShield.cpp:69-75 | the write of `SetPWM(ch, v)` targets `ch`, is full-on (on-count 4096) exactly when `v > 4095`, and sets duty `min(v, 4096)` |
| Channels.PinEvent | AF_MotorShield.cpp:78-84 | the write of `SetPin` targets its channel and sets duty 4096 for HIGH and 0 for LOW |
| Channels.PinIsPwmExtreme | AF_MotorShield2.cpp:117-132 | LOW is the PWM write of 0, HIGH the PWM write of any value above 4095, and no value up to 4095 writes HIGH |
| Channels.ZeroWritesLeaveLow | AF_MotorShield.cpp:55 | after the clearing loop every channel below n reads low |
| Channels.DCPortPins | AF_MotorShield.cpp:58-61 | each DC slot's PWM and direction channels are three different channels |
| Channels.StepperSharesDCPorts | AF_MotorShield.cpp:58-65 | stepper slot k uses exactly the channels of DC slots 2k and 2k+1, six different channels, with no exclusivity between them |
| RtlMath.Sign | AF_DCMotor2.cpp:61 | the sign is -1, 0 or 1, with 1 iff positive and -1 iff negative |
| RtlMath.Abs | AF_DCMotor2.cpp:82 | the magnitude is non-negative and equals x or -x |
| RtlMath.Clamp | AF_DCMotor2.cpp:58 | the result lies in the range, is x inside it, and is the nearer bound outside it |
| RtlMath.ClampIdempotent | AF_DCMotor2.cpp:58 | clamping an already clamped speed changes nothing |
| Stepping.NextStep | AF_StepperMotor.cpp:159 | the next index of a step always lies inside the mode's cycle |
| Stepping.NextStepModCycle | AF_StepperMotor.cpp:217 | the next index is `(c + dir) mod cycle` for cycles 4, 8 and 32 |
| Stepping.StepBackUndoesStep | AF_StepperMotor.cpp:157-159 | a step in one direction followed by a step in the other restores any in-range index |
| Stepping.Latch | AF_StepperMotor.cpp:161-177 | every latch pattern uses only the four pin bits, sets one or two pins (two outside interleave) and never both pins of a coil |
| Stepping.InterleaveRefinesFullStep | AF_StepperMotor.cpp:219-251 | odd interleave indexes carry the full-step patterns; even ones set a single pin that both neighbours also set |
| Stepping.MicrostepPhaseStart | AF_StepperMotor.cpp:278-302 | the first micro-step of phase p uses full-step pattern p, with one coil at duty 255 and the other at 0 |
| Stepping.CurveAscending | AF_StepperMotor.cpp:139 | the micro-step curve rises strictly from 0 to 255 |
| Stepping.MicrostepRamp | AF_StepperMotor.cpp:281-301 | within a phase coil A ramps down while B ramps up (phases 0 and 2), or the reverse (phases 1 and 3) |
| Stepping.StepSettlesPins | AF_StepperMotor.cpp:311-316 | after a step each PWM channel holds its duty times 16, each coil pin the level of its latch bit, and no coil has both pins high |
| Stepping.OrderRaisesA2First | AF_StepperMotor.cpp:313-315 | in the code's pin order, a latch with A2 set over a state with A1 high has coil A short-braked after the third write |
| Stepping.OrderRaisesB1First | AF_StepperMotor.cpp:313-316 | in the code's pin order, a latch with B1 set over a state with B2 high has coil B short-braked after the fourth write |
| Stepping.WriteOrderShortsCoil | AF_StepperMotor.cpp:311-316 | single-coil indexes 0, 1 and 3 leave both coils clear, yet stepping back from 1 to 0 shorts coil A and wrapping from 3 to 0 shorts coil B between writes |
| Stepping.CoilWrites | AF_DCMotor2.cpp:63-71 | the first of a coil's two writes always drives one of its pins low, and the two writes cover both pins |
| Stepping.SafeStepEvents | AF_StepperMotor.cpp:311-312 | the low-first step is six writes that begin with the same two PWM writes as the code's |
| Stepping.SafeStepSettles | AF_StepperMotor.cpp:311-316 | for a coil-safe latch the low-first writes end with the same duties and pin levels as the code's writes |
| Stepping.SafeStepNeverShorts | AF_StepperMotor.cpp:311-316 | from a state with no coil short-braked, no prefix of the low-first writes short-brakes a coil, whatever the latch |
| Stepping.ReleaseSettlesPins | AF_StepperMotor.cpp:81-90 | after a release all four coil pins and both PWM channels read low |
| Stepping.IterateClosedForm | AF_StepperMotor.cpp:130-134 | after n steps the index is `(c0 + dir * n) mod cycle` |
| Stepping.IteratePeriodic | AF_StepperMotor.cpp:157-158 | a whole cycle of steps returns to the start index |
| Stepping.IterateReverse | AF_StepperMotor.cpp:157-158 | n steps back after n steps forward return to the start index |
| Stepping.MicrostepRunKeepsMicroStep | AF_StepperMotor.cpp:117-128 | a micro-stepping run of whole full steps leaves the micro-step within its phase unchanged |
| Stepping.RunEventsShape | AF_StepperMotor.cpp:130-134 | a run of n steps emits 7n events, each step's seventh being the step delay |
| Stepping.FourSingleStepsFromZero | AF_StepperMotor.cpp:159-177 | four single steps forward from index 0 emit patterns 0x6, 0xC, 0x9, 0x3 |
| Stepping.UsPerStepBounds | AF_StepperMotor.cpp:68-71 | the step time is the largest whole number of microseconds with which a revolution takes at most a minute |
| Stepping.RpmOfBounds | AF_StepperMotor.cpp:74-79 | without wrap-around the getter returns the largest rpm whose revolution fits in a minute at the stored step time |
| Stepping.SpeedRoundTrip | AF_StepperMotor.cpp:68-79 | when the product divides a minute, setting an rpm and reading it back gives that rpm |
| Stepping.SpeedExample | AF_StepperMotor.cpp:70 | 200 steps per revolution at 60 rpm give 5000 us per step, and back |
| DCDirection.DirectionEvents | AF_DCMotor.cpp:67-88 | a command writes each direction pin once, and forward and backward write a low before a high |
| DCDirection.DirectionOutcome | AF_DCMotor.cpp:60-89 | whatever the pins were, a command leaves forward = (H, L), backward = (L, H), brake = (H, H), release = (L, L), and no other mode's levels |
| DCDirection.NoTransientBrake | AF_DCMotor.cpp:69-77 | after each write of forward or backward at least one direction pin is low |
| DCDirection.HighFirstWouldBrake | AF_DCMotor.cpp:70 | from backward, writing the high pin first would brake |
| DCDirection.SignModeBySign | AF_DCMotor2.cpp:61 | two speeds select the same direction iff their signs agree |
| DCDirection.SpeedEvents | AF_DCMotor2.cpp:53-83 | `Run(s)` emits three writes iff the clamped sign differs from the stored one, otherwise one, always ending with duty `abs(clamp(s)) * 16` of at most 4080 |
| DCDirection.SpeedKeepsPinsMatched | AF_DCMotor2.cpp:60-78 | if the pins matched the stored speed's sign, they match the new speed's sign afterwards, rewritten or not |
| DCDirection.RunAgainOnlySetsDuty | AF_DCMotor2.cpp:61 | running at the stored speed again emits only the PWM write |
| DCDirection.SpeedConvention | AF_DCMotor2.h:57-70 | after `Run(s)`, positive s means pin 1 high and pin 2 low, negative the reverse, zero both low, each iff, and the PWM channel holds the scaled magnitude |
| ShieldV1.BeginLeavesAllLow | AF_MotorShield.cpp:55-65 | after `Begin` every one of the 16 channels reads low, so every DC motor's direction pins do |
| ShieldV1.MotorShield.constructor | AF_MotorShield.cpp:40-44 | a new shield owns four distinct DC motors, each unbound with number and pins 0 and released, and two distinct steppers with number 0, no steps per revolution and index 0 |
| ShieldV1.MotorShield.SetPWM | AF_MotorShield.cpp:69-75 | appends the `SetPWM` encoding of the value |
| ShieldV1.MotorShield.SetPin | AF_MotorShield.cpp:78-84 | appends the `SetPin` encoding of the level |
| ShieldV1.MotorShield.Begin | AF_MotorShield.cpp:47-66 | appends all channels off, then the releases; binds DC slot i and stepper slot k to their table entries with DC motors released; keeps every DC speed and each stepper's mode, index, steps per revolution and step time |
| ShieldV1.MotorShield.ClearChannels | AF_MotorShield.cpp:55 | appends the 16 clearing writes in channel order |
| ShieldV1.MotorShield.InitializeDCMotors | AF_MotorShield.cpp:58-61 | binds DC slot i to port i's channels and releases it, keeping its speed |
| ShieldV1.MotorShield.InitializeSteppers | AF_MotorShield.cpp:64-65 | binds stepper slot k to its six channels and releases it, keeping its mode, index, steps per revolution and step time |
| ShieldV1.MotorShield.GetDCMotor | AF_MotorShield.cpp:87-92 | returns null iff n >= 4, otherwise slot n |
| ShieldV1.MotorShield.GetStepperMotor | AF_MotorShield.cpp:95-102 | returns null and changes nothing iff n >= 2; otherwise slot n with only its steps per revolution set |
| ShieldV1.DCMotor.constructor | AF_DCMotor.cpp:37-45 | no controller, number and pins 0, mode release, speed left unset |
| ShieldV1.DCMotor.Initialize | AF_DCMotor.cpp:48-57 | binds number and pins, leaves mode release and the speed as it was, and writes both direction pins low |
| ShieldV1.DCMotor.Run | AF_DCMotor.cpp:60-89 | stores the command and appends its two direction writes in order |
| ShieldV1.DCMotor.SetSpeed | AF_DCMotor.cpp:92-96 | stores the speed and appends only the PWM write of speed times 16 |
| ShieldV1.StepperMotor.constructor | AF_StepperMotor.cpp:37-42 | motor number 0, no steps per revolution, index 0 |
| ShieldV1.StepperMotor.Initialize | AF_StepperMotor.cpp:45-59 | binds number and six channels, keeps mode, index and timing, and appends the release writes |
| ShieldV1.StepperMotor.SetMode | AF_StepperMotor.cpp:62-65 | stores the mode |
| ShieldV1.StepperMotor.SetSpeed | AF_StepperMotor.cpp:68-71 | stores `60,000,000 / (stepsPerRev * rpm)` (bounds in `UsPerStepBounds`) |
| ShieldV1.StepperMotor.Release | AF_StepperMotor.cpp:81-90 | appends the six release writes and changes no field |
| ShieldV1.StepperMotor.OneStep | AF_StepperMotor.cpp:145-317 | moves the index to the next one of the mode's cycle and appends that index's six writes |
| ShieldV1.StepperMotor.MicrostepDrive | AF_StepperMotor.cpp:272-303 | the latch and duties chosen from phase and micro-step are those of the index, with both curve reads in bounds |
| ShieldV1.StepperMotor.WriteStep | AF_StepperMotor.cpp:311-316 | appends PWM A, PWM B, then pins A2, B1, A1, B2 from latch bits 0 to 3 |
| ShieldV1.StepperMotor.Run | AF_StepperMotor.cpp:93-135 | sets timing only for a positive speed, stores the mode, makes \|steps\| steps (8 \|steps\| in micro-stepping) in the count's direction, each followed by the mode's interval, ending at the iterated index |
| ShieldV1.StepperMotor.StepRepeatedly | AF_StepperMotor.cpp:130-134 | n steps each followed by the delay leave the n-times iterated index and the run's writes |
| ShieldV1.StepperMotor.StepAndWait | AF_StepperMotor.cpp:131-133 | one turn of the loop takes the index and the writes of a run of i steps to those of i + 1 steps |
| ShieldV1.RunReturns | AF_StepperMotor.cpp:93-135 | a run ends at `(c0 + dir * count) mod cycle`, and the reverse run returns to the start |
| ShieldV2.PortMasks | AF_MotorShield2.cpp:34-39 | port bit i is `1 << i`, the stepper masks are unions of two DC bits, and distinct ports have disjoint bits in the low nibble |
| ShieldV2.AttachPorts | AF_MotorShield2.cpp:75-81 | succeeds only for ports 0-3, a free motor and a free port, and then sets exactly the port's bit; otherwise one of the three refusals holds |
| ShieldV2.DetachPorts | AF_MotorShield2.cpp:110-113 | clears exactly the motor's bit and keeps all others |
| ShieldV2.DetachUndoesAttach | AF_MotorShield2.cpp:73-114 | detaching right after attaching restores the mask, and a freed port can be attached again |
| ShieldV2.MotorShield2.constructor | AF_MotorShield2.cpp:44-48 | a new shield has no port taken and no motor attached |
| ShieldV2.MotorShield2.Begin | AF_MotorShield2.cpp:51-70 | appends the 16 clearing writes |
| ShieldV2.MotorShield2.SetPWM | AF_MotorShield2.cpp:117-123 | appends the `SetPWM` encoding of the value |
| ShieldV2.MotorShield2.SetPin | AF_MotorShield2.cpp:126-132 | appends the `SetPin` encoding of the level |
| ShieldV2.MotorShield2.Attach | AF_MotorShield2.cpp:73-103 | keeps the mask invariant; succeeds iff `AttachPorts` does, then sets the mask, binds the motor to the port's channels with speed 0; on failure changes nothing |
| ShieldV2.MotorShield2.Bind | AF_MotorShield2.cpp:81-100 | sets the port bit, configures the motor from the port table and keeps the mask invariant |
| ShieldV2.MotorShield2.Detach | AF_MotorShield2.cpp:106-114 | keeps the mask invariant; for a motor of this shield clears its bit and resets it to (null, 0, 0, 0, 0) with speed 0, writing no pins; otherwise changes nothing |
| ShieldV2.DCMotor2.constructor | AF_DCMotor2.cpp:36-39 | a new motor is unattached, with ID, pins and speed 0 |
| ShieldV2.DCMotor2.Configure | AF_DCMotor2.cpp:42-50 | overwrites controller, ID and pins and resets the speed to 0 |
| ShieldV2.DCMotor2.Run | AF_DCMotor2.cpp:53-83 | stores the clamped speed and appends `SpeedEvents` of the stored and the new speed |
| ShieldV2.DCMotor2.IsAttachedTo | AF_DCMotor2.h:106 | being attached to a non-null shield implies being attached |
| ShieldV2.DCMotor2.GetID | AF_DCMotor2.h:80 | the ID is 0 to 3 |
| ShieldV2.DCMotor2.GetSpeed | AF_DCMotor2.h:89 | the speed read back lies within ±255 |
| ShieldV2.AttachNew | AF_DCMotor2.cpp:30-33 | the attaching constructor yields a motor attached to that port iff the port could be attached |

## Left out

- The I2C bus, the PWM driver's `begin`/`setPWMFreq`, the board address and the PWM frequency: only the `setPWM` register writes are modelled, as trace events.
- `delayMicroseconds` is recorded as a `Delay` event with its interval; no timing is modelled.
- Logging (`TRACE`, `Logger`, `Debug.Log`) has no behavioural content and is left out.
- The 16-micro-step curve: the model is fixed to the configured resolution of 8.
- ShieldV1.StepperMotor.OneStep: the direction is restricted to +1 and -1, the two values of the direction enumeration, which is not part of this model.
- ShieldV1.StepperMotor.Run: requires a step count other than INT32_MIN (whose `abs` overflows) and, in micro-stepping, `8 * |steps|` below 2^31 (the int32 product would overflow).
- ShieldV1.StepperMotor.SetSpeed: requires a non-zero steps per revolution and rpm (the division by zero is undefined).
- ShieldV1.StepperMotor.Speed: the getter requires a non-zero 32-bit product; its wrap-around and 16-bit truncation are modelled by `Wrap32` and `% 0x1_0000`, and `RpmOfBounds` only states the result where neither happens.
- Uninitialised fields: the DC motor's speed, and the stepper's controller, pins, mode and timing, are left unconstrained by their constructors, as in the code.
- The V2 shield's `_ports` mask is never initialised in the code; the model assumes it starts at 0.
- ShieldV2.MotorShield2.Detach: requires that a motor bound to this shield is in the ghost `attached` set; this stands for `Configure` being reachable only by the shield, which the model does not otherwise enforce.
- ShieldV2.AttachNew: the attaching constructor calls `Attach` before it sets any field, so `Attach`'s `IsAttached` test reads an uninitialised controller; the model assumes zero-initialised storage, as for the usual global motor objects, and starts from a default motor. For an automatic (stack) object the C result is indeterminate, and a refused motor keeps indeterminate fields.
- ShieldV2.MotorShield2.Attach: the mask is a `bv8` and `1 << motorID` keeps only 8 bits; from the width of `int` (16 on AVR) on, the C shift is undefined, which the model reads as 0 (the value is discarded by the range check either way).
- ShieldV2.MotorShield2.Bind: the four-case switch on the port number is modelled as a lookup in the port table `DCPortPins`, which holds the same four channel triples.
- Attaching steppers to the V2 shield is commented out in the code; the stepper masks are modelled only as constants (`PortMasks`).
- Detach does not release the motor's pins: the code issues no writes there, and neither does the model.
- Channel fields are 4-bit bit-fields in the code; the model types them as 0..15 and does not model truncation of larger values.
- Read-only getters that return a field unchanged (`Mode()`, `Speed()` and `MotorNum()`/`ID()` of the DC motor; `ID`, `StepsPerRev`, `Mode()` of the stepper; `IsAttached`) are the fields themselves or predicates over them.
- ShieldV1.StepperMotor.WriteStep: keeps the code's pin order (A2, B1, A1, B2), so coil safety is claimed only for the latch patterns and for the state after a whole step, not between its writes; the low-first order of the finding below is proved on its own and is not what `OneStep` emits.
- The shield headers declare the classes only; the copies of the DC motor and stepper methods in `AF_MotorShield.cpp` are modelled once.

## Findings

| source | as written | input that shows it | evidently intended | confidence | as-written member | corrected member |
|---|---|---|---|---|---|---|
| AF_StepperMotor.cpp:313-316 | a step writes the coil pins in the fixed order A2, B1, A1, B2, whatever the previous levels | single-coil mode, step back from index 1 (A1 and B1 high) to index 0: the third write raises A2 while A1 is still high; or step forward from index 3 (A2 and B2 high) to 0: the fourth write raises B1 while B2 is still high | each coil's pin that ends low is written before its other pin, as the DC direction code does for its two inputs, so no coil is ever short-braked between writes | medium, not executed | Stepping.WriteOrderShortsCoil | Stepping.SafeStepNeverShorts |
