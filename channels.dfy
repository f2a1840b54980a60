/** Shared vocabulary of the motor shield: the C integer widths the motors store,
    the channels of the 16-channel PWM expander, the register writes the shield
    sends to it (recorded as a trace), and the fixed channel tables both shield
    variants bind their motor slots to. */
module Channels {

  type uint8 = x: int | 0 <= x < 0x100
  type uint16 = x: int | 0 <= x < 0x1_0000
  type uint32 = x: int | 0 <= x < 0x1_0000_0000
  type int16 = x: int | -0x8000 <= x < 0x8000
  type int32 = x: int | -0x8000_0000 <= x < 0x8000_0000

  /** A channel of the expander; the motors keep channels in 4-bit fields. */
  type Channel = x: int | 0 <= x < 16

  /** A DC motor port (the 2-bit motor number of a DC motor). */
  type DCSlot = x: int | 0 <= x < 4

  const ChannelCount := 16
  /** The on-count that the expander reads as "always on". */
  const FullOn := 4096
  /** The largest duty cycle that is written as an off-count. */
  const MaxDuty := 4095

  datatype Option<T> = None | Some(value: T)

  datatype Level = Low | High

  /** One effect the core has on the outside world, in the order it happens: a
      register write of the expander (`setPWM(ch, on, off)`), or a busy wait of
      `us` microseconds. */
  datatype Event = Write(ch: nat, on: nat, off: nat) | Delay(us: nat)

  function Min(a: int, b: int): int { if a <= b then a else b }

  /** The duty cycle a write sets on its channel: the full-on flag reads as 4096,
      anything else as its off-count. */
  function Duty(e: Event): nat
    requires e.Write?
  {
    if e.on == FullOn then FullOn else e.off
  }

  /** The write `SetPWM(ch, value)` issues: full-on for values above 4095, the
      value as off-count otherwise. */
  function PwmEvent(ch: Channel, value: uint16): (e: Event)
    ensures e.Write? && e.ch == ch
    ensures Duty(e) == Min(value, FullOn)
    ensures e.on == (if value <= MaxDuty then 0 else FullOn)
  {
    if value > MaxDuty then Write(ch, FullOn, 0) else Write(ch, 0, value)
  }

  /** The write `SetPin(ch, level)` issues: a digital level is a duty extreme. */
  function PinEvent(ch: Channel, level: Level): (e: Event)
    ensures e.Write? && e.ch == ch
    ensures Duty(e) == (if level == High then FullOn else 0)
  {
    match level
    case Low => Write(ch, 0, 0)
    case High => Write(ch, FullOn, 0)
  }

  /** A digital write is the PWM write of a duty extreme: LOW is duty 0, HIGH
      is any duty above 4095. */
  lemma PinIsPwmExtreme(ch: Channel, value: uint16)
    ensures PinEvent(ch, Low) == PwmEvent(ch, 0)
    ensures value > MaxDuty ==> PinEvent(ch, High) == PwmEvent(ch, value)
    ensures value <= MaxDuty ==> PwmEvent(ch, value) != PinEvent(ch, High)
  {
  }

  /** The `n` writes `setPWM(i, 0, 0)`, i = 0 .. n-1, that turn every channel off. */
  function ZeroWrites(n: nat): (es: seq<Event>)
    ensures |es| == n
    ensures forall i :: 0 <= i < n ==> es[i] == Write(i, 0, 0)
  {
    seq(n, i requires 0 <= i => Write(i, 0, 0))
  }

  /** The last write to channel `ch` in trace `t`, if any. */
  function LastWrite(t: seq<Event>, ch: nat): Option<Event>
  {
    if t == [] then None
    else if t[|t| - 1].Write? && t[|t| - 1].ch == ch then Some(t[|t| - 1])
    else LastWrite(t[..|t| - 1], ch)
  }

  /** Channel `ch` is driven high (last written by SetPin(ch, HIGH)). */
  predicate IsHigh(t: seq<Event>, ch: Channel)
  {
    LastWrite(t, ch) == Some(PinEvent(ch, High))
  }

  /** Channel `ch` is driven low (last written as LOW, which is also duty 0). */
  predicate IsLow(t: seq<Event>, ch: Channel)
  {
    LastWrite(t, ch) == Some(PinEvent(ch, Low))
  }

  /** A last write found in a trace is a write to that channel, taken from the trace. */
  lemma {:induction false} LastWriteIsWrite(t: seq<Event>, ch: nat)
    ensures LastWrite(t, ch).Some? ==>
              LastWrite(t, ch).value.Write? && LastWrite(t, ch).value.ch == ch
              && LastWrite(t, ch).value in t
    ensures LastWrite(t, ch).None? <==> forall e :: e in t ==> !(e.Write? && e.ch == ch)
  {
    if t != [] {
      LastWriteIsWrite(t[..|t| - 1], ch);
      assert t == t[..|t| - 1] + [t[|t| - 1]];
    }
  }

  /** Appending events changes the state of `ch` only if they write `ch`. */
  lemma {:induction false} LastWriteAppend(t: seq<Event>, u: seq<Event>, ch: nat)
    ensures LastWrite(t + u, ch) == if LastWrite(u, ch).Some? then LastWrite(u, ch) else LastWrite(t, ch)
    decreases |u|
  {
    if u != [] {
      var last := u[|u| - 1];
      assert (t + u)[..|t + u| - 1] == t + u[..|u| - 1];
      LastWriteAppend(t, u[..|u| - 1], ch);
    } else {
      assert t + u == t;
    }
  }

  /** After the writes that turn every channel off, each channel below `n` reads low. */
  lemma {:induction false} ZeroWritesLeaveLow(n: nat, ch: Channel)
    requires ch < n
    ensures LastWrite(ZeroWrites(n), ch) == Some(PinEvent(ch, Low))
  {
    var zs := ZeroWrites(n);
    if ch == n - 1 {
    } else {
      assert zs[..n - 1] == ZeroWrites(n - 1);
      ZeroWritesLeaveLow(n - 1, ch);
    }
  }

  /** Every write in the trace turns its channel off. */
  predicate AllOff(u: seq<Event>)
  {
    forall i :: 0 <= i < |u| ==> u[i].Write? ==> u[i].on == 0 && u[i].off == 0
  }

  /** A trace that only turns channels off leaves every channel it writes low. */
  lemma {:induction false} AllOffLeavesLow(u: seq<Event>, ch: Channel)
    requires AllOff(u)
    ensures LastWrite(u, ch).Some? ==> LastWrite(u, ch) == Some(PinEvent(ch, Low))
  {
    LastWriteIsWrite(u, ch);
  }

  // ---------------------------------------------------------------------------
  // Fixed channel tables

  /** The channels a DC motor is bound to: its PWM channel and two direction pins. */
  datatype DCPins = DCPins(pwm: Channel, in1: Channel, in2: Channel)

  /** The channels of a stepper: PWM and two pins for coil A, the same for coil B. */
  datatype StepperPins = StepperPins(pwmA: Channel, a1: Channel, a2: Channel,
                                     pwmB: Channel, b1: Channel, b2: Channel)

  /** The per-slot table both shields bind DC motors with. */
  function DCPortPins(slot: DCSlot): (p: DCPins)
    ensures p.pwm != p.in1 && p.pwm != p.in2 && p.in1 != p.in2
  {
    match slot
    case 0 => DCPins(8, 10, 9)
    case 1 => DCPins(13, 11, 12)
    case 2 => DCPins(2, 4, 3)
    case 3 => DCPins(7, 5, 6)
  }

  /** The per-slot table the fixed-array shield binds its two steppers with. */
  function StepperPortPins(slot: nat): StepperPins
    requires slot < 2
  {
    if slot == 0 then StepperPins(8, 10, 9, 13, 11, 12)
    else StepperPins(2, 4, 3, 7, 5, 6)
  }

  function DCChannelSet(p: DCPins): set<Channel> { {p.pwm, p.in1, p.in2} }

  function StepperChannelSet(p: StepperPins): set<Channel>
  {
    {p.pwmA, p.a1, p.a2, p.pwmB, p.b1, p.b2}
  }

  /** The six channels are pairwise different. */
  predicate DistinctPins(p: StepperPins)
  {
    |StepperChannelSet(p)| == 6
  }

  /** Stepper slot k drives coil A through DC port 2k and coil B through DC port
      2k+1: its six channels are exactly the channels of those two DC ports, and
      they are six different channels. */
  lemma StepperSharesDCPorts(k: nat)
    requires k < 2
    ensures var s := StepperPortPins(k);
            DCPins(s.pwmA, s.a1, s.a2) == DCPortPins(2 * k)
            && DCPins(s.pwmB, s.b1, s.b2) == DCPortPins(2 * k + 1)
            && StepperChannelSet(s) == DCChannelSet(DCPortPins(2 * k)) + DCChannelSet(DCPortPins(2 * k + 1))
            && DistinctPins(s)
  {
    var s := StepperPortPins(k);
    if k == 0 {
      assert StepperChannelSet(s) == {8, 10, 9, 13, 11, 12};
    } else {
      assert StepperChannelSet(s) == {2, 4, 3, 7, 5, 6};
    }
  }
}
