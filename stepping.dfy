/** The stepper sequencer's tables and the specification of what one step and a
    run of steps emit: the step index cycle per mode, the latch pattern of each
    index, the micro-stepping duty curve, and the step timing arithmetic. */
module Stepping {
  import opened Channels

  /** Micro-steps per full step (the configured resolution). */
  const Microsteps := 8

  /** The quarter-sine duty ramp for 8 micro-steps, one entry more than steps. */
  const MicrostepCurve: seq<uint8> := [0, 50, 98, 142, 180, 212, 236, 250, 255]

  /** Microseconds in a minute, the numerator of the step timing. */
  const MicrosPerMinute := 60_000_000

  datatype StepMode = Single | Double | Interleave | Microstep

  /** A stepping direction: +1 (FORWARD) or -1 (BACKWARD). */
  predicate IsDirection(dir: int) { dir == 1 || dir == -1 }

  /** The number of step indexes in one electrical cycle of the mode. */
  function Cycle(mode: StepMode): nat
  {
    match mode
    case Single => 4
    case Double => 4
    case Interleave => 8
    case Microstep => Microsteps * 4
  }

  /** `(c + dir + k) % k` for the mode's cycle length `k`: the next index in the
      direction of travel, wrapped into the cycle. */
  function NextStep(mode: StepMode, c: nat, dir: int): (c': nat)
    requires IsDirection(dir)
    ensures c' < Cycle(mode)
  {
    match mode
    case Single => (c + dir + 4) % 4
    case Double => (c + dir + 4) % 4
    case Interleave => (c + dir + 8) % 8
    case Microstep => (c + dir + Microsteps * 4) % (Microsteps * 4)
  }

  /** A step is the index moved by `dir` and reduced modulo the cycle. */
  lemma NextStepModCycle(mode: StepMode, c: nat, dir: int)
    requires IsDirection(dir)
    ensures NextStep(mode, c, dir) == (c + dir) % Cycle(mode)
  {
  }

  /** A step back undoes a step forward, and the other way round. */
  lemma StepBackUndoesStep(mode: StepMode, c: nat, dir: int)
    requires IsDirection(dir) && c < Cycle(mode)
    ensures NextStep(mode, NextStep(mode, c, dir), -dir) == c
  {
    NextStepModCycle(mode, c, dir);
    NextStepModCycle(mode, NextStep(mode, c, dir), -dir);
    UndoShift(c, dir, Cycle(mode));
  }

  // ---------------------------------------------------------------------------
  // Latch patterns. Bit 0 drives pin A2, bit 1 pin B1, bit 2 pin A1, bit 3 pin B2.

  const BitA2: bv8 := 0x1
  const BitB1: bv8 := 0x2
  const BitA1: bv8 := 0x4
  const BitB2: bv8 := 0x8

  /** Full-step pattern for index 0..3: coils 1+2, 2+3, 3+4, 1+4. */
  const FullStepLatches: seq<bv8> := [0x3, 0x6, 0xC, 0x9]

  /** Half-step pattern for index 0..7, alternating one and two coils. */
  const HalfStepLatches: seq<bv8> := [0x1, 0x3, 0x2, 0x6, 0x4, 0xC, 0x8, 0x9]

  /** No coil has both of its pins set: not A1 with A2, not B1 with B2. */
  predicate CoilSafe(latch: bv8)
  {
    && !(latch & BitA1 != 0 && latch & BitA2 != 0)
    && !(latch & BitB1 != 0 && latch & BitB2 != 0)
  }

  /** The number of pins a latch pattern sets. */
  function PinsSet(latch: bv8): nat
  {
    (if latch & BitA2 != 0 then 1 else 0) + (if latch & BitB1 != 0 then 1 else 0)
    + (if latch & BitA1 != 0 then 1 else 0) + (if latch & BitB2 != 0 then 1 else 0)
  }

  /** The latch pattern of step index `i` in `mode`; micro-stepping uses the
      full-step pattern of its phase `i / 8`. Every pattern energises one or two
      pins, uses only the four pin bits, and never both pins of one coil. */
  function Latch(mode: StepMode, i: nat): (l: bv8)
    requires i < Cycle(mode)
    ensures CoilSafe(l)
    ensures l & 0xF0 == 0
    ensures 1 <= PinsSet(l) <= 2
    ensures mode != Interleave ==> PinsSet(l) == 2
  {
    match mode
    case Single => FullStepLatches[i]
    case Double => FullStepLatches[i]
    case Interleave => HalfStepLatches[i]
    case Microstep => FullStepLatches[i / Microsteps]
  }

  /** Interleaving refines full stepping: its odd indexes are the full-step
      patterns, its even indexes energise a single pin shared by the neighbours. */
  lemma InterleaveRefinesFullStep(j: nat)
    requires j < 4
    ensures Latch(Interleave, 2 * j + 1) == Latch(Single, j)
    ensures PinsSet(Latch(Interleave, 2 * j)) == 1
    ensures Latch(Interleave, 2 * j) & Latch(Interleave, 2 * j + 1) == Latch(Interleave, 2 * j)
    ensures Latch(Interleave, 2 * j) & Latch(Interleave, (2 * j + 7) % 8) == Latch(Interleave, 2 * j)
  {
  }

  // ---------------------------------------------------------------------------
  // Duties

  /** The curve rises strictly from 0 to 255. */
  lemma CurveAscending(i: nat, j: nat)
    requires i < j <= Microsteps
    ensures MicrostepCurve[i] < MicrostepCurve[j]
    ensures MicrostepCurve[0] == 0 && MicrostepCurve[Microsteps] == 255
  {
  }

  /** The 8-bit duties of coils A and B at index `i`: full (255) except in
      micro-stepping, where the two coils take complementary points of the
      curve, A falling in even phases and rising in odd ones. */
  function Duties(mode: StepMode, i: nat): (d: (uint8, uint8))
    requires i < Cycle(mode)
    ensures mode != Microstep ==> d == (255, 255)
  {
    if mode != Microstep then (255, 255)
    else
      var phase, micro := i / Microsteps, i % Microsteps;
      if phase % 2 == 0 then (MicrostepCurve[Microsteps - micro], MicrostepCurve[micro])
      else (MicrostepCurve[micro], MicrostepCurve[Microsteps - micro])
  }

  /** Within one micro-stepping phase, coil A ramps down while coil B ramps up
      (phases 0 and 2) or the other way round (phases 1 and 3). */
  lemma MicrostepRamp(i: nat)
    requires i + 1 < Cycle(Microstep) && (i + 1) % Microsteps != 0
    ensures var (a, b) := Duties(Microstep, i);
            var (a', b') := Duties(Microstep, i + 1);
            if (i / Microsteps) % 2 == 0 then a' < a && b < b' else a < a' && b' < b
  {
    var m := i % Microsteps;
    assert (i + 1) / Microsteps == i / Microsteps && (i + 1) % Microsteps == m + 1;
    CurveAscending(m, m + 1);
    CurveAscending(Microsteps - m - 1, Microsteps - m);
  }

  /** At the first index of each phase one coil carries the full duty and the
      other none, with the latch of that full step. */
  lemma MicrostepPhaseStart(phase: nat)
    requires phase < 4
    ensures var d := Duties(Microstep, phase * Microsteps);
            d == (if phase % 2 == 0 then (255, 0) else (0, 255))
    ensures Latch(Microstep, phase * Microsteps) == Latch(Single, phase)
  {
  }

  // ---------------------------------------------------------------------------
  // Emitted writes

  /** The level a latch bit sets its pin to. */
  function BitLevel(latch: bv8, bit: bv8): Level
  {
    if latch & bit != 0 then High else Low
  }

  /** The six writes of one step, in order: PWM A, PWM B, then pins A2, B1, A1,
      B2 from latch bits 0 to 3. Duties are scaled by 16 to the 12-bit range. */
  function StepEvents(p: StepperPins, latch: bv8, dutyA: uint8, dutyB: uint8): seq<Event>
  {
    [ PwmEvent(p.pwmA, dutyA * 16), PwmEvent(p.pwmB, dutyB * 16),
      PinEvent(p.a2, BitLevel(latch, BitA2)), PinEvent(p.b1, BitLevel(latch, BitB1)),
      PinEvent(p.a1, BitLevel(latch, BitA1)), PinEvent(p.b2, BitLevel(latch, BitB2)) ]
  }

  /** The writes that put the motor at step index `i` of `mode`. */
  function StepAt(p: StepperPins, mode: StepMode, i: nat): seq<Event>
    requires i < Cycle(mode)
  {
    StepEvents(p, Latch(mode, i), Duties(mode, i).0, Duties(mode, i).1)
  }

  /** The writes of Release: PWM A off, A1, A2 low, PWM B off, B1, B2 low. */
  function ReleaseEvents(p: StepperPins): seq<Event>
  {
    [ PwmEvent(p.pwmA, 0), PinEvent(p.a1, Low), PinEvent(p.a2, Low),
      PwmEvent(p.pwmB, 0), PinEvent(p.b1, Low), PinEvent(p.b2, Low) ]
  }

  /** The last write to `ch` in `u` is `u[k]` when `u[k]` writes `ch` and no later event does. */
  lemma {:induction false} LastWriteAt(u: seq<Event>, k: nat, ch: nat)
    requires k < |u| && u[k].Write? && u[k].ch == ch
    requires forall j :: k < j < |u| ==> !(u[j].Write? && u[j].ch == ch)
    ensures LastWrite(u, ch) == Some(u[k])
    decreases |u|
  {
    if k < |u| - 1 {
      LastWriteAt(u[..|u| - 1], k, ch);
    }
  }

  /** One step, wherever the trace was, leaves each coil pin at the level of
      its latch bit, both PWM channels at the scaled duties, and so no coil with
      both pins high. */
  lemma {:induction false} StepSettlesPins(t: seq<Event>, p: StepperPins, mode: StepMode, i: nat)
    requires i < Cycle(mode) && DistinctPins(p)
    ensures var t' := t + StepAt(p, mode, i);
            var l := Latch(mode, i);
            && LastWrite(t', p.pwmA) == Some(PwmEvent(p.pwmA, Duties(mode, i).0 * 16))
            && LastWrite(t', p.pwmB) == Some(PwmEvent(p.pwmB, Duties(mode, i).1 * 16))
            && LastWrite(t', p.a2) == Some(PinEvent(p.a2, BitLevel(l, BitA2)))
            && LastWrite(t', p.b1) == Some(PinEvent(p.b1, BitLevel(l, BitB1)))
            && LastWrite(t', p.a1) == Some(PinEvent(p.a1, BitLevel(l, BitA1)))
            && LastWrite(t', p.b2) == Some(PinEvent(p.b2, BitLevel(l, BitB2)))
            && !(IsHigh(t', p.a1) && IsHigh(t', p.a2))
            && !(IsHigh(t', p.b1) && IsHigh(t', p.b2))
  {
    var es := StepAt(p, mode, i);
    DistinctSix(p);
    SettleAt(t, es, 0, p.pwmA);
    SettleAt(t, es, 1, p.pwmB);
    SettleAt(t, es, 2, p.a2);
    SettleAt(t, es, 3, p.b1);
    SettleAt(t, es, 4, p.a1);
    SettleAt(t, es, 5, p.b2);
  }

  /** Appending `es` leaves `ch` as `es[k]` wrote it, when no later event of `es` writes `ch`. */
  lemma SettleAt(t: seq<Event>, es: seq<Event>, k: nat, ch: nat)
    requires k < |es| && es[k].Write? && es[k].ch == ch
    requires forall j :: k < j < |es| ==> !(es[j].Write? && es[j].ch == ch)
    ensures LastWrite(t + es, ch) == Some(es[k])
  {
    LastWriteAt(es, k, ch);
    LastWriteAppend(t, es, ch);
  }

  /** Six channels whose set has six elements are pairwise different. */
  lemma DistinctSix(p: StepperPins)
    requires DistinctPins(p)
    ensures p.pwmA != p.a1 && p.pwmA != p.a2 && p.pwmA != p.pwmB && p.pwmA != p.b1 && p.pwmA != p.b2
    ensures p.a1 != p.a2 && p.a1 != p.pwmB && p.a1 != p.b1 && p.a1 != p.b2
    ensures p.a2 != p.pwmB && p.a2 != p.b1 && p.a2 != p.b2
    ensures p.pwmB != p.b1 && p.pwmB != p.b2
    ensures p.b1 != p.b2
  {
  }

  /** Release leaves all four coil pins low and both coil duties at zero. */
  lemma {:induction false} ReleaseSettlesPins(t: seq<Event>, p: StepperPins)
    requires DistinctPins(p)
    ensures var t' := t + ReleaseEvents(p);
            && IsLow(t', p.a1) && IsLow(t', p.a2) && IsLow(t', p.b1) && IsLow(t', p.b2)
            && IsLow(t', p.pwmA) && IsLow(t', p.pwmB)
  {
    var es := ReleaseEvents(p);
    DistinctSix(p);
    SettleAt(t, es, 0, p.pwmA);
    SettleAt(t, es, 1, p.a1);
    SettleAt(t, es, 2, p.a2);
    SettleAt(t, es, 3, p.pwmB);
    SettleAt(t, es, 4, p.b1);
    SettleAt(t, es, 5, p.b2);
  }

  // ---------------------------------------------------------------------------
  // Coil safety between the writes of one step

  /** Both pins of one coil are driven high: the driver short-brakes that coil. */
  predicate Shorted(t: seq<Event>, x1: Channel, x2: Channel)
  {
    IsHigh(t, x1) && IsHigh(t, x2)
  }

  /** Neither coil of the motor is short-braked. */
  predicate CoilsClear(t: seq<Event>, p: StepperPins)
  {
    !Shorted(t, p.a1, p.a2) && !Shorted(t, p.b1, p.b2)
  }

  /** Writes that do not touch `ch` leave its last write where it was. */
  lemma Untouched(t: seq<Event>, u: seq<Event>, ch: nat)
    requires forall j :: 0 <= j < |u| ==> !(u[j].Write? && u[j].ch == ch)
    ensures LastWrite(t + u, ch) == LastWrite(t, ch)
  {
    LastWriteIsWrite(u, ch);
    LastWriteAppend(t, u, ch);
  }

  /** The library's pin order writes A2 third: over a state where A1 is high,
      a latch that sets A2 short-brakes coil A after three writes. */
  lemma OrderRaisesA2First(t: seq<Event>, p: StepperPins, latch: bv8, dutyA: uint8, dutyB: uint8)
    requires DistinctPins(p) && IsHigh(t, p.a1) && latch & BitA2 != 0
    ensures Shorted(t + StepEvents(p, latch, dutyA, dutyB)[..3], p.a1, p.a2)
  {
    var u := StepEvents(p, latch, dutyA, dutyB)[..3];
    DistinctSix(p);
    SettleAt(t, u, 2, p.a2);
    Untouched(t, u, p.a1);
  }

  /** The library's pin order writes B1 fourth and B2 last: over a state where
      B2 is high, a latch that sets B1 short-brakes coil B after four writes. */
  lemma OrderRaisesB1First(t: seq<Event>, p: StepperPins, latch: bv8, dutyA: uint8, dutyB: uint8)
    requires DistinctPins(p) && IsHigh(t, p.b2) && latch & BitB1 != 0
    ensures Shorted(t + StepEvents(p, latch, dutyA, dutyB)[..4], p.b1, p.b2)
  {
    var u := StepEvents(p, latch, dutyA, dutyB)[..4];
    DistinctSix(p);
    SettleAt(t, u, 3, p.b1);
    Untouched(t, u, p.b2);
  }

  /** The step writes in the library's order (A2, B1, A1, B2) pass through a
      state where a coil has both pins high, although the states before and
      after each step are clear: stepping back from single-coil index 1 to 0
      raises A2 while A1 is still high, and wrapping forward from index 3 to 0
      raises B1 while B2 is still high. */
  lemma WriteOrderShortsCoil(p: StepperPins)
    requires DistinctPins(p)
    ensures CoilsClear(StepAt(p, Single, 0), p) && CoilsClear(StepAt(p, Single, 1), p)
    ensures CoilsClear(StepAt(p, Single, 3), p)
    ensures Shorted(StepAt(p, Single, 1) + StepAt(p, Single, 0)[..3], p.a1, p.a2)
    ensures Shorted(StepAt(p, Single, 3) + StepAt(p, Single, 0)[..4], p.b1, p.b2)
  {
    var s0, s1, s3 := StepAt(p, Single, 0), StepAt(p, Single, 1), StepAt(p, Single, 3);
    assert [] + s0 == s0 && [] + s1 == s1 && [] + s3 == s3;
    StepSettlesPins([], p, Single, 0);
    StepSettlesPins([], p, Single, 1);
    StepSettlesPins([], p, Single, 3);
    OrderRaisesA2First(s1, p, Latch(Single, 0), 255, 255);
    OrderRaisesB1First(s3, p, Latch(Single, 0), 255, 255);
  }

  /** The two pin writes of one coil with pins `x1`, `x2` and target levels
      `l1`, `l2`, the pin that ends low first: the first write always lowers
      one of the coil's pins, the second sets the other one. */
  function CoilWrites(x1: Channel, x2: Channel, l1: Level, l2: Level): (w: (Event, Event))
    ensures w.0 == PinEvent(x1, Low) || w.0 == PinEvent(x2, Low)
    ensures w.0.Write? && w.1.Write? && {w.0.ch, w.1.ch} == {x1, x2}
  {
    if l1 == High then (PinEvent(x2, Low), PinEvent(x1, High))
    else (PinEvent(x1, Low), PinEvent(x2, l2))
  }

  /** The six writes of one step with each coil's low pin written before its
      high pin, as the DC direction protocol does for its two inputs. */
  function SafeStepEvents(p: StepperPins, latch: bv8, dutyA: uint8, dutyB: uint8): (es: seq<Event>)
    ensures |es| == 6 && es[..2] == StepEvents(p, latch, dutyA, dutyB)[..2]
  {
    var a := CoilWrites(p.a1, p.a2, BitLevel(latch, BitA1), BitLevel(latch, BitA2));
    var b := CoilWrites(p.b1, p.b2, BitLevel(latch, BitB1), BitLevel(latch, BitB2));
    [PwmEvent(p.pwmA, dutyA * 16), PwmEvent(p.pwmB, dutyB * 16), a.0, b.0, a.1, b.1]
  }

  /** The low-first writes end in the same pin levels and duties as the
      library's writes of the same latch, so the step itself is unchanged. */
  lemma {:induction false} SafeStepSettles(t: seq<Event>, p: StepperPins, latch: bv8, dutyA: uint8, dutyB: uint8)
    requires DistinctPins(p) && CoilSafe(latch)
    ensures var t' := t + SafeStepEvents(p, latch, dutyA, dutyB);
            && LastWrite(t', p.pwmA) == Some(PwmEvent(p.pwmA, dutyA * 16))
            && LastWrite(t', p.pwmB) == Some(PwmEvent(p.pwmB, dutyB * 16))
            && LastWrite(t', p.a2) == Some(PinEvent(p.a2, BitLevel(latch, BitA2)))
            && LastWrite(t', p.b1) == Some(PinEvent(p.b1, BitLevel(latch, BitB1)))
            && LastWrite(t', p.a1) == Some(PinEvent(p.a1, BitLevel(latch, BitA1)))
            && LastWrite(t', p.b2) == Some(PinEvent(p.b2, BitLevel(latch, BitB2)))
  {
    var es := SafeStepEvents(p, latch, dutyA, dutyB);
    DistinctSix(p);
    SettleAt(t, es, 0, p.pwmA);
    SettleAt(t, es, 1, p.pwmB);
    if latch & BitA1 != 0 {
      SettleAt(t, es, 4, p.a1);
      SettleAt(t, es, 2, p.a2);
    } else {
      SettleAt(t, es, 2, p.a1);
      SettleAt(t, es, 4, p.a2);
    }
    if latch & BitB1 != 0 {
      SettleAt(t, es, 5, p.b1);
      SettleAt(t, es, 3, p.b2);
    } else {
      SettleAt(t, es, 3, p.b1);
      SettleAt(t, es, 5, p.b2);
    }
  }

  /** From a state where no coil is short-braked, no prefix of the low-first
      writes short-brakes a coil, whatever the latch. */
  lemma {:induction false} SafeStepNeverShorts(t: seq<Event>, p: StepperPins, latch: bv8, dutyA: uint8, dutyB: uint8, k: nat)
    requires DistinctPins(p) && k <= 6 && CoilsClear(t, p)
    ensures CoilsClear(t + SafeStepEvents(p, latch, dutyA, dutyB)[..k], p)
  {
    var es := SafeStepEvents(p, latch, dutyA, dutyB);
    var u := es[..k];
    DistinctSix(p);
    if k <= 2 {
      Untouched(t, u, p.a1);
      Untouched(t, u, p.a2);
    } else {
      SettleAt(t, u, 2, es[2].ch);
    }
    if k <= 3 {
      Untouched(t, u, p.b1);
      Untouched(t, u, p.b2);
    } else {
      SettleAt(t, u, 3, es[3].ch);
    }
  }

  // ---------------------------------------------------------------------------
  // Runs of steps

  /** The index after `n` steps in direction `dir` from index `c`. */
  function Iterate(mode: StepMode, c: nat, dir: int, n: nat): nat
    requires IsDirection(dir)
  {
    if n == 0 then c else NextStep(mode, Iterate(mode, c, dir, n - 1), dir)
  }

  /** The writes of `n` steps from index `c0`, each followed by the step delay. */
  function RunEvents(p: StepperPins, mode: StepMode, c0: nat, dir: int, n: nat, interval: uint32): seq<Event>
    requires IsDirection(dir)
  {
    if n == 0 then []
    else
      var c := Iterate(mode, c0, dir, n);
      assert c < Cycle(mode);
      RunEvents(p, mode, c0, dir, n - 1, interval) + StepAt(p, mode, c) + [Delay(interval)]
  }

  /** One more step of a run appends that step's writes and its delay. */
  lemma RunEventsSnoc(t0: seq<Event>, p: StepperPins, mode: StepMode, c0: nat, dir: int, k: nat, interval: uint32)
    requires IsDirection(dir)
    ensures var c := Iterate(mode, c0, dir, k + 1);
            c < Cycle(mode)
            && t0 + RunEvents(p, mode, c0, dir, k, interval) + StepAt(p, mode, c) + [Delay(interval)]
               == t0 + RunEvents(p, mode, c0, dir, k + 1, interval)
  {
  }

  /** `(x % k + y) % k == (x + y) % k` for the cycle lengths. */
  lemma ModAddMod(x: int, y: int, k: nat)
    requires k == 4 || k == 8 || k == 32
    ensures (x % k + y) % k == (x + y) % k
  {
    if k == 4 {
      ModAddMod4(x, y);
    } else if k == 8 {
      ModAddMod8(x, y);
    } else {
      ModAddMod32(x, y);
    }
  }

  // `ModAddMod` for each cycle length, from the quotient of `x`; a literal
  // modulus keeps the arithmetic linear.

  lemma ModAddMod4(x: int, y: int)
    ensures (x % 4 + y) % 4 == (x + y) % 4
  {
    assert x == 4 * (x / 4) + x % 4;
  }

  lemma ModAddMod8(x: int, y: int)
    ensures (x % 8 + y) % 8 == (x + y) % 8
  {
    assert x == 8 * (x / 8) + x % 8;
  }

  lemma ModAddMod32(x: int, y: int)
    ensures (x % 32 + y) % 32 == (x + y) % 32
  {
    assert x == 32 * (x / 32) + x % 32;
  }

  /** After `n >= 1` steps the index is the start index moved by `dir * n`,
      taken modulo the cycle. */
  lemma {:induction false} IterateClosedForm(mode: StepMode, c: nat, dir: int, n: nat)
    requires IsDirection(dir) && n > 0
    ensures Iterate(mode, c, dir, n) == (c + dir * n) % Cycle(mode)
  {
    NextStepModCycle(mode, Iterate(mode, c, dir, n - 1), dir);
    if n > 1 {
      IterateClosedForm(mode, c, dir, n - 1);
      ModAddMod(c + dir * (n - 1), dir, Cycle(mode));
    }
  }

  /** Moving an index of a cycle by one whole cycle either way lands on it again. */
  lemma ShiftByCycle(c: nat, k: nat, shift: int)
    requires (k == 4 || k == 8 || k == 32) && c < k && (shift == k as int || shift == -(k as int))
    ensures (c + shift) % k == c
  {
  }

  /** Step sequences are periodic: a whole cycle of steps returns to the start index. */
  lemma IteratePeriodic(mode: StepMode, c: nat, dir: int)
    requires IsDirection(dir) && c < Cycle(mode)
    ensures Iterate(mode, c, dir, Cycle(mode)) == c
  {
    var k := Cycle(mode);
    IterateClosedForm(mode, c, dir, k);
    var shift: int := if dir == 1 then k as int else -(k as int);
    assert dir * k == shift;
    ShiftByCycle(c, k, shift);
  }

  /** `n` steps back after `n` steps forward return to the start index. */
  lemma IterateReverse(mode: StepMode, c: nat, dir: int, n: nat)
    requires IsDirection(dir) && c < Cycle(mode) && n > 0
    ensures Iterate(mode, Iterate(mode, c, dir, n), -dir, n) == c
  {
    var k := Cycle(mode);
    var d: int := if dir == 1 then n as int else -(n as int);
    assert dir * n == d && -dir * n == -d;
    var c' := Iterate(mode, c, dir, n);
    IterateClosedForm(mode, c, dir, n);
    IterateClosedForm(mode, c', -dir, n);
    UndoShift(c, d, k);
  }

  /** Shifting an index of the cycle by `d` and then by `-d` gives it back. */
  lemma UndoShift(c: nat, d: int, k: nat)
    requires (k == 4 || k == 8 || k == 32) && c < k
    ensures ((c + d) % k + -d) % k == c
  {
    ModAddMod(c + d, -d, k);
  }

  /** A micro-stepping run of whole full steps (`8 * m` micro-steps) leaves the
      micro-step within the phase where it was. */
  lemma MicrostepRunKeepsMicroStep(c: nat, dir: int, m: nat)
    requires IsDirection(dir) && m > 0
    ensures Iterate(Microstep, c, dir, Microsteps * m) % Microsteps == c % Microsteps
  {
    var j: int := if dir == 1 then m as int else -(m as int);
    assert dir * (Microsteps * m) == 8 * j;
    IterateClosedForm(Microstep, c, dir, Microsteps * m);
    WholeStepsKeepMicroStep(c, j);
  }

  /** Moving by whole full steps (multiples of 8) within the 32-step cycle keeps
      the position within the full step. */
  lemma WholeStepsKeepMicroStep(c: int, j: int)
    ensures (c + 8 * j) % 32 % 8 == c % 8
  {
    var y := c + 8 * j;
    var q := y / 32;
    assert y % 32 == y - 32 * q;
    EightMultiple(y % 32, 4 * q);
    EightMultiple(c, j);
  }

  /** Adding a multiple of 8 does not change the remainder modulo 8. */
  lemma EightMultiple(a: int, t: int)
    ensures (a + 8 * t) % 8 == a % 8
  {
  }

  /** A run of `n` steps emits exactly `n` delays, and seven events per step. */
  lemma {:induction false} RunEventsShape(p: StepperPins, mode: StepMode, c0: nat, dir: int, n: nat, interval: uint32)
    requires IsDirection(dir)
    ensures |RunEvents(p, mode, c0, dir, n, interval)| == 7 * n
    ensures forall k :: 0 <= k < n ==> RunEvents(p, mode, c0, dir, n, interval)[7 * k + 6] == Delay(interval)
  {
    if n > 0 {
      RunEventsShape(p, mode, c0, dir, n - 1, interval);
      var prev := RunEvents(p, mode, c0, dir, n - 1, interval);
      var c := Iterate(mode, c0, dir, n);
      var r := RunEvents(p, mode, c0, dir, n, interval);
      assert r == prev + StepAt(p, mode, c) + [Delay(interval)];
      forall k | 0 <= k < n
        ensures r[7 * k + 6] == Delay(interval)
      {
        if k < n - 1 {
          assert r[7 * k + 6] == prev[7 * k + 6];
        } else {
          assert 7 * k + 6 == |r| - 1;
        }
      }
    }
  }

  /** Running four single steps forward from index 0 visits the patterns
      0x6, 0xC, 0x9, 0x3. */
  lemma FourSingleStepsFromZero()
    ensures Latch(Single, Iterate(Single, 0, 1, 1)) == 0x6
    ensures Latch(Single, Iterate(Single, 0, 1, 2)) == 0xC
    ensures Latch(Single, Iterate(Single, 0, 1, 3)) == 0x9
    ensures Latch(Single, Iterate(Single, 0, 1, 4)) == 0x3
  {
  }

  // ---------------------------------------------------------------------------
  // Timing

  /** `x` truncated to 32 bits, as unsigned C arithmetic does. */
  function Wrap32(x: int): uint32 { x % 0x1_0000_0000 }

  /** `60,000,000 / (stepsPerRev * rpm)`, the microseconds per step; the
      product of two 16-bit factors cannot overflow 32 bits. */
  function UsPerStep(stepsPerRev: uint16, rpm: uint16): uint32
    requires stepsPerRev > 0 && rpm > 0
  {
    MicrosPerMinute / (stepsPerRev * rpm)
  }

  /** The step time is the largest whole number of microseconds at which one
      revolution takes at most a minute. */
  lemma UsPerStepBounds(stepsPerRev: uint16, rpm: uint16)
    requires stepsPerRev > 0 && rpm > 0
    ensures var us := UsPerStep(stepsPerRev, rpm);
            us * (stepsPerRev * rpm) <= MicrosPerMinute < (us + 1) * (stepsPerRev * rpm)
  {
  }

  /** The speed getter: `60,000,000 / (stepsPerRev * usPerStep)` with the product
      in 32 bits and the quotient truncated to 16 bits. */
  function RpmOf(stepsPerRev: uint16, usPerStep: uint32): uint16
    requires Wrap32(stepsPerRev * usPerStep) != 0
  {
    (MicrosPerMinute / Wrap32(stepsPerRev * usPerStep)) % 0x1_0000
  }

  /** Without wrap-around the getter returns the largest speed at which one
      revolution, at the stored step time, fits in a minute. */
  lemma RpmOfBounds(stepsPerRev: uint16, usPerStep: uint32)
    requires 0 < stepsPerRev * usPerStep < 0x1_0000_0000
    requires MicrosPerMinute / (stepsPerRev * usPerStep) < 0x1_0000
    ensures var rpm := RpmOf(stepsPerRev, usPerStep);
            rpm * (stepsPerRev * usPerStep) <= MicrosPerMinute < (rpm + 1) * (stepsPerRev * usPerStep)
  {
    var d := stepsPerRev * usPerStep;
    var q := MicrosPerMinute / d;
    assert Wrap32(d) == d;
    assert RpmOf(stepsPerRev, usPerStep) == q;
    DivBounds(MicrosPerMinute, d);
  }

  /** The quotient of a division is the largest multiple that fits. */
  lemma DivBounds(m: int, d: int)
    requires m >= 0 && d > 0
    ensures (m / d) * d <= m < (m / d + 1) * d
  {
    var q, r := m / d, m % d;
    assert m == d * q + r;
    assert (q + 1) * d == q * d + d;
  }

  /** When `stepsPerRev * rpm` divides a minute exactly, the getter returns the
      speed that was set. */
  lemma SpeedRoundTrip(stepsPerRev: uint16, rpm: uint16)
    requires stepsPerRev > 0 && rpm > 0
    requires MicrosPerMinute % (stepsPerRev * rpm) == 0
    ensures Wrap32(stepsPerRev * UsPerStep(stepsPerRev, rpm)) != 0
    ensures RpmOf(stepsPerRev, UsPerStep(stepsPerRev, rpm)) == rpm
  {
    var us := UsPerStep(stepsPerRev, rpm);
    UsPerStepBounds(stepsPerRev, rpm);
    assert us * (stepsPerRev * rpm) == MicrosPerMinute;
    var q := stepsPerRev * us;
    assert q * rpm == MicrosPerMinute;
    assert 0 < q <= MicrosPerMinute;
    DivExact(MicrosPerMinute, q, rpm);
  }

  /** `m / a == b` when `m == a * b`. */
  lemma DivExact(m: int, a: int, b: int)
    requires a > 0 && a * b == m
    ensures m / a == b
  {
    var q, r := m / a, m % a;
    assert a * (b - q) == r by {
      assert m == a * q + r;
    }
    if b - q >= 1 {
      MulAtLeast(a, b - q);
      assert false;
    } else if q - b >= 1 {
      MulAtLeast(a, q - b);
      assert false;
    }
  }

  /** A positive multiple of a positive number is at least that number. */
  lemma {:induction false} MulAtLeast(a: int, k: int)
    requires a > 0 && k >= 1
    ensures a * k >= a
    decreases k
  {
    if k > 1 {
      MulAtLeast(a, k - 1);
      assert a * k == a * (k - 1) + a;
    }
  }

  /** 200 steps per revolution at 60 rpm give 5000 us per step, and back. */
  lemma SpeedExample()
    ensures UsPerStep(200, 60) == 5000
    ensures RpmOf(200, 5000) == 60
  {
  }

  /** The delay between steps: halved in half-stepping, divided by the
      resolution in micro-stepping. */
  function StepInterval(mode: StepMode, usPerStep: uint32): uint32
  {
    match mode
    case Interleave => usPerStep / 2
    case Microstep => usPerStep / Microsteps
    case Single => usPerStep
    case Double => usPerStep
  }
}
