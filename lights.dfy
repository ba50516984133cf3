/**
 * The light subsystem: the brightness level that the animation task
 * computes for a light from its mode and a 32-bit microsecond timestamp,
 * and the two static modes that the rest of the firmware selects.
 *
 * The level is computed in uint32 arithmetic and then handed to the PWM
 * stage as a uint16_t; both conversions are written out here so that the
 * lemmas can show that neither of them ever changes a value.
 */
module LightsSubsystem {

  const UINT32_MODULUS: int := 0x1_0000_0000
  const UINT16_MODULUS: int := 0x1_0000

  type uint32 = x: int | 0 <= x < UINT32_MODULUS
  type uint16 = x: int | 0 <= x < UINT16_MODULUS

  const PULSE_LENGTH: uint32 := 2000000
  const PULSE_HALF_LENGTH: uint32 := 1000000
  const PULSE_DIVISOR: uint32 := 16
  const BLINK_LENGTH: uint32 := 1000000
  const BLINK_ON_LENGTH: uint32 := 250000
  /** The top of the Alt2 ramp, the largest Pulse level. */
  const ALT2_TOP: uint32 := 62500
  const FULL_LEVEL: uint16 := 0xFFFF

  datatype LightMode = Off | On | Pulse | Blink | Alt1 | Alt2
  datatype Light = Left | Right

  /** Unsigned 32-bit subtraction, wrapping below zero. */
  function Sub32(a: uint32, b: uint32): uint32
  {
    (a - b) % UINT32_MODULUS
  }

  /** The implicit uint32 -> uint16_t conversion at the call of the PWM stage. */
  function ToUint16(x: uint32): uint16
  {
    x % UINT16_MODULUS
  }

  /** The ramp shared by Pulse and Alt1, on a position c within the pulse cycle. */
  function PulseRamp(c: uint32): uint32
    requires c < PULSE_LENGTH
  {
    if c < PULSE_HALF_LENGTH then c / PULSE_DIVISOR
    else Sub32(PULSE_LENGTH, c) / PULSE_DIVISOR
  }

  /** The argument of light_subsystem_set as a uint32 expression, before the uint16_t conversion. */
  function RawLevel(mode: LightMode, now: uint32): uint32
  {
    match mode
    case Off => 0
    case On => FULL_LEVEL
    case Pulse => PulseRamp(now % PULSE_LENGTH)
    case Blink => if now % BLINK_LENGTH < BLINK_ON_LENGTH then FULL_LEVEL else 0
    case Alt1 => PulseRamp(now % PULSE_LENGTH)
    case Alt2 =>
      var c := now % PULSE_LENGTH;
      if c < PULSE_HALF_LENGTH then Sub32(ALT2_TOP, c / PULSE_DIVISOR)
      else Sub32(ALT2_TOP, Sub32(PULSE_LENGTH, c) / PULSE_DIVISOR)
  }

  /**
   * The level light_subsystem_run hands to the gamma/PWM stage for a light
   * in the given mode at timestamp now.  The conversion to uint16_t never
   * truncates: the level is the uint32 value itself.
   */
  function RunLevel(mode: LightMode, now: uint32): (level: uint16)
    ensures level == RawLevel(mode, now)
  {
    RampFitsHalfRange(now % PULSE_LENGTH);
    ToUint16(RawLevel(mode, now))
  }

  /** The pulse ramp never wraps and never exceeds ALT2_TOP. */
  lemma RampFitsHalfRange(c: uint32)
    requires c < PULSE_LENGTH
    ensures PulseRamp(c) <= ALT2_TOP
    ensures c >= PULSE_HALF_LENGTH ==> Sub32(PULSE_LENGTH, c) == PULSE_LENGTH - c
  {
  }

  /** The pulse level in closed form, on integers: a triangle of period PULSE_LENGTH. */
  function TriangleLevel(now: uint32): int
  {
    var c := now % 2000000;
    if c < 1000000 then c / 16 else (2000000 - c) / 16
  }

  lemma OffAndOnLevels(now: uint32)
    ensures RunLevel(Off, now) == 0
    ensures RunLevel(On, now) == 0xFFFF
  {
  }

  /** Pulse follows the triangle on plain integers, so no uint32 wrap occurs, and peaks at 62500. */
  lemma PulseIsTriangle(now: uint32)
    ensures RunLevel(Pulse, now) == TriangleLevel(now)
    ensures 0 <= RunLevel(Pulse, now) <= 62500
  {
    RampFitsHalfRange(now % PULSE_LENGTH);
  }

  /** The pulse ramp reads the same at c and at its mirror image PULSE_LENGTH - c. */
  lemma PulseSymmetric(c: uint32)
    requires 0 < c < PULSE_LENGTH
    ensures PulseRamp(c) == PulseRamp(PULSE_LENGTH - c)
  {
  }

  lemma Alt1IsPulse(now: uint32)
    ensures RunLevel(Alt1, now) == RunLevel(Pulse, now)
  {
  }

  /** Alt2 is Pulse turned upside down; its unsigned subtraction never wraps. */
  lemma Alt2IsInvertedPulse(now: uint32)
    ensures RunLevel(Alt2, now) == 62500 - RunLevel(Pulse, now)
    ensures 0 <= RunLevel(Alt2, now) <= 62500
  {
    RampFitsHalfRange(now % PULSE_LENGTH);
  }

  lemma BlinkLevels(now: uint32)
    ensures now % 1000000 < 250000 ==> RunLevel(Blink, now) == 0xFFFF
    ensures now % 1000000 >= 250000 ==> RunLevel(Blink, now) == 0
  {
  }

  /**
   * The timestamp is the low 32 bits of the microsecond clock, so the pulse
   * restarts when it wraps, about every 71.6 minutes: from 60455 straight to 0.
   */
  lemma PulseRestartsAtWrap()
    ensures RunLevel(Pulse, UINT32_MODULUS - 1) == 60455
    ensures RunLevel(Pulse, 0) == 0
  {
    PulseIsTriangle(UINT32_MODULUS - 1);
  }

  /** The two static modes, both Off at start-up. */
  class LightModes {
    var leftMode: LightMode
    var rightMode: LightMode

    constructor ()
      ensures leftMode == Off && rightMode == Off
    {
      leftMode, rightMode := Off, Off;
    }

    /** light_subsystem_set(Light, LightMode): selects the mode of one light only. */
    method Set(light: Light, mode: LightMode)
      modifies this
      ensures light == Left ==> leftMode == mode && rightMode == old(rightMode)
      ensures light == Right ==> rightMode == mode && leftMode == old(leftMode)
    {
      match light
      case Left => leftMode := mode;
      case Right => rightMode := mode;
    }
  }
}
