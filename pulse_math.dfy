// The integer arithmetic of the driver: the pulse-width clamp of
// PIOS_Servo_Set and the prescaler and period of PIOS_Servo_SetHz, with the
// C types' truncation and wrap-around written out.

module PulseMath {
  import opened ServoTypes

  function Min(a: int, b: int): int { if a <= b then a else b }
  function Max(a: int, b: int): int { if a <= b then b else a }

  /**
   * The width PIOS_Servo_Set stores: `margin` is ARR/50 held in a uint16_t, the
   * limit ARR - margin is computed in 32 bits and stored back into a uint16_t.
   * Whatever the truncations, the result is the position clamped to ARR - ARR/50.
   */
  function ClampToPeriod(position: uint16, arr: uint32): (v: uint16)
    ensures v == Min(position, arr - arr / 50)
  {
    var margin := (arr / 50) % 0x1_0000;
    var limit := arr - margin;
    if position > limit then limit % 0x1_0000 else position
  }

  /** The tick rate a bank asks for: its clock override, or PIOS_SERVO_TIMER_CLOCK when that is 0. */
  function TickRate(clock: uint32): (c: uint32)
    ensures c > 0
  {
    if clock != 0 then clock else DefaultTimerClock
  }

  /**
   * (timer_clock / new_clock) - 1 in uint32_t, stored into the 16-bit TIM_Prescaler:
   * prescaler+1 is the quotient when that fits 16 bits, and a tick rate above the
   * bus clock (quotient 0) gives 0xFFFF.
   */
  function Prescaler(timerClock: uint32, newClock: uint32): (p: uint16)
    requires newClock > 0
    ensures 0 < timerClock / newClock <= 0x1_0000 ==> p + 1 == timerClock / newClock
    ensures timerClock / newClock == 0 ==> p == 0xFFFF
  {
    var q := timerClock / newClock;
    if q == 0 then 0xFFFF else (q - 1) % 0x1_0000
  }

  /**
   * (new_clock / speed) - 1 in uint32_t, stored into TIM_Period: period+1 is the
   * quotient modulo 2^32, so a quotient of 0 wraps to 0xFFFFFFFF.
   */
  function Period(newClock: uint32, speed: uint16): (p: uint32)
    requires speed > 0
    ensures (p + 1) % 0x1_0000_0000 == newClock / speed
  {
    var q := newClock / speed;
    if q == 0 then 0xFFFF_FFFF else q - 1
  }

  /**
   * With a tick rate the bus clock can be divided down to, prescaler+1 is
   * timer_clock/new_clock rounded down, so the timer ticks at the slowest rate the
   * prescaler can give that is not below the one asked for.
   */
  lemma PrescalerRate(timerClock: uint32, newClock: uint32)
    requires 0 < newClock <= timerClock
    requires timerClock / newClock <= 0x1_0000
    ensures (Prescaler(timerClock, newClock) + 1) * newClock <= timerClock
    ensures timerClock < (Prescaler(timerClock, newClock) + 2) * newClock
  {
    var q := timerClock / newClock;
    assert Prescaler(timerClock, newClock) == q - 1;
    assert timerClock == q * newClock + timerClock % newClock;
  }

  /**
   * period+1 is new_clock/speed rounded down, so the bank updates at the slowest rate
   * a whole number of ticks can give that is not below the one asked for.
   */
  lemma PeriodRate(newClock: uint32, speed: uint16)
    requires 0 < speed <= newClock
    ensures (Period(newClock, speed) + 1) * speed <= newClock
    ensures newClock < (Period(newClock, speed) + 2) * speed
  {
    var q := newClock / speed;
    assert Period(newClock, speed) == q - 1;
    assert newClock == q * speed + newClock % speed;
  }

  /** A rate above the tick rate makes the 32-bit period wrap round to 0xFFFFFFFF. */
  lemma PeriodWrapsWhenRateExceedsClock(newClock: uint32, speed: uint16)
    requires 0 < newClock < speed
    ensures Period(newClock, speed) == 0xFFFF_FFFF
  {
    assert newClock / speed == 0;
  }

  /** PIOS_Servo_Set's clamp never lets a pulse reach the last 2% of the period. */
  lemma ClampLeavesMargin(position: uint16, arr: uint32)
    ensures ClampToPeriod(position, arr) <= arr - arr / 50
    ensures ClampToPeriod(position, arr) <= position
    ensures position <= arr - arr / 50 ==> ClampToPeriod(position, arr) == position
  {
  }

  /** A 20000-tick period leaves a 400-tick margin: 19999 is stored as 19600. */
  lemma ClampExample()
    ensures ClampToPeriod(19999, 20000) == 19600
  {
  }
}
