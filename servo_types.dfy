// Machine integer widths, driver constants, the abstract hardware timer and
// the configuration record that the servo output driver is initialised with.

module ServoTypes {

  type uint8 = x: int | 0 <= x < 0x100
  type uint16 = x: int | 0 <= x < 0x1_0000
  type uint32 = x: int | 0 <= x < 0x1_0000_0000

  datatype Option<T> = None | Some(value: T)

  /** PIOS_SERVO_BANKS: the number of timer banks the board supports (set by the board's configuration). */
  const Banks: nat := 6

  /** Bank modes (pios_servo.h).  Any value other than None and SinglePulse behaves like Pwm here. */
  const ModeNone: uint8 := 0
  const ModePwm: uint8 := 1
  const ModeSinglePulse: uint8 := 2

  /** PIOS_SERVO_TIMER_CLOCK: the default tick rate of a bank's timer, in Hz. */
  const DefaultTimerClock: uint32 := 1000000
  /** PIOS_SERVO_SAFE_MARGIN: ticks a single pulse is given to finish before its bank is re-armed. */
  const SafeMargin: nat := 50

  /** Output-compare unit selectors of the STM32 timer library (TIM_Channel_1 .. TIM_Channel_4). */
  const TimChannel1: uint16 := 0x0000
  const TimChannel2: uint16 := 0x0004
  const TimChannel3: uint16 := 0x0008
  const TimChannel4: uint16 := 0x000C

  /** The compare register a channel selector addresses, if it names one. */
  function CompareSlot(timerChan: uint16): (k: Option<nat>)
    ensures k.Some? <==> timerChan in {TimChannel1, TimChannel2, TimChannel3, TimChannel4}
    ensures k.Some? ==> k.value < 4 && timerChan == 4 * k.value
  {
    if timerChan == TimChannel1 then Some(0)
    else if timerChan == TimChannel2 then Some(1)
    else if timerChan == TimChannel3 then Some(2)
    else if timerChan == TimChannel4 then Some(3)
    else None
  }

  /** Everything of a timer's state except its compare registers. */
  datatype TimerState = TimerState(
    arr: uint32,          // auto-reload register: the period in ticks
    prescaler: uint16,    // prescaler register
    running: bool,        // counter enabled (TIM_Cmd)
    repetitive: bool,     // one-pulse mode selector set to TIM_OPMode_Repetitive
    updateEvents: nat)    // update events generated by software (TIM_GenerateEvent)

  /** A hardware timer.  Object identity stands for the `TIM_TypeDef *` the driver holds. */
  class Timer {
    /** Input clock of the bus the timer is attached to (APB1 or APB2). */
    const busClock: uint32
    var arr: uint32
    var prescaler: uint16
    var running: bool
    var repetitive: bool
    var updateEvents: nat
    var ccr1: uint16
    var ccr2: uint16
    var ccr3: uint16
    var ccr4: uint16

    constructor (busClock: uint32, arr: uint32)
      ensures this.busClock == busClock
      ensures State() == TimerState(arr, 0, false, false, 0)
      ensures Compares() == [0, 0, 0, 0]
    {
      this.busClock := busClock;
      this.arr := arr;
      prescaler, running, repetitive, updateEvents := 0, false, false, 0;
      ccr1, ccr2, ccr3, ccr4 := 0, 0, 0, 0;
    }

    function State(): TimerState
      reads this
    {
      TimerState(arr, prescaler, running, repetitive, updateEvents)
    }

    function Compares(): (cs: seq<uint16>)
      reads this
      ensures |cs| == 4
    {
      [ccr1, ccr2, ccr3, ccr4]
    }

    /** TIM_SelectOnePulseMode(timer, TIM_OPMode_Repetitive) followed by TIM_Cmd(timer, ENABLE). */
    method StartRepetitive()
      modifies this
      ensures State() == old(State()).(running := true, repetitive := true)
      ensures Compares() == old(Compares())
    {
      repetitive := true;
      running := true;
    }

    /** TIM_Cmd(timer, DISABLE). */
    method Stop()
      modifies this
      ensures State() == old(State()).(running := false)
      ensures Compares() == old(Compares())
    {
      running := false;
    }

    /** TIM_GenerateEvent(timer, TIM_EventSource_Update). */
    method GenerateUpdate()
      modifies this
      ensures State() == old(State()).(updateEvents := old(updateEvents) + 1)
      ensures Compares() == old(Compares())
    {
      updateEvents := updateEvents + 1;
    }

    /** TIM_TimeBaseInit, reduced to the prescaler and period it loads. */
    method SetTimeBase(prescaler: uint16, period: uint32)
      modifies this
      ensures State() == old(State()).(arr := period, prescaler := prescaler)
      ensures Compares() == old(Compares())
    {
      this.prescaler := prescaler;
      arr := period;
    }

    /** TIM_SetCompare1 .. TIM_SetCompare4, selected by the channel code; any other code writes nothing. */
    method SetCompare(timerChan: uint16, value: uint16)
      modifies this
      ensures State() == old(State())
      ensures Compares() == match CompareSlot(timerChan)
                            case Some(k) => old(Compares())[k := value]
                            case None => old(Compares())
    {
      if timerChan == TimChannel1 {
        ccr1 := value;
      } else if timerChan == TimChannel2 {
        ccr2 := value;
      } else if timerChan == TimChannel3 {
        ccr3 := value;
      } else if timerChan == TimChannel4 {
        ccr4 := value;
      }
    }
  }

  /** One output channel: the timer that drives it and the compare unit it uses. */
  datatype Channel = Channel(timer: Timer, timerChan: uint16)

  /**
   * The driver's configuration: the channels in declaration order (num_channels is their
   * count) and the TIM_Pulse of the output-compare template tim_oc_init.
   */
  datatype Config = Config(channels: seq<Channel>, ocPulse: uint16)

  function TimerSeq(chs: seq<Channel>): (ts: seq<Timer>)
    ensures |ts| == |chs|
    ensures forall i :: 0 <= i < |chs| ==> ts[i] == chs[i].timer
  {
    seq(|chs|, i requires 0 <= i < |chs| => chs[i].timer)
  }
}
