# LibrePilot servo/ESC output driver (pios_servo.c), modelled in Dafny

`pios_servo.c` drives the actuator outputs of the flight controller. Each output channel is one output-compare unit of a hardware timer. The driver groups channels that share a timer into *banks*: one period, one mode and one pulse accumulator per timer.

A bank runs in one of two ways:
- PWM: the timer repeats at the configured rate.
- Single pulse (OneShot/OneShot125): one pulse per control cycle, re-armed by software.

The driver's state is module-level:
- per-bank arrays `pios_servo_bank_mode`, `_next_update`, `_max_pulse` and `_timer`;
- the channel-to-bank map `pios_servo_pin_bank`, allocated at Init;
- the flag `pios_servo_enabled`;
- the stored configuration `servo_cfg`.

The model keeps that shape:

- `servo_types.dfy` (module `ServoTypes`)
  - The C integer widths as subset types.
  - The driver's constants.
  - `Timer`: a class whose object identity is the `TIM_TypeDef *`. Its fields are ARR, the prescaler, the counter-enable bit, the one-pulse mode selector, a count of software update events and the four compare registers. Its methods are the STM32 library calls the driver makes.
  - The configuration record.
- `pulse_math.dfy` (module `PulseMath`)
  - The integer arithmetic, with the C truncations and wrap-arounds written out.
  - The pulse clamp of `PIOS_Servo_Set`.
  - The prescaler and period of `PIOS_Servo_SetHz`.
- `bank_grouping.dfy` (module `BankGrouping`)
  - The grouping `PIOS_Servo_Init` computes, as a pure specification: `FirstSeen` (the distinct timers in order of first use) and `BankOf` (a channel's bank is its timer's rank in `FirstSeen`).
  - Lemmas about `FirstSeen` and `BankOf`.
- `pios_servo.dfy` (module `PiosServo`): the driver.
  - `ServoDriver` is a class. Its fields are the static arrays, the pin-bank array and the enabled flag. Each state-changing `PIOS_Servo_*` function is a method that updates the fields and the shared `Timer` objects in place; `PIOS_Servo_GetPinBank` and `PIOS_Servo_GetConfig` change nothing and are functions.
  - The driver invariant `Valid()` says the bank map is the first-seen grouping of the configured channels' timers.
  - Every loop of the C code is a `while` loop with its invariants. Where a proof needs it, a loop is split into a method for the loop and one for its body.
- `servo_scenarios.dfy` (module `ServoScenarios`)
  - A four-channel board: two timers, two channels on each.
  - Worked uses of the operations, each proved to give concrete results.

The counter that `PIOS_Servo_Update` reads through `TIM_GetCounter` is a parameter: a function from timer to its current 32-bit count. The bus clock that `PIOS_Servo_SetHz` chooses per timer is a constant of each `Timer`.

Behaviours of `pios_servo.c` worth knowing, all of them in the model:
- `PIOS_Servo_SetBankMode` stores the mode even while the driver is disabled. While the driver is enabled, it starts the bank's timer whatever the new mode, `NONE` included.
- `PIOS_Servo_Disable` only re-muxes the pins to a static low level. It stops no timer.
- `PIOS_Servo_Enable` calls `TIM_OCxInit` for every channel, which reloads the channel's compare register from the template's `TIM_Pulse`. A Disable followed by an Enable therefore discards the positions commanded before.
- Calls made before Init are not all ignored:
  - `PIOS_Servo_Update` dereferences the configuration whenever the driver is enabled, and the enabled flag starts out true.
  - `PIOS_Servo_GetPinBank` always dereferences it.

  The model makes both a precondition. See "Left out".

## Model

| member | source | states |
|---|---|---|
| ServoTypes.CompareSlot | flight/pios/common/pios_servo.c:109-126 | a channel selector addresses a compare register exactly when it is one of TIM_Channel_1..4, and then register k is selector 4k |
| ServoTypes.Timer.StartRepetitive | flight/pios/common/pios_servo.c:133-134 | the timer is left running in repetitive one-pulse mode; ARR, prescaler, event count and compare registers are unchanged |
| ServoTypes.Timer.Stop | flight/pios/common/pios_servo.c:170 | only the counter-enable bit is cleared |
| ServoTypes.Timer.GenerateUpdate | flight/pios/common/pios_servo.c:209 | one more software update event; nothing else changes |
| ServoTypes.Timer.SetTimeBase | flight/pios/common/pios_servo.c:280-282 | the timer's prescaler and ARR become the given values; run state, events and compare registers are kept |
| ServoTypes.Timer.SetCompare | flight/pios/common/pios_servo.c:312-325 | exactly the register the selector addresses takes the value; an unknown selector writes nothing |
| PulseMath.ClampToPeriod | flight/pios/common/pios_servo.c:302-306 | the stored width, computed with the uint16_t margin and the truncating store, equals min(position, ARR - ARR/50) for every 32-bit ARR |
| PulseMath.ClampLeavesMargin | flight/pios/common/pios_servo.c:303-306 | the stored width never exceeds ARR - ARR/50 nor the requested position, and a position within the limit is stored unchanged |
| PulseMath.ClampExample | flight/pios/common/pios_servo.c:303-306 | with ARR 20000 (margin 400) a position of 19999 is stored as 19600 |
| PulseMath.TickRate | flight/pios/common/pios_servo.c:259-262 | the tick rate a bank asks for is positive: its clock override, or 1 MHz when that is 0 |
| PulseMath.Prescaler | flight/pios/common/pios_servo.c:280 | the uint32_t quotient minus 1, truncated to the 16-bit `TIM_Prescaler`: prescaler+1 is the quotient whenever that fits 16 bits, and a tick rate above the bus clock (quotient 0) gives 0xFFFF |
| PulseMath.Period | flight/pios/common/pios_servo.c:281 | the uint32_t quotient minus 1: period+1 is the quotient modulo 2^32, so a quotient of 0 wraps to 0xFFFFFFFF |
| PulseMath.PrescalerRate | flight/pios/common/pios_servo.c:280 | when the bus clock can be divided down to the tick rate, prescaler+1 is bus clock / tick rate rounded down, so the timer ticks at the slowest achievable rate not below the one asked for |
| PulseMath.PeriodRate | flight/pios/common/pios_servo.c:281 | period+1 is tick rate / update rate rounded down, so the bank updates at the slowest achievable rate not below the one asked for |
| PulseMath.PeriodWrapsWhenRateExceedsClock | flight/pios/common/pios_servo.c:281 | an update rate above the tick rate makes the 32-bit period wrap to 0xFFFFFFFF |
| BankGrouping.FirstSeenDistinct | flight/pios/common/pios_servo.c:150-174 | no timer opens two banks |
| BankGrouping.FirstSeenMembers | flight/pios/common/pios_servo.c:150-174 | a timer has a bank exactly when some channel uses it |
| BankGrouping.BankOf | flight/pios/common/pios_servo.c:159-166 | a channel's bank exists and is driven by the channel's timer |
| BankGrouping.BankAssignment | flight/pios/common/pios_servo.c:150-174 | a channel whose timer no earlier channel uses gets the next unused bank id; a later channel gets an id already issued |
| BankGrouping.SameBankIffSameTimer | flight/pios/common/pios_servo.c:155-166 | two channels share a bank exactly when they share a timer |
| BankGrouping.EveryBankUsed | flight/pios/common/pios_servo.c:159-172 | every bank id issued is the bank of some channel |
| BankGrouping.SeenPrefix | flight/pios/common/pios_servo.c:151-174 | the banks opened for a prefix of the channels keep their ids when more channels are looked at |
| PiosServo.BankTimerConfigured | flight/pios/common/pios_servo.c:166 | every bank timer is the timer of a configured channel |
| PiosServo.IsNewTimer | flight/pios/common/pios_servo.c:153-157 | the early-exit inner loop answers true exactly when no earlier channel uses the channel's timer |
| PiosServo.NewBankRoom | flight/pios/common/pios_servo.c:160 | when the distinct timers fit the banks, a new timer always finds a free bank id, so the assertion holds |
| PiosServo.OpenedBank | flight/pios/common/pios_servo.c:159-173 | giving the next bank to a new timer's channels, recording the timer and stopping it keeps the loop invariant with one more bank |
| PiosServo.SeenAgain | flight/pios/common/pios_servo.c:155-159 | a channel whose timer is already banked leaves the loop invariant as it was |
| PiosServo.OpenedBankTimers | flight/pios/common/pios_servo.c:166 | recording the new timer extends the bank-timer table by exactly that timer |
| PiosServo.OpenedBankPins | flight/pios/common/pios_servo.c:161-165 | the look-ahead assignment gives every channel on an opened timer that timer's bank |
| PiosServo.OpenedBankStates | flight/pios/common/pios_servo.c:170 | exactly the timers of the opened banks end up stopped; no compare register changes |
| PiosServo.GroupedStateFrom | flight/pios/common/pios_servo.c:151-174 | the loop invariant after a step, assembled from its table, pin and timer parts |
| PiosServo.ServoDriver.constructor | flight/pios/common/pios_servo.c:41-54 | the static initialisers: no configuration, enabled, all modes NONE, all accumulators 0, no bank timers |
| PiosServo.ServoDriver.BankTimersConfigured | flight/pios/common/pios_servo.c:129-136 | a bank timer is always one of the configured channels' timers |
| PiosServo.ServoDriver.NoBankTimersBeforeInit | flight/pios/common/pios_servo.c:49 | before Init no bank has a timer |
| PiosServo.ServoDriver.BankNumbering | flight/pios/common/pios_servo.c:150-174 | in a valid driver, channel i's bank is its timer's first-seen rank, with ids consecutive in order of first use, and the bank's timer is the channel's |
| PiosServo.ServoDriver.BankTimers | flight/pios/common/pios_servo.c:166 | exactly the banks below the number of distinct timers have a timer, and each of them is some channel's bank |
| PiosServo.ServoDriver.Init | flight/pios/common/pios_servo.c:144-179 | Init stores the configuration, groups the channels (the assertion is the requires on the number of distinct timers), allocates a fresh pin-bank array and leaves the driver valid and enabled with every pin restored; each channel's timer is stopped and then restarted in repetitive mode exactly when its bank is armed; every channel with a `TIM_Channel_1..4` selector has its compare register holding the template pulse, and registers no channel addresses keep their value |
| PiosServo.ServoDriver.Configure | flight/pios/common/pios_servo.c:146-174 | up to the Enable call: the pin-bank and bank-timer tables are the first-seen grouping (BankOf, and bank b's timer is the b-th distinct timer or none), and every channel's timer is stopped with nothing else changed |
| PiosServo.ServoDriver.GroupingValid | flight/pios/common/pios_servo.c:150-174 | the first-seen grouping satisfies the driver invariant: no timer drives two banks and each channel's bank is driven by its timer |
| PiosServo.ServoDriver.GroupChannels | flight/pios/common/pios_servo.c:148-174 | the fresh pin-bank array and the bank loop produce the first-seen tables and stop every channel's timer |
| PiosServo.ServoDriver.GroupLoop | flight/pios/common/pios_servo.c:150-174 | the bank loop fills the pin-bank and bank-timer tables with the first-seen grouping and stops each channel's timer, changing nothing else in the timers |
| PiosServo.ServoDriver.BankLoop | flight/pios/common/pios_servo.c:151-174 | the loop over the channels takes the invariant from no channel to all of them |
| PiosServo.ServoDriver.GroupedStart | flight/pios/common/pios_servo.c:150 | with no bank timers the invariant holds before the first channel |
| PiosServo.ServoDriver.GroupedDone | flight/pios/common/pios_servo.c:174 | the invariant over all channels is the first-seen grouping, with every channel's timer stopped |
| PiosServo.ServoDriver.GroupStep | flight/pios/common/pios_servo.c:151-173 | one pass of the outer loop keeps the invariant |
| PiosServo.ServoDriver.NewBankStep | flight/pios/common/pios_servo.c:159-173 | a pass for a new timer keeps the invariant and opens exactly one bank |
| PiosServo.ServoDriver.OpenBank | flight/pios/common/pios_servo.c:159-170 | the channel and the later channels on its timer get the bank, the bank-timer table gets the timer at that index, and the timer alone is stopped |
| PiosServo.ServoDriver.AssignBank | flight/pios/common/pios_servo.c:161-165 | exactly the channels from i on that use channel i's timer get the bank; the others keep theirs |
| PiosServo.ServoDriver.SetPinsLow | flight/pios/common/pios_servo.c:70-85 | Disable's channel loop forces every pin low |
| PiosServo.ServoDriver.LoadedByStep | flight/pios/common/pios_servo.c:94-127 | the registers loaded after channel i are those loaded before it plus the one channel i addresses |
| PiosServo.ServoDriver.RestoreChannels | flight/pios/common/pios_servo.c:94-127 | Enable's channel loop restores every pin and sets exactly the registers some channel addresses to the template pulse; timer run state and every other register are unchanged |
| PiosServo.ServoDriver.RestoreOutputs | flight/pios/common/pios_servo.c:94-127 | the same, and per channel: a channel with a valid selector reads the template pulse |
| PiosServo.ServoDriver.Disable | flight/pios/common/pios_servo.c:59-86 | after Init, clears the enabled flag and holds every pin low; modes and bank timers are kept; before Init nothing changes |
| PiosServo.ServoDriver.StartArmedBanks | flight/pios/common/pios_servo.c:129-136 | exactly the banks with a timer and a mode other than NONE are started in repetitive mode; no compare register changes |
| PiosServo.ServoDriver.Enable | flight/pios/common/pios_servo.c:88-139 | after Init, restores every pin, reloads the compare register of every channel with a `TIM_Channel_1..4` selector with the template pulse (other registers keep their value), starts exactly the armed banks (per bank and per channel) and sets the flag; before Init nothing changes |
| PiosServo.ServoDriver.SetBankMode | flight/pios/common/pios_servo.c:181-195 | the mode is stored in either state, only that bank's entry changes, and the bank's timer is started in repetitive mode exactly when the driver is enabled |
| PiosServo.ServoDriver.SetHz | flight/pios/common/pios_servo.c:245-285 | after Init, each of the first `banks` banks with a timer gets prescaler (bus/tick - 1) mod 2^16 and period (tick/rate - 1) mod 2^32; other banks and every compare register are untouched; before Init nothing changes |
| PiosServo.ServoDriver.RetimeBanks | flight/pios/common/pios_servo.c:256-284 | the bank loop retimes exactly the banks below `banks` that have a timer |
| PiosServo.ServoDriver.RetimeBank | flight/pios/common/pios_servo.c:257-283 | one bank's timer gets its prescaler and period, nothing else |
| PiosServo.ServoDriver.Set | flight/pios/common/pios_servo.c:292-326 | disabled, uninitialised or out of range: no compare register or max pulse changes. Otherwise the channel's register holds the clamped width, its bank's max pulse becomes the max of old and new, no other bank's max pulse changes, max pulses never decrease, and every other channel's register is unchanged |
| PiosServo.ServoDriver.Update | flight/pios/common/pios_servo.c:198-238 | disabled: nothing changes. Enabled: every bank's max pulse is 0; exactly the single-pulse banks with a timer whose counter exceeds next_update + 50 get one update event and next_update := the old max pulse, and the others keep next_update and get no event; every channel of a single-pulse bank reads 0, and every other channel keeps its register; per register, exactly the registers a single-pulse channel addresses become 0 |
| PiosServo.ServoDriver.RearmBanks | flight/pios/common/pios_servo.c:204-214 | the bank loop: the re-arm rule for each bank and every max pulse cleared; no compare register changes |
| PiosServo.ServoDriver.RearmBank | flight/pios/common/pios_servo.c:205-213 | one bank: the event and next_update only when re-arm is due, max pulse cleared |
| PiosServo.ServoDriver.ZeroedByStep | flight/pios/common/pios_servo.c:215-237 | the registers zeroed after channel i are those zeroed before it plus channel i's when its bank is single-pulse |
| PiosServo.ServoDriver.SharedTimerSharedBank | flight/pios/common/pios_servo.c:150-174 | in a valid driver, channels on one timer have one bank, so zeroing is consistent under aliasing |
| PiosServo.ServoDriver.ZeroSinglePulse | flight/pios/common/pios_servo.c:215-237 | a register is zeroed exactly when some channel of a single-pulse bank addresses it; per channel, single-pulse channels read 0 and the others keep their value |
| PiosServo.ServoDriver.ZeroChannels | flight/pios/common/pios_servo.c:215-237 | the channel loop zeroes exactly the registers of single-pulse channels and changes no timer state |
| PiosServo.ServoDriver.GetPinBank | flight/pios/common/pios_servo.c:328-335 | a configured channel's bank is its first-seen bank id; any other pin gives 0 |
| PiosServo.ServoDriver.PinBankSharedIffTimerShared | flight/pios/common/pios_servo.c:328-335 | two channels report the same bank exactly when they share a timer |
| PiosServo.ServoDriver.GetConfig | flight/pios/common/pios_servo.c:337-340 | the stored configuration, present exactly after Init |
| ServoScenarios.TwoTimers | flight/pios/common/pios_servo.c:150-174 | channels on timers A, A, B, B get banks 0, 0, 1, 1, with A and B as the bank timers |
| ServoScenarios.Board | flight/pios/common/pios_servo.c:144-179 | Init on the four-channel board (template pulse 0) leaves the driver enabled with bank 0 on the first timer, bank 1 on the second, and both timers stopped |
| ServoScenarios.InitGroupsByTimer | flight/pios/common/pios_servo.c:328-335 | GetPinBank reads 0, 0, 1, 1 for the four channels and 0 for a missing fifth |
| ServoScenarios.ClampOnSet | flight/pios/common/pios_servo.c:302-311 | with ARR 19999 (a 20000-tick period), Set(0, 19999) stores 19600 and raises bank 0's max pulse to 19600 |
| ServoScenarios.SinglePulseBoard | flight/pios/common/pios_servo.c:181-195 | SetBankMode(1, SINGLE_PULSE) after Init stores the mode and leaves the accumulators alone |
| ServoScenarios.OtherBankCommanded | flight/pios/common/pios_servo.c:292-326 | Set(0, 1000) on the PWM-like bank 0 writes 1000 into channel 0's register and leaves bank 1's max pulse at 0 |
| ServoScenarios.PulseCommanded | flight/pios/common/pios_servo.c:292-326 | Set(2, 1500) writes 1500 into channel 2's register, makes bank 1's max pulse 1500 and leaves channel 0 at 1000 |
| ServoScenarios.SinglePulseCycle | flight/pios/common/pios_servo.c:198-238 | an Update with the counter past next_update + 50 gives bank 1 one event, next_update 1500 and max pulse 0, zeroes channel 2 and leaves channel 0, on the other bank, at 1000 |
| ServoScenarios.CommandedThenDisabled | flight/pios/common/pios_servo.c:59-86 | Disable leaves the 1000 commanded on channel 0 in its register |
| ServoScenarios.EnableReloadsCompare | flight/pios/common/pios_servo.c:108-126 | Enable after that replaces the 1000 with the template pulse 0 |
| ServoScenarios.DisabledBoard | flight/pios/common/pios_servo.c:59-86 | Disable after Init clears the flag and keeps the bank state |
| ServoScenarios.DisabledSetIsInert | flight/pios/common/pios_servo.c:295-297 | while disabled, Set writes no register and raises no max pulse |
| ServoScenarios.DisabledUpdateIsInert | flight/pios/common/pios_servo.c:200-202 | while disabled, Update generates no event and keeps next_update |
| ServoScenarios.ModeWhileDisabled | flight/pios/common/pios_servo.c:181-188 | while disabled, SetBankMode stores the mode without starting the bank |
| ServoScenarios.EnableStartsStoredMode | flight/pios/common/pios_servo.c:129-138 | Enable then starts the bank whose mode was stored while disabled |

## Left out

- GPIO reconfiguration in Disable and Enable (`GPIO_Init`, `GPIO_PinAFConfig`, `GPIO_PinRemapConfig`, `GPIO_ResetBits`): register-level pin setup, reduced to one "held low" flag per channel.
- The MCU-specific `#if` branches: one model serves the F1 and F4 paths.
- PiosServo.ServoDriver.Enable: `TIM_OCxInit` is reduced to loading the channel's compare register with the template's `TIM_Pulse`. The output mode, polarity and output-enable bits it also writes are not modelled, and neither is the CCR preload enabled by `TIM_OCxPreloadConfig`: the model's registers take a new value at once.
- Init's `TIM_ARRPreloadConfig` and `TIM_CtrlPWMOutputs`: library calls whose effect on the timer is not part of the model's timer state.
- PiosServo.ServoDriver.SetHz: `TIM_TimeBaseInit` is reduced to loading the prescaler and the period. The template's clock division, counter mode and repetition counter are not modelled. Neither is the update event the library generates to load the registers: `updateEvents` counts only the events `PIOS_Servo_Update` generates.
- PiosServo.ServoDriver.SetHz: the bus clock is a constant of each timer (`Timer.busClock`). The selection by timer identity between APB1, APB2 and the F1 master clock is left out, because the clock frequencies come from board headers that are not part of this model.
- PiosServo.ServoDriver.SetHz: the per-bank reads of `speeds` and `clock` are a requires that the sequences are long enough. `speeds[i] == 0`, a division by zero in the C code, is a requires too. A tick rate above the bus clock is not excluded: the prescaler wraps modulo 2^16, as the C code's uint32_t arithmetic and 16-bit field do.
- PiosServo.ServoDriver.SetHz: ARR is held in 32 bits, the F4's `TIM_Period`. A 16-bit timer would drop the upper bits of the period; that is not modelled.
- PiosServo.ServoDriver.Update: `TIM_GetCounter` is the parameter `counter`, an instantaneous snapshot taken for each bank. The counter advancing between reads is not modelled.
- PiosServo.ServoDriver.Update: requires `enabled ==> Initialised()`. With the driver enabled, the C code dereferences `servo_cfg`, which is null before Init, and the enabled flag starts out true.
- PiosServo.ServoDriver.GetPinBank: requires `Initialised()`, because the C code dereferences `servo_cfg` unconditionally.
- PiosServo.ServoDriver.Init: it requires `!Initialised()`, so a second Init is not modelled: the bank-timer entries of the first one would linger. It also requires fewer than 256 channels, because the C loops count with `uint8_t`. The `pios_malloc` of the pin-bank array is a fresh array, and allocation failure is not modelled. Init's return value, always 0, is dropped.
- `PIOS_Assert` (Init's bank limit, SetBankMode's bank index, SetHz's `banks` bound): it halts the board, and each assertion is a requires of its method.
- `PIOS_SERVO_BANKS` comes from the board configuration and the bank-mode values from `pios_servo.h`; neither is part of this model. The model fixes 6 banks and the modes NONE = 0, PWM = 1, SINGLE_PULSE = 2. Any mode other than NONE and SINGLE_PULSE behaves like PWM, as in the C code.
- The `TIM_Channel_x` selector values (0x0, 0x4, 0x8, 0xC) come from the STM32 standard peripheral library, which is not part of this model.
- `ground/gcs/src/plugins/config/configsparky2hwwidget.h`: a GUI widget declaration with no driver logic.
