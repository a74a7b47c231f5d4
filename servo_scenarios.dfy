// Worked uses of the driver on a four-channel board: two timers, two
// channels on each, the second bank in single-pulse (OneShot) mode.

module ServoScenarios {
  import opened ServoTypes
  import opened BankGrouping
  import opened PulseMath
  import opened PiosServo

  /** Two channels on `a` followed by two on `b` make two banks: 0 for `a`, 1 for `b`. */
  lemma TwoTimers(a: Timer, b: Timer)
    requires a != b
    ensures FirstSeen([a, a, b, b]) == [a, b]
    ensures BankTimerOf([a, a, b, b], 0) == a && BankTimerOf([a, a, b, b], 1) == b
    ensures forall k :: 2 <= k < Banks ==> BankTimerOf([a, a, b, b], k) == null
    ensures BankOf([a, a, b, b], 0) == 0 && BankOf([a, a, b, b], 1) == 0
    ensures BankOf([a, a, b, b], 2) == 1 && BankOf([a, a, b, b], 3) == 1
  {
    var s := [a, a, b, b];
    assert Seen(s, 1) == [a];
    assert Seen(s, 2) == [a];
    assert Seen(s, 3) == [a, b];
    IndexOfUnique([a, b], b, 1);
  }

  /** `d` was initialised with the board's channels: `t1` drives bank 0 (channels 0, 1), `t2` bank 1 (channels 2, 3). */
  ghost predicate Wired(d: ServoDriver, t1: Timer, t2: Timer)
    reads d, d.bankTimer, d.pinBank, d.pinLow
  {
    t1 != t2 && d.Valid() && d.Initialised() &&
    d.Channels() == [Channel(t1, TimChannel1), Channel(t1, TimChannel2), Channel(t2, TimChannel1), Channel(t2, TimChannel3)] &&
    d.Timers() == {t1, t2} &&
    d.bankTimer[0] == t1 && d.bankTimer[1] == t2 && d.pinBank[0] == 0 && d.pinBank[2] == 1
  }

  /** The board: a 50 Hz servo timer on APB1 (TIM_Channel_1, TIM_Channel_2) and a timer on APB2 (TIM_Channel_1, TIM_Channel_3). */
  method Board() returns (d: ServoDriver, t1: Timer, t2: Timer)
    ensures fresh(d) && fresh(t1) && fresh(t2)
    ensures fresh(d.bankMode) && fresh(d.nextUpdate) && fresh(d.maxPulse) && fresh(d.bankTimer)
    ensures fresh(d.pinBank) && fresh(d.pinLow)
    ensures Wired(d, t1, t2) && d.enabled && d.OcPulse() == 0
    ensures d.bankMode[0] == ModeNone && d.bankMode[1] == ModeNone
    ensures d.nextUpdate[1] == 0 && d.maxPulse[0] == 0 && d.maxPulse[1] == 0
    ensures t1.arr == 19999 && !t1.running && t1.ccr1 == 0
    ensures t2.arr == 2499 && !t2.running && t2.updateEvents == 0 && t2.ccr1 == 0
  {
    t1 := new Timer(42000000, 19999);
    t2 := new Timer(84000000, 2499);
    var chs := [Channel(t1, TimChannel1), Channel(t1, TimChannel2), Channel(t2, TimChannel1), Channel(t2, TimChannel3)];
    TwoTimers(t1, t2);
    assert TimerSeq(chs) == [t1, t1, t2, t2];
    assert TimersOf(chs) == {t1, t2} by {
      assert chs[0].timer == t1 && chs[2].timer == t2;
    }
    d := new ServoDriver();
    d.Init(Config(chs, 0));
  }

  /** Init gives the two channels of each timer one bank: banks 0, 0, 1, 1, and 0 for a channel that does not exist. */
  method InitGroupsByTimer() returns (banks: seq<uint8>)
    ensures banks == [0, 0, 1, 1, 0]
  {
    var d, t1, t2 := Board();
    var b0 := d.GetPinBank(0);
    var b1 := d.GetPinBank(1);
    var b2 := d.GetPinBank(2);
    var b3 := d.GetPinBank(3);
    var b4 := d.GetPinBank(4);
    banks := [b0, b1, b2, b3, b4];
  }

  /** Set clamps into the period: with ARR 19999 (a 20000-tick period) a position of 19999 is stored as 19600. */
  method ClampOnSet() returns (c: Option<uint16>, m: uint16)
    ensures c == Some(19600) && m == 19600
  {
    var d, t1, t2 := Board();
    d.Set(0, 19999);
    c := d.CompareOf(0);
    m := d.maxPulse[0];
  }

  /** The board with bank 1 put in single-pulse mode. */
  method SinglePulseBoard() returns (d: ServoDriver, t1: Timer, t2: Timer)
    ensures fresh(d) && fresh(t1) && fresh(t2)
    ensures fresh(d.bankMode) && fresh(d.nextUpdate) && fresh(d.maxPulse) && fresh(d.bankTimer)
    ensures fresh(d.pinBank) && fresh(d.pinLow)
    ensures Wired(d, t1, t2) && d.enabled
    ensures d.bankMode[0] == ModeNone && d.bankMode[1] == ModeSinglePulse
    ensures d.nextUpdate[1] == 0 && d.maxPulse[1] == 0
    ensures t1.arr == 19999 && t1.ccr1 == 0 && t2.arr == 2499 && t2.updateEvents == 0 && t2.ccr1 == 0
  {
    d, t1, t2 := Board();
    d.SetBankMode(1, ModeSinglePulse);
  }

  /** The single-pulse board with channel 0, on the other bank, commanded to 1000 ticks. */
  method OtherBankCommanded() returns (d: ServoDriver, t1: Timer, t2: Timer)
    ensures fresh(d) && fresh(t1) && fresh(t2)
    ensures fresh(d.bankMode) && fresh(d.nextUpdate) && fresh(d.maxPulse) && fresh(d.bankTimer)
    ensures fresh(d.pinBank) && fresh(d.pinLow)
    ensures Wired(d, t1, t2) && d.enabled
    ensures d.bankMode[0] == ModeNone && d.bankMode[1] == ModeSinglePulse
    ensures d.nextUpdate[1] == 0 && d.maxPulse[1] == 0
    ensures t2.arr == 2499 && t2.updateEvents == 0 && t2.ccr1 == 0
    ensures d.CompareOf(0) == Some(1000)
  {
    d, t1, t2 := SinglePulseBoard();
    d.Set(0, 1000);
  }

  /** The single-pulse board with channel 0 commanded to 1000 ticks and channel 2 to 1500. */
  method PulseCommanded() returns (d: ServoDriver, t1: Timer, t2: Timer)
    ensures fresh(d) && fresh(t1) && fresh(t2)
    ensures fresh(d.bankMode) && fresh(d.nextUpdate) && fresh(d.maxPulse) && fresh(d.bankTimer)
    ensures fresh(d.pinBank) && fresh(d.pinLow)
    ensures Wired(d, t1, t2) && d.enabled
    ensures d.bankMode[0] == ModeNone && d.bankMode[1] == ModeSinglePulse
    ensures d.maxPulse[1] == 1500 && d.nextUpdate[1] == 0 && t2.updateEvents == 0
    ensures d.CompareOf(2) == Some(1500) && d.CompareOf(0) == Some(1000)
  {
    d, t1, t2 := OtherBankCommanded();
    d.Set(2, 1500);
  }

  /**
   * A single-pulse cycle on bank 1: after a position of 1500 ticks on channel 2, an
   * Update once the counter has passed next_update + 50 gives the bank one update
   * event, makes its next update 1500, clears its max pulse and zeroes the channel's
   * compare register; channel 0, on the other bank, keeps its 1000.
   */
  method SinglePulseCycle() returns (next: uint16, events: nat, pulse: uint16, c2: Option<uint16>, c0: Option<uint16>)
    ensures next == 1500 && events == 1 && pulse == 0
    ensures c2 == Some(0) && c0 == Some(1000)
  {
    var late: Timer -> uint32 := t => 5000;
    var d, t1, t2 := PulseCommanded();
    d.Update(late);
    next := d.nextUpdate[1];
    events := t2.updateEvents;
    pulse := d.maxPulse[1];
    c2 := d.CompareOf(2);
    c0 := d.CompareOf(0);
  }

  /** The board with channel 0 commanded to 1000 ticks and then disabled. */
  method CommandedThenDisabled() returns (d: ServoDriver, t1: Timer, t2: Timer)
    ensures fresh(d) && fresh(t1) && fresh(t2)
    ensures fresh(d.bankMode) && fresh(d.nextUpdate) && fresh(d.maxPulse) && fresh(d.bankTimer)
    ensures fresh(d.pinBank) && fresh(d.pinLow)
    ensures Wired(d, t1, t2) && !d.enabled && d.OcPulse() == 0
    ensures d.CompareOf(0) == Some(1000)
  {
    d, t1, t2 := Board();
    d.Set(0, 1000);
    d.Disable();
  }

  /** Enable's TIM_OCxInit reloads the template pulse: the 1000 commanded before Disable is gone. */
  method EnableReloadsCompare() returns (before: Option<uint16>, after: Option<uint16>)
    ensures before == Some(1000) && after == Some(0)
  {
    var d, t1, t2 := CommandedThenDisabled();
    before := d.CompareOf(0);
    d.Enable();
    after := d.CompareOf(0);
  }

  /** The board after Disable. */
  method DisabledBoard() returns (d: ServoDriver, t1: Timer, t2: Timer)
    ensures fresh(d) && fresh(t1) && fresh(t2)
    ensures fresh(d.bankMode) && fresh(d.nextUpdate) && fresh(d.maxPulse) && fresh(d.bankTimer)
    ensures fresh(d.pinBank) && fresh(d.pinLow)
    ensures Wired(d, t1, t2) && !d.enabled
    ensures d.bankMode[1] == ModeNone && d.nextUpdate[1] == 0 && d.maxPulse[1] == 0
    ensures !t2.running && t2.updateEvents == 0 && t2.ccr1 == 0
  {
    d, t1, t2 := Board();
    d.Disable();
  }

  /** While disabled, Set neither writes a compare register nor raises a max pulse. */
  method DisabledSetIsInert() returns (c: Option<uint16>, m: uint16)
    ensures c == Some(0) && m == 0
  {
    var d, t1, t2 := DisabledBoard();
    d.Set(2, 1000);
    c := d.CompareOf(2);
    m := d.maxPulse[1];
  }

  /** While disabled, Update generates no event and leaves the bank's next update alone. */
  method DisabledUpdateIsInert() returns (events: nat, next: uint16)
    ensures events == 0 && next == 0
  {
    var late: Timer -> uint32 := t => 5000;
    var d, t1, t2 := DisabledBoard();
    d.Update(late);
    assert t2 in d.Timers();
    events := t2.updateEvents;
    next := d.nextUpdate[1];
  }

  /** The disabled board with bank 1 given a PWM mode: stored, but the bank is not started. */
  method ModeWhileDisabled() returns (d: ServoDriver, t1: Timer, t2: Timer)
    ensures fresh(d) && fresh(t1) && fresh(t2)
    ensures fresh(d.bankMode) && fresh(d.nextUpdate) && fresh(d.maxPulse) && fresh(d.bankTimer)
    ensures fresh(d.pinBank) && fresh(d.pinLow)
    ensures Wired(d, t1, t2) && !d.enabled
    ensures d.bankMode[1] == ModePwm && !t2.running
  {
    d, t1, t2 := DisabledBoard();
    d.SetBankMode(1, ModePwm);
  }

  /** Enable starts the bank whose mode was set while the driver was disabled. */
  method EnableStartsStoredMode() returns (before: bool, after: bool)
    ensures !before && after
  {
    var d, t1, t2 := ModeWhileDisabled();
    before := t2.running;
    d.Enable();
    after := t2.running;
  }
}
