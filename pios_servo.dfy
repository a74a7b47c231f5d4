// The bank-multiplexed servo/ESC output driver (pios_servo.c).  The driver's
// module-level state is one ServoDriver object; the timers it drives are
// Timer objects shared with the configuration.

module PiosServo {
  import opened ServoTypes
  import opened BankGrouping
  import opened PulseMath

  /** The timers of some channels. */
  ghost function TimersOf(chs: seq<Channel>): set<Timer>
  {
    set i | 0 <= i < |chs| :: chs[i].timer
  }

  /** The timer of bank `b` after Init: the b-th distinct timer, or none. */
  function BankTimerOf(ts: seq<Timer>, b: nat): Timer?
  {
    if b < |FirstSeen(ts)| then FirstSeen(ts)[b] else null
  }

  /** Every bank timer Init records is the timer of one of the channels. */
  lemma BankTimerConfigured(chs: seq<Channel>, b: nat)
    requires b < |FirstSeen(TimerSeq(chs))|
    ensures FirstSeen(TimerSeq(chs))[b] in TimersOf(chs)
  {
    var ts := TimerSeq(chs);
    FirstSeenOccurs(ts, b);
    var j :| 0 <= j < |ts| && ts[j] == FirstSeen(ts)[b];
    assert chs[j].timer == FirstSeen(ts)[b];
  }

  /** The state of each channel's timer. */
  ghost function StatesOf(chs: seq<Channel>): (r: seq<TimerState>)
    reads TimersOf(chs)
    ensures |r| == |chs| && forall j :: 0 <= j < |chs| ==> r[j] == chs[j].timer.State()
  {
    seq(|chs|, j requires 0 <= j < |chs| reads TimersOf(chs) => chs[j].timer.State())
  }

  /** The compare registers of each channel's timer. */
  ghost function ComparesOf(chs: seq<Channel>): (r: seq<seq<uint16>>)
    reads TimersOf(chs)
    ensures |r| == |chs| && forall j :: 0 <= j < |chs| ==> r[j] == chs[j].timer.Compares()
  {
    seq(|chs|, j requires 0 <= j < |chs| reads TimersOf(chs) => chs[j].timer.Compares())
  }

  /**
   * The bank loop's invariant on values: after `i` channels, `bank` banks are open, bank b
   * holds the b-th distinct timer, each channel on an opened timer has that timer's bank,
   * and exactly the opened timers are stopped.
   */
  ghost predicate GroupedState(ts: seq<Timer>, i: nat, bank: nat, banks: seq<Timer?>, pins: seq<uint8>,
                               states: seq<TimerState>, compares: seq<seq<uint16>>,
                               orig: seq<TimerState>, origCompares: seq<seq<uint16>>)
  {
    i <= |ts| == |orig| == |origCompares| == |pins| == |states| == |compares| && |banks| == Banks &&
    bank == |Seen(ts, i)| <= Banks &&
    (forall b :: 0 <= b < Banks ==> banks[b] == if b < bank then Seen(ts, i)[b] else null) &&
    (forall j :: 0 <= j < |ts| && ts[j] in Seen(ts, i) ==> pins[j] == IndexOf(Seen(ts, i), ts[j])) &&
    (forall j :: 0 <= j < |ts| ==>
       states[j] == (if ts[j] in Seen(ts, i) then orig[j].(running := false) else orig[j]) &&
       compares[j] == origCompares[j])
  }

  /** The invariant for `i + 1` channels, from its parts with the timers seen so far given as `next`. */
  lemma GroupedStateFrom(ts: seq<Timer>, i: nat, bank: nat, banks: seq<Timer?>, pins: seq<uint8>,
                         states: seq<TimerState>, compares: seq<seq<uint16>>,
                         orig: seq<TimerState>, origCompares: seq<seq<uint16>>, next: seq<Timer>)
    requires i < |ts| == |orig| == |origCompares| == |pins| == |states| == |compares| && |banks| == Banks
    requires next == Seen(ts, i + 1) && bank == |next| <= Banks
    requires forall b :: 0 <= b < Banks ==> banks[b] == if b < bank then next[b] else null
    requires forall j :: 0 <= j < |ts| && ts[j] in next ==> pins[j] == IndexOf(next, ts[j])
    requires forall j :: 0 <= j < |ts| ==>
               states[j] == (if ts[j] in next then orig[j].(running := false) else orig[j]) &&
               compares[j] == origCompares[j]
    ensures GroupedState(ts, i + 1, bank, banks, pins, states, compares, orig, origCompares)
  {
  }

  /** Opening bank `|seen|` for timer `t` extends the bank-timer table by `t`. */
  lemma OpenedBankTimers(before: seq<Timer?>, after: seq<Timer?>, seen: seq<Timer>, t: Timer)
    requires |before| == Banks && |seen| < Banks && after == before[|seen| := t]
    requires forall b :: 0 <= b < Banks ==> before[b] == if b < |seen| then seen[b] else null
    ensures forall b :: 0 <= b < Banks ==> after[b] == if b < |seen| + 1 then (seen + [t])[b] else null
  {
  }

  /**
   * Giving bank `|seen|` to channel i and the later channels on its timer, a timer not among
   * `seen`, keeps every channel's pin bank its timer's position among the timers seen so far.
   */
  lemma OpenedBankPins(ts: seq<Timer>, i: nat, before: seq<uint8>, after: seq<uint8>, seen: seq<Timer>)
    requires i < |ts| == |before| == |after| && ts[i] !in seen
    requires forall k :: 0 <= k < |ts| && ts[k] in seen ==> before[k] == IndexOf(seen, ts[k])
    requires forall k :: 0 <= k < |ts| ==> after[k] == if i <= k && ts[k] == ts[i] then |seen| else before[k]
    requires forall k :: 0 <= k < i ==> ts[k] != ts[i]
    ensures forall k :: 0 <= k < |ts| && ts[k] in seen + [ts[i]] ==> after[k] == IndexOf(seen + [ts[i]], ts[k])
  {
    forall k | 0 <= k < |ts| && ts[k] in seen + [ts[i]]
      ensures after[k] == IndexOf(seen + [ts[i]], ts[k])
    {
      IndexOfAppend(seen, ts[i], ts[k]);
    }
  }

  /**
   * Stopping timer ts[i], not among `seen`, stops exactly the timers of `seen + [ts[i]]`
   * when those of `seen` were the only ones stopped, and changes no compare register.
   */
  lemma OpenedBankStates(ts: seq<Timer>, i: nat, before: seq<TimerState>, after: seq<TimerState>,
                         beforeCompares: seq<seq<uint16>>, afterCompares: seq<seq<uint16>>, seen: seq<Timer>,
                         orig: seq<TimerState>, origCompares: seq<seq<uint16>>)
    requires i < |ts| == |before| == |after| == |orig| && ts[i] !in seen
    requires |beforeCompares| == |afterCompares| == |origCompares| == |ts|
    requires forall j :: 0 <= j < |ts| ==>
               before[j] == (if ts[j] in seen then orig[j].(running := false) else orig[j]) &&
               beforeCompares[j] == origCompares[j]
    requires forall j :: 0 <= j < |ts| ==>
               after[j] == if ts[j] == ts[i] then before[j].(running := false) else before[j]
    requires afterCompares == beforeCompares
    ensures forall j :: 0 <= j < |ts| ==>
              after[j] == (if ts[j] in seen + [ts[i]] then orig[j].(running := false) else orig[j]) &&
              afterCompares[j] == origCompares[j]
  {
  }

  /** One pass of the bank loop for a channel whose timer an earlier channel uses: nothing changes. */
  lemma SeenAgain(ts: seq<Timer>, i: nat, bank: nat, banks: seq<Timer?>, pins: seq<uint8>,
                  states: seq<TimerState>, compares: seq<seq<uint16>>,
                  orig: seq<TimerState>, origCompares: seq<seq<uint16>>)
    requires GroupedState(ts, i, bank, banks, pins, states, compares, orig, origCompares)
    requires i < |ts| && ts[i] in Seen(ts, i)
    ensures GroupedState(ts, i + 1, bank, banks, pins, states, compares, orig, origCompares)
  {
    assert Seen(ts, i + 1) == Seen(ts, i);
  }

  /** A timer not among the first `i` channels' still has a bank free when all timers fit the banks. */
  lemma NewBankRoom(ts: seq<Timer>, i: nat)
    requires i < |ts| && ts[i] !in Seen(ts, i) && |FirstSeen(ts)| <= Banks
    ensures |Seen(ts, i)| < Banks
  {
    SeenGrows(ts, i + 1, |ts|);
  }

  /**
   * One pass of the bank loop for a channel whose timer is new: giving bank `bank` to
   * channel i and the later channels on its timer, recording the timer as the bank's
   * and stopping it keeps the invariant, with one more bank open.
   */
  lemma OpenedBank(ts: seq<Timer>, i: nat, bank: nat, banks: seq<Timer?>, banks': seq<Timer?>,
                   pins: seq<uint8>, pins': seq<uint8>, states: seq<TimerState>, states': seq<TimerState>,
                   compares: seq<seq<uint16>>, compares': seq<seq<uint16>>,
                   orig: seq<TimerState>, origCompares: seq<seq<uint16>>)
    requires GroupedState(ts, i, bank, banks, pins, states, compares, orig, origCompares)
    requires i < |ts| && ts[i] !in Seen(ts, i) && bank < Banks
    requires banks' == banks[bank := ts[i]]
    requires |pins'| == |ts| && forall k :: 0 <= k < |ts| ==> pins'[k] == if i <= k && ts[k] == ts[i] then bank else pins[k]
    requires |states'| == |ts| &&
             forall k :: 0 <= k < |ts| ==> states'[k] == if ts[k] == ts[i] then states[k].(running := false) else states[k]
    requires compares' == compares
    ensures GroupedState(ts, i + 1, bank + 1, banks', pins', states', compares', orig, origCompares)
  {
    var seen := Seen(ts, i);
    SeenMembers(ts, i, ts[i]);
    forall k | 0 <= k < i
      ensures ts[k] != ts[i]
    {
      assert ts[..i][k] == ts[k];
    }
    assert Seen(ts, i + 1) == seen + [ts[i]];
    OpenedBankTimers(banks, banks', seen, ts[i]);
    OpenedBankPins(ts, i, pins, pins', seen);
    OpenedBankStates(ts, i, states, states', compares, compares', seen, orig, origCompares);
    GroupedStateFrom(ts, i, bank + 1, banks', pins', states', compares', orig, origCompares, seen + [ts[i]]);
  }

  /** The inner loop of PIOS_Servo_Init: whether no channel before `i` uses channel i's timer. */
  method IsNewTimer(chs: seq<Channel>, i: nat) returns (isNew: bool)
    requires i < |chs|
    ensures isNew <==> chs[i].timer !in TimerSeq(chs)[..i]
  {
    isNew := true;
    var j := 0;
    while j < i && isNew
      invariant 0 <= j <= i
      invariant isNew <==> forall k :: 0 <= k < j ==> chs[k].timer != chs[i].timer
    {
      isNew := isNew && chs[i].timer != chs[j].timer;
      j := j + 1;
    }
    if !isNew {
      var k :| 0 <= k < j && chs[k].timer == chs[i].timer;
      assert TimerSeq(chs)[..i][k] == chs[i].timer;
    }
  }

  class ServoDriver {
    /** servo_cfg: None until Init stores a configuration. */
    var cfg: Option<Config>
    /** pios_servo_bank_mode, pios_servo_bank_next_update, pios_servo_bank_max_pulse, pios_servo_bank_timer */
    const bankMode: array<uint8>
    const nextUpdate: array<uint16>
    const maxPulse: array<uint16>
    const bankTimer: array<Timer?>
    /** pios_servo_pin_bank: the bank of each channel, allocated by Init. */
    var pinBank: array<uint8>
    /** The output pins: true while Disable holds a channel's pin at a static low level. */
    var pinLow: array<bool>
    /** pios_servo_enabled */
    var enabled: bool

    function Channels(): seq<Channel>
      reads this`cfg
    {
      match cfg
      case None => []
      case Some(c) => c.channels
    }

    predicate Initialised()
      reads this`cfg
    {
      cfg.Some?
    }

    /** The timers of the configured channels. */
    ghost function Timers(): set<Timer>
      reads this`cfg
    {
      TimersOf(Channels())
    }

    /** Bank `b` has a timer and a mode that Enable arms. */
    predicate Armed(b: nat)
      requires b < bankTimer.Length && b < bankMode.Length
      reads bankTimer, bankMode
    {
      bankTimer[b] != null && bankMode[b] != ModeNone
    }

    /** Bank `b` is a single-pulse bank whose previous pulse has had time to finish. */
    predicate RearmDue(b: nat, counter: Timer -> uint32)
      requires b < bankTimer.Length && b < bankMode.Length && b < nextUpdate.Length
      reads bankTimer, bankMode, nextUpdate
    {
      bankTimer[b] != null && bankMode[b] == ModeSinglePulse &&
      counter(bankTimer[b]) > nextUpdate[b] + SafeMargin
    }

    /** Channel `i` belongs to a bank in single-pulse mode. */
    predicate SinglePulseChannel(i: nat)
      requires i < pinBank.Length && bankMode.Length == Banks
      reads this, pinBank, bankMode
    {
      pinBank[i] < Banks && bankMode[pinBank[i]] == ModeSinglePulse
    }

    /** The compare register of channel `i`, if its selector names one. */
    function CompareOf(i: nat): Option<uint16>
      requires i < |Channels()|
      reads this, Channels()[i].timer
    {
      var ch := Channels()[i];
      match CompareSlot(ch.timerChan)
      case Some(k) => Some(ch.timer.Compares()[k])
      case None => None
    }

    /** The TIM_Pulse of the configuration's output-compare template (0 before Init). */
    function OcPulse(): uint16
      reads this`cfg
    {
      match cfg
      case None => 0
      case Some(c) => c.ocPulse
    }

    /** Compare register `k` of `t` is the register of some channel before `upto`. */
    ghost predicate LoadedBy(t: Timer, k: nat, upto: nat)
      reads this`cfg
    {
      exists i :: 0 <= i < upto && i < |Channels()| &&
        Channels()[i].timer == t && CompareSlot(Channels()[i].timerChan) == Some(k)
    }

    /** Compare register `k` of `t` is the register of some channel, before `upto`, of a single-pulse bank. */
    ghost predicate ZeroedBy(t: Timer, k: nat, upto: nat)
      requires bankMode.Length == Banks
      reads this, pinBank, bankMode
    {
      exists i :: 0 <= i < upto && i < |Channels()| && i < pinBank.Length &&
        Channels()[i].timer == t && CompareSlot(Channels()[i].timerChan) == Some(k) &&
        SinglePulseChannel(i)
    }

    /** The bank arrays have PIOS_SERVO_BANKS entries; the pin-bank array and the pins one per channel. */
    ghost predicate Shape()
      reads this`cfg, this`pinBank, this`pinLow
    {
      bankMode.Length == Banks && nextUpdate.Length == Banks &&
      maxPulse.Length == Banks && bankTimer.Length == Banks &&
      nextUpdate != maxPulse && pinBank != bankMode &&
      |Channels()| < 0x100 && pinBank.Length == |Channels()| && pinLow.Length == |Channels()|
    }

    /** No timer drives two banks. */
    ghost predicate BankTimersDistinct()
      requires bankTimer.Length == Banks
      reads bankTimer
    {
      forall a, b :: 0 <= a < b < Banks && bankTimer[a] != null ==> bankTimer[a] != bankTimer[b]
    }

    /** Every channel's bank exists and is driven by the channel's timer. */
    ghost predicate ChannelBanks()
      requires Shape()
      reads this`cfg, this`pinBank, this`pinLow, bankTimer, pinBank
    {
      forall i :: 0 <= i < |Channels()| ==> pinBank[i] < Banks && bankTimer[pinBank[i]] == Channels()[i].timer
    }

    /**
     * The driver's invariant: the bank map is the first-seen grouping of the configured
     * channels' timers (no channels and no bank timers before Init).
     */
    ghost predicate Valid()
      reads this`cfg, this`pinBank, this`pinLow, bankTimer, pinBank
    {
      var ts := TimerSeq(Channels());
      Shape() &&
      // (instantiated only where a proof mentions the grouping, to keep other proofs cheap)
      (forall b {:trigger BankTimerOf(ts, b)} :: 0 <= b < Banks ==> bankTimer[b] == BankTimerOf(ts, b)) &&
      (forall i {:trigger BankOf(ts, i)} :: 0 <= i < |ts| ==> pinBank[i] == BankOf(ts, i)) &&
      // consequences of the two lines above that the operations use
      BankTimersDistinct() && ChannelBanks()
    }

    /** Every bank timer is the timer of a configured channel. */
    lemma BankTimersConfigured()
      requires Valid()
      ensures forall b :: 0 <= b < Banks && bankTimer[b] != null ==> bankTimer[b] in Timers()
    {
      var ts := TimerSeq(Channels());
      forall b | 0 <= b < Banks && bankTimer[b] != null
        ensures bankTimer[b] in Timers()
      {
        assert bankTimer[b] == BankTimerOf(ts, b);
        FirstSeenOccurs(ts, b);
        var j :| 0 <= j < |ts| && ts[j] == FirstSeen(ts)[b];
        assert Channels()[j].timer == bankTimer[b];
      }
    }

    lemma NoBankTimersBeforeInit()
      requires Valid() && !Initialised()
      ensures forall b :: 0 <= b < Banks ==> bankTimer[b] == null
    {
      var ts := TimerSeq(Channels());
      assert ts == [];
      forall b | 0 <= b < Banks
        ensures bankTimer[b] == null
      {
        assert bankTimer[b] == BankTimerOf(ts, b);
      }
    }

    /**
     * The bank of channel `i` is its timer's rank among the distinct timers: a channel whose
     * timer no earlier channel uses gets the next unused bank id, a later one an id already
     * issued, and the bank's timer is the channel's timer.
     */
    lemma BankNumbering(i: nat)
      requires Valid() && i < |Channels()|
      ensures var ts := TimerSeq(Channels());
              pinBank[i] == BankOf(ts, i) && bankTimer[pinBank[i]] == ts[i] &&
              (ts[i] !in ts[..i] ==> pinBank[i] == |Seen(ts, i)|) &&
              (ts[i] in ts[..i] ==> pinBank[i] < |Seen(ts, i)|)
    {
      BankAssignment(TimerSeq(Channels()), i);
    }

    /** Exactly the banks below the number of distinct timers have a timer, the b-th distinct one. */
    lemma BankTimers(b: nat)
      requires Valid() && b < Banks
      ensures var ts := TimerSeq(Channels());
              bankTimer[b] == BankTimerOf(ts, b) &&
              (bankTimer[b] != null <==> b < |FirstSeen(ts)|) &&
              (b < |FirstSeen(ts)| ==> exists i :: 0 <= i < |ts| && pinBank[i] == b)
    {
      var ts := TimerSeq(Channels());
      if b < |FirstSeen(ts)| {
        EveryBankUsed(ts, b);
        var i :| 0 <= i < |ts| && BankOf(ts, i) == b;
        assert pinBank[i] == b;
      }
    }

    /** The driver before Init: the static initialisers of pios_servo.c. */
    constructor ()
      ensures Valid() && !Initialised() && enabled
      ensures fresh(bankMode) && fresh(nextUpdate) && fresh(maxPulse) && fresh(bankTimer) && fresh(pinBank) && fresh(pinLow)
      ensures forall b :: 0 <= b < Banks ==>
                bankMode[b] == ModeNone && nextUpdate[b] == 0 && maxPulse[b] == 0 && bankTimer[b] == null
    {
      cfg := None;
      bankMode := new uint8[Banks](_ => 0);
      nextUpdate := new uint16[Banks](_ => 0);
      maxPulse := new uint16[Banks](_ => 0);
      bankTimer := new Timer?[Banks](_ => null);
      pinBank := new uint8[0];
      pinLow := new bool[0];
      enabled := true;
    }

    /**
     * PIOS_Servo_Init: stores the configuration, groups the channels that share a timer
     * into banks numbered from 0 in first-seen order (PIOS_Assert: at most
     * PIOS_SERVO_BANKS of them), stops every bank's timer and then enables the driver,
     * which reloads every channel's compare register with the template pulse.
     */
    method Init(config: Config)
      requires Valid() && !Initialised()
      requires |config.channels| < 0x100
      requires |FirstSeen(TimerSeq(config.channels))| <= Banks
      modifies this, bankTimer, TimersOf(config.channels)
      ensures Valid() && cfg == Some(config) && enabled
      ensures fresh(pinBank) && fresh(pinLow)
      ensures forall i :: 0 <= i < pinLow.Length ==> !pinLow[i]
      ensures forall i :: 0 <= i < |config.channels| ==>
                var t := config.channels[i].timer;
                var armed := Armed(pinBank[i]);
                t.State() == old(t.State()).(running := armed, repetitive := old(t.repetitive) || armed)
      ensures forall t, k :: t in Timers() && 0 <= k < 4 ==>
                t.Compares()[k] == if LoadedBy(t, k, |Channels()|) then OcPulse() else old(t.Compares()[k])
      ensures forall i :: 0 <= i < |Channels()| && CompareSlot(Channels()[i].timerChan).Some? ==>
                CompareOf(i) == Some(OcPulse())
    {
      NoBankTimersBeforeInit();
      Configure(config);
      Enable();
    }

    /** PIOS_Servo_Init up to the call of PIOS_Servo_Enable: every channel's timer is left stopped. */
    method Configure(config: Config)
      requires Shape() && !Initialised()
      requires forall b :: 0 <= b < Banks ==> bankTimer[b] == null
      requires |config.channels| < 0x100
      requires |FirstSeen(TimerSeq(config.channels))| <= Banks
      modifies this, bankTimer, TimersOf(config.channels)
      ensures Valid() && cfg == Some(config) && enabled == old(enabled)
      ensures fresh(pinBank) && fresh(pinLow)
      ensures forall i :: 0 <= i < |config.channels| ==> pinBank[i] == BankOf(TimerSeq(config.channels), i)
      ensures forall b :: 0 <= b < Banks ==> bankTimer[b] == BankTimerOf(TimerSeq(config.channels), b)
      ensures forall i :: 0 <= i < |config.channels| ==>
                config.channels[i].timer.State() == old(config.channels[i].timer.State()).(running := false)
      ensures forall t :: t in Timers() ==> t.Compares() == old(t.Compares())
    {
      GroupChannels(config.channels);
      forall t | t in TimersOf(config.channels)
        ensures t.Compares() == old(t.Compares())
      {
        var j :| 0 <= j < |config.channels| && config.channels[j].timer == t;
      }
      cfg := Some(config);
      pinLow := new bool[|config.channels|];
      GroupingValid();
    }

    /** The bank map Init computes satisfies the driver's invariant. */
    lemma GroupingValid()
      requires bankMode.Length == Banks && nextUpdate.Length == Banks
      requires maxPulse.Length == Banks && bankTimer.Length == Banks
      requires nextUpdate != maxPulse && pinBank != bankMode
      requires |Channels()| < 0x100 && pinBank.Length == |Channels()| && pinLow.Length == |Channels()|
      requires |FirstSeen(TimerSeq(Channels()))| <= Banks
      requires forall i :: 0 <= i < |Channels()| ==> pinBank[i] == BankOf(TimerSeq(Channels()), i)
      requires forall b :: 0 <= b < Banks ==> bankTimer[b] == BankTimerOf(TimerSeq(Channels()), b)
      ensures Valid()
    {
      var ts := TimerSeq(Channels());
      FirstSeenDistinct(ts);
      forall i | 0 <= i < |ts|
        ensures pinBank[i] < Banks && bankTimer[pinBank[i]] == Channels()[i].timer
      {
        assert pinBank[i] == BankOf(ts, i);
        assert bankTimer[pinBank[i]] == BankTimerOf(ts, pinBank[i]);
      }
      forall x, y | 0 <= x < y < Banks && bankTimer[x] != null
        ensures bankTimer[x] != bankTimer[y]
      {
        assert bankTimer[x] == BankTimerOf(ts, x);
        assert bankTimer[y] == BankTimerOf(ts, y);
      }
    }

    /**
     * What the bank loop of PIOS_Servo_Init has established after the first `i` channels,
     * `bank` of them opening a bank: banks 0 .. bank-1 are the distinct timers of those
     * channels in first-seen order, every channel on one of them has its bank, and exactly
     * those timers are stopped (`orig` and `origCompares` hold each channel's timer before the loop).
     */
    ghost predicate Grouped(chs: seq<Channel>, i: nat, bank: nat, orig: seq<TimerState>, origCompares: seq<seq<uint16>>)
      reads this`pinBank, bankTimer, pinBank, TimersOf(chs)
    {
      bankTimer.Length == Banks && pinBank.Length == |chs| &&
      GroupedState(TimerSeq(chs), i, bank, bankTimer[..], pinBank[..], StatesOf(chs), ComparesOf(chs), orig, origCompares)
    }

    /** PIOS_Servo_Init's allocation of the pin-bank array and its bank loop. */
    method GroupChannels(chs: seq<Channel>)
      requires bankTimer.Length == Banks && |chs| < 0x100
      requires forall b :: 0 <= b < Banks ==> bankTimer[b] == null
      requires |FirstSeen(TimerSeq(chs))| <= Banks
      modifies this`pinBank, bankTimer, TimersOf(chs)
      ensures fresh(pinBank) && pinBank.Length == |chs|
      ensures forall i :: 0 <= i < |chs| ==> pinBank[i] == BankOf(TimerSeq(chs), i)
      ensures forall b :: 0 <= b < Banks ==> bankTimer[b] == BankTimerOf(TimerSeq(chs), b)
      ensures forall j :: 0 <= j < |chs| ==>
                chs[j].timer.State() == old(chs[j].timer.State()).(running := false) &&
                chs[j].timer.Compares() == old(chs[j].timer.Compares())
    {
      pinBank := new uint8[|chs|];  // pios_malloc
      GroupLoop(chs);
    }

    /**
     * The bank loop of PIOS_Servo_Init: for each channel whose timer no earlier channel
     * uses, the next bank id goes to that channel and every later one on the same timer,
     * the timer becomes the bank's timer and is stopped.
     */
    method GroupLoop(chs: seq<Channel>)
      requires bankTimer.Length == Banks && pinBank.Length == |chs| < 0x100
      requires forall b :: 0 <= b < Banks ==> bankTimer[b] == null
      requires |FirstSeen(TimerSeq(chs))| <= Banks
      modifies pinBank, bankTimer, TimersOf(chs)
      ensures forall i :: 0 <= i < |chs| ==> pinBank[i] == BankOf(TimerSeq(chs), i)
      ensures forall b :: 0 <= b < Banks ==> bankTimer[b] == BankTimerOf(TimerSeq(chs), b)
      ensures forall j :: 0 <= j < |chs| ==>
                chs[j].timer.State() == old(chs[j].timer.State()).(running := false) &&
                chs[j].timer.Compares() == old(chs[j].timer.Compares())
    {
      ghost var orig := StatesOf(chs);
      ghost var origCompares := ComparesOf(chs);
      GroupedStart(chs, orig, origCompares);
      var bank := BankLoop(chs, orig, origCompares);
      GroupedDone(chs, bank, orig, origCompares);
    }

    /** The loop over the channels, from no channel grouped to all of them; `bank` counts the banks opened. */
    method BankLoop(chs: seq<Channel>, ghost orig: seq<TimerState>, ghost origCompares: seq<seq<uint16>>)
      returns (bank: nat)
      requires |chs| < 0x100 && |FirstSeen(TimerSeq(chs))| <= Banks
      requires Grouped(chs, 0, 0, orig, origCompares)
      modifies pinBank, bankTimer, TimersOf(chs)
      ensures Grouped(chs, |chs|, bank, orig, origCompares)
    {
      bank := 0;
      var i := 0;
      while i < |chs|
        invariant 0 <= i <= |chs|
        invariant Grouped(chs, i, bank, orig, origCompares)
      {
        bank := GroupStep(chs, i, bank, orig, origCompares);
        i := i + 1;
      }
      GroupedAll(chs, i, bank, orig, origCompares);
    }

    /** The loop's exit: the invariant at `i == |chs|`. */
    lemma GroupedAll(chs: seq<Channel>, i: nat, bank: nat, orig: seq<TimerState>, origCompares: seq<seq<uint16>>)
      requires i == |chs| && Grouped(chs, i, bank, orig, origCompares)
      ensures Grouped(chs, |chs|, bank, orig, origCompares)
    {
    }

    /** Before the bank loop no channel is grouped. */
    lemma GroupedStart(chs: seq<Channel>, orig: seq<TimerState>, origCompares: seq<seq<uint16>>)
      requires bankTimer.Length == Banks && pinBank.Length == |chs| == |orig| == |origCompares|
      requires forall b :: 0 <= b < Banks ==> bankTimer[b] == null
      requires forall j :: 0 <= j < |chs| ==> chs[j].timer.State() == orig[j] && chs[j].timer.Compares() == origCompares[j]
      ensures Grouped(chs, 0, 0, orig, origCompares)
    {
    }

    /** After the bank loop every channel is grouped: the bank map is the first-seen grouping. */
    lemma GroupedDone(chs: seq<Channel>, bank: nat, orig: seq<TimerState>, origCompares: seq<seq<uint16>>)
      requires Grouped(chs, |chs|, bank, orig, origCompares)
      ensures forall i :: 0 <= i < |chs| ==> pinBank[i] == BankOf(TimerSeq(chs), i)
      ensures forall b :: 0 <= b < Banks ==> bankTimer[b] == BankTimerOf(TimerSeq(chs), b)
      ensures forall j :: 0 <= j < |chs| ==>
                chs[j].timer.State() == orig[j].(running := false) && chs[j].timer.Compares() == origCompares[j]
    {
      var ts := TimerSeq(chs);
      SeenCovers(ts, |chs|);
      assert Seen(ts, |chs|) == FirstSeen(ts);
    }

    /** One pass of the bank loop of PIOS_Servo_Init, for channel `i`. */
    method GroupStep(chs: seq<Channel>, i: nat, bank: nat, ghost orig: seq<TimerState>,
                     ghost origCompares: seq<seq<uint16>>) returns (bank': nat)
      requires i < |chs| < 0x100 && |FirstSeen(TimerSeq(chs))| <= Banks
      requires Grouped(chs, i, bank, orig, origCompares)
      modifies pinBank, bankTimer, chs[i].timer
      ensures Grouped(chs, i + 1, bank', orig, origCompares)
    {
      ghost var ts := TimerSeq(chs);
      var isNew := IsNewTimer(chs, i);
      SeenMembers(ts, i, chs[i].timer);
      if isNew {
        bank' := NewBankStep(chs, i, bank, orig, origCompares);
      } else {
        bank' := bank;
        SeenAgain(ts, i, bank, bankTimer[..], pinBank[..], StatesOf(chs), ComparesOf(chs), orig, origCompares);
      }
    }

    /** GroupStep for a channel whose timer no earlier channel uses: it opens the next bank. */
    method NewBankStep(chs: seq<Channel>, i: nat, bank: nat, ghost orig: seq<TimerState>,
                       ghost origCompares: seq<seq<uint16>>) returns (bank': nat)
      requires i < |chs| < 0x100 && |FirstSeen(TimerSeq(chs))| <= Banks
      requires Grouped(chs, i, bank, orig, origCompares)
      requires chs[i].timer !in Seen(TimerSeq(chs), i)
      modifies pinBank, bankTimer, chs[i].timer
      ensures Grouped(chs, i + 1, bank', orig, origCompares) && bank' == bank + 1
    {
      ghost var ts := TimerSeq(chs);
      NewBankRoom(ts, i);
      assert bank < Banks;  // PIOS_Assert(bank < PIOS_SERVO_BANKS)
      ghost var banks := bankTimer[..];
      ghost var pins := pinBank[..];
      ghost var states := StatesOf(chs);
      ghost var compares := ComparesOf(chs);
      OpenBank(chs, i, bank as uint8);
      OpenedBank(ts, i, bank, banks, bankTimer[..], pins, pinBank[..], states, StatesOf(chs),
                 compares, ComparesOf(chs), orig, origCompares);
      bank' := bank + 1;
    }

    /**
     * The body of `if (new)` in PIOS_Servo_Init: channel i and the later channels on its
     * timer get bank `bank`, the timer becomes that bank's timer and is stopped.
     */
    method OpenBank(chs: seq<Channel>, i: nat, bank: uint8)
      requires i < |chs| == pinBank.Length && bank < bankTimer.Length
      modifies pinBank, bankTimer, chs[i].timer
      ensures forall k :: 0 <= k < |chs| ==>
                pinBank[k] == if i <= k && chs[k].timer == chs[i].timer then bank else old(pinBank[k])
      ensures bankTimer[..] == old(bankTimer[..])[bank := chs[i].timer]
      ensures forall k :: 0 <= k < |chs| ==>
                StatesOf(chs)[k] == if chs[k].timer == chs[i].timer then old(StatesOf(chs))[k].(running := false)
                                    else old(StatesOf(chs))[k]
      ensures ComparesOf(chs) == old(ComparesOf(chs))
    {
      AssignBank(chs, i, bank);
      bankTimer[bank] := chs[i].timer;
      chs[i].timer.Stop();  // TIM_Cmd(chan->timer, DISABLE)
    }

    /** The look-ahead loop of PIOS_Servo_Init: channel i and every later channel on its timer get `bank`. */
    method AssignBank(chs: seq<Channel>, i: nat, bank: uint8)
      requires i < |chs| == pinBank.Length
      modifies pinBank
      ensures forall k :: 0 <= k < |chs| ==>
                pinBank[k] == if i <= k && chs[k].timer == chs[i].timer then bank else old(pinBank[k])
    {
      var j := i;
      while j < |chs|
        invariant i <= j <= |chs|
        invariant forall k :: 0 <= k < |chs| ==>
                    pinBank[k] == if i <= k < j && chs[k].timer == chs[i].timer then bank else old(pinBank[k])
      {
        if chs[j].timer == chs[i].timer {
          pinBank[j] := bank;
        }
        j := j + 1;
      }
    }

    /** The channel loop of Disable: every pin is forced to a static low level. */
    method SetPinsLow()
      requires Shape()
      modifies pinLow
      ensures forall i :: 0 <= i < pinLow.Length ==> pinLow[i]
    {
      var i := 0;
      while i < |Channels()|
        invariant 0 <= i <= pinLow.Length == |Channels()|
        invariant forall j :: 0 <= j < i ==> pinLow[j]
      {
        pinLow[i] := true;
        i := i + 1;
      }
    }

    /** How LoadedBy grows when the channel loop of Enable passes channel `i`. */
    lemma LoadedByStep(t: Timer, k: nat, i: nat)
      requires i < |Channels()|
      ensures LoadedBy(t, k, i + 1) <==>
                LoadedBy(t, k, i) || (Channels()[i].timer == t && CompareSlot(Channels()[i].timerChan) == Some(k))
    {
      if LoadedBy(t, k, i + 1) && !LoadedBy(t, k, i) {
        var j :| 0 <= j < i + 1 && j < |Channels()| &&
          Channels()[j].timer == t && CompareSlot(Channels()[j].timerChan) == Some(k);
        assert j == i;
      }
    }

    /**
     * The channel loop of Enable: each pin goes back to its timer function and the
     * channel's TIM_OCxInit loads its compare register with the template's TIM_Pulse;
     * `timers` holds the channels' timers.
     */
    method RestoreChannels(ghost timers: set<Timer>)
      requires Shape()
      requires forall i :: 0 <= i < |Channels()| ==> Channels()[i].timer in timers
      modifies pinLow, timers
      ensures forall i :: 0 <= i < pinLow.Length ==> !pinLow[i]
      ensures forall t :: t in timers ==> t.State() == old(t.State())
      ensures forall t, k :: t in timers && 0 <= k < 4 ==>
                t.Compares()[k] == if LoadedBy(t, k, |Channels()|) then OcPulse() else old(t.Compares()[k])
    {
      var chs := Channels();
      var i := 0;
      while i < |chs|
        invariant 0 <= i <= |chs| == pinLow.Length
        invariant forall j :: 0 <= j < i ==> !pinLow[j]
        invariant forall t :: t in timers ==> t.State() == old(t.State())
        invariant forall t, k :: t in timers && 0 <= k < 4 ==>
                    t.Compares()[k] == if LoadedBy(t, k, i) then OcPulse() else old(t.Compares()[k])
      {
        forall t, k | 0 <= k < 4
          ensures LoadedBy(t, k, i + 1) <==>
                    LoadedBy(t, k, i) || (chs[i].timer == t && CompareSlot(chs[i].timerChan) == Some(k))
        {
          LoadedByStep(t, k, i);
        }
        pinLow[i] := false;
        var chan := chs[i];
        chan.timer.SetCompare(chan.timerChan, OcPulse());
        i := i + 1;
      }
    }

    /** Enable's channel loop, with what it means for each channel's register. */
    method RestoreOutputs()
      requires Valid()
      modifies pinLow, Timers()
      ensures forall i :: 0 <= i < pinLow.Length ==> !pinLow[i]
      ensures forall t :: t in Timers() ==> t.State() == old(t.State())
      ensures forall t, k :: t in Timers() && 0 <= k < 4 ==>
                t.Compares()[k] == if LoadedBy(t, k, |Channels()|) then OcPulse() else old(t.Compares()[k])
      ensures forall i :: 0 <= i < |Channels()| && CompareSlot(Channels()[i].timerChan).Some? ==>
                CompareOf(i) == Some(OcPulse())
    {
      RestoreChannels(Timers());
      forall i | 0 <= i < |Channels()| && CompareSlot(Channels()[i].timerChan).Some?
        ensures CompareOf(i) == Some(OcPulse())
      {
        var ch := Channels()[i];
        assert ch.timer in Timers();
        assert LoadedBy(ch.timer, CompareSlot(ch.timerChan).value, |Channels()|);
      }
    }

    /** PIOS_Servo_Disable: after Init, clears the enabled flag and forces every pin low. */
    method Disable()
      requires Valid()
      modifies this`enabled, pinLow
      ensures Valid()
      ensures !Initialised() ==> enabled == old(enabled) && pinLow[..] == old(pinLow[..])
      ensures Initialised() ==> !enabled && forall i :: 0 <= i < pinLow.Length ==> pinLow[i]
      ensures bankMode[..] == old(bankMode[..]) && bankTimer[..] == old(bankTimer[..])
    {
      if !Initialised() {
        return;
      }
      enabled := false;
      SetPinsLow();
    }

    /** The bank loop of Enable: start, in repetitive mode, every bank that has a timer and a mode; `timers` holds the bank timers. */
    method StartArmedBanks(ghost timers: set<Timer>)
      requires bankTimer.Length == Banks && bankMode.Length == Banks && BankTimersDistinct()
      requires forall b :: 0 <= b < Banks && bankTimer[b] != null ==> bankTimer[b] in timers
      modifies timers
      ensures forall b :: 0 <= b < Banks && bankTimer[b] != null ==>
                bankTimer[b].State() ==
                  if Armed(b) then old(bankTimer[b].State()).(running := true, repetitive := true)
                  else old(bankTimer[b].State())
      ensures forall t :: t in timers ==> t.Compares() == old(t.Compares())
    {
      var i := 0;
      while i < Banks
        invariant 0 <= i <= Banks
        invariant forall b :: 0 <= b < Banks && bankTimer[b] != null ==>
                    bankTimer[b].State() ==
                      if b < i && Armed(b) then old(bankTimer[b].State()).(running := true, repetitive := true)
                      else old(bankTimer[b].State())
        invariant forall t :: t in timers ==> t.Compares() == old(t.Compares())
      {
        var timer := bankTimer[i];
        if timer != null && bankMode[i] != ModeNone {
          timer.StartRepetitive();
        }
        i := i + 1;
      }
    }

    /**
     * PIOS_Servo_Enable: after Init, restores every pin to its timer function, reloads each
     * channel's compare register with the template's TIM_Pulse, starts in repetitive mode
     * exactly the banks that have a timer and a mode other than NONE, and sets the enabled flag.
     */
    method Enable()
      requires Valid()
      modifies this`enabled, pinLow, Timers()
      ensures Valid()
      ensures !Initialised() ==> enabled == old(enabled) && pinLow[..] == old(pinLow[..])
      ensures Initialised() ==> enabled && forall i :: 0 <= i < pinLow.Length ==> !pinLow[i]
      ensures forall b :: 0 <= b < Banks && bankTimer[b] != null ==>
                bankTimer[b].State() ==
                  if Initialised() && Armed(b) then old(bankTimer[b].State()).(running := true, repetitive := true)
                  else old(bankTimer[b].State())
      ensures forall i :: 0 <= i < |Channels()| ==>
                var t := Channels()[i].timer;
                t.State() == if Initialised() && Armed(pinBank[i]) then old(t.State()).(running := true, repetitive := true)
                             else old(t.State())
      ensures forall t, k :: t in Timers() && 0 <= k < 4 ==>
                t.Compares()[k] == if LoadedBy(t, k, |Channels()|) then OcPulse() else old(t.Compares()[k])
      ensures forall i :: 0 <= i < |Channels()| && CompareSlot(Channels()[i].timerChan).Some? ==>
                CompareOf(i) == Some(OcPulse())
    {
      if !Initialised() {
        NoBankTimersBeforeInit();
        return;
      }
      RestoreOutputs();
      BankTimersConfigured();
      StartArmedBanks(Timers());
      enabled := true;
    }

    /**
     * PIOS_Servo_SetBankMode: stores the bank's mode (PIOS_Assert: the bank exists) whether
     * or not the driver is enabled; only while it is enabled, a bank that has a timer has
     * that timer started in repetitive mode.
     */
    method SetBankMode(bank: uint8, mode: uint8)
      requires Valid() && bank < Banks
      modifies bankMode, bankTimer[bank]
      ensures Valid()
      ensures bankMode[..] == old(bankMode[..])[bank := mode]
      ensures bankTimer[bank] != null ==>
                bankTimer[bank].State() ==
                  if enabled then old(bankTimer[bank].State()).(running := true, repetitive := true)
                  else old(bankTimer[bank].State())
      ensures bankTimer[bank] != null ==> bankTimer[bank].Compares() == old(bankTimer[bank].Compares())
    {
      bankMode[bank] := mode;
      if !enabled {
        return;
      }
      var timer := bankTimer[bank];
      if timer != null {
        timer.StartRepetitive();
      }
    }

    /**
     * PIOS_Servo_SetHz (PIOS_Assert: at most PIOS_SERVO_BANKS rates): after Init, each of
     * the first `banks` banks that has a timer gets the prescaler and period for its tick
     * rate (`clock[b]`, or PIOS_SERVO_TIMER_CLOCK when that is 0) and its rate `speeds[b]`.
     */
    method SetHz(speeds: seq<uint16>, clock: seq<uint32>, banks: uint8)
      requires Valid() && banks <= Banks
      requires forall b :: 0 <= b < banks && bankTimer[b] != null ==> b < |speeds| && b < |clock| && speeds[b] > 0
      modifies Timers()
      ensures Valid()
      ensures forall b :: 0 <= b < Banks && bankTimer[b] != null ==>
                bankTimer[b].State() ==
                  if Initialised() && b < banks then
                    old(bankTimer[b].State()).(prescaler := Prescaler(bankTimer[b].busClock, TickRate(clock[b])),
                                               arr := Period(TickRate(clock[b]), speeds[b]))
                  else old(bankTimer[b].State())
      ensures forall b :: 0 <= b < Banks && bankTimer[b] != null ==> bankTimer[b].Compares() == old(bankTimer[b].Compares())
    {
      if !Initialised() {
        NoBankTimersBeforeInit();
        return;
      }
      BankTimersConfigured();
      RetimeBanks(speeds, clock, banks, Timers());
    }

    /** The bank loop of SetHz; `timers` holds the bank timers. */
    method RetimeBanks(speeds: seq<uint16>, clock: seq<uint32>, banks: uint8, ghost timers: set<Timer>)
      requires bankTimer.Length == Banks && banks <= Banks && BankTimersDistinct()
      requires forall b :: 0 <= b < Banks && bankTimer[b] != null ==> bankTimer[b] in timers
      requires forall b :: 0 <= b < banks && bankTimer[b] != null ==> b < |speeds| && b < |clock| && speeds[b] > 0
      modifies timers
      ensures forall b :: 0 <= b < Banks && bankTimer[b] != null ==>
                bankTimer[b].State() ==
                  if b < banks then
                    old(bankTimer[b].State()).(prescaler := Prescaler(bankTimer[b].busClock, TickRate(clock[b])),
                                               arr := Period(TickRate(clock[b]), speeds[b]))
                  else old(bankTimer[b].State())
      ensures forall b :: 0 <= b < Banks && bankTimer[b] != null ==> bankTimer[b].Compares() == old(bankTimer[b].Compares())
    {
      var i := 0;
      while i < banks && i < Banks
        invariant 0 <= i <= banks
        invariant forall b :: 0 <= b < Banks && bankTimer[b] != null ==>
                    bankTimer[b].State() ==
                      if b < i then
                        old(bankTimer[b].State()).(prescaler := Prescaler(bankTimer[b].busClock, TickRate(clock[b])),
                                                   arr := Period(TickRate(clock[b]), speeds[b]))
                      else old(bankTimer[b].State())
        invariant forall b :: 0 <= b < Banks && bankTimer[b] != null ==> bankTimer[b].Compares() == old(bankTimer[b].Compares())
      {
        RetimeBank(i, speeds, clock);
        i := i + 1;
      }
    }

    /** One pass of the bank loop of SetHz, for bank `i`. */
    method RetimeBank(i: nat, speeds: seq<uint16>, clock: seq<uint32>)
      requires bankTimer.Length == Banks && i < Banks
      requires bankTimer[i] != null ==> i < |speeds| && i < |clock| && speeds[i] > 0
      modifies bankTimer[i]
      ensures bankTimer[i] != null ==>
                bankTimer[i].State() ==
                  old(bankTimer[i].State()).(prescaler := Prescaler(bankTimer[i].busClock, TickRate(clock[i])),
                                             arr := Period(TickRate(clock[i]), speeds[i]))
      ensures bankTimer[i] != null ==> bankTimer[i].Compares() == old(bankTimer[i].Compares())
    {
      var timer := bankTimer[i];
      if timer != null {
        var newClock := TickRate(clock[i]);
        timer.SetTimeBase(Prescaler(timer.busClock, newClock), Period(newClock, speeds[i]));
      }
    }

    /** The channel `servo` names when Set acts on it: the driver is enabled and initialised and the channel exists. */
    predicate Commandable(servo: nat)
      reads this`enabled, this`cfg
    {
      enabled && Initialised() && servo < |Channels()|
    }

    /**
     * PIOS_Servo_Set: for a commandable channel, writes the position clamped to
     * ARR - ARR/50 into the channel's compare register and raises its bank's max pulse
     * to at least that value; otherwise nothing changes.
     */
    method Set(servo: uint8, position: uint16)
      requires Valid()
      modifies maxPulse, if servo < |Channels()| then {Channels()[servo].timer} else {}
      ensures Valid()
      ensures !Commandable(servo) ==> maxPulse[..] == old(maxPulse[..])
      ensures !Commandable(servo) && servo < |Channels()| ==>
                Channels()[servo].timer.State() == old(Channels()[servo].timer.State()) &&
                Channels()[servo].timer.Compares() == old(Channels()[servo].timer.Compares())
      ensures Commandable(servo) ==>
                var ch := Channels()[servo];
                var v := ClampToPeriod(position, ch.timer.arr);
                maxPulse[..] == old(maxPulse[..])[pinBank[servo] := Max(old(maxPulse[pinBank[servo]]), v)] &&
                ch.timer.State() == old(ch.timer.State()) &&
                ch.timer.Compares() == match CompareSlot(ch.timerChan)
                                       case Some(k) => old(ch.timer.Compares())[k := v]
                                       case None => old(ch.timer.Compares())
      ensures forall b :: 0 <= b < Banks ==> old(maxPulse[b]) <= maxPulse[b]
      ensures Commandable(servo) && CompareSlot(Channels()[servo].timerChan).Some? ==>
                CompareOf(servo) == Some(ClampToPeriod(position, Channels()[servo].timer.arr))
      ensures servo < |Channels()| ==>
                forall j ::
                  (0 <= j < |Channels()| &&
                   (Channels()[j].timer != Channels()[servo].timer || Channels()[j].timerChan != Channels()[servo].timerChan)) ==>
                  CompareOf(j) == old(CompareOf(j))
    {
      if !enabled || !Initialised() || servo as nat >= |cfg.value.channels| {
        return;
      }
      var chan := cfg.value.channels[servo];
      var val := ClampToPeriod(position, chan.timer.arr);
      var bank := pinBank[servo];
      if maxPulse[bank] < val {
        maxPulse[bank] := val;
      }
      chan.timer.SetCompare(chan.timerChan, val);
    }

    /**
     * PIOS_Servo_Update: while enabled, re-arms each single-pulse bank whose last pulse
     * has had time to finish (one update event; its next update becomes the bank's max
     * pulse), clears every bank's max pulse and zeroes the compare register of every
     * channel of a single-pulse bank.  While disabled, nothing changes.
     */
    method Update(counter: Timer -> uint32)
      requires Valid() && (enabled ==> Initialised())
      modifies nextUpdate, maxPulse, Timers()
      ensures Valid()
      ensures !enabled ==>
                nextUpdate[..] == old(nextUpdate[..]) && maxPulse[..] == old(maxPulse[..]) &&
                forall t :: t in Timers() ==> t.State() == old(t.State()) && t.Compares() == old(t.Compares())
      ensures enabled ==>
                forall b :: 0 <= b < Banks ==>
                  maxPulse[b] == 0 &&
                  nextUpdate[b] == if old(RearmDue(b, counter)) then old(maxPulse[b]) else old(nextUpdate[b])
      ensures enabled ==>
                forall b :: 0 <= b < Banks && bankTimer[b] != null ==>
                  bankTimer[b].State() ==
                    if old(RearmDue(b, counter)) then old(bankTimer[b].State()).(updateEvents := old(bankTimer[b].updateEvents) + 1)
                    else old(bankTimer[b].State())
      ensures enabled ==>
                forall t, k :: t in Timers() && 0 <= k < 4 ==>
                  t.Compares()[k] == if ZeroedBy(t, k, |Channels()|) then 0 else old(t.Compares()[k])
      ensures enabled ==>
                forall i :: 0 <= i < |Channels()| ==>
                  CompareOf(i) == if SinglePulseChannel(i) && old(CompareOf(i)).Some? then Some(0) else old(CompareOf(i))
    {
      if !enabled {
        return;
      }
      BankTimersConfigured();
      RearmBanks(counter, Timers());
      ZeroSinglePulse();
    }

    /** The bank loop of Update; `timers` holds the bank timers. */
    method RearmBanks(counter: Timer -> uint32, ghost timers: set<Timer>)
      requires bankTimer.Length == Banks && bankMode.Length == Banks && BankTimersDistinct()
      requires nextUpdate.Length == Banks && maxPulse.Length == Banks && nextUpdate != maxPulse
      requires forall b :: 0 <= b < Banks && bankTimer[b] != null ==> bankTimer[b] in timers
      modifies nextUpdate, maxPulse, timers
      ensures forall b :: 0 <= b < Banks ==>
                maxPulse[b] == 0 &&
                nextUpdate[b] == if old(RearmDue(b, counter)) then old(maxPulse[b]) else old(nextUpdate[b])
      ensures forall b :: 0 <= b < Banks && bankTimer[b] != null ==>
                bankTimer[b].State() ==
                  if old(RearmDue(b, counter)) then old(bankTimer[b].State()).(updateEvents := old(bankTimer[b].updateEvents) + 1)
                  else old(bankTimer[b].State())
      ensures forall t :: t in timers ==> t.Compares() == old(t.Compares())
    {
      var i := 0;
      while i < Banks
        invariant 0 <= i <= Banks
        invariant forall b :: 0 <= b < Banks ==>
                    maxPulse[b] == (if b < i then 0 else old(maxPulse[b])) &&
                    nextUpdate[b] == if b < i && old(RearmDue(b, counter)) then old(maxPulse[b]) else old(nextUpdate[b])
        invariant forall b :: 0 <= b < Banks && bankTimer[b] != null ==>
                    bankTimer[b].State() ==
                      if b < i && old(RearmDue(b, counter)) then old(bankTimer[b].State()).(updateEvents := old(bankTimer[b].updateEvents) + 1)
                      else old(bankTimer[b].State())
        invariant forall t :: t in timers ==> t.Compares() == old(t.Compares())
      {
        RearmBank(i, counter);
        i := i + 1;
      }
    }

    /** One pass of the bank loop of Update, for bank `i`. */
    method RearmBank(i: nat, counter: Timer -> uint32)
      requires bankTimer.Length == Banks && bankMode.Length == Banks && i < Banks
      requires nextUpdate.Length == Banks && maxPulse.Length == Banks && nextUpdate != maxPulse
      modifies nextUpdate, maxPulse, bankTimer[i]
      ensures maxPulse[..] == old(maxPulse[..])[i := 0]
      ensures nextUpdate[..] == if old(RearmDue(i, counter)) then old(nextUpdate[..])[i := old(maxPulse[i])] else old(nextUpdate[..])
      ensures bankTimer[i] != null ==>
                bankTimer[i].State() ==
                  if old(RearmDue(i, counter)) then old(bankTimer[i].State()).(updateEvents := old(bankTimer[i].updateEvents) + 1)
                  else old(bankTimer[i].State())
      ensures bankTimer[i] != null ==> bankTimer[i].Compares() == old(bankTimer[i].Compares())
    {
      var timer := bankTimer[i];
      if timer != null && bankMode[i] == ModeSinglePulse {
        // a pulse longer than the cycle may still be running: skip this update
        if counter(timer) > nextUpdate[i] + SafeMargin {
          timer.GenerateUpdate();
          nextUpdate[i] := maxPulse[i];
        }
      }
      maxPulse[i] := 0;
    }

    /** How ZeroedBy grows when the channel loop of Update passes channel `i`. */
    lemma ZeroedByStep(t: Timer, k: nat, i: nat)
      requires bankMode.Length == Banks && i < |Channels()| && i < pinBank.Length
      ensures ZeroedBy(t, k, i + 1) <==>
                ZeroedBy(t, k, i) ||
                (Channels()[i].timer == t && CompareSlot(Channels()[i].timerChan) == Some(k) && SinglePulseChannel(i))
    {
      if ZeroedBy(t, k, i + 1) && !ZeroedBy(t, k, i) {
        var j :| 0 <= j < i + 1 && j < |Channels()| && j < pinBank.Length &&
          Channels()[j].timer == t && CompareSlot(Channels()[j].timerChan) == Some(k) && SinglePulseChannel(j);
        assert j == i;
      }
    }

    /** Channels on one timer share a bank. */
    lemma SharedTimerSharedBank(i: nat, j: nat)
      requires Valid() && i < |Channels()| && j < |Channels()|
      requires Channels()[i].timer == Channels()[j].timer
      ensures pinBank[i] == pinBank[j]
    {
    }

    /** The channel loop of Update, with what it means for each channel's register. */
    method ZeroSinglePulse()
      requires Valid()
      modifies Timers()
      ensures forall t :: t in Timers() ==> t.State() == old(t.State())
      ensures forall t, k :: t in Timers() && 0 <= k < 4 ==>
                t.Compares()[k] == if ZeroedBy(t, k, |Channels()|) then 0 else old(t.Compares()[k])
      ensures forall i :: 0 <= i < |Channels()| ==>
                CompareOf(i) == if SinglePulseChannel(i) && old(CompareOf(i)).Some? then Some(0) else old(CompareOf(i))
    {
      ZeroChannels(Timers());
      forall i | 0 <= i < |Channels()|
        ensures CompareOf(i) == if SinglePulseChannel(i) && old(CompareOf(i)).Some? then Some(0) else old(CompareOf(i))
      {
        assert Channels()[i].timer in Timers();
      }
    }

    /** The channel loop of Update: zero the register of each channel of a single-pulse bank; `timers` holds the channels' timers. */
    method ZeroChannels(ghost timers: set<Timer>)
      requires bankMode.Length == Banks && pinBank.Length == |Channels()|
      requires forall i :: 0 <= i < |Channels()| ==> pinBank[i] < Banks && Channels()[i].timer in timers
      modifies timers
      ensures forall t :: t in timers ==> t.State() == old(t.State())
      ensures forall t, k :: t in timers && 0 <= k < 4 ==>
                t.Compares()[k] == if ZeroedBy(t, k, |Channels()|) then 0 else old(t.Compares()[k])
    {
      var chs := Channels();
      var i := 0;
      while i < |chs|
        invariant 0 <= i <= |chs|
        invariant forall t :: t in timers ==> t.State() == old(t.State())
        invariant forall t, k :: t in timers && 0 <= k < 4 ==>
                    t.Compares()[k] == if ZeroedBy(t, k, i) then 0 else old(t.Compares()[k])
      {
        forall t, k | 0 <= k < 4
          ensures ZeroedBy(t, k, i + 1) <==>
                    ZeroedBy(t, k, i) || (chs[i].timer == t && CompareSlot(chs[i].timerChan) == Some(k) && SinglePulseChannel(i))
        {
          ZeroedByStep(t, k, i);
        }
        var bank := pinBank[i];
        var mode := bankMode[bank];
        if mode == ModeSinglePulse {
          var chan := chs[i];
          chan.timer.SetCompare(chan.timerChan, 0);
        }
        i := i + 1;
      }
    }

    /** PIOS_Servo_GetPinBank: the bank Init gave channel `pin`, or 0 for a channel that does not exist. */
    function GetPinBank(pin: uint8): (b: uint8)
      requires Valid() && Initialised()
      reads this, pinBank, bankTimer
      ensures pin < |Channels()| ==> b == BankOf(TimerSeq(Channels()), pin as nat)
      ensures pin >= |Channels()| ==> b == 0
    {
      if pin as nat < |cfg.value.channels| then pinBank[pin] else 0
    }

    /** Two channels report the same bank exactly when they share a timer. */
    lemma PinBankSharedIffTimerShared(p: uint8, q: uint8)
      requires Valid() && Initialised() && p < |Channels()| && q < |Channels()|
      ensures GetPinBank(p) == GetPinBank(q) <==> Channels()[p].timer == Channels()[q].timer
    {
      SameBankIffSameTimer(TimerSeq(Channels()), p as nat, q as nat);
    }

    /** PIOS_Servo_GetConfig: the configuration Init stored, none before Init. */
    function GetConfig(): (c: Option<Config>)
      reads this
      ensures c.Some? <==> Initialised()
      ensures c.Some? ==> c.value.channels == Channels()
    {
      cfg
    }
  }
}
