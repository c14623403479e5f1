/** MachineFunctions: the pin-state tracker and machine-cycle controller of
    one lane, as a class whose fields are the attributes the source updates
    in place. */
module Machine {
  import opened Wrappers
  import opened Pins
  import opened Frames
  import opened PinTracker
  import opened Outputs
  import opened ResetPolicy
  import opened ReadyWait

  /** What the controller reads from and writes to. Times are milliseconds.
      pinReadings[(t, i)]: pin sensor i (0..4 = b20, b13, b12, b11, b10)
      read at time t: Some(true) at or above 4.0 V, Some(false) below, None
      a read that raised; a missing entry reads below 4.0 V. ready: the
      ready sensor b21, likewise. faults: the GPIO.output calls (numbered
      over the whole output log) that raise. */
  datatype Hardware = Hardware(pinReadings: map<(int, nat), Option<bool>>, ready: Trace, faults: set<nat>) {
    function PinSensor(t: int, i: nat): Option<bool> {
      if (t, i) in pinReadings then pinReadings[(t, i)] else Some(false)
    }

    predicate WriteFails(n: nat) {
      n in faults
    }
  }

  /** check_pins: the minimum observation window, the earliest early exit,
      the stable rounds an early exit needs, and each of the two sleeps of a
      polling round. */
  const MinCheckTime: int := 3000
  const EarlyExitTime: int := 1000
  const RequiredStable: nat := 10
  const ReadDelay: int := 25
  /** The maximum number of polling rounds of one check_pins. */
  const MaxRounds: nat := 61

  /** reset: width of the reset pulse; apply_pin_configuration: width of a
      knock-down pulse; reset on a third ball: pin-setting suspension. */
  const ResetPulse: int := 50
  const KnockPulse: int := 250
  const SuspendTime: int := 8000

  /** The five pin sensor readings of the round read at time t. */
  function RoundAt(hw: Hardware, t: int): (r: Round)
    ensures |r| == 5
    ensures forall i :: 0 <= i < 5 ==> r[i] == hw.PinSensor(t, i)
  {
    [hw.PinSensor(t, 0), hw.PinSensor(t, 1), hw.PinSensor(t, 2), hw.PinSensor(t, 3), hw.PinSensor(t, 4)]
  }

  /** The time at which round j of a check_pins started at time start reads
      its sensors: after ReadDelay, then once per 2 * ReadDelay. */
  function RoundTime(start: int, j: nat): int {
    start + 25 + 50 * j
  }

  /** The first n rounds read by a check_pins started at time start. */
  function Samples(hw: Hardware, start: int, n: nat): (rounds: seq<Round>)
    ensures |rounds| == n
  {
    if n == 0 then [] else Samples(hw, start, n - 1) + [RoundAt(hw, RoundTime(start, n - 1))]
  }

  /** Round j of the samples is read at RoundTime(start, j). The fact is a
      lemma rather than an ensures of Samples so that it is instantiated
      only where a proof needs it. */
  lemma {:induction false} SamplesAt(hw: Hardware, start: int, n: nat)
    ensures forall j :: 0 <= j < n ==> Samples(hw, start, n)[j] == RoundAt(hw, RoundTime(start, j))
  {
    if n > 0 {
      SamplesAt(hw, start, n - 1);
      assert Samples(hw, start, n)[..n - 1] == Samples(hw, start, n - 1);
    }
  }

  /** One more polling round extends the track by a scan of the round read
      at RoundTime(start, n). */
  lemma NextSample(hw: Hardware, start: int, n: nat, names: seq<string>, c0: Control)
    ensures Track(c0, names, Samples(hw, start, n + 1)) ==
      ScanRound(Track(c0, names, Samples(hw, start, n)), names, RoundAt(hw, RoundTime(start, n)))
  {
    TrackAppend(c0, names, Samples(hw, start, n), RoundAt(hw, RoundTime(start, n)));
  }

  /** Every sampled round holds one reading per sensor. */
  lemma SamplesWellFormed(hw: Hardware, start: int, n: nat, names: seq<string>)
    requires |names| == 5
    ensures WellFormed(names, Samples(hw, start, n))
  {
    SamplesAt(hw, start, n);
  }

  /** The control dictionary after the first n polling rounds of a
      check_pins started at time start from c0, scanning names. */
  function Polled(hw: Hardware, c0: Control, names: seq<string>, start: int, n: nat): Control {
    if n == 0 then c0 else ScanRound(Polled(hw, c0, names, start, n - 1), names, RoundAt(hw, RoundTime(start, n - 1)))
  }

  /** Polling n rounds is tracking the first n samples. */
  lemma {:induction false} PolledIsTrack(hw: Hardware, c0: Control, names: seq<string>, start: int, n: nat)
    ensures Polled(hw, c0, names, start, n) == Track(c0, names, Samples(hw, start, n))
  {
    if n > 0 {
      PolledIsTrack(hw, c0, names, start, n - 1);
      NextSample(hw, start, n - 1, names, c0);
    }
  }

  /** Polling round k + 1 left control as round k had left it. */
  predicate RoundUnchanged(hw: Hardware, c0: Control, names: seq<string>, start: int, k: nat) {
    Polled(hw, c0, names, start, k + 1) == Polled(hw, c0, names, start, k)
  }

  /** The number of polling rounds in a row, ending with round n, that left
      control as it was before the round. */
  function StableRounds(hw: Hardware, c0: Control, names: seq<string>, start: int, n: nat): (s: nat)
    ensures s <= n
  {
    if n == 0 then 0
    else if RoundUnchanged(hw, c0, names, start, n - 1) then StableRounds(hw, c0, names, start, n - 1) + 1
    else 0
  }

  /** At least m stable rounds end with round n exactly when each of the
      last m rounds changed nothing. */
  lemma {:induction false} StableRoundsMeans(hw: Hardware, c0: Control, names: seq<string>, start: int, n: nat, m: nat)
    requires m <= n
    ensures StableRounds(hw, c0, names, start, n) >= m <==>
      forall k: nat :: n - m <= k < n ==> RoundUnchanged(hw, c0, names, start, k)
  {
    if m > 0 {
      StableRoundsMeans(hw, c0, names, start, n - 1, m - 1);
    }
  }

  /** check_pins may leave its polling loop early after round n (counted
      from 1): the last ten rounds changed nothing (see StableRoundsMeans),
      round n read its sensors at least one second after the start, and
      some pin has gone down since the start. */
  ghost predicate EarlyExit(hw: Hardware, c0: Control, names: seq<string>, start: int, n: nat) {
    1 <= n && StableRounds(hw, c0, names, start, n) >= RequiredStable &&
    RoundTime(start, n - 1) - start >= EarlyExitTime &&
    Polled(hw, c0, names, start, n) != c0
  }

  /** The loop's test for an early exit after round n, on its stable-round
      counter and pins_changed flag, is EarlyExit. */
  lemma EarlyExitMeans(hw: Hardware, c0: Control, names: seq<string>, start: int, n: nat, change: Control, changed: bool)
    requires 1 <= n && Tracks(c0, Polled(hw, c0, names, start, n), change, changed)
    ensures EarlyExit(hw, c0, names, start, n) <==>
      StableRounds(hw, c0, names, start, n) >= RequiredStable && RoundTime(start, n - 1) - start >= EarlyExitTime && changed
  {
    NoChangeMeansSame(c0, Polled(hw, c0, names, start, n));
  }

  /** The stop rule of check_pins's polling loop: it runs n rounds, where
      round n is the first after which all pins are down (struck), or else
      the first that allows an early exit, or else the last round of the
      three-second window. */
  ghost predicate StopsAt(hw: Hardware, c0: Control, names: seq<string>, start: int, n: nat, struck: bool) {
    1 <= n <= MaxRounds &&
    (forall k: nat :: k < n ==> !AllDown(Polled(hw, c0, names, start, k))) &&
    (forall k: nat :: 1 <= k < n ==> !EarlyExit(hw, c0, names, start, k)) &&
    (struck <==> AllDown(Polled(hw, c0, names, start, n))) &&
    (!struck ==> EarlyExit(hw, c0, names, start, n) || n == MaxRounds)
  }

  /** The stop rule fixes the number of rounds and whether the check ends
      struck: the sensors alone decide check_pins's outcome. */
  lemma StopsAtUnique(hw: Hardware, c0: Control, names: seq<string>, start: int, n1: nat, s1: bool, n2: nat, s2: bool)
    requires StopsAt(hw, c0, names, start, n1, s1) && StopsAt(hw, c0, names, start, n2, s2)
    ensures n1 == n2 && s1 == s2
  {
  }

  /** How long (ms) a check_pins whose polling loop ran n rounds takes.
      The loop leaves after round n's reads, at n * 50 - 25 ms, when all
      pins are down or on an early exit; a strike then waits out the rest
      of the three-second window. A loop that runs to the end of the
      window leaves after its last sleep, at 3050 ms. */
  ghost function CheckTime(hw: Hardware, c0: Control, names: seq<string>, start: int, n: nat, struck: bool): int {
    var left := 2 * ReadDelay * n - ReadDelay;
    if struck then (if left < MinCheckTime then MinCheckTime else left)
    else if EarlyExit(hw, c0, names, start, n) then left
    else MinCheckTime + 2 * ReadDelay
  }

  /** None and 0 are both false in the source's tests of timestamps. */
  predicate Truthy(t: Option<int>) {
    t.Some? && t.value != 0
  }

  /** The GPIO calls numbered n .. n + count - 1 do not raise. */
  predicate NoFaults(hw: Hardware, n: nat, count: nat) {
    forall m :: n <= m < n + count ==> !hw.WriteFails(m)
  }

  /** Whether apply_pin_configuration, starting at GPIO call n, holds a
      knock-down pulse: the all-high write and the low write both went
      through. */
  predicate KnockPulsed(hw: Hardware, n: nat, knock: seq<Line>) {
    !hw.WriteFails(n) && knock != [] && !hw.WriteFails(n + 1)
  }

  /** The GPIO calls of the knock-down pulse of apply_pin_configuration,
      starting at call n: none when there is nothing to knock down, else the
      knock lines low and high again, the first call that raises followed
      by the emergency all-high write. */
  function PulseLog(hw: Hardware, n: nat, knock: seq<Line>): seq<Write> {
    var high := Write(PinLines, 1, true);
    if knock == [] then []
    else if hw.WriteFails(n) then [Write(knock, 0, false), high]
    else if hw.WriteFails(n + 1) then [Write(knock, 0, true), Write(knock, 1, false), high]
    else [Write(knock, 0, true), Write(knock, 1, true)]
  }

  /** The GPIO calls of apply_pin_configuration starting at call n, pulsing
      the lines knock: all five high, then the pulse; a first call that
      raises is followed by the emergency all-high write instead. */
  function ConfigLog(hw: Hardware, n: nat, knock: seq<Line>): seq<Write> {
    if hw.WriteFails(n) then [Write(PinLines, 1, false), Write(PinLines, 1, true)]
    else [Write(PinLines, 1, true)] + PulseLog(hw, n + 1, knock)
  }

  /** Only the knock lines are ever driven low, the last call is a high
      write that went through, and without faults the calls are the
      fault-free sequence. */
  lemma ConfigLogSafe(hw: Hardware, n: nat, knock: seq<Line>)
    ensures var r := ConfigLog(hw, n, knock);
      1 <= |r| && r[0] == Write(PinLines, 1, !hw.WriteFails(n)) &&
      (forall k :: 0 <= k < |r| && r[k].level == 0 ==> r[k].lines == knock) &&
      r[|r| - 1].ok && r[|r| - 1].level == 1 && (r[|r| - 1].lines == PinLines || r[|r| - 1].lines == knock) &&
      (NoFaults(hw, n, 3) ==> r == ConfigWrites(knock))
  {
  }

  /** Without faults, apply_pin_configuration drives low exactly the
      solenoid lines of the pins whose control value is 0. */
  lemma ConfigPulsesDownPins(hw: Hardware, n: nat, c: Control)
    requires NoFaults(hw, n, 3)
    ensures var r := ConfigLog(hw, n, KnockDownLines(c));
      forall i :: 0 <= i < 5 ==>
        ((exists k :: 0 <= k < |r| && r[k].level == 0 && PinLines[i] in r[k].lines) <==> c.Get(PinOrder[i]) == 0)
  {
    var knock := KnockDownLines(c);
    var r := ConfigLog(hw, n, knock);
    ConfigLogSafe(hw, n, knock);
    forall i | 0 <= i < 5
      ensures (exists k :: 0 <= k < |r| && r[k].level == 0 && PinLines[i] in r[k].lines) <==> c.Get(PinOrder[i]) == 0
    {
      if c.Get(PinOrder[i]) == 0 {
        assert r[1].level == 0 && PinLines[i] in r[1].lines;
      }
    }
  }

  /** The bookkeeping of check_pins relative to the control dictionary c0
      at its start: pins only went down, change is exactly the change
      dictionary of c0 and c, and changed says whether any pin changed. */
  predicate Tracks(c0: Control, c: Control, change: Control, changed: bool) {
    OnlyLowered(c0, c) && change == Changes(c0, c) && (changed <==> change != AllZero)
  }

  /** Every pin of c kept its value in c0 or went down to 0. */
  predicate OnlyLowered(c0: Control, c: Control) {
    (c.lTwo == c0.lTwo || c.lTwo == 0) && (c.lThree == c0.lThree || c.lThree == 0) &&
    (c.cFive == c0.cFive || c.cFive == 0) && (c.rThree == c0.rThree || c.rThree == 0) &&
    (c.rTwo == c0.rTwo || c.rTwo == 0)
  }

  /** Taking one standing pin down keeps the bookkeeping. */
  lemma TracksAfterSense(c0: Control, c: Control, change: Control, changed: bool, p: Pin)
    requires Tracks(c0, c, change, changed)
    requires c.Get(p) != 0
    ensures Tracks(c0, c.Set(p, 0), change.Set(p, 1), true)
  {
    ControlsEqual(Changes(c0, c.Set(p, 0)), change.Set(p, 1));
    assert change.Set(p, 1).Get(p) != AllZero.Get(p);
  }

  /** When pins only went down, nothing was recorded exactly when nothing
      changed. */
  lemma NoChangeMeansSame(c0: Control, c: Control)
    requires OnlyLowered(c0, c)
    ensures Changes(c0, c) == AllZero <==> c == c0
  {
    if Changes(c0, c) == AllZero {
      ControlsEqual(c, c0);
    }
  }

  /** Some pin changed exactly when the change dictionary is not all zero. */
  lemma ChangedMeans(change: Control)
    ensures change != AllZero <==> exists p :: change.Get(p) != 0
  {
    if forall p :: change.Get(p) == 0 {
      ControlsEqual(change, AllZero);
    }
  }

  /** What check_pins, started at time start with control c0, returns and
      leaves: with all pins down at the start, ([1, 1, 1, 1, 1], 2) and c0
      untouched; otherwise control (checked) is the track of the rounds
      sampled until the stop rule ends the loop, the result is the vector
      of the pins that went down, status 2 means all pins are down and
      status 0 that none changed; it ends at time end, as CheckTime says. */
  ghost predicate PinCheckOutcome(hw: Hardware, names: seq<string>, c0: Control, start: int,
                                  result: seq<int>, status: int, checked: Control, rounds: seq<Round>, end: int) {
    (AllDown(c0) ==> result == [1, 1, 1, 1, 1] && status == 2 && checked == c0 && end == start + MinCheckTime) &&
    (!AllDown(c0) ==>
      rounds == Samples(hw, start, |rounds|) && checked == Track(c0, names, rounds) &&
      StopsAt(hw, c0, names, start, |rounds|, status == 2) &&
      end - start == CheckTime(hw, c0, names, start, |rounds|, status == 2) &&
      result == ChangeVector(Changes(c0, checked)) && (status == 2 <==> AllDown(checked)) &&
      (status == 0 <==> checked == c0))
  }

  /** How start_machine_cycle went: the flagged full reset, a failed reset
      pulse, or a normal cycle with the outcome of its ready-wait, the poll
      of b21 it made (if it polled), the log
      index at which its apply_pin_configuration calls begin, and the cycle
      the wait's pin_restore fallback started, if any. */
  datatype Cycle = FullResetCycle | ResetFailed | NormalCycle(wait: WaitOutcome, poll: ReadyPoll, configAt: nat, restart: Restart)

  /** A machine cycle started by pin_restore at time at, or none. */
  datatype Restart = NoRestart | Restarted(at: int, cycle: Cycle)

  /** The GPIO calls of reset's pulse starting at call n: GP6 low and, if
      that call went through, GP6 high again. */
  function ResetLog(hw: Hardware, n: nat): seq<Write> {
    if hw.WriteFails(n) then [Write([GP6], 0, false)]
    else [Write([GP6], 0, true), Write([GP6], 1, !hw.WriteFails(n + 1))]
  }

  /** The GPIO calls of apply_pin_configuration_immediate starting at call
      n: all five pin lines high, repeated as the emergency write if the
      call raises. */
  function ImmediateLog(hw: Hardware, n: nat): seq<Write> {
    if hw.WriteFails(n) then [Write(PinLines, 1, false), Write(PinLines, 1, true)] else [Write(PinLines, 1, true)]
  }

  /** The calls a machine cycle made, from log0 when it started to log when
      it ended, knock being the lines of the pins down at its end. Every
      cycle begins with the reset pulse at the next call. Then: nothing if
      the pulse failed; the immediate all-high write for a full reset;
      otherwise the calls of the cycle its wait restarted (if any) and
      apply_pin_configuration's calls last. */
  ghost predicate CycleLogged(hw: Hardware, log0: seq<Write>, log: seq<Write>, cycle: Cycle, knock: seq<Line>)
    decreases cycle
  {
    var reset := log0 + ResetLog(hw, |log0|);
    reset <= log &&
    match cycle
    case ResetFailed => log == reset
    case FullResetCycle => log == reset + ImmediateLog(hw, |reset|)
    case NormalCycle(_, _, configAt, restart) =>
      |reset| <= configAt <= |log| && log[configAt..] == ConfigLog(hw, configAt, knock) &&
      match restart
      case NoRestart => configAt == |reset|
      case Restarted(_, inner) => CycleLogged(hw, reset, log[..configAt], inner, knock)
  }

  /** The ready-waits of a cycle whose reset was recorded at time t. The
      wait is skipped for want of a reset time exactly when t is 0. A wait
      that polled b21 did so from the end of the reset pulse, as
      ReadyPolled states. A restart follows only a fallback, starts when
      the poll ended, and the waits of its own cycle are such too. */
  ghost predicate CycleWaits(hw: Hardware, t: int, cycle: Cycle)
    decreases cycle
  {
    cycle.NormalCycle? ==>
      (cycle.wait == NoResetTime <==> t == 0) &&
      (cycle.wait.Polls() ==>
        ReadyPolled(hw.ready, t + ResetPulse, t, cycle.wait, cycle.poll.end, cycle.poll.samples)) &&
      (cycle.restart.Restarted? ==>
        cycle.wait.FallsBack() && cycle.restart.at == cycle.poll.end &&
        CycleWaits(hw, cycle.restart.at, cycle.restart.cycle))
  }

  /** A normal cycle's waits, from those of its own wait and restart. */
  lemma NormalCycleWaits(hw: Hardware, t: int, wait: WaitOutcome, poll: ReadyPoll, configAt: nat, restart: Restart)
    requires wait == NoResetTime <==> t == 0
    requires wait.Polls() ==> ReadyPolled(hw.ready, t + ResetPulse, t, wait, poll.end, poll.samples)
    requires restart.Restarted? ==> wait.FallsBack() && restart.at == poll.end && CycleWaits(hw, restart.at, restart.cycle)
    ensures CycleWaits(hw, t, NormalCycle(wait, poll, configAt, restart))
  {
  }

  /** The pin-setting suspension (enabled, restore) that
      _update_pin_set_status at time t leaves from (enabled0, restore0): it
      is lifted exactly when setting is disabled and a truthy restore time
      has been reached. */
  predicate SuspensionUpdated(enabled0: bool, restore0: Option<int>, t: int, enabled: bool, restore: Option<int>) {
    var lift := !enabled0 && Truthy(restore0) && t >= restore0.value;
    (lift ==> enabled && restore == None) && (!lift ==> enabled == enabled0 && restore == restore0)
  }

  /** The reset time a cycle started at time t leaves recorded: its own, or
      that of the last cycle restarted within it. */
  function LastReset(cycle: Cycle, t: int): int
    decreases cycle
  {
    if cycle.NormalCycle? && cycle.restart.Restarted? then LastReset(cycle.restart.cycle, cycle.restart.at) else t
  }

  /** The data of a schedule_reset request, as far as it is read: its
      'type' entry if present and the truthiness of its 'immediate' entry.
      A missing key reads as None and false. */
  datatype ResetRequest = ResetRequest(kind: Option<string>, immediate: bool)

  /** The reset type that sets the force flag or resets at once. */
  const FullResetType: string := "FULL_RESET"

  class MachineFunctions {
    /** The pin names the five sensors are mapped to in the lane settings
        (B20, B13, B12, B11, B10), in reading order. */
    const sensorPins: seq<string>

    var control: Control
    var controlChange: Control
    var pinCheck: bool
    var pinsChanged: bool
    var needsFullReset: bool
    var forceFullReset: bool
    var machineCycleStartTime: Option<int>
    var resetCalledTime: Option<int>
    var pinSetEnabled: bool
    var pinSetRestoreTime: Option<int>
    /** The current frame of the game, as far as the rules read it. */
    var gameContext: Context
    /** The clock (ms). It moves by the source's sleeps and by AdvanceClock. */
    var now: int
    /** Every GPIO.output call made so far. */
    var log: seq<Write>
    /** The level each output line was last driven to. */
    var levels: Levels

    /** Five sensors are mapped, and the solenoid lines rest high. */
    ghost predicate Valid()
      reads this`levels
    {
      |sensorPins| == 5 && PinsHigh(levels)
    }

    /** Hardware setup that succeeded: all six outputs high, all pins up. */
    constructor (sensorPins: seq<string>, startTime: int)
      requires |sensorPins| == 5
      ensures Valid()
      ensures this.sensorPins == sensorPins && control == AllUp && controlChange == AllZero
      ensures !pinCheck && !pinsChanged && !needsFullReset && !forceFullReset
      ensures machineCycleStartTime == None && resetCalledTime == None
      ensures pinSetEnabled && pinSetRestoreTime == None && gameContext == None
      ensures now == startTime && log == [Write([GP1, GP2, GP3, GP4, GP5, GP6], 1, true)]
      ensures levels == Levels(1, 1, 1, 1, 1, 1)
    {
      this.sensorPins := sensorPins;
      control := AllUp;
      controlChange := AllZero;
      pinCheck := false;
      pinsChanged := false;
      needsFullReset := false;
      forceFullReset := false;
      machineCycleStartTime := None;
      resetCalledTime := None;
      pinSetEnabled := true;
      pinSetRestoreTime := None;
      gameContext := None;
      now := startTime;
      log := [Write([GP1, GP2, GP3, GP4, GP5, GP6], 1, true)];
      levels := Levels(1, 1, 1, 1, 1, 1);
    }

    /** Time passing outside the core (between balls, before a UI event). */
    method AdvanceClock(t: int)
      requires now <= t
      modifies this`now
      ensures now == t
    {
      now := t;
    }

    /** One GPIO.output call; a call that raises is logged as not ok. */
    method Output(hw: Hardware, lines: seq<Line>, level: int) returns (ok: bool)
      modifies this`log, this`levels
      ensures ok == !hw.WriteFails(|old(log)|)
      ensures log == old(log) + [Write(lines, level, ok)]
      ensures levels == if ok then Drive(old(levels), lines, level) else old(levels)
    {
      ok := !hw.WriteFails(|log|);
      log := log + [Write(lines, level, ok)];
      if ok {
        levels := Drive(levels, lines, level);
      }
    }

    /** The emergency all-high write of an except branch. */
    method EmergencyHigh()
      modifies this`log, this`levels
      ensures log == old(log) + [Write(PinLines, 1, true)]
      ensures levels == Drive(old(levels), PinLines, 1)
    {
      log := log + [Write(PinLines, 1, true)];
      levels := Drive(levels, PinLines, 1);
    }

    /** _update_pin_set_status: lift the suspension once the restore time is
        reached, and only then. */
    method UpdatePinSetStatus()
      modifies this`pinSetEnabled, this`pinSetRestoreTime
      ensures SuspensionUpdated(old(pinSetEnabled), old(pinSetRestoreTime), now, pinSetEnabled, pinSetRestoreTime)
    {
      if !pinSetEnabled && Truthy(pinSetRestoreTime) && now >= pinSetRestoreTime.value {
        pinSetEnabled := true;
        pinSetRestoreTime := None;
      }
    }

    /** reset: record the reset time, suspend pin setting for 8 s on a third
        ball, and pulse the reset line GP6 low then high. It fails when a
        GPIO call raises; if the second one raises, GP6 is left low. */
    method Reset(hw: Hardware) returns (ok: bool)
      requires Valid()
      modifies this`resetCalledTime, this`machineCycleStartTime, this`pinSetEnabled, this`pinSetRestoreTime
      modifies this`log, this`levels, this`now
      ensures Valid()
      ensures resetCalledTime == Some(old(now)) && machineCycleStartTime == Some(old(now))
      ensures IsThirdBall(gameContext) ==> !pinSetEnabled && pinSetRestoreTime == Some(old(now) + SuspendTime)
      ensures !IsThirdBall(gameContext) ==> pinSetEnabled == old(pinSetEnabled) && pinSetRestoreTime == old(pinSetRestoreTime)
      ensures ok <==> NoFaults(hw, |old(log)|, 2)
      ensures log == old(log) + ResetLog(hw, |old(log)|)
      ensures now == old(now) + if hw.WriteFails(|old(log)|) then 0 else ResetPulse
      ensures forall l :: l != GP6 ==> levels.Get(l) == old(levels).Get(l)
      ensures levels.Get(GP6) == if hw.WriteFails(|old(log)|) then old(levels).Get(GP6) else if ok then 1 else 0
    {
      resetCalledTime := Some(now);
      machineCycleStartTime := resetCalledTime;
      if IsThirdBall(gameContext) {
        pinSetEnabled := false;
        pinSetRestoreTime := Some(resetCalledTime.value + SuspendTime);
      }
      ok := Output(hw, [GP6], 0);
      if !ok {
        return;
      }
      now := now + ResetPulse;
      ok := Output(hw, [GP6], 1);
    }

    /** The body of one polling round's sensor loop: each sensor in turn,
        a down reading takes its (standing) pin down and records the change. */
    method ReadSensors(hw: Hardware, ghost c0: Control)
      requires Valid() && Tracks(c0, control, controlChange, pinsChanged)
      modifies this`control, this`controlChange, this`pinsChanged
      ensures Valid() && Tracks(c0, control, controlChange, pinsChanged)
      ensures control == ScanRound(old(control), sensorPins, RoundAt(hw, now))
    {
      ghost var atStart := control;
      ghost var r := RoundAt(hw, now);
      var i := 0;
      while i < 5
        invariant 0 <= i <= 5
        invariant Valid() && Tracks(c0, control, controlChange, pinsChanged)
        invariant control == ScanPrefix(atStart, sensorPins, r, i)
      {
        var reading := hw.PinSensor(now, i);
        var name := sensorPins[i];
        assert reading == r[i];
        ghost var previous := control;
        // A name that is not a key raises KeyError, which the source skips.
        var pin := PinNamed(name);
        if reading == Some(true) && pin.Some? && control.Get(pin.value) != 0 {
          TracksAfterSense(c0, control, controlChange, pinsChanged, pin.value);
          control := control.Set(pin.value, 0);
          controlChange := controlChange.Set(pin.value, 1);
          pinsChanged := true;
        }
        assert control == Sense(previous, name, reading);
        i := i + 1;
      }
    }

    /** The first half of a polling round: sleep, then read the five sensors.
        It extends the track by the round read at RoundTime(start, n) and
        says whether the control dictionary is the same as before. */
    method PollRound(hw: Hardware, ghost c0: Control, ghost start: int, ghost n: nat) returns (same: bool)
      requires Valid() && Tracks(c0, control, controlChange, pinsChanged)
      requires now == start + 50 * n
      requires control == Polled(hw, c0, sensorPins, start, n)
      modifies this`control, this`controlChange, this`pinsChanged, this`now
      ensures Valid() && Tracks(c0, control, controlChange, pinsChanged)
      ensures now == old(now) + ReadDelay
      ensures control == Polled(hw, c0, sensorPins, start, n + 1)
      ensures same <==> control == old(control)
    {
      var previous := control;
      now := now + ReadDelay;
      ReadSensors(hw, c0);
      same := control == previous;
    }

    /** The polling loop of check_pins, started at time start with c0 the
        control dictionary. It ends either when every pin is down (struck),
        after waiting out the rest of the three-second window, or when the
        window has passed or the state has settled early after a change. */
    method PollPins(hw: Hardware, ghost c0: Control, start: int) returns (struck: bool, ghost n: nat)
      requires Valid() && Tracks(c0, control, controlChange, pinsChanged)
      requires control == c0 && now == start && pinCheck && !AllDown(control)
      modifies this`control, this`controlChange, this`pinsChanged, this`now
      ensures Valid() && Tracks(c0, control, controlChange, pinsChanged)
      ensures control == Polled(hw, c0, sensorPins, start, n)
      ensures StopsAt(hw, c0, sensorPins, start, n, struck)
      ensures now - start == if struck || EarlyExit(hw, c0, sensorPins, start, n) then 2 * ReadDelay * n - ReadDelay
                             else MinCheckTime + 2 * ReadDelay
      ensures struck ==> now - start <= MinCheckTime + ReadDelay
      ensures !struck ==> EarlyExitTime <= now - start <= MinCheckTime + 2 * ReadDelay
      ensures !struck && !pinsChanged ==> now - start == MinCheckTime + 2 * ReadDelay
    {
      n := 0;
      var stable := 0;
      while pinCheck && now - start <= MinCheckTime
        invariant Valid()
        invariant Tracks(c0, control, controlChange, pinsChanged)
        invariant now == start + 50 * n && n <= MaxRounds
        invariant control == Polled(hw, c0, sensorPins, start, n)
        invariant stable == StableRounds(hw, c0, sensorPins, start, n)
        invariant forall k: nat :: k <= n ==> !AllDown(Polled(hw, c0, sensorPins, start, k))
        invariant forall k: nat :: 1 <= k <= n ==> !EarlyExit(hw, c0, sensorPins, start, k)
        decreases MinCheckTime - (now - start)
      {
        var same := PollRound(hw, c0, start, n);
        n := n + 1;
        if same {
          stable := stable + 1;
        } else {
          stable := 0;
        }
        if AllDown(control) {
          return true, n;
        }
        EarlyExitMeans(hw, c0, sensorPins, start, n, controlChange, pinsChanged);
        if stable >= RequiredStable && now - start >= EarlyExitTime && pinsChanged {
          break;
        }
        now := now + ReadDelay;
      }
      return false, n;
    }

    /** check_pins. If every pin is already down it waits out the window and
        returns ([1,1,1,1,1], 2). Otherwise it polls rounds of the five
        sensors (ghost out-parameter rounds); it returns status 2 as soon as
        all pins are down (after the full window), and otherwise stops after
        the window or early, once ten stable rounds follow a change after at
        least one second, returning the change vector with status 1 if any
        pin changed and 0 if none did. */
    method CheckPins(hw: Hardware) returns (result: seq<int>, status: int, ghost rounds: seq<Round>)
      requires Valid()
      modifies this`control, this`controlChange, this`pinsChanged, this`pinCheck, this`now
      ensures Valid() && Tracks(old(control), control, controlChange, pinsChanged)
      ensures status == 0 || status == 1 || status == 2
      ensures status == 2 <==> AllDown(control)
      ensures AllDown(old(control)) ==>
        rounds == [] && control == old(control) && controlChange == AllZero && result == [1, 1, 1, 1, 1] &&
        !pinsChanged && pinCheck && now == old(now) + MinCheckTime
      ensures !AllDown(old(control)) ==>
        StopsAt(hw, old(control), sensorPins, old(now), |rounds|, status == 2) &&
        now - old(now) == CheckTime(hw, old(control), sensorPins, old(now), |rounds|, status == 2) &&
        rounds == Samples(hw, old(now), |rounds|) &&
        WellFormed(sensorPins, rounds) &&
        control == Track(old(control), sensorPins, rounds) &&
        controlChange == Changes(old(control), control) &&
        result == ChangeVector(controlChange) &&
        (pinsChanged <==> exists p :: controlChange.Get(p) != 0) && (pinsChanged <==> control != old(control)) &&
        (status == 2 ==> pinCheck && now - old(now) >= MinCheckTime) &&
        (status != 2 ==> !pinCheck && (status == 1 <==> pinsChanged) && now - old(now) >= EarlyExitTime) &&
        (status == 0 ==> now - old(now) == MinCheckTime + 2 * ReadDelay)
      ensures old(now) <= now <= old(now) + MinCheckTime + 2 * ReadDelay
    {
      var start := now;
      controlChange := AllZero;
      pinsChanged := false;
      pinCheck := true;
      if AllDown(control) {
        ControlsEqual(Changes(control, control), AllZero);
        now := now + MinCheckTime;
        return [1, 1, 1, 1, 1], 2, [];
      }
      ghost var c0 := control;
      var struck, n := PollPins(hw, c0, start);
      PolledIsTrack(hw, c0, sensorPins, start, n);
      rounds := Samples(hw, start, n);
      ChangedMeans(controlChange);
      NoChangeMeansSame(c0, control);
      SamplesWellFormed(hw, start, n, sensorPins);
      result := ChangeVector(controlChange);
      if struck {
        var remaining := MinCheckTime - (now - start);
        if remaining > 0 {
          now := now + remaining;
        }
        status := 2;
        return;
      }
      pinCheck := false;
      status := if pinsChanged then 1 else 0;
    }

    /** apply_pin_configuration_immediate: all five pin lines high, repeated
        as the emergency write if the first call raises. */
    method ApplyPinConfigurationImmediate(hw: Hardware)
      requires Valid()
      modifies this`log, this`levels
      ensures Valid() && levels.gp6 == old(levels).gp6
      ensures log == old(log) + ImmediateLog(hw, |old(log)|)
    {
      var ok := Output(hw, PinLines, 1);
      if !ok {
        EmergencyHigh();
      }
    }

    /** apply_pin_configuration: all five pin lines high, then a 250 ms
        low pulse on the solenoids of exactly the pins whose control value
        is 0 (a missing key counts as 1), in pin order. Any call that raises
        ends it with the emergency all-high write, so the pin lines are
        always left high. */
    method ApplyPinConfiguration(hw: Hardware)
      requires Valid()
      modifies this`log, this`levels, this`now
      ensures Valid() && levels.gp6 == old(levels).gp6
      ensures log == old(log) + ConfigLog(hw, |old(log)|, KnockDownLines(control))
      ensures now == old(now) + if KnockPulsed(hw, |old(log)|, KnockDownLines(control)) then KnockPulse else 0
    {
      var ok := Output(hw, PinLines, 1);
      if !ok {
        EmergencyHigh();
        return;
      }
      var knock := PinsToKnockDown();
      ghost var before := log;
      Pulse(hw, knock);
      assert log == before + PulseLog(hw, |before|, knock);
    }

    /** The pin_mapping loop of apply_pin_configuration: the solenoid lines
        of the pins whose control value is 0, in pin order. */
    method PinsToKnockDown() returns (knock: seq<Line>)
      ensures knock == KnockDownLines(control)
    {
      knock := [];
      var i := 0;
      while i < 5
        invariant 0 <= i <= 5
        invariant knock == KnockDownPrefix(control, i)
      {
        if control.Get(PinOrder[i]) == 0 {
          knock := knock + [PinLines[i]];
        }
        i := i + 1;
      }
    }

    /** The knock-down pulse of apply_pin_configuration over the lines knock
        (pin solenoids only): low, 250 ms, high; a call that raises is
        followed by the emergency all-high write. */
    method Pulse(hw: Hardware, knock: seq<Line>)
      requires Valid() && GP6 !in knock
      modifies this`log, this`levels, this`now
      ensures Valid() && levels.gp6 == old(levels).gp6
      ensures log == old(log) + PulseLog(hw, |old(log)|, knock)
      ensures now == old(now) + if knock != [] && !hw.WriteFails(|old(log)|) then KnockPulse else 0
    {
      if knock != [] {
        var ok := Output(hw, knock, 0);
        if !ok {
          EmergencyHigh();
          return;
        }
        now := now + KnockPulse;
        ok := Output(hw, knock, 1);
        if !ok {
          EmergencyHigh();
        }
      }
    }

    /** start_machine_cycle. With either reset flag set: a reset pulse, all
        pins up in control, no change recorded, all five lines high at
        once, both flags cleared, and no ready-wait. Otherwise a reset pulse
        (stopping if it fails), the ready-wait, and apply_pin_configuration
        for the current control dictionary. The calls it makes are those of
        CycleLogged; fuel bounds the pin_restore fallbacks of the wait. */
    method StartMachineCycle(hw: Hardware, fuel: nat) returns (ghost cycle: Cycle)
      requires Valid()
      modifies this`control, this`controlChange, this`needsFullReset, this`forceFullReset
      modifies this`resetCalledTime, this`machineCycleStartTime, this`pinSetEnabled, this`pinSetRestoreTime
      modifies this`log, this`levels, this`now
      ensures Valid() && old(log) < log && old(now) <= now
      ensures CycleLogged(hw, old(log), log, cycle, KnockDownLines(control))
      ensures resetCalledTime == Some(LastReset(cycle, old(now)))
      ensures old(forceFullReset) || old(needsFullReset) ==>
        cycle == FullResetCycle && control == AllUp && controlChange == AllZero &&
        !forceFullReset && !needsFullReset && now <= old(now) + ResetPulse
      ensures !old(forceFullReset) && !old(needsFullReset) ==>
        cycle != FullResetCycle && control == old(control) && controlChange == old(controlChange) &&
        !forceFullReset && !needsFullReset
      ensures cycle == ResetFailed <==> !old(forceFullReset) && !old(needsFullReset) && !NoFaults(hw, |old(log)|, 2)
      ensures cycle.NormalCycle? ==> (cycle.restart.Restarted? <==> cycle.wait.FallsBack() && fuel > 0)
      ensures cycle.NormalCycle? && cycle.restart.Restarted? ==>
        old(now) + ResetPulse <= cycle.restart.at < old(now) + Timeout + PollStep &&
        (cycle.wait == TimedOut ==> cycle.restart.at >= old(now) + Timeout)
      ensures cycle.NormalCycle? && IsThirdBall(gameContext) && old(now) != 0 ==> cycle.wait == Suspended
      ensures CycleWaits(hw, old(now), cycle)
      ensures !IsThirdBall(gameContext) ==> pinSetEnabled == old(pinSetEnabled) && pinSetRestoreTime == old(pinSetRestoreTime)
      ensures IsThirdBall(gameContext) ==> !pinSetEnabled && pinSetRestoreTime == Some(old(now) + SuspendTime)
      decreases fuel, 3
    {
      if forceFullReset || needsFullReset {
        FullResetBranch(hw);
        cycle := FullResetCycle;
      } else {
        cycle := NormalBranch(hw, fuel);
      }
    }

    /** The flagged branch of start_machine_cycle. */
    method FullResetBranch(hw: Hardware)
      requires Valid()
      modifies this`control, this`controlChange, this`needsFullReset, this`forceFullReset
      modifies this`resetCalledTime, this`machineCycleStartTime, this`pinSetEnabled, this`pinSetRestoreTime
      modifies this`log, this`levels, this`now
      ensures Valid() && old(now) <= now <= old(now) + ResetPulse
      ensures log == old(log) + ResetLog(hw, |old(log)|) + ImmediateLog(hw, |old(log)| + |ResetLog(hw, |old(log)|)|)
      ensures control == AllUp && controlChange == AllZero && !forceFullReset && !needsFullReset
      ensures resetCalledTime == Some(old(now))
      ensures !IsThirdBall(gameContext) ==> pinSetEnabled == old(pinSetEnabled) && pinSetRestoreTime == old(pinSetRestoreTime)
      ensures IsThirdBall(gameContext) ==> !pinSetEnabled && pinSetRestoreTime == Some(old(now) + SuspendTime)
    {
      var _ := Reset(hw);
      control := AllUp;
      controlChange := AllZero;
      ApplyPinConfigurationImmediate(hw);
      forceFullReset := false;
      needsFullReset := false;
    }

    /** The normal branch of start_machine_cycle, entered with both reset
        flags clear: it keeps control as it is. */
    method NormalBranch(hw: Hardware, fuel: nat) returns (ghost cycle: Cycle)
      requires Valid() && !forceFullReset && !needsFullReset
      modifies this`control, this`controlChange, this`needsFullReset, this`forceFullReset
      modifies this`resetCalledTime, this`machineCycleStartTime, this`pinSetEnabled, this`pinSetRestoreTime
      modifies this`log, this`levels, this`now
      ensures Valid() && old(log) < log && old(now) <= now
      ensures CycleLogged(hw, old(log), log, cycle, KnockDownLines(control))
      ensures resetCalledTime == Some(LastReset(cycle, old(now)))
      ensures cycle != FullResetCycle && control == old(control) && controlChange == old(controlChange)
      ensures !forceFullReset && !needsFullReset
      ensures cycle == ResetFailed <==> !NoFaults(hw, |old(log)|, 2)
      ensures cycle.NormalCycle? ==> (cycle.restart.Restarted? <==> cycle.wait.FallsBack() && fuel > 0)
      ensures cycle.NormalCycle? && cycle.restart.Restarted? ==>
        old(now) + ResetPulse <= cycle.restart.at < old(now) + Timeout + PollStep &&
        (cycle.wait == TimedOut ==> cycle.restart.at >= old(now) + Timeout)
      ensures cycle.NormalCycle? && IsThirdBall(gameContext) && old(now) != 0 ==> cycle.wait == Suspended
      ensures CycleWaits(hw, old(now), cycle)
      ensures !IsThirdBall(gameContext) ==> pinSetEnabled == old(pinSetEnabled) && pinSetRestoreTime == old(pinSetRestoreTime)
      ensures IsThirdBall(gameContext) ==> !pinSetEnabled && pinSetRestoreTime == Some(old(now) + SuspendTime)
      decreases fuel, 2
    {
      var ok := Reset(hw);
      if !ok {
        return ResetFailed;
      }
      cycle := WaitAndConfigure(hw, fuel, old(now), old(log));
    }

    /** The normal branch after a reset pulse that went through, the reset
        made at time t from the log log0: the ready-wait and any cycle its
        fallback starts, then apply_pin_configuration. */
    method WaitAndConfigure(hw: Hardware, fuel: nat, ghost t: int, ghost log0: seq<Write>) returns (ghost cycle: Cycle)
      requires Valid() && !forceFullReset && !needsFullReset
      requires resetCalledTime == Some(t) && now == t + ResetPulse && log == log0 + ResetLog(hw, |log0|)
      requires IsThirdBall(gameContext) && t != 0 ==> !pinSetEnabled
      modifies this`control, this`controlChange, this`needsFullReset, this`forceFullReset
      modifies this`resetCalledTime, this`machineCycleStartTime, this`pinSetEnabled, this`pinSetRestoreTime
      modifies this`log, this`levels, this`now
      ensures Valid() && old(log) < log && old(now) <= now
      ensures cycle.NormalCycle? && CycleLogged(hw, log0, log, cycle, KnockDownLines(control))
      ensures resetCalledTime == Some(LastReset(cycle, t))
      ensures control == old(control) && controlChange == old(controlChange) && !forceFullReset && !needsFullReset
      ensures cycle.restart.Restarted? <==> cycle.wait.FallsBack() && fuel > 0
      ensures cycle.restart.Restarted? ==>
        t + ResetPulse <= cycle.restart.at < t + Timeout + PollStep &&
        (cycle.wait == TimedOut ==> cycle.restart.at >= t + Timeout)
      ensures IsThirdBall(gameContext) && t != 0 ==> cycle.wait == Suspended
      ensures CycleWaits(hw, t, cycle)
      ensures pinSetEnabled == old(pinSetEnabled) && pinSetRestoreTime == old(pinSetRestoreTime)
      decreases fuel, 1
    {
      var wait, poll, restart := WaitForMachineTiming(hw, fuel);
      ghost var waited := log;
      var configAt := |log|;
      ApplyPinConfiguration(hw);
      assert log[..configAt] == waited;
      NormalCycleWaits(hw, t, wait, poll, configAt, restart);
      cycle := NormalCycle(wait, poll, configAt, restart);
    }

    /** wait_for_machine_timing. Without a (truthy) reset time, or while pin
        setting is suspended, it returns at once. Otherwise it polls the
        ready sensor b21; on a timeout or the tenth read error it falls back
        to pin_restore with a copy of control (fuel permitting), which
        leaves control as it is and starts another cycle (restart) at the
        time the poll ended. (Ghost) poll is what the poll read. */
    method WaitForMachineTiming(hw: Hardware, fuel: nat)
      returns (outcome: WaitOutcome, ghost poll: ReadyPoll, ghost restart: Restart)
      requires Valid()
      modifies this`control, this`controlChange, this`needsFullReset, this`forceFullReset
      modifies this`resetCalledTime, this`machineCycleStartTime, this`pinSetEnabled, this`pinSetRestoreTime
      modifies this`log, this`levels, this`now
      ensures Valid() && old(log) <= log && old(now) <= now
      ensures outcome == NoResetTime <==> !Truthy(old(resetCalledTime))
      ensures outcome == Suspended <==> Truthy(old(resetCalledTime)) && !old(pinSetEnabled)
      ensures outcome == NoResetTime || outcome == Suspended ==> unchanged(this)
      ensures restart.Restarted? <==> outcome.FallsBack() && fuel > 0
      ensures restart == NoRestart ==>
        log == old(log) && control == old(control) && controlChange == old(controlChange) &&
        resetCalledTime == old(resetCalledTime) && pinSetEnabled == old(pinSetEnabled) && pinSetRestoreTime == old(pinSetRestoreTime) &&
        forceFullReset == old(forceFullReset) && needsFullReset == old(needsFullReset) &&
        (now == old(now) || now < old(resetCalledTime).value + Timeout + PollStep)
      ensures outcome == Triggered ==> now - old(resetCalledTime).value < Timeout && ReadAt(hw.ready, now) == Some(true)
      ensures outcome.Polls() ==>
        ReadyPolled(hw.ready, old(now), old(resetCalledTime).value, outcome, poll.end, poll.samples)
      ensures outcome.Polls() && restart == NoRestart ==> now == poll.end
      ensures restart.Restarted? ==> restart.at == poll.end && CycleWaits(hw, restart.at, restart.cycle)
      ensures !IsThirdBall(gameContext) ==> pinSetEnabled == old(pinSetEnabled) && pinSetRestoreTime == old(pinSetRestoreTime)
      ensures restart.Restarted? ==>
        old(now) <= restart.at && (restart.at == old(now) || restart.at < old(resetCalledTime).value + Timeout + PollStep) &&
        (outcome == TimedOut ==> restart.at - old(resetCalledTime).value >= Timeout) &&
        CycleLogged(hw, old(log), log, restart.cycle, KnockDownLines(control)) &&
        resetCalledTime == Some(LastReset(restart.cycle, restart.at))
      ensures !old(forceFullReset) && !old(needsFullReset) ==>
        control == old(control) && controlChange == old(controlChange) && !forceFullReset && !needsFullReset
      decreases fuel, 0
    {
      restart := NoRestart;
      poll := ReadyPoll(now, []);
      if !Truthy(resetCalledTime) {
        return NoResetTime, poll, restart;
      }
      if !pinSetEnabled {
        return Suspended, poll, restart;
      }
      outcome, poll := AwaitReady(hw);
      if outcome.FallsBack() && fuel > 0 {
        restart := FallBack(hw, fuel - 1);
      }
    }

    /** The fallback of wait_for_machine_timing: pin_restore with a copy of
        control, which keeps control and starts a machine cycle now. */
    method FallBack(hw: Hardware, fuel: nat) returns (ghost restart: Restart)
      requires Valid()
      modifies this`control, this`controlChange, this`needsFullReset, this`forceFullReset
      modifies this`resetCalledTime, this`machineCycleStartTime, this`pinSetEnabled, this`pinSetRestoreTime
      modifies this`log, this`levels, this`now
      ensures Valid() && old(log) <= log && old(now) <= now
      ensures restart.Restarted? && restart.at == old(now)
      ensures CycleLogged(hw, old(log), log, restart.cycle, KnockDownLines(control))
      ensures resetCalledTime == Some(LastReset(restart.cycle, old(now)))
      ensures CycleWaits(hw, old(now), restart.cycle)
      ensures !IsThirdBall(gameContext) ==> pinSetEnabled == old(pinSetEnabled) && pinSetRestoreTime == old(pinSetRestoreTime)
      ensures IsThirdBall(gameContext) ==> !pinSetEnabled && pinSetRestoreTime == Some(old(now) + SuspendTime)
      ensures !old(forceFullReset) && !old(needsFullReset) ==>
        control == old(control) && controlChange == old(controlChange) && !forceFullReset && !needsFullReset
      decreases fuel, 5
    {
      OverwriteWithCopy(control);
      restart := PinRestore(hw, Some(AsData(control)), fuel);
    }

    /** The b21 polling loop of wait_for_machine_timing, from the current
        time, with the clock left where the loop ended; (ghost) poll is what
        it read. */
    method AwaitReady(hw: Hardware) returns (outcome: WaitOutcome, ghost poll: ReadyPoll)
      requires resetCalledTime.Some?
      modifies this`now
      ensures outcome == Triggered || outcome.FallsBack()
      ensures old(now) <= now && (now == old(now) || now < resetCalledTime.value + Timeout + PollStep)
      ensures outcome == Triggered ==> now - resetCalledTime.value < Timeout && ReadAt(hw.ready, now) == Some(true)
      ensures outcome == TooManyErrors ==> now - resetCalledTime.value < Timeout
      ensures outcome == TimedOut ==> now - resetCalledTime.value >= Timeout
      ensures ReadyPolled(hw.ready, old(now), resetCalledTime.value, outcome, now, poll.samples) && poll.end == now
    {
      var end;
      ghost var samples;
      outcome, end, samples := PollReady(hw.ready, now, resetCalledTime.value);
      now := end;
      poll := ReadyPoll(end, samples);
    }

    /** pin_restore. Data that is missing, empty or not a dictionary (None)
        changes nothing; otherwise its keys that name pins overwrite control
        and a machine cycle starts (restart). */
    method PinRestore(hw: Hardware, data: Option<map<string, int>>, fuel: nat) returns (ghost restart: Restart)
      requires Valid()
      modifies this`control, this`controlChange, this`needsFullReset, this`forceFullReset
      modifies this`resetCalledTime, this`machineCycleStartTime, this`pinSetEnabled, this`pinSetRestoreTime
      modifies this`log, this`levels, this`now
      ensures Valid() && old(log) <= log && old(now) <= now
      ensures restart.Restarted? <==> data.Some? && |data.value| > 0
      ensures restart == NoRestart ==> unchanged(this)
      ensures restart.Restarted? ==>
        restart.at == old(now) && CycleLogged(hw, old(log), log, restart.cycle, KnockDownLines(control)) &&
        resetCalledTime == Some(LastReset(restart.cycle, old(now))) && CycleWaits(hw, old(now), restart.cycle)
      ensures !IsThirdBall(gameContext) ==> pinSetEnabled == old(pinSetEnabled) && pinSetRestoreTime == old(pinSetRestoreTime)
      ensures restart.Restarted? && IsThirdBall(gameContext) ==> !pinSetEnabled && pinSetRestoreTime == Some(old(now) + SuspendTime)
      ensures restart.Restarted? && !old(forceFullReset) && !old(needsFullReset) ==>
        control == Overwrite(old(control), data.value) && controlChange == old(controlChange) &&
        !forceFullReset && !needsFullReset
      ensures restart.Restarted? && (old(forceFullReset) || old(needsFullReset)) ==>
        restart.cycle == FullResetCycle && control == AllUp && controlChange == AllZero && !forceFullReset && !needsFullReset
      decreases fuel, 4
    {
      restart := NoRestart;
      if data.Some? && |data.value| > 0 {
        control := Overwrite(control, data.value);
        var cycle := StartMachineCycle(hw, fuel);
        restart := Restarted(old(now), cycle);
      }
    }

    /** schedule_pin_restore: pin data that is a non-empty dictionary
        overwrites the control keys it names; a machine cycle starts in any
        case. */
    method SchedulePinRestore(hw: Hardware, pinData: Option<map<string, int>>, fuel: nat) returns (ghost cycle: Cycle)
      requires Valid()
      modifies this`control, this`controlChange, this`needsFullReset, this`forceFullReset
      modifies this`resetCalledTime, this`machineCycleStartTime, this`pinSetEnabled, this`pinSetRestoreTime
      modifies this`log, this`levels, this`now
      ensures Valid() && old(log) < log && old(now) <= now
      ensures CycleLogged(hw, old(log), log, cycle, KnockDownLines(control))
      ensures resetCalledTime == Some(LastReset(cycle, old(now)))
      ensures CycleWaits(hw, old(now), cycle)
      ensures !IsThirdBall(gameContext) ==> pinSetEnabled == old(pinSetEnabled) && pinSetRestoreTime == old(pinSetRestoreTime)
      ensures IsThirdBall(gameContext) ==> !pinSetEnabled && pinSetRestoreTime == Some(old(now) + SuspendTime)
      ensures !old(forceFullReset) && !old(needsFullReset) ==>
        control == (if pinData.Some? && |pinData.value| > 0 then Overwrite(old(control), pinData.value) else old(control)) &&
        controlChange == old(controlChange) && !forceFullReset && !needsFullReset
      ensures old(forceFullReset) || old(needsFullReset) ==>
        cycle == FullResetCycle && control == AllUp && controlChange == AllZero && !forceFullReset && !needsFullReset
    {
      if pinData.Some? && |pinData.value| > 0 {
        control := Overwrite(control, pinData.value);
      }
      cycle := StartMachineCycle(hw, fuel);
    }

    /** reset_pins: a reset pulse with the force flag set, then all pins up,
        no change, the check flags and both reset flags cleared. */
    method ResetPins(hw: Hardware)
      requires Valid()
      modifies this`control, this`controlChange, this`needsFullReset, this`forceFullReset
      modifies this`resetCalledTime, this`machineCycleStartTime, this`pinSetEnabled, this`pinSetRestoreTime
      modifies this`log, this`levels, this`now
      modifies this`pinCheck, this`pinsChanged
      ensures Valid() && control == AllUp && controlChange == AllZero
      ensures !pinCheck && !pinsChanged && !needsFullReset && !forceFullReset
      ensures resetCalledTime == Some(old(now)) && machineCycleStartTime == Some(old(now))
      ensures log == old(log) + ResetLog(hw, |old(log)|)
      ensures now == old(now) + if hw.WriteFails(|old(log)|) then 0 else ResetPulse
      ensures IsThirdBall(gameContext) ==> !pinSetEnabled && pinSetRestoreTime == Some(old(now) + SuspendTime)
      ensures !IsThirdBall(gameContext) ==> pinSetEnabled == old(pinSetEnabled) && pinSetRestoreTime == old(pinSetRestoreTime)
    {
      forceFullReset := true;
      var _ := Reset(hw);
      control := AllUp;
      controlChange := AllZero;
      pinCheck := false;
      pinsChanged := false;
      needsFullReset := false;
      forceFullReset := false;
    }

    /** schedule_reset: an immediate FULL_RESET resets at once; a FULL_RESET
        that is not immediate only sets the force flag, for the next
        machine cycle; any other type resets at once. */
    method ScheduleReset(hw: Hardware, resetType: string, data: Option<ResetRequest>)
      requires Valid()
      modifies this`control, this`controlChange, this`needsFullReset, this`forceFullReset
      modifies this`resetCalledTime, this`machineCycleStartTime, this`pinSetEnabled, this`pinSetRestoreTime
      modifies this`log, this`levels, this`now
      modifies this`pinCheck, this`pinsChanged
      ensures Valid()
      ensures resetType == FullResetType && !(data.Some? && data.value.immediate) ==>
        forceFullReset &&
        unchanged(this`control, this`controlChange, this`needsFullReset, this`resetCalledTime, this`machineCycleStartTime) &&
        unchanged(this`pinSetEnabled, this`pinSetRestoreTime, this`log, this`levels, this`now, this`pinCheck, this`pinsChanged)
      ensures !(resetType == FullResetType && !(data.Some? && data.value.immediate)) ==>
        control == AllUp && controlChange == AllZero && !pinCheck && !pinsChanged &&
        !needsFullReset && !forceFullReset && resetCalledTime == Some(old(now)) &&
        log == old(log) + ResetLog(hw, |old(log)|)
    {
      var immediate := data.Some? && data.value.immediate;
      if immediate && resetType == FullResetType {
        ResetPins(hw);
      } else if resetType == FullResetType {
        forceFullReset := true;
      } else {
        ResetPins(hw);
      }
    }

    /** process_throw: lift an expired suspension, check the pins, clear
        the external force flag, and act on the reset decision: reset_pins,
        a machine cycle, or nothing. Returns the pin result of check_pins;
        (ghost) its status, the control dictionary it left (checked), the
        rounds it read, the time it ended (checkEnd), the action taken and
        the machine cycle run, if any. */
    method ProcessThrow(hw: Hardware, fuel: nat)
      returns (result: seq<int>, ghost status: int, ghost checked: Control, ghost rounds: seq<Round>,
               ghost checkEnd: int, ghost action: Action, ghost cycle: Option<Cycle>)
      requires Valid()
      modifies this`control, this`controlChange, this`needsFullReset, this`forceFullReset
      modifies this`resetCalledTime, this`machineCycleStartTime, this`pinSetEnabled, this`pinSetRestoreTime
      modifies this`log, this`levels, this`now
      modifies this`pinCheck, this`pinsChanged
      ensures Valid() && !forceFullReset
      ensures PinCheckOutcome(hw, sensorPins, old(control), old(now), result, status, checked, rounds, checkEnd)
      ensures old(now) <= checkEnd <= old(now) + MinCheckTime + 2 * ReadDelay && checkEnd <= now
      ensures action == ResetDecision(old(forceFullReset), status, Changes(old(control), checked) != AllZero, old(gameContext))
      ensures !IsThirdBall(gameContext) ==>
        SuspensionUpdated(old(pinSetEnabled), old(pinSetRestoreTime), old(now), pinSetEnabled, pinSetRestoreTime)
      ensures cycle.Some? <==> action == MachineCycle
      ensures action == FullReset ==>
        control == AllUp && controlChange == AllZero && !pinCheck && !pinsChanged && !needsFullReset &&
        log == old(log) + ResetLog(hw, |old(log)|) && resetCalledTime == Some(checkEnd) &&
        (IsThirdBall(gameContext) ==> !pinSetEnabled && pinSetRestoreTime == Some(checkEnd + SuspendTime))
      ensures action == MachineCycle ==>
        CycleLogged(hw, old(log), log, cycle.value, KnockDownLines(control)) &&
        resetCalledTime == Some(LastReset(cycle.value, checkEnd)) && CycleWaits(hw, checkEnd, cycle.value)
      ensures action == MachineCycle && !old(needsFullReset) ==>
        control == checked && controlChange == Changes(old(control), checked)
      ensures action != FullReset ==> !pinCheck && (pinsChanged <==> Changes(old(control), checked) != AllZero)
      ensures action == NoCycle ==>
        control == checked && controlChange == Changes(old(control), checked) && log == old(log) && now == checkEnd &&
        levels == old(levels) && needsFullReset == old(needsFullReset) &&
        resetCalledTime == old(resetCalledTime) && machineCycleStartTime == old(machineCycleStartTime)
    {
      var status0;
      result, status0, rounds := CheckThrow(hw);
      status, checked, checkEnd := status0, control, now;
      assert log == old(log) && forceFullReset == old(forceFullReset) && needsFullReset == old(needsFullReset);
      action, cycle := Act(hw, status0, fuel);
    }

    /** The first steps of process_throw: lift an expired suspension, then
        check_pins. */
    method CheckThrow(hw: Hardware) returns (result: seq<int>, status: int, ghost rounds: seq<Round>)
      requires Valid()
      modifies this`control, this`controlChange, this`pinsChanged, this`pinCheck, this`now
      modifies this`pinSetEnabled, this`pinSetRestoreTime
      ensures Valid() && PinCheckOutcome(hw, sensorPins, old(control), old(now), result, status, control, rounds, now)
      ensures pinCheck <==> status == 2
      ensures SuspensionUpdated(old(pinSetEnabled), old(pinSetRestoreTime), old(now), pinSetEnabled, pinSetRestoreTime)
      ensures old(now) <= now <= old(now) + MinCheckTime + 2 * ReadDelay
      ensures pinsChanged <==> Changes(old(control), control) != AllZero
      ensures controlChange == Changes(old(control), control)
    {
      UpdatePinSetStatus();
      result, status, rounds := CheckPins(hw);
      if AllDown(old(control)) {
        ControlsEqual(Changes(old(control), control), AllZero);
      }
    }

    /** The last steps of process_throw, after a check_pins that returned
        status: clear the external force flag, decide, and run the action
        decided: reset_pins, start_machine_cycle (the cycle it ran), or
        nothing. */
    method Act(hw: Hardware, status: int, fuel: nat) returns (action: Action, ghost cycle: Option<Cycle>)
      requires Valid()
      modifies this`control, this`controlChange, this`needsFullReset, this`forceFullReset
      modifies this`resetCalledTime, this`machineCycleStartTime, this`pinSetEnabled, this`pinSetRestoreTime
      modifies this`log, this`levels, this`now
      modifies this`pinCheck, this`pinsChanged
      ensures Valid() && !forceFullReset && old(now) <= now
      ensures action == ResetDecision(old(forceFullReset), status, old(pinsChanged), gameContext)
      ensures cycle.Some? <==> action == MachineCycle
      ensures action == FullReset ==>
        control == AllUp && controlChange == AllZero && !pinCheck && !pinsChanged && !needsFullReset &&
        log == old(log) + ResetLog(hw, |old(log)|) && resetCalledTime == Some(old(now)) &&
        (IsThirdBall(gameContext) ==> !pinSetEnabled && pinSetRestoreTime == Some(old(now) + SuspendTime))
      ensures action == MachineCycle ==>
        CycleLogged(hw, old(log), log, cycle.value, KnockDownLines(control)) &&
        resetCalledTime == Some(LastReset(cycle.value, old(now))) && CycleWaits(hw, old(now), cycle.value)
      ensures action == MachineCycle && !old(needsFullReset) ==>
        control == old(control) && controlChange == old(controlChange)
      ensures action == MachineCycle && old(needsFullReset) ==>
        cycle.value == FullResetCycle && control == AllUp && controlChange == AllZero
      ensures action != NoCycle && !IsThirdBall(gameContext) ==>
        pinSetEnabled == old(pinSetEnabled) && pinSetRestoreTime == old(pinSetRestoreTime)
      ensures action == NoCycle ==>
        unchanged(this`control, this`controlChange, this`log, this`levels, this`now, this`pinSetEnabled, this`pinSetRestoreTime) &&
        unchanged(this`resetCalledTime, this`machineCycleStartTime, this`pinCheck, this`pinsChanged, this`needsFullReset)
      ensures action != FullReset ==> pinCheck == old(pinCheck) && pinsChanged == old(pinsChanged)
    {
      var external := forceFullReset;
      if external {
        forceFullReset := false;
      }
      action := ResetDecision(external, status, pinsChanged, gameContext);
      cycle := None;
      match action
      case FullReset =>
        ResetPins(hw);
      case MachineCycle =>
        var c := StartMachineCycle(hw, fuel);
        cycle := Some(c);
      case NoCycle =>
    }
  }
}
