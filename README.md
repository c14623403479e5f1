# Lane machine controller (Canadian 5-pin) in Dafny

This project models `MachineFunctions`, the controller of one bowling lane's
pinsetter in `base_ui_test.py`. The controller:

- watches five analog pin sensors after a ball and keeps a sticky
  five-pin up/down state (`control`) plus the pins that fell during this
  check (`control_change`);
- decides after each ball between a full reset, a normal machine cycle
  or nothing;
- drives the machine: a reset pulse on GP6, a wait for the ready sensor
  b21 with a fallback to `pin_restore`, and knock-down pulses on the pin
  solenoids GP1..GP5, which always end high;
- suspends pin setting for eight seconds after a reset on a frame's
  third ball;
- answers UI events (`pin_set`, `schedule_reset`) through two thin
  `BaseUI` handlers.

The frame-completion rules are modelled too: `_is_third_ball`,
`_is_frame_ending_ball`, `_will_be_last_ball`, `_is_tenth_frame_complete`
and the older class's `_will_be_last_ball`.

Modules and files:

- `wrappers.dfy`: `Option`.
- `pins.dfy` (`Pins`):
  - the five pins and their keys;
  - the control and change dictionaries, as a record with one field per
    key (see "Left out");
  - writing pin data into control;
  - the output lines;
  - ball value.
- `frames.dfy` (`Frames`): the frame-completion predicates, over a view of
  the current frame (its index and the values of the balls already in
  it).
- `tracker.dfy` (`PinTracker`): check_pins's sensor reads as functions over
  values (one read, one round, a sequence of rounds), the change dictionary,
  and the lemmas about what rounds do to control.
- `outputs.dfy` (`Outputs`): GPIO calls as an append-only log, the level
  each line is left at, and the lines apply_pin_configuration pulses.
- `policy.dfy` (`ResetPolicy`): process_throw's reset decision.
- `ready.dfy` (`ReadyWait`): the b21 polling loop of wait_for_machine_timing.
- `machine.dfy` (`Machine`): the `MachineFunctions` class with the
  source's attributes as fields and its operations as methods, plus the
  specification functions the methods are proved against.
- `base_ui.dfy` (`Ui`): `BaseUI.handle_pin_set` and
  `handle_schedule_reset`.

How the environment is modelled:

- **Time** is integer milliseconds in the field `now`. It moves only by the
  source's sleeps and by `AdvanceClock`, for time that passes between
  calls:
  - 25 ms before and 25 ms after each sensor round;
  - 10 ms per b21 poll;
  - 50 ms for the reset pulse;
  - 250 ms for the knock pulse;
  - the rest of the 3 s window.

  Round j of a check started at time s therefore reads at
  `s + 25 + 50 * j`.
- **Sensors** are a `Hardware` value:
  - `pinReadings[(t, i)]` is pin sensor i (b20, b13, b12, b11, b10) at
    time t. `Some(true)` means at least 4.0 V, `None` means the read
    raised.
  - the b21 trace `ready`;
  - the set `faults` of GPIO call numbers that raise.
- **The sensor-to-pin-name map** from the lane settings is the constant
  field `sensorPins`.
- **The game context** is `Option<FrameView>`. `None` stands both for no
  context and for a lookup that raised: both make every rule answer false.
- **Python truthiness.** A timestamp 0 is false (`Truthy`). Empty pin data
  is false.

## Model

| member | source | states |
|---|---|---|
| Pins.PinNamed | base_ui_test.py:1837-1838 | A sensor's configured name gives the pin it is the key of; a name that is no key gives None, which is the KeyError the sensor loop skips. |
| Pins.Control.Set | base_ui_test.py:1838-1839 | Writing one key sets that pin and leaves the other four as they were. |
| Pins.Overwrite | base_ui_test.py:1920-1926 | After writing pin data, each pin whose key the data holds has the data's value, every other pin keeps its value, and keys that name no pin are ignored. No key is ever added. |
| Pins.AsData | base_ui_test.py:1752-1755 | `control.copy()` holds every pin key with its value, so it is never empty and pin_restore acts on it. |
| Pins.OverwriteWithCopy | base_ui_test.py:1752-1755 | Restoring a copy of control leaves control unchanged. |
| Pins.OverwriteTwice | base_ui_test.py:449-456 | Writing the same pin data twice (handle_pin_set, then pin_restore) equals writing it once. |
| Pins.Dot | base_ui_test.py:1618 | `sum(a * b for a, b in zip(xs, ws))`: zip stops at the shorter list. Its value on pin vectors is stated by BallValueFive. |
| Pins.BallValue | base_ui_test.py:1945 | A ball's value is its pin vector weighted by the point values 2, 3, 5, 3, 2; BallValueFive and BallValueOfPinVector state what that comes to. |
| Pins.BallValueFive | base_ui_test.py:1618 | A five-entry vector is worth 2a + 3b + 5c + 3d + 2e. |
| Pins.BallValueOfPinVector | base_ui_test.py:1618 | A 0/1 pin vector is worth 0 to 15, and exactly 15 when all five entries are 1. |
| Frames.IsThirdBall | base_ui_test.py:1442-1452 | The frame already holds two or more balls; no game context, or a lookup that raised, gives false. IsFrameEndingBall implies it, and it makes ResetDecision choose a full reset. |
| Frames.IsFrameEndingBall | base_ui_test.py:1566-1608 | True exactly when a game context exists and the frame already holds two balls, regular or tenth frame; it implies `_is_third_ball`. |
| Frames.IsTenthFrameComplete | base_ui_test.py:1934-1951 | Complete with two balls already recorded. Not complete with none. With one ball: complete iff the first is under 15 and first plus this ball's value is under 15. |
| Frames.WillBeLastBall | base_ui_test.py:1610-1659 | No context gives false. In frames 0-8: true iff status 2, a 15-point ball, or one or two balls already recorded. In the tenth frame: never on a strike; otherwise on a third ball or an open second ball. |
| Frames.OldWillBeLastBall | base_ui_test.py:2577-2610 | In frames 0-8: true iff a first ball with status 2, a second ball completing 15, or any third ball. In the tenth frame: exactly `_is_tenth_frame_complete`. Past it: never. |
| Frames.LastBallRulesDiverge | base_ui_test.py:1630-1637 | For every frame: the newer rule ends a regular frame on any second ball that is not a spare and the older does not; the older ends the tenth frame on a third ball with status 2 or worth 15 and the newer does not. |
| Frames.LastBallRulesAgreeOnSpareAndThirdBall | base_ui_test.py:2585-2603 | In a regular frame, whenever the older rule ends the frame the newer one does too. |
| PinTracker.TrackAppend | base_ui_test.py:1819-1844 | One more polling round extends the track by one scan of that round. |
| PinTracker.Sense | base_ui_test.py:1835-1844 | One sensor read: a high reading takes the standing pin it names down; a low reading, a read error or a name that is no key changes nothing. ScanPrefixDown states its effect over a round. |
| PinTracker.ScanRound | base_ui_test.py:1827-1844 | One polling round: the five sensors read in order b20, b13, b12, b11, b10. ScanPrefixDown states its effect. |
| PinTracker.Track | base_ui_test.py:1819-1844 | The rounds of one check, in order. TrackDown, TrackSticky and TrackIgnoresErrors state what they leave. |
| PinTracker.Changes | base_ui_test.py:1805-1839 | `control_change[p]` is 1 exactly for pins that went from non-zero to 0, and 0 for all others. |
| PinTracker.ScanPrefixDown | base_ui_test.py:1835-1844 | Within a round, a pin ends 0 iff it was 0 or a sensor mapped to it read high; no other pin moves. |
| PinTracker.TrackDown | base_ui_test.py:1819-1873 | After any rounds, a pin is 0 iff some sensor mapped to it read high in some round; otherwise it keeps its starting value. |
| PinTracker.TrackSticky | base_ui_test.py:1837-1838 | A pin only ever moves to 0, never back: a down pin stays down. |
| PinTracker.TrackIgnoresErrors | base_ui_test.py:1836-1844 | A pin whose sensors only read low or raised keeps its value. |
| PinTracker.ChangesExact | base_ui_test.py:1837-1840 | The change entry of a pin is 1 iff the pin was standing at the start and some sensor mapped to it read high; otherwise 0. |
| Outputs.Drive | base_ui_test.py:1701 | A GPIO call that does not raise sets exactly the lines it names to its level. |
| Outputs.DriveSafety | base_ui_test.py:1701-1709 | An all-high write of GP1..GP5 reaches the safe state from any state; a write of GP6 alone keeps it. |
| Outputs.KnockDownLines | base_ui_test.py:1766-1781 | The pulsed lines are exactly the solenoids of pins whose control value is 0, never GP6, at most five. |
| Outputs.KnockDownLinesSpec | base_ui_test.py:1777-1781 | After the first n pins of pin_mapping, the list holds the line of pin i iff i < n and pin i's control value is 0. |
| ResetPolicy.ResetDecision | base_ui_test.py:1527-1562 | Full reset iff the entry force flag was set, status is 2, or the frame already holds two balls. Otherwise a machine cycle iff pins changed or status > 0, else nothing. |
| ReadyWait.PollReady | base_ui_test.py:1729-1747 | Its outcome, end time and samples satisfy ReadyPolled: one b21 read every 10 ms from the start, ending at the first high read (within 8 s of the reset), at the tenth read error (non-consecutive errors count), or once 8 s have passed. |
| ReadyWait.Errors | base_ui_test.py:1736-1743 | The error_count of the b21 loop: the number of reads that raised. ErrorsPrefix states how it grows. |
| ReadyWait.ErrorsPrefix | base_ui_test.py:1736-1743 | The error count of a prefix of the samples is at most that of the whole, and strictly less when the last sample is a read error after the prefix. |
| ReadyWait.ReadyPolled | base_ui_test.py:1729-1747 | A b21 poll from a start time: each sample is the reading at start + 10 j and only the last may be high. Triggered: the last is high, read within 8 s of the reset, with fewer than ten errors. TooManyErrors: the last is the tenth error, within 8 s. TimedOut: no high read, fewer than ten errors, ending at the first poll time at least 8 s after the reset. |
| ReadyWait.ReadyPolledUnique | base_ui_test.py:1729-1747 | The b21 readings decide the wait: two polls from the same start and reset time have the same outcome, end and samples. |
| ReadyWait.PollNotShorter | base_ui_test.py:1729-1747 | No poll ends while another poll of the same readings is still going: neither stops early. |
| Machine.Samples | base_ui_test.py:1819-1868 | n polling rounds read n rounds (SamplesAt gives the time of each). |
| Machine.SamplesAt | base_ui_test.py:1824-1868 | Round j of a check started at s reads at s + 25 + 50 j. |
| Machine.SamplesWellFormed | base_ui_test.py:1827-1835 | Every sampled round has one reading per configured sensor. |
| Machine.PolledIsTrack | base_ui_test.py:1819-1873 | Polling n rounds leaves control as tracking the first n samples does. |
| Machine.EarlyExit | base_ui_test.py:1862-1866 | Leaving early after round n: ten stable rounds, round n read at or after 1 s, some pin changed (EarlyExitMeans). |
| Machine.StopsAt | base_ui_test.py:1819-1866 | The loop runs to the first all-down round, else the first early-exit round, else round 61; no earlier round meets either condition (StopsAtUnique). |
| Machine.PinCheckOutcome | base_ui_test.py:1797-1883 | check_pins's result, status and final control as a function of the entry control, the start time and the rounds sampled under the stop rule, and its end time: 3 s after the start when all pins are down at entry, else CheckTime (50 n - 25 ms after an early exit, the later of that and 3 s on status 2, 3050 ms when the window ran out). |
| Machine.StableRoundsMeans | base_ui_test.py:1846-1850 | The stable-readings counter after round n is at least m iff each of the last m rounds left control unchanged. |
| Machine.EarlyExitMeans | base_ui_test.py:1862-1866 | The loop's early-exit test after round n (at least 10 stable readings, at least 1 s since the start, pins_changed) holds iff the last ten rounds changed nothing, round n read at or after 1 s, and some pin went down since the start. |
| Machine.StopsAtUnique | base_ui_test.py:1819-1866 | The stop rule fixes how many rounds a check runs and whether it ends struck, so check_pins's outcome is a function of the sensor readings. |
| Machine.PulseLog | base_ui_test.py:1783-1795 | The knock-down pulse's calls: none with nothing to knock down; else knock lines low then high, with a call that raises followed by the emergency all-high write. ConfigLogSafe states what follows from that. |
| Machine.ConfigLog | base_ui_test.py:1760-1795 | apply_pin_configuration's calls: all five lines high, then the pulse, with a first call that raises followed by the emergency write. ConfigLogSafe and ConfigPulsesDownPins state its properties. |
| Machine.ResetLog | base_ui_test.py:1480-1482 | reset's calls: GP6 low, then GP6 high unless the first call raised. |
| Machine.ImmediateLog | base_ui_test.py:1697-1710 | apply_pin_configuration_immediate's calls: one all-high write, repeated if it raised. |
| Machine.CycleLogged | base_ui_test.py:1661-1695 | A machine cycle's calls: the reset pulse first; nothing more if it failed; the immediate write on a full reset; otherwise the calls of any cycle the wait restarted, then apply_pin_configuration's calls last. |
| Machine.LastReset | base_ui_test.py:1469 | The reset time a cycle leaves recorded: its own, or that of the last cycle restarted inside it. |
| Machine.CycleWaits | base_ui_test.py:1712-1756 | The ready-waits of a cycle whose reset is recorded at t: skipped for want of a reset time iff t is 0; a wait that polled did so as ReadyPolled states from t + 50 ms; a restart happens only after a fallback, at the time the poll ended, and the restarted cycle waits likewise. |
| Machine.NormalCycleWaits | base_ui_test.py:1681-1693 | A normal cycle waits as CycleWaits states when its own wait and its restart do. |
| Machine.SuspensionUpdated | base_ui_test.py:1459-1463 | The suspension after _update_pin_set_status at time t: lifted (enabled, no restore time) iff setting was disabled and a truthy restore time was reached; otherwise unchanged. |
| Machine.ConfigLogSafe | base_ui_test.py:1760-1795 | apply_pin_configuration starts with an all-high write, drives only the knock lines low, ends with a high write that went through, and without faults makes exactly the fault-free calls. |
| Machine.ConfigPulsesDownPins | base_ui_test.py:1775-1785 | Without faults, the low pulse covers pin i's solenoid iff pin i's control value is 0. |
| Machine.TracksAfterSense | base_ui_test.py:1837-1840 | Taking a standing pin down and marking its change keeps control_change equal to the changes since the start, and pins_changed true. |
| Machine.NoChangeMeansSame | base_ui_test.py:1847-1883 | When pins only went down, nothing was recorded as changed iff control equals its value at the start. |
| Machine.ChangedMeans | base_ui_test.py:1883 | The change dictionary is non-zero iff some pin's entry is non-zero. |
| Machine.MachineFunctions.constructor | base_ui_test.py:1321-1389 | Successful setup: all six outputs high, all pins up, no change, both reset flags clear, no reset time, pin setting enabled. |
| Machine.MachineFunctions.Output | base_ui_test.py:1480-1482 | A GPIO.output call is logged; it raises iff the fault set names its call number, and only a call that does not raise drives the lines. |
| Machine.MachineFunctions.UpdatePinSetStatus | base_ui_test.py:1454-1464 | The suspension is as SuspensionUpdated states at the current time: lifted (enabled, restore time cleared) exactly when setting is disabled and the restore time is set and reached; otherwise unchanged. |
| Machine.MachineFunctions.Reset | base_ui_test.py:1466-1489 | Records the reset and cycle start times. On a third ball it disables pin setting until reset time + 8 s. Its calls are exactly the GP6 pulse (GP6 low, 50 ms, GP6 high, stopping at the first call that raises), and it fails iff one of the two calls raises. The pin lines are untouched; GP6 is left low if only the second call raises. |
| Machine.MachineFunctions.ReadSensors | base_ui_test.py:1835-1844 | Reads the five sensors in order, taking a standing pin down on a high reading and recording the change; read errors and unknown names are skipped. |
| Machine.MachineFunctions.PollRound | base_ui_test.py:1821-1850 | Sleeps 25 ms and reads one round, extending the tracked state by that round; reports whether control is unchanged. |
| Machine.MachineFunctions.PollPins | base_ui_test.py:1816-1873 | Polls n rounds, 1 <= n <= 61, leaving control as the track of those rounds, where round n is the first after which all pins are down, or else the first after ten unchanged rounds that read at least 1 s after the start once a pin has changed, or else the last round of the 3 s window. It ends 50 n - 25 ms after the start when all pins went down or it left early, and 3050 ms after it when the window ran out, which is always the case without a change. |
| Machine.MachineFunctions.CheckPins | base_ui_test.py:1797-1883 | All down at entry: returns ([1,1,1,1,1], 2) after 3 s. Otherwise: the rounds sampled are exactly those the stop rule of PollPins allows, control is their track, control_change is exactly the pins that went down, and the result is that vector in key order. Status is 2 iff all pins ended down (after the full window), else 1 iff a pin changed, else 0. pin_check ends false except on status 2. It ends exactly CheckTime after the start: 50 n - 25 ms after an early exit, the later of that and 3 s on status 2, 3050 ms when the window ran out. |
| Machine.MachineFunctions.ApplyPinConfigurationImmediate | base_ui_test.py:1697-1710 | Its calls are one all-high write of GP1..GP5, repeated as the emergency write if it raises; the pin lines end high and GP6 is untouched. |
| Machine.MachineFunctions.ApplyPinConfiguration | base_ui_test.py:1760-1795 | The calls made are exactly the configuration sequence for the pins whose control value is 0, with a 250 ms sleep iff the low pulse went through. The pin lines end high on every path, including the error paths. |
| Machine.MachineFunctions.PinsToKnockDown | base_ui_test.py:1766-1781 | The pin_mapping loop yields exactly the solenoid lines of the pins whose control value is 0, in pin order. |
| Machine.MachineFunctions.Pulse | base_ui_test.py:1783-1794 | Knock lines low, 250 ms, high; a call that raises is followed by the emergency all-high write. |
| Machine.MachineFunctions.StartMachineCycle | base_ui_test.py:1661-1695 | Every cycle starts with the reset pulse at the next GPIO call. With a reset flag set: the pulse, then the immediate all-high write; all pins up, no change, both flags cleared, no wait. Otherwise control and the change are kept; it stops after the pulse iff the pulse fails; else the calls of any cycle the wait restarted come next and the configuration calls for the current control come last. The recorded reset time is that of the last cycle started. Every wait polls b21 as CycleWaits states, so a fallback cycle runs only when b21 gave no high read within 8 s or raised ten times. Off a third ball the suspension is untouched; on one, pin setting ends disabled with its restore time 8 s after the entry, and the wait is skipped as suspended. |
| Machine.MachineFunctions.FullResetBranch | base_ui_test.py:1664-1679 | Its calls are the reset pulse followed by the immediate all-high write; control all up, change all zero, both flags cleared, reset time recorded, at most 50 ms. Off a third ball the suspension is untouched; on one, pin setting ends disabled with its restore time 8 s after the entry. |
| Machine.MachineFunctions.NormalBranch | base_ui_test.py:1681-1693 | The reset pulse (stopping iff it fails), then the wait and configuration of WaitAndConfigure: the calls of any cycle the fallback starts, then apply_pin_configuration's for control. Control and change are kept, and the waits are as CycleWaits states from the reset time. Off a third ball the suspension is untouched; on one, pin setting ends disabled with its restore time 8 s after the entry. |
| Machine.MachineFunctions.WaitAndConfigure | base_ui_test.py:1689-1693 | After a reset pulse at t that went through: the wait polls b21 from t + 50 ms as ReadyPolled states (CycleWaits), any restarted cycle's calls come next, then apply_pin_configuration's; a restart happens iff the wait fell back (fuel permitting), when the poll ended. The suspension state is left as it was. |
| Machine.MachineFunctions.WaitForMachineTiming | base_ui_test.py:1712-1758 | Returns at once, changing nothing, without a truthy reset time or while suspended. Otherwise its outcome, end time and samples are those of ReadyPolled over b21 from the entry time: a trigger within 8 s ends it with nothing written. A timeout or the tenth error falls back to pin_restore with a copy of control: a new cycle starts when the poll ends, its calls (from the reset pulse on) are the next in the log, it waits as CycleWaits states, control is kept, and the reset time is that of the new cycle. |
| Machine.MachineFunctions.AwaitReady | base_ui_test.py:1729-1747 | The b21 loop from the current time: outcome, end time and samples are as ReadyPolled states, and the clock is left at the end. |
| Machine.MachineFunctions.FallBack | base_ui_test.py:1753-1756 | pin_restore with a copy of control: a cycle starts now, its calls are the next in the log, it waits as CycleWaits states, and control is kept. Off a third ball the suspension is untouched; on one, pin setting ends disabled with its restore time 8 s after the entry. |
| Machine.MachineFunctions.PinRestore | base_ui_test.py:1916-1932 | Data that is missing or empty changes nothing. Otherwise the keys naming pins overwrite control and a machine cycle starts now: its calls, from the reset pulse on, are the next in the log, it waits as CycleWaits states, and the reset time is that of the cycle. With a reset flag set the cycle is the full reset: all pins up, no change, both flags cleared; otherwise control is the overwrite and the change is kept. Off a third ball the suspension is untouched; on one, pin setting ends disabled with its restore time 8 s after the entry. |
| Machine.MachineFunctions.SchedulePinRestore | base_ui_test.py:1904-1914 | Non-empty pin data overwrites the keys it names; a machine cycle starts in every case, its calls from the reset pulse on being the next in the log and its waits as CycleWaits states. Off a third ball the suspension is untouched; on one, pin setting ends disabled with its restore time 8 s after the entry. |
| Machine.MachineFunctions.ResetPins | base_ui_test.py:1491-1511 | Its calls are exactly the GP6 reset pulse; then control all up, change all zero, pin_check and pins_changed false, both reset flags false, reset time recorded, and the third-ball suspension as reset sets it. |
| Machine.MachineFunctions.ScheduleReset | base_ui_test.py:1885-1902 | A FULL_RESET that is not immediate only sets the force flag: every other field is unchanged. Anything else is reset_pins, whose calls are the reset pulse. |
| Machine.MachineFunctions.ProcessThrow | base_ui_test.py:1513-1564 | Returns check_pins's result over the sensor rounds from the entry time, with the control it left being their track under the stop rule; check_pins ends at checkEnd, exactly as PinCheckOutcome states. Off a third ball, the suspension is as _update_pin_set_status left it at the entry time. The action is the reset decision on the entry force flag, the status and whether pins changed, and it is carried out: a full reset makes exactly the reset pulse at checkEnd and leaves all pins up (suspending on a third ball); a cycle makes the calls CycleLogged states, with its waits as CycleWaits states, from checkEnd. Unless the action is a full reset, pin_check ends false and pins_changed says whether check_pins saw a change. With no action nothing is written, the clock stays at checkEnd, and control, the change, the levels, the needs-full-reset flag and both recorded times are as check_pins left them. |
| Machine.MachineFunctions.CheckThrow | base_ui_test.py:1519-1522 | An expired suspension is lifted as SuspensionUpdated states at the entry time, then check_pins gives its outcome from the entry control and time. |
| Machine.MachineFunctions.Act | base_ui_test.py:1527-1562 | Clears the external force flag and takes the reset decision on it, the status and pins_changed, then carries it out: reset_pins with its reset pulse and all pins up; start_machine_cycle, whose calls, reset time and waits are stated by CycleLogged, LastReset and CycleWaits; or nothing, when control, the change, the log, the levels, the clock, the suspension, both recorded times, pin_check, pins_changed and the needs-full-reset flag are all unchanged. pin_check and pins_changed are kept by anything but a full reset. |
| Ui.RequestedType | base_ui_test.py:459 | The event's 'type' entry, or FULL_RESET when there is no data or no entry. |
| Ui.BaseUI.HandlePinSet | base_ui_test.py:440-456 | Without data nothing changes. Otherwise control takes the data's pin values (written once, then again by pin_restore) and a machine cycle starts at once: its calls, from the reset pulse on, are the next in the log, it waits as CycleWaits states, and the reset time is that of the cycle. With a reset flag set the cycle is the full reset: all pins up, no change, both flags cleared. On a third ball pin setting ends disabled with its restore time 8 s after the entry, and off one the suspension is untouched. The game context is untouched. |
| Ui.BaseUI.HandleScheduleReset | base_ui_test.py:458-473 | A FULL_RESET that is not immediate only sets the machine's force flag: every other field, the game context included, is unchanged. An immediate FULL_RESET, or any other type, resets the pins: the reset pulse, all up, no change, flags clear, game context kept. Without a machine nothing happens. |

## Left out

- The tkinter UI and the rest of `BaseUI`, OS and process control, threads
  and asyncio, and `Lane_Client.py`: display, system calls, concurrency
  and networking.
- Hardware setup: `_setup_hardware`, `_init_ads`, `_load_calibration` and
  `settings.json`. The constructor models a setup that succeeded, and the
  sensor names are a constructor parameter.
- The singleton `__new__`. The model uses one explicit instance.
- `pin_set`, `_start_machine_cycle_direct`, `_execute_direct_pin_setting`
  and `emergency_pin_reset` are not modelled. `pin_set` first replaces
  `control` with a copy of its data, which may hold any keys. Then
  `_start_machine_cycle_direct` reads `pin_setting_enabled`, which is never
  assigned, and raises AttributeError before any GPIO call. So that path
  ends with `control` replaced and nothing else done.
- `MachineFunctionsOld` as a class. Only its pure frame rules are
  modelled.
- Logging. The `symbol_popup_callback`, `pending_operation`, `pending_data`
  and `mp` attributes, which the core never reads.
- `GPIO.setup(gp6)` inside `reset` is treated as not raising.
- Float voltages are replaced by the `>= 4.0` outcome of each read.
- Wall-clock `time.time()` is replaced by the clock field. The time taken
  by the code between sleeps is zero.
- The outer `except` of the check_pins loop is not modelled. Nothing in
  the modelled loop body can raise outside the per-sensor `try`.
- Machine.MachineFunctions.EmergencyHigh: the all-high write in an
  `except` branch is modelled as succeeding, whatever the fault set says
  about its call number. In the source a raise there would escape the
  method.
- Machine.MachineFunctions.StartMachineCycle: the fallback chain
  wait → pin_restore → start_machine_cycle → wait has no bound in the
  source. Here it is bounded by `fuel`, and at fuel 0 a failed wait does
  not fall back. With a b21 that never triggers, the source issues
  another reset pulse on every round of the chain.
- Pins.Control: the control and change dictionaries are records with one
  field per pin. The modelled methods only ever write keys already present
  (`if key in self.control`, and `self.control[pin_name]` raising
  KeyError for unknown names), so there the key set is always the five
  names. `pin_set` and `_start_machine_cycle_direct` replace the whole
  dictionary and could install other keys; they are not modelled.
  The values are integers, because `pin_restore` can store any value.
- Machine.MachineFunctions.PinRestore: pin data is `Option<map<string,
  int>>`. `None` stands for None and for non-dict data. Values of other
  types than int are not modelled. The `for key, value in data.items()`
  loop is one `Overwrite`, because each key is written once and the
  order of keys does not matter.
- Ui.BaseUI.HandlePinSet: truthy data that is not a dictionary (which
  makes the source raise at `data.items()`) is not modelled.
- Ui.BaseUI.HandleScheduleReset and Machine.MachineFunctions.ScheduleReset:
  the event data is reduced to its 'type' entry and the truthiness of its
  'immediate' entry.
- Sensor readings at times that have no entry in `pinReadings` or `ready`
  read below the threshold.
- Game scoring, ball evaluation and turn rotation live in modules that
  are not part of this model. The game context is only the current frame's
  index and ball values.
