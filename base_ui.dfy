/** The two event handlers of BaseUI that drive the machine controller:
    pin_set and schedule_reset events. */
module Ui {
  import opened Wrappers
  import opened Pins
  import opened Outputs
  import opened Frames
  import opened Machine

  /** The reset type a schedule_reset event asks for: its 'type' entry,
      FULL_RESET when the event carries no data or no such entry. */
  function RequestedType(data: Option<ResetRequest>): (t: string)
    ensures data.Some? && data.value.kind.Some? ==> t == data.value.kind.value
    ensures !(data.Some? && data.value.kind.Some?) ==> t == FullResetType
  {
    if data.Some? && data.value.kind.Some? then data.value.kind.value else FullResetType
  }

  class BaseUI {
    /** The lane's machine controller; null when it was never created. */
    var machine: MachineFunctions?

    constructor (machine: MachineFunctions?)
      ensures this.machine == machine
    {
      this.machine := machine;
    }

    /** handle_pin_set: without data (None or empty) nothing happens;
        otherwise the pins the data names are written into the machine's
        control dictionary and pin_restore is called with the same data,
        which writes them again and starts a machine cycle (restart). */
    method HandlePinSet(hw: Hardware, data: Option<map<string, int>>, fuel: nat) returns (ghost restart: Restart)
      requires machine != null && machine.Valid()
      modifies machine
      ensures machine.Valid()
      ensures restart.Restarted? <==> data.Some? && |data.value| > 0
      ensures restart == NoRestart ==> unchanged(machine)
      ensures restart.Restarted? ==>
        restart.at == old(machine.now) &&
        CycleLogged(hw, old(machine.log), machine.log, restart.cycle, KnockDownLines(machine.control)) &&
        machine.resetCalledTime == Some(LastReset(restart.cycle, old(machine.now))) &&
        CycleWaits(hw, old(machine.now), restart.cycle)
      ensures machine.gameContext == old(machine.gameContext)
      ensures !IsThirdBall(machine.gameContext) ==>
        machine.pinSetEnabled == old(machine.pinSetEnabled) && machine.pinSetRestoreTime == old(machine.pinSetRestoreTime)
      ensures restart.Restarted? && IsThirdBall(machine.gameContext) ==>
        !machine.pinSetEnabled && machine.pinSetRestoreTime == Some(old(machine.now) + SuspendTime)
      ensures restart.Restarted? && !old(machine.forceFullReset) && !old(machine.needsFullReset) ==>
        machine.control == Overwrite(old(machine.control), data.value) &&
        machine.controlChange == old(machine.controlChange) &&
        !machine.forceFullReset && !machine.needsFullReset
      ensures restart.Restarted? && (old(machine.forceFullReset) || old(machine.needsFullReset)) ==>
        restart.cycle == FullResetCycle && machine.control == AllUp && machine.controlChange == AllZero &&
        !machine.forceFullReset && !machine.needsFullReset
    {
      restart := NoRestart;
      if !(data.Some? && |data.value| > 0) {
        return;
      }
      machine.control := Overwrite(machine.control, data.value);
      OverwriteTwice(old(machine.control), data.value);
      restart := machine.PinRestore(hw, data, fuel);
    }

    /** handle_schedule_reset: an immediate FULL_RESET sets the force flag
        and resets the pins at once; anything else goes through
        schedule_reset. Without a machine nothing happens. */
    method HandleScheduleReset(hw: Hardware, data: Option<ResetRequest>)
      requires machine != null ==> machine.Valid()
      modifies machine
      ensures machine != null ==> machine.Valid() && machine.gameContext == old(machine.gameContext)
      ensures machine != null && RequestedType(data) == FullResetType && !(data.Some? && data.value.immediate) ==>
        machine.forceFullReset &&
        unchanged(machine`control, machine`controlChange, machine`needsFullReset, machine`resetCalledTime) &&
        unchanged(machine`machineCycleStartTime, machine`pinSetEnabled, machine`pinSetRestoreTime) &&
        unchanged(machine`log, machine`levels, machine`now, machine`pinCheck, machine`pinsChanged)
      ensures machine != null && !(RequestedType(data) == FullResetType && !(data.Some? && data.value.immediate)) ==>
        machine.control == AllUp && machine.controlChange == AllZero && !machine.pinCheck && !machine.pinsChanged &&
        !machine.needsFullReset && !machine.forceFullReset && machine.resetCalledTime == Some(old(machine.now)) &&
        machine.log == old(machine.log) + ResetLog(hw, |old(machine.log)|)
    {
      var resetType := RequestedType(data);
      var immediate := data.Some? && data.value.immediate;
      if machine == null {
        return;
      }
      if immediate && resetType == FullResetType {
        machine.forceFullReset := true;
        machine.ResetPins(hw);
      } else {
        machine.ScheduleReset(hw, resetType, data);
      }
    }
  }
}
