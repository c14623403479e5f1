/** The reset decision of process_throw (Canadian 5-pin variant). */
module ResetPolicy {
  import opened Frames

  /** What process_throw does after the pin check: a full reset
      (reset_pins), a normal machine cycle (start_machine_cycle), or
      nothing. */
  datatype Action = FullReset | MachineCycle | NoCycle

  /** force: the external force flag as it was on entry; status: what
      check_pins returned (2 all down, 1 changed, 0 no change);
      pinsChanged: the flag check_pins left behind. A full reset happens
      exactly when the force flag was set, all pins are down, or the frame
      already holds two balls; otherwise a cycle runs exactly when
      something changed. */
  function ResetDecision(force: bool, status: int, pinsChanged: bool, ctx: Context): (a: Action)
    ensures a == FullReset <==> force || status == 2 || (ctx.Some? && |ctx.value.balls| >= 2)
    ensures a == MachineCycle <==>
      !force && status != 2 && !(ctx.Some? && |ctx.value.balls| >= 2) && (pinsChanged || status > 0)
    ensures a == NoCycle <==>
      !force && status != 2 && !(ctx.Some? && |ctx.value.balls| >= 2) && !pinsChanged && status <= 0
  {
    var isStrike := status == 2;
    var isThirdBall := IsThirdBall(ctx);
    if force then FullReset
    else if isStrike then FullReset
    else if IsFrameEndingBall(ctx) then FullReset
    else if isThirdBall then FullReset
    else if pinsChanged || status > 0 then MachineCycle
    else NoCycle
  }
}
