/** Frame-completion rules of MachineFunctions. They see the game through
    one frame: the index of the current bowler's current frame (9 is the
    tenth) and the values of the balls already recorded in it. */
module Frames {
  import opened Wrappers
  import opened Pins

  /** The current frame as the rules read it from the game context. */
  datatype FrameView = FrameView(index: nat, balls: seq<int>)

  /** The game context seen by the rules: None when there is no game context
      or when looking up the current frame raised (both make every rule
      answer false). */
  type Context = Option<FrameView>

  /** _is_third_ball: the frame already holds two or more balls. */
  predicate IsThirdBall(ctx: Context) {
    ctx.Some? && |ctx.value.balls| >= 2
  }

  /** _is_frame_ending_ball (Canadian variant). Its cascade distinguishes
      regular frames from the tenth, but both end only on the third ball. */
  function IsFrameEndingBall(ctx: Context): (r: bool)
    ensures r <==> ctx.Some? && |ctx.value.balls| == 2
    ensures r ==> IsThirdBall(ctx)
  {
    match ctx
    case None => false
    case Some(f) =>
      var count := |f.balls|;
      if f.index != 9 then
        if count == 0 then false
        else if count == 1 then false  // first-ball strike or not, the frame continues
        else count == 2
      else
        count == 2
  }

  /** _is_tenth_frame_complete (identical in both classes). */
  function IsTenthFrameComplete(f: FrameView, result: seq<int>, status: int): (r: bool)
    ensures |f.balls| >= 2 ==> r
    ensures |f.balls| == 0 ==> !r
    ensures |f.balls| == 1 && f.balls[0] == 15 ==> !r
    ensures |f.balls| == 1 && f.balls[0] + BallValue(result) >= 15 ==> !r
    ensures |f.balls| == 1 && f.balls[0] < 15 && f.balls[0] + BallValue(result) < 15 ==> r
  {
    var count := |f.balls|;
    if count >= 2 then true
    else if count == 1 then
      var first := f.balls[0];
      first < 15 && first + BallValue(result) < 15
    else false
  }

  /** _will_be_last_ball of the Canadian class. A strike ends a regular
      frame and never the tenth; any second or third ball ends a regular
      frame, spare or not; the tenth ends on its third ball or on an open
      second ball. */
  function WillBeLastBall(ctx: Context, result: seq<int>, status: int): (r: bool)
    ensures ctx.None? ==> !r
    ensures ctx.Some? && ctx.value.index != 9 ==>
      (r <==> status == 2 || BallValue(result) == 15 || |ctx.value.balls| == 1 || |ctx.value.balls| == 2)
    ensures ctx.Some? && ctx.value.index == 9 ==>
      (r <==> status != 2 && BallValue(result) != 15 &&
              (|ctx.value.balls| == 2 || (|ctx.value.balls| == 1 && IsTenthFrameComplete(ctx.value, result, status))))
    ensures r && ctx.Some? && ctx.value.index == 9 ==> IsTenthFrameComplete(ctx.value, result, status)
  {
    match ctx
    case None => false
    case Some(f) =>
      var count := |f.balls|;
      var value := BallValue(result);
      var tenth := f.index == 9;
      if status == 2 || value == 15 then !tenth
      else if !tenth then
        if count == 1 then
          if f.balls[0] + value == 15 then true  // spare
          else true                              // open frame
        else count == 2
      else if count == 2 then true
      else if count == 1 then
        var first := f.balls[0];
        first < 15 && first + value < 15
      else false
  }

  /** _will_be_last_ball of the older class. In a regular frame: a first-ball
      status 2, a second ball completing 15, or any third ball; in the tenth
      frame exactly _is_tenth_frame_complete; past the tenth, never. */
  function OldWillBeLastBall(ctx: Context, result: seq<int>, status: int): (r: bool)
    ensures ctx.None? ==> !r
    ensures ctx.Some? && ctx.value.index < 9 ==>
      (r <==> (|ctx.value.balls| == 0 && status == 2) ||
              (|ctx.value.balls| == 1 && ctx.value.balls[0] + BallValue(result) == 15) ||
              |ctx.value.balls| == 2)
    ensures ctx.Some? && ctx.value.index == 9 ==> (r <==> IsTenthFrameComplete(ctx.value, result, status))
    ensures ctx.Some? && ctx.value.index > 9 ==> !r
  {
    match ctx
    case None => false
    case Some(f) =>
      var count := |f.balls|;
      if count == 0 && status == 2 then f.index < 9
      else if count == 1 && f.balls[0] + BallValue(result) == 15 then f.index < 9
      else if count == 2 && f.index < 9 then true
      else if f.index == 9 then IsTenthFrameComplete(f, result, status)
      else false
  }

  /** The two versions disagree: on every second ball of a regular frame
      that is not a spare, and on every third ball of the tenth frame that
      is a strike. */
  lemma LastBallRulesDiverge(f: FrameView, result: seq<int>, status: int)
    ensures f.index < 9 && |f.balls| == 1 && f.balls[0] + BallValue(result) != 15 ==>
      WillBeLastBall(Some(f), result, status) && !OldWillBeLastBall(Some(f), result, status)
    ensures f.index == 9 && |f.balls| == 2 && (status == 2 || BallValue(result) == 15) ==>
      !WillBeLastBall(Some(f), result, status) && OldWillBeLastBall(Some(f), result, status)
  {
  }

  /** In a regular frame the newer rule ends the frame whenever the older
      one does (the newer one also ends it on an open second ball). */
  lemma LastBallRulesAgreeOnSpareAndThirdBall(f: FrameView, result: seq<int>, status: int)
    requires f.index < 9
    requires OldWillBeLastBall(Some(f), result, status)
    ensures WillBeLastBall(Some(f), result, status)
  {
  }
}
