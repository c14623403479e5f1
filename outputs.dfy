/** The GPIO output side: every GPIO.output call as an entry of an
    append-only log, and the level each line is left at. */
module Outputs {
  import opened Pins

  /** One GPIO.output(lines, level) call; ok is false when the call raised,
      in which case it drove nothing. */
  datatype Write = Write(lines: seq<Line>, level: int, ok: bool)

  /** The level each output line was last driven to. */
  datatype Levels = Levels(gp1: int, gp2: int, gp3: int, gp4: int, gp5: int, gp6: int) {
    function Get(l: Line): int {
      match l
      case GP1 => gp1
      case GP2 => gp2
      case GP3 => gp3
      case GP4 => gp4
      case GP5 => gp5
      case GP6 => gp6
    }
  }

  /** The levels after a GPIO.output(lines, level) call that did not raise:
      the lines it names take the level, the others keep theirs. */
  function Drive(v: Levels, lines: seq<Line>, level: int): (r: Levels)
    ensures forall l :: r.Get(l) == if l in lines then level else v.Get(l)
  {
    Levels(if GP1 in lines then level else v.gp1, if GP2 in lines then level else v.gp2,
           if GP3 in lines then level else v.gp3, if GP4 in lines then level else v.gp4,
           if GP5 in lines then level else v.gp5, if GP6 in lines then level else v.gp6)
  }

  /** The safe resting state: all five pin solenoid lines high. */
  predicate PinsHigh(v: Levels) {
    v.gp1 == 1 && v.gp2 == 1 && v.gp3 == 1 && v.gp4 == 1 && v.gp5 == 1
  }

  /** An all-high write over the five pin lines reaches the safe state from
      any state; a write that drives only the reset line keeps it. */
  lemma DriveSafety(v: Levels, level: int)
    ensures PinsHigh(Drive(v, PinLines, 1))
    ensures PinsHigh(v) ==> PinsHigh(Drive(v, [GP6], level))
  {
  }

  /** The writes of a fault-free apply_pin_configuration that pulses the
      given lines: all five high, then (if there are any) those lines low
      and high again. */
  function ConfigWrites(knock: seq<Line>): seq<Write> {
    [Write(PinLines, 1, true)] + (if knock == [] then [] else [Write(knock, 0, true), Write(knock, 1, true)])
  }

  /** The solenoid lines of the first n pins (in pin_mapping order) whose
      control value is 0. */
  function KnockDownPrefix(c: Control, n: nat): seq<Line>
    requires n <= 5
  {
    if n == 0 then []
    else KnockDownPrefix(c, n - 1) + (if c.Get(PinOrder[n - 1]) == 0 then [PinLines[n - 1]] else [])
  }

  /** The lines apply_pin_configuration pulses: exactly the solenoids of the
      pins whose control value is 0, each once, in pin order. */
  function KnockDownLines(c: Control): (r: seq<Line>)
    ensures forall i :: 0 <= i < 5 ==> (PinLines[i] in r <==> c.Get(PinOrder[i]) == 0)
    ensures GP6 !in r
    ensures |r| <= 5
  {
    KnockDownLinesSpec(c, 5);
    KnockDownPrefix(c, 5)
  }

  lemma {:induction false} KnockDownLinesSpec(c: Control, n: nat)
    requires n <= 5
    ensures forall i :: 0 <= i < 5 ==> (PinLines[i] in KnockDownPrefix(c, n) <==> i < n && c.Get(PinOrder[i]) == 0)
    ensures GP6 !in KnockDownPrefix(c, n)
    ensures |KnockDownPrefix(c, n)| <= n
  {
    if n > 0 {
      KnockDownLinesSpec(c, n - 1);
    }
  }
}
