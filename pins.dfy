/** The five pins of a Canadian 5-pin rack, the control dictionaries that
    MachineFunctions keeps about them, and the output lines that drive them. */
module Pins {
  import opened Wrappers

  /** The five pins, in the order of the keys of the control dictionaries
      and of pin_mapping. */
  datatype Pin = LTwo | LThree | CFive | RThree | RTwo

  const PinOrder: seq<Pin> := [LTwo, LThree, CFive, RThree, RTwo]

  const AllPins: set<Pin> := {LTwo, LThree, CFive, RThree, RTwo}

  /** The key under which the source stores each pin. */
  function PinName(p: Pin): string {
    match p
    case LTwo => "lTwo"
    case LThree => "lThree"
    case CFive => "cFive"
    case RThree => "rThree"
    case RTwo => "rTwo"
  }

  /** The pin a name (from the lane settings or from pin data) is the key
      of, if any. */
  function PinNamed(s: string): (r: Option<Pin>)
    ensures r.Some? ==> PinName(r.value) == s
    ensures r.None? ==> forall p :: PinName(p) != s
  {
    if s == "lTwo" then Some(LTwo)
    else if s == "lThree" then Some(LThree)
    else if s == "cFive" then Some(CFive)
    else if s == "rThree" then Some(RThree)
    else if s == "rTwo" then Some(RTwo)
    else None
  }

  /** Point value of each pin, in the order of PinOrder. */
  const PinValues: seq<int> := [2, 3, 5, 3, 2]

  /** A control dictionary: for each pin 1 (up) or 0 (down); a change
      dictionary: for each pin 1 (went down during this check) or 0. The
      modelled methods only ever write keys already present, so there the
      dictionaries always hold exactly these five keys and a record with
      one field per key models them. */
  datatype Control = Control(lTwo: int, lThree: int, cFive: int, rThree: int, rTwo: int) {
    function Get(p: Pin): int {
      match p
      case LTwo => lTwo
      case LThree => lThree
      case CFive => cFive
      case RThree => rThree
      case RTwo => rTwo
    }

    /** control[p] = v */
    function Set(p: Pin, v: int): (r: Control)
      ensures r.Get(p) == v
      ensures forall q :: q != p ==> r.Get(q) == Get(q)
    {
      match p
      case LTwo => this.(lTwo := v)
      case LThree => this.(lThree := v)
      case CFive => this.(cFive := v)
      case RThree => this.(rThree := v)
      case RTwo => this.(rTwo := v)
    }
  }

  /** Two dictionaries that agree on every pin are equal. */
  lemma ControlsEqual(a: Control, b: Control)
    requires forall p :: a.Get(p) == b.Get(p)
    ensures a == b
  {
    assert a.Get(LTwo) == b.Get(LTwo) && a.Get(LThree) == b.Get(LThree) && a.Get(CFive) == b.Get(CFive);
    assert a.Get(RThree) == b.Get(RThree) && a.Get(RTwo) == b.Get(RTwo);
  }

  const AllUp: Control := Control(1, 1, 1, 1, 1)

  const AllZero: Control := Control(0, 0, 0, 0, 0)

  /** all(v == 0 for v in control.values()) */
  predicate AllDown(c: Control) {
    c.lTwo == 0 && c.lThree == 0 && c.cFive == 0 && c.rThree == 0 && c.rTwo == 0
  }

  /** The change dictionary's values in insertion order, lTwo to rTwo. */
  function ChangeVector(change: Control): (r: seq<int>)
    ensures |r| == 5
    ensures forall i :: 0 <= i < 5 ==> r[i] == change.Get(PinOrder[i])
  {
    [change.lTwo, change.lThree, change.cFive, change.rThree, change.rTwo]
  }

  /** One key of pin data written into control if the key names a pin. */
  function Pick(data: map<string, int>, p: Pin, current: int): int {
    if PinName(p) in data then data[PinName(p)] else current
  }

  /** The control dictionary after pin data is written into it, as
      `for key, value in data.items(): if key in control: control[key] =
      value` does: keys of data that name a pin set it, other keys are
      ignored. */
  function Overwrite(c: Control, data: map<string, int>): (r: Control)
    ensures forall p :: PinName(p) in data ==> r.Get(p) == data[PinName(p)]
    ensures forall p :: PinName(p) !in data ==> r.Get(p) == c.Get(p)
  {
    Control(Pick(data, LTwo, c.lTwo), Pick(data, LThree, c.lThree), Pick(data, CFive, c.cFive),
            Pick(data, RThree, c.rThree), Pick(data, RTwo, c.rTwo))
  }

  /** The control dictionary as pin data keyed by the source's names. */
  function AsData(c: Control): (d: map<string, int>)
    ensures forall p :: PinName(p) in d && d[PinName(p)] == c.Get(p)
    ensures |d| > 0
  {
    var d := map["lTwo" := c.lTwo, "lThree" := c.lThree, "cFive" := c.cFive, "rThree" := c.rThree, "rTwo" := c.rTwo];
    assert "lTwo" in d;
    d
  }

  /** Writing a copy of the dictionary back into it changes nothing. */
  lemma OverwriteWithCopy(c: Control)
    ensures Overwrite(c, AsData(c)) == c
  {
  }

  /** Writing the same pin data twice is writing it once. */
  lemma OverwriteTwice(c: Control, data: map<string, int>)
    ensures Overwrite(Overwrite(c, data), data) == Overwrite(c, data)
  {
  }

  /** Output lines: GP1..GP5 drive the five pin solenoids (in the order of
      PinOrder), GP6 is the machine's reset line. */
  datatype Line = GP1 | GP2 | GP3 | GP4 | GP5 | GP6

  const PinLines: seq<Line> := [GP1, GP2, GP3, GP4, GP5]

  /** sum(a * b for a, b in zip(xs, ws)); zip stops at the shorter list. */
  function Dot(xs: seq<int>, ws: seq<int>): int
    decreases |xs|
  {
    if xs == [] || ws == [] then 0 else xs[0] * ws[0] + Dot(xs[1..], ws[1..])
  }

  /** The value of a ball from its five-entry pin vector. */
  function BallValue(result: seq<int>): int {
    Dot(result, PinValues)
  }

  lemma {:induction false} BallValueFive(v: seq<int>)
    requires |v| == 5
    ensures BallValue(v) == 2 * v[0] + 3 * v[1] + 5 * v[2] + 3 * v[3] + 2 * v[4]
  {
    var w := PinValues;
    assert Dot(v[4..], w[4..]) == v[4] * 2 + Dot(v[4..][1..], w[4..][1..]);
    assert Dot(v[3..], w[3..]) == v[3] * 3 + Dot(v[3..][1..], w[3..][1..]);
    assert v[3..][1..] == v[4..] && w[3..][1..] == w[4..];
    assert Dot(v[2..], w[2..]) == v[2] * 5 + Dot(v[2..][1..], w[2..][1..]);
    assert v[2..][1..] == v[3..] && w[2..][1..] == w[3..];
    assert Dot(v[1..], w[1..]) == v[1] * 3 + Dot(v[1..][1..], w[1..][1..]);
    assert v[1..][1..] == v[2..] && w[1..][1..] == w[2..];
  }

  /** A down/up pin vector is worth between 0 and 15, and 15 exactly when
      all five pins are down. */
  lemma {:induction false} BallValueOfPinVector(v: seq<int>)
    requires |v| == 5 && forall i :: 0 <= i < 5 ==> v[i] == 0 || v[i] == 1
    ensures 0 <= BallValue(v) <= 15
    ensures BallValue(v) == 15 <==> forall i :: 0 <= i < 5 ==> v[i] == 1
  {
    BallValueFive(v);
    if BallValue(v) == 15 {
      assert v[0] == 1 && v[1] == 1 && v[2] == 1 && v[3] == 1 && v[4] == 1;
    }
  }
}
