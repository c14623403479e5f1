/** The pin-state tracker of check_pins as functions over values: how one
    polling round of the five pin sensors moves the control dictionary, and
    what a sequence of rounds leaves behind. */
module PinTracker {
  import opened Wrappers
  import opened Pins

  /** One polling round: the readings of the five pin sensors in the order
      they are read (b20, b13, b12, b11, b10). Some(true) is a voltage at or
      above 4.0, Some(false) one below, None a read that raised. */
  type Round = seq<Option<bool>>

  /** One sensor read for the pin it is mapped to: a down reading takes a
      standing pin down. A reading below the threshold, a read error and a
      name that is not a key of the dictionary change nothing. */
  function Sense(c: Control, name: string, reading: Option<bool>): Control {
    match PinNamed(name)
    case Some(p) => if reading == Some(true) && c.Get(p) != 0 then c.Set(p, 0) else c
    case None => c
  }

  /** The first n reads of a round, in order. */
  function ScanPrefix(c: Control, names: seq<string>, r: Round, n: nat): Control
    requires n <= |names| && n <= |r|
  {
    if n == 0 then c else Sense(ScanPrefix(c, names, r, n - 1), names[n - 1], r[n - 1])
  }

  /** A whole round: as many reads as there are both sensors and names. */
  function ScanRound(c: Control, names: seq<string>, r: Round): Control {
    ScanPrefix(c, names, r, if |r| <= |names| then |r| else |names|)
  }

  predicate WellFormed(names: seq<string>, rounds: seq<Round>) {
    forall j :: 0 <= j < |rounds| ==> |rounds[j]| == |names|
  }

  /** The control dictionary after a sequence of rounds, in order. */
  function Track(c: Control, names: seq<string>, rounds: seq<Round>): Control {
    if rounds == [] then c
    else ScanRound(Track(c, names, rounds[..|rounds| - 1]), names, rounds[|rounds| - 1])
  }

  /** One more round extends the track by one scan. */
  lemma TrackAppend(c: Control, names: seq<string>, rounds: seq<Round>, r: Round)
    ensures Track(c, names, rounds + [r]) == ScanRound(Track(c, names, rounds), names, r)
  {
    assert (rounds + [r])[..|rounds|] == rounds;
  }

  /** Some sensor mapped to pin k read down among the first n reads of r. */
  ghost predicate SensedInPrefix(names: seq<string>, r: Round, n: nat, k: Pin)
    requires n <= |names| && n <= |r|
  {
    exists i :: 0 <= i < n && PinNamed(names[i]) == Some(k) && r[i] == Some(true)
  }

  /** Some sensor mapped to pin k read down in some round. */
  ghost predicate SensedIn(names: seq<string>, rounds: seq<Round>, k: Pin)
    requires WellFormed(names, rounds)
  {
    exists j, i :: 0 <= j < |rounds| && 0 <= i < |names| && PinNamed(names[i]) == Some(k) && rounds[j][i] == Some(true)
  }

  /** control_change as check_pins leaves it: 1 exactly for the pins that
      went from standing to down. */
  function Changes(before: Control, after: Control): (ch: Control)
    ensures forall p :: ch.Get(p) == if before.Get(p) != 0 && after.Get(p) == 0 then 1 else 0
  {
    Control(Change(before.lTwo, after.lTwo), Change(before.lThree, after.lThree), Change(before.cFive, after.cFive),
            Change(before.rThree, after.rThree), Change(before.rTwo, after.rTwo))
  }

  function Change(before: int, after: int): int {
    if before != 0 && after == 0 then 1 else 0
  }

  /** Within a round: a pin ends down iff it was down or a sensor mapped to
      it read down; nothing else moves, and no key is added. */
  lemma {:induction false} ScanPrefixDown(c: Control, names: seq<string>, r: Round, n: nat)
    requires n <= |names| && n <= |r|
    ensures forall k ::
      ScanPrefix(c, names, r, n).Get(k) == if SensedInPrefix(names, r, n, k) then 0 else c.Get(k)
  {
    if n > 0 {
      ScanPrefixDown(c, names, r, n - 1);
      var p := ScanPrefix(c, names, r, n - 1);
      forall k
        ensures ScanPrefix(c, names, r, n).Get(k) == if SensedInPrefix(names, r, n, k) then 0 else c.Get(k)
      {
        if PinNamed(names[n - 1]) == Some(k) && r[n - 1] == Some(true) {
          assert SensedInPrefix(names, r, n, k);
        } else if SensedInPrefix(names, r, n, k) {
          var i :| 0 <= i < n && PinNamed(names[i]) == Some(k) && r[i] == Some(true);
          assert i < n - 1;
          assert SensedInPrefix(names, r, n - 1, k);
        } else {
          assert !SensedInPrefix(names, r, n - 1, k);
        }
      }
    }
  }

  /** Over a sequence of rounds: a pin ends down iff it was down or some
      sensor mapped to it read down in some round; every other pin keeps its
      value, and the key set never changes. */
  lemma {:induction false} TrackDown(c: Control, names: seq<string>, rounds: seq<Round>)
    requires WellFormed(names, rounds)
    ensures forall k ::
      Track(c, names, rounds).Get(k) == if SensedIn(names, rounds, k) then 0 else c.Get(k)
  {
    if rounds != [] {
      var front := rounds[..|rounds| - 1];
      var last := rounds[|rounds| - 1];
      TrackDown(c, names, front);
      var t := Track(c, names, front);
      ScanPrefixDown(t, names, last, |last|);
      forall k
        ensures Track(c, names, rounds).Get(k) == if SensedIn(names, rounds, k) then 0 else c.Get(k)
      {
        if SensedInPrefix(names, last, |last|, k) {
          var i :| 0 <= i < |last| && PinNamed(names[i]) == Some(k) && last[i] == Some(true);
          assert rounds[|rounds| - 1][i] == Some(true);
          assert SensedIn(names, rounds, k);
        } else if SensedIn(names, front, k) {
          var j, i :| 0 <= j < |front| && 0 <= i < |names| && PinNamed(names[i]) == Some(k) && front[j][i] == Some(true);
          assert rounds[j][i] == Some(true);
          assert SensedIn(names, rounds, k);
        } else {
          forall j, i | 0 <= j < |rounds| && 0 <= i < |names| && PinNamed(names[i]) == Some(k)
            ensures rounds[j][i] != Some(true)
          {
            if j < |front| {
              assert front[j] == rounds[j];
            } else {
              assert rounds[j] == last;
            }
          }
        }
      }
    }
  }

  /** Down transitions are sticky: tracking never raises a pin that is down
      and only ever lowers a pin to 0. */
  lemma {:induction false} TrackSticky(c: Control, names: seq<string>, rounds: seq<Round>, k: Pin)
    requires WellFormed(names, rounds)
    ensures Track(c, names, rounds).Get(k) == c.Get(k) || Track(c, names, rounds).Get(k) == 0
    ensures c.Get(k) == 0 ==> Track(c, names, rounds).Get(k) == 0
  {
    TrackDown(c, names, rounds);
  }

  /** A pin none of whose sensors ever read down (only below-threshold
      readings or read errors) is left untouched. */
  lemma {:induction false} TrackIgnoresErrors(c: Control, names: seq<string>, rounds: seq<Round>, k: Pin)
    requires WellFormed(names, rounds)
    requires forall j, i :: 0 <= j < |rounds| && 0 <= i < |names| && PinNamed(names[i]) == Some(k) ==>
      rounds[j][i] == None || rounds[j][i] == Some(false)
    ensures Track(c, names, rounds).Get(k) == c.Get(k)
  {
    TrackDown(c, names, rounds);
  }

  /** control_change after tracking is 1 exactly for the pins that were
      standing and that some sensor saw go down. */
  lemma {:induction false} ChangesExact(c: Control, names: seq<string>, rounds: seq<Round>, k: Pin)
    requires WellFormed(names, rounds)
    ensures Changes(c, Track(c, names, rounds)).Get(k) == 1 <==> c.Get(k) != 0 && SensedIn(names, rounds, k)
    ensures Changes(c, Track(c, names, rounds)).Get(k) == 0 <==> !(c.Get(k) != 0 && SensedIn(names, rounds, k))
  {
    TrackDown(c, names, rounds);
  }
}
