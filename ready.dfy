/** The bounded wait for the machine's ready sensor (b21) in
    wait_for_machine_timing. */
module ReadyWait {
  import opened Wrappers

  /** Give up this long (ms) after the reset pulse. */
  const Timeout: int := 8000
  /** Give up at this many read errors (not necessarily consecutive). */
  const MaxErrors: nat := 10
  /** The sleep between two reads (ms). */
  const PollStep: int := 10

  /** A sensor's readings over time (ms): Some(true) at or above the
      threshold, Some(false) below it, None a read that raised. A time with
      no entry reads below the threshold. */
  type Trace = map<int, Option<bool>>

  function ReadAt(trace: Trace, t: int): Option<bool> {
    if t in trace then trace[t] else Some(false)
  }

  /** How the wait ended. The first two return before polling. */
  datatype WaitOutcome = NoResetTime | Suspended | Triggered | TooManyErrors | TimedOut {
    /** The outcomes after which the source falls back to pin_restore. */
    predicate FallsBack() { this == TooManyErrors || this == TimedOut }
    /** The outcomes of a wait that polled the sensor. */
    predicate Polls() { this == Triggered || FallsBack() }
  }

  /** Where a poll of the ready sensor ended and (ghost use only) what it
      read, one sample every PollStep ms from its start. */
  datatype ReadyPoll = ReadyPoll(end: int, samples: seq<Option<bool>>)

  /** The number of read errors among samples. */
  function Errors(samples: seq<Option<bool>>): nat {
    if samples == [] then 0
    else Errors(samples[..|samples| - 1]) + if samples[|samples| - 1] == None then 1 else 0
  }

  /** A prefix holds no more errors than the whole, and fewer when an
      error follows it at the end. */
  lemma {:induction false} ErrorsPrefix(samples: seq<Option<bool>>, k: nat)
    requires k <= |samples|
    ensures Errors(samples[..k]) <= Errors(samples)
    ensures k < |samples| && samples[|samples| - 1] == None ==> Errors(samples[..k]) < Errors(samples)
  {
    if k < |samples| {
      var init := samples[..|samples| - 1];
      ErrorsPrefix(init, k);
      assert init[..k] == samples[..k];
    } else {
      assert samples[..k] == samples;
    }
  }

  /** A poll of the ready sensor from time start, with the reset recorded
      at resetTime, that ended at time end with outcome after reading
      samples. Every sample is the reading at its time and no sample but
      the last read high. It triggers on a high last sample read within
      Timeout ms of the reset, with fewer than MaxErrors errors; it gives up
      on the MaxErrors-th read error, within Timeout ms; it times out, with
      no high read and fewer errors, at the first poll time at least
      Timeout ms after the reset. */
  ghost predicate ReadyPolled(ready: Trace, start: int, resetTime: int, outcome: WaitOutcome, end: int,
                              samples: seq<Option<bool>>) {
    outcome.Polls() &&
    (forall j :: 0 <= j < |samples| ==> samples[j] == ReadAt(ready, start + PollStep * j)) &&
    (forall j :: 0 <= j < |samples| - 1 ==> samples[j] != Some(true)) &&
    (outcome == Triggered ==>
      |samples| > 0 && samples[|samples| - 1] == Some(true) && Errors(samples) < MaxErrors &&
      end == start + PollStep * (|samples| - 1) && end - resetTime < Timeout) &&
    (outcome == TooManyErrors ==>
      |samples| > 0 && samples[|samples| - 1] == None && Errors(samples) == MaxErrors &&
      end == start + PollStep * (|samples| - 1) && end - resetTime < Timeout) &&
    (outcome == TimedOut ==>
      Some(true) !in samples && Errors(samples) < MaxErrors &&
      end == start + PollStep * |samples| && end - resetTime >= Timeout &&
      (end == start || end - PollStep - resetTime < Timeout))
  }

  /** The readings decide the poll: two polls over the same sensor trace,
      start and reset time end alike, with the same outcome and samples. */
  lemma {:induction false} ReadyPolledUnique(ready: Trace, start: int, resetTime: int,
                                             o1: WaitOutcome, e1: int, s1: seq<Option<bool>>,
                                             o2: WaitOutcome, e2: int, s2: seq<Option<bool>>)
    requires ReadyPolled(ready, start, resetTime, o1, e1, s1)
    requires ReadyPolled(ready, start, resetTime, o2, e2, s2)
    ensures o1 == o2 && e1 == e2 && s1 == s2
  {
    PollNotShorter(ready, start, resetTime, o1, e1, s1, o2, e2, s2);
    PollNotShorter(ready, start, resetTime, o2, e2, s2, o1, e1, s1);
    assert s1 == s2;
  }

  /** No poll ends while another poll of the same readings goes on. */
  lemma PollNotShorter(ready: Trace, start: int, resetTime: int,
                       o1: WaitOutcome, e1: int, s1: seq<Option<bool>>,
                       o2: WaitOutcome, e2: int, s2: seq<Option<bool>>)
    requires ReadyPolled(ready, start, resetTime, o1, e1, s1)
    requires ReadyPolled(ready, start, resetTime, o2, e2, s2)
    ensures |s2| <= |s1|
  {
    var k := if |s1| < |s2| then |s1| else |s2|;
    if o1 == Triggered {
      assert k > 0 ==> s2[k - 1] == s1[k - 1];
    } else if o1 == TooManyErrors {
      // s1 would be a prefix of s2 before its last sample.
      assert s1[..k] == s2[..k];
      assert s1[..|s1|] == s1;
      ErrorsPrefix(s2, k);
    }
  }

  /** Poll the ready sensor from time start until it reads high, until
      the tenth read error, or until Timeout ms after the reset at
      resetTime. Returns how it ended, the clock at the end, and (ghost) the
      samples read, one every PollStep ms from start. */
  method PollReady(ready: Trace, start: int, resetTime: int)
    returns (outcome: WaitOutcome, end: int, ghost samples: seq<Option<bool>>)
    ensures ReadyPolled(ready, start, resetTime, outcome, end, samples)
    ensures start <= end
  {
    var t := start;
    var errorCount := 0;
    samples := [];
    while t - resetTime < Timeout
      invariant t == start + PollStep * |samples|
      invariant forall j :: 0 <= j < |samples| ==> samples[j] == ReadAt(ready, start + PollStep * j)
      invariant Some(true) !in samples
      invariant errorCount == Errors(samples) < MaxErrors
      invariant t == start || t - PollStep - resetTime < Timeout
      decreases Timeout - (t - resetTime)
    {
      var reading := ReadAt(ready, t);
      ghost var before := samples;
      samples := samples + [reading];
      assert samples[..|samples| - 1] == before;
      if reading == Some(true) {
        return Triggered, t, samples;
      }
      if reading == None {
        errorCount := errorCount + 1;
        if errorCount >= MaxErrors {
          return TooManyErrors, t, samples;
        }
      }
      t := t + PollStep;
    }
    return TimedOut, t, samples;
  }
}
