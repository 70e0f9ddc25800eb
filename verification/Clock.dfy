/** What makes a session move in real time (`api/app/match/clock.py`): ticks paced against a
    deadline, with bounded catch-up. Clock readings and sleeps are inputs. */
module Clock {
  import opened Common
  import opened Geometry

  const MAX_CATCH_UP_TICKS: real := 10.0

  /** One turn of the loop: the reading the delay is taken from, the reading a reset would
      take, and the moment the tick then runs. */
  datatype Beat = Beat(check: real, again: real, ran: real)

  /** The deadline the loop leaves standing after `k` turns, from its first reading. */
  function DeadlineAfter(start: real, interval: real, beats: seq<Beat>, k: nat): real
    requires k <= |beats|
  {
    if k == 0 then start
    else
      var due := DeadlineAfter(start, interval, beats, k - 1) + interval;
      var delay := due - beats[k - 1].check;
      if delay <= 0.0 && delay < -interval * MAX_CATCH_UP_TICKS then beats[k - 1].again else due
  }

  /** The clock never runs backwards, and a sleep never returns before its time. */
  ghost predicate Honest(start: real, interval: real, beats: seq<Beat>) {
    && interval > 0.0
    && (forall k :: 0 <= k < |beats| ==> beats[k].check <= beats[k].again <= beats[k].ran)
    && (forall k :: 0 <= k < |beats| && DeadlineAfter(start, interval, beats, k) + interval > beats[k].check ==>
          beats[k].ran >= DeadlineAfter(start, interval, beats, k) + interval)
  }

  /** The loop as it runs, one tick a turn, until the session is over. */
  method Run(start: real, interval: real, beats: seq<Beat>) returns (deadlines: seq<real>, ticks: nat)
    ensures ticks == |beats| && |deadlines| == |beats|
    ensures forall k :: 0 <= k < |beats| ==> deadlines[k] == DeadlineAfter(start, interval, beats, k + 1)
  {
    var deadline := start;
    deadlines, ticks := [], 0;
    while ticks < |beats|
      invariant ticks <= |beats| && |deadlines| == ticks
      invariant deadline == DeadlineAfter(start, interval, beats, ticks)
      invariant forall k :: 0 <= k < ticks ==> deadlines[k] == DeadlineAfter(start, interval, beats, k + 1)
    {
      deadline := deadline + interval;
      var delay := deadline - beats[ticks].check;
      if delay > 0.0 {
        // sleeps until the beat's tick runs
      } else if delay < -interval * MAX_CATCH_UP_TICKS {
        deadline := beats[ticks].again;
      }
      deadlines := deadlines + [deadline];
      ticks := ticks + 1;
    }
  }

  /** A turn moves the deadline on by an interval at least, and never past the tick it is for. */
  lemma TurnFacts(start: real, interval: real, beats: seq<Beat>, k: nat)
    requires Honest(start, interval, beats) && k < |beats|
    ensures DeadlineAfter(start, interval, beats, k + 1) >= DeadlineAfter(start, interval, beats, k) + interval
    ensures beats[k].ran >= DeadlineAfter(start, interval, beats, k + 1)
    ensures beats[k].check - DeadlineAfter(start, interval, beats, k + 1) <= interval * MAX_CATCH_UP_TICKS
  {
  }

  lemma OneMoreInterval(interval: real, n: nat)
    ensures Times(interval, (n + 1) as real) == Times(interval, n as real) + interval
    ensures Times(interval, 0 as real) == 0.0
  {
    assert (n + 1) as real == n as real + 1.0;
  }

  lemma {:induction false} DeadlinesSpread(start: real, interval: real, beats: seq<Beat>, i: nat, j: nat)
    requires Honest(start, interval, beats) && i <= j <= |beats|
    ensures DeadlineAfter(start, interval, beats, j) >= DeadlineAfter(start, interval, beats, i) + Times(interval, (j - i) as real)
    decreases j - i
  {
    hide Honest, DeadlineAfter, Times;
    if i == j {
      OneMoreInterval(interval, 0);
    } else {
      DeadlinesSpread(start, interval, beats, i, j - 1);
      TurnFacts(start, interval, beats, j - 1);
      OneMoreInterval(interval, j - 1 - i);
    }
  }

  /** A match never runs fast: its n-th tick comes no sooner than n intervals after it began. */
  lemma NoTickIsEarly(start: real, interval: real, beats: seq<Beat>, n: nat)
    requires Honest(start, interval, beats) && 0 < n <= |beats|
    ensures beats[n - 1].ran >= start + Times(interval, n as real)
  {
    hide Honest, Times;
    DeadlinesSpread(start, interval, beats, 0, n);
    TurnFacts(start, interval, beats, n - 1);
  }

  /** Nor does it ever sprint: between any two ticks the clock moves by an interval for each,
      short of ten at most, however long the host stalled. */
  lemma CatchUpIsBounded(start: real, interval: real, beats: seq<Beat>, i: nat, j: nat)
    requires Honest(start, interval, beats) && i < j < |beats|
    ensures beats[j].ran >= beats[i].check + Times(interval, (j - i) as real) - interval * MAX_CATCH_UP_TICKS
  {
    hide Honest, Times, DeadlineAfter;
    DeadlinesSpread(start, interval, beats, i + 1, j + 1);
    TurnFacts(start, interval, beats, i);
    TurnFacts(start, interval, beats, j);
    assert (j + 1 - (i + 1)) == j - i;
  }
}
