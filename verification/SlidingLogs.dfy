/** Lists of times kept only as far back as a window reaches, against the full history they stand for. */
module SlidingLogs {

  /** Times never go back. */
  predicate Ordered(times: seq<int>) { forall i, j :: 0 <= i <= j < |times| ==> times[i] <= times[j] }

  predicate NotAfter(times: seq<int>, now: int) { forall i :: 0 <= i < |times| ==> times[i] <= now }

  /** times.filter(t => t > cutoff). */
  function After(times: seq<int>, cutoff: int): (kept: seq<int>)
    ensures forall i :: 0 <= i < |kept| ==> kept[i] > cutoff && kept[i] in times
    ensures |kept| <= |times|
  {
    if times == [] then []
    else
      var front, t := After(times[..|times| - 1], cutoff), times[|times| - 1];
      if t > cutoff then front + [t] else front
  }

  lemma AfterAppend(times: seq<int>, t: int, cutoff: int)
    ensures After(times + [t], cutoff) == After(times, cutoff) + if t > cutoff then [t] else []
  {
    assert (times + [t])[..|times + [t]| - 1] == times;
  }

  /** Filtering twice is filtering at the later cutoff: what was dropped early is dropped anyway. */
  lemma {:induction false} AfterTwice(times: seq<int>, early: int, late: int)
    requires early <= late
    ensures After(After(times, early), late) == After(times, late)
  {
    if times != [] {
      var front, t := times[..|times| - 1], times[|times| - 1];
      AfterTwice(front, early, late);
      AfterAppend(After(front, early), t, late);
    }
  }

  /** How many times lie in (from, to]. */
  function CountIn(times: seq<int>, from: int, to: int): nat {
    if times == [] then 0
    else CountIn(times[..|times| - 1], from, to) + if from < times[|times| - 1] <= to then 1 else 0
  }

  lemma {:induction false} CountUpToNow(times: seq<int>, from: int, now: int)
    requires NotAfter(times, now)
    ensures CountIn(times, from, now) == |After(times, from)|
  {
    if times != [] {
      CountUpToNow(times[..|times| - 1], from, now);
    }
  }

  lemma CountAppend(times: seq<int>, t: int, from: int, to: int)
    ensures CountIn(times + [t], from, to) == CountIn(times, from, to) + if from < t <= to then 1 else 0
  {
    assert (times + [t])[..|times + [t]| - 1] == times;
  }

  /** A narrower interval holds no more. */
  lemma {:induction false} CountMonotone(times: seq<int>, from: int, to: int, lower: int, upper: int)
    requires lower <= from && to <= upper
    ensures CountIn(times, from, to) <= CountIn(times, lower, upper)
  {
    if times != [] {
      CountMonotone(times[..|times| - 1], from, to, lower, upper);
    }
  }

  /** The loop behind filter. */
  method Filter(times: seq<int>, cutoff: int) returns (kept: seq<int>)
    ensures kept == After(times, cutoff)
  {
    kept := [];
    for i := 0 to |times|
      invariant kept == After(times[..i], cutoff)
    {
      assert times[..i + 1] == times[..i] + [times[i]];
      AfterAppend(times[..i], times[i], cutoff);
      if times[i] > cutoff {
        kept := kept + [times[i]];
      }
    }
    assert times[..|times|] == times;
  }
}
