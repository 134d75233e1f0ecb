/**
 * The fixed-window circuit breaker that the unlock handlers (daily and hourly) and the mint
 * callables share: a counter that is reset when a whole window has passed since its last reset.
 */
module FixedWindow {
  import opened Options

  datatype Window = Window(count: nat, last: int)

  /** One accepted step that consulted the breaker: what it counted, and the cap then in force. */
  datatype Tick = Tick(time: int, amount: nat, cap: nat)

  /** The reset that precedes the check. */
  function Roll(size: nat, w: Window, now: int): Window {
    if now - w.last >= size then Window(0, now) else w
  }

  function After(size: nat, w: Window, t: Tick): Window {
    var rolled := Roll(size, w, t.time);
    Window(rolled.count + t.amount, rolled.last)
  }

  function Run(size: nat, w: Window, ticks: seq<Tick>): Window {
    if ticks == [] then w else After(size, Run(size, w, ticks[..|ticks| - 1]), ticks[|ticks| - 1])
  }

  /** Every step that counted something found the new count within its cap. */
  predicate Respected(size: nat, w: Window, ticks: seq<Tick>) {
    ticks == [] ||
    (&& Respected(size, w, ticks[..|ticks| - 1])
     && (ticks[|ticks| - 1].amount > 0 ==> Run(size, w, ticks).count <= ticks[|ticks| - 1].cap))
  }

  /** Times never go back, and start no earlier than the window's first reset. */
  predicate Ordered(start: int, ticks: seq<Tick>) {
    && (forall i :: 0 <= i < |ticks| ==> start <= ticks[i].time)
    && (forall i, j :: 0 <= i <= j < |ticks| ==> ticks[i].time <= ticks[j].time)
  }

  /** What was counted at times in [from, to). */
  function SumIn(ticks: seq<Tick>, from: int, to: int): nat {
    if ticks == [] then 0 else
      var t := ticks[|ticks| - 1];
      SumIn(ticks[..|ticks| - 1], from, to) + if from <= t.time < to then t.amount else 0
  }

  lemma {:induction false} SumInEmpty(ticks: seq<Tick>, from: int, to: int)
    requires forall i :: 0 <= i < |ticks| ==> !(from <= ticks[i].time < to)
    ensures SumIn(ticks, from, to) == 0
  {
    if ticks == [] {
    } else {
      SumInEmpty(ticks[..|ticks| - 1], from, to);
    }
  }

  /** Time of the last tick, or of the first reset when there is none. */
  function Now(start: int, ticks: seq<Tick>): int {
    if ticks == [] then start else ticks[|ticks| - 1].time
  }

  lemma {:induction false} LastResetBounds(size: nat, w: Window, ticks: seq<Tick>)
    requires size > 0 && Ordered(w.last, ticks)
    ensures w.last <= Run(size, w, ticks).last <= Now(w.last, ticks)
    ensures ticks != [] ==> Now(w.last, ticks) - Run(size, w, ticks).last < size
  {
    if ticks == [] {
    } else {
      LastResetBounds(size, w, ticks[..|ticks| - 1]);
    }
  }

  /** The counter is exactly what was counted since the last reset. */
  lemma {:induction false} CounterIsSumSinceReset(size: nat, w: Window, ticks: seq<Tick>)
    requires size > 0 && w.count == 0 && Ordered(w.last, ticks)
    ensures var r := Run(size, w, ticks); r.count == SumIn(ticks, r.last, Now(w.last, ticks) + 1)
  {
    if ticks == [] {
    } else {
      var front, t := ticks[..|ticks| - 1], ticks[|ticks| - 1];
      CounterIsSumSinceReset(size, w, front);
      LastResetBounds(size, w, front);
      var before := Run(size, w, front);
      if t.time - before.last >= size {
        SumInEmpty(front, t.time, t.time + 1);
      } else {
        SumInLater(front, before.last, Now(w.last, front) + 1, t.time + 1);
      }
    }
  }

  /** Moving the upper end past the last tick adds nothing. */
  lemma {:induction false} SumInLater(ticks: seq<Tick>, from: int, to: int, later: int)
    requires to <= later && forall i :: 0 <= i < |ticks| ==> ticks[i].time < to
    ensures SumIn(ticks, from, to) == SumIn(ticks, from, later)
  {
    if ticks == [] {
    } else {
      SumInLater(ticks[..|ticks| - 1], from, to, later);
    }
  }

  /** Two different resets are at least one window apart. */
  lemma {:induction false} ResetsApart(size: nat, w: Window, ticks: seq<Tick>, k: nat)
    requires k <= |ticks|
    ensures var early, late := Run(size, w, ticks[..k]).last, Run(size, w, ticks).last;
      early == late || late - early >= size
  {
    if k == |ticks| {
      assert ticks[..k] == ticks;
    } else {
      var front := ticks[..|ticks| - 1];
      assert front[..k] == ticks[..k];
      ResetsApart(size, w, front, k);
    }
  }

  /** A run with one more tick, or none. */
  function Extend(ticks: seq<Tick>, t: Option<Tick>): seq<Tick> {
    if t.Some? then ticks + [t.value] else ticks
  }

  /** A later tick within its cap extends a respected run. */
  lemma Extended(size: nat, w: Window, ticks: seq<Tick>, t: Option<Tick>)
    requires Ordered(w.last, ticks) && Respected(size, w, ticks)
    requires t.Some? ==> Now(w.last, ticks) <= t.value.time
    requires t.Some? && t.value.amount > 0 ==> After(size, Run(size, w, ticks), t.value).count <= t.value.cap
    ensures var more := Extend(ticks, t);
      && Ordered(w.last, more) && Respected(size, w, more)
      && Run(size, w, more) == if t.Some? then After(size, Run(size, w, ticks), t.value) else Run(size, w, ticks)
  {
    hide After;
    if t.Some? {
      var more := ticks + [t.value];
      assert more[..|more| - 1] == ticks;
    }
  }

  lemma SumExtended(ticks: seq<Tick>, t: Option<Tick>, from: int, to: int)
    ensures SumIn(Extend(ticks, t), from, to)
         == SumIn(ticks, from, to) + if t.Some? && from <= t.value.time < to then t.value.amount else 0
  {
    if t.Some? {
      var more := ticks + [t.value];
      assert more[..|more| - 1] == ticks;
    }
  }

  predicate CapsWithin(ticks: seq<Tick>, from: int, to: int, cap: nat) {
    forall i :: 0 <= i < |ticks| && from <= ticks[i].time < to && ticks[i].amount > 0 ==> ticks[i].cap <= cap
  }

  /** The induction behind the bound: before the first reset inside the interval one cap suffices, after it two. */
  lemma {:induction false} WindowInvariant(size: nat, w: Window, ticks: seq<Tick>, from: int, cap: nat)
    requires size > 0 && w.count == 0 && Ordered(w.last, ticks) && Respected(size, w, ticks)
    requires CapsWithin(ticks, from, from + size, cap)
    ensures var r, s := Run(size, w, ticks), SumIn(ticks, from, from + size);
      && (r.last <= from ==> s <= r.count && s <= cap)
      && (from < r.last < from + size ==> s <= cap + r.count)
      && s <= 2 * cap
  {
    if ticks == [] {
    } else {
      var front, t := ticks[..|ticks| - 1], ticks[|ticks| - 1];
      assert CapsWithin(front, from, from + size, cap);
      WindowInvariant(size, w, front, from, cap);
      LastResetBounds(size, w, front);
      if t.time <= from && t.time - Run(size, w, front).last >= size {
        SumInEmpty(front, from, from + size);
      }
    }
  }

  /**
   * The breaker's guarantee: whatever the caps did meanwhile, any interval one window long counts
   * at most twice the largest cap that was in force in it.
   */
  lemma AtMostTwiceTheCap(size: nat, w: Window, ticks: seq<Tick>, from: int, cap: nat)
    requires size > 0 && w.count == 0 && Ordered(w.last, ticks) && Respected(size, w, ticks)
    requires CapsWithin(ticks, from, from + size, cap)
    ensures SumIn(ticks, from, from + size) <= 2 * cap
  {
    WindowInvariant(size, w, ticks, from, cap);
  }

  /** A reset falls inside the interval, after its first instant. */
  predicate DividedByReset(size: nat, w: Window, ticks: seq<Tick>, from: int) {
    exists k :: 0 <= k <= |ticks| && from < Run(size, w, ticks[..k]).last < from + size
  }

  /** An interval that no reset divides keeps to one cap. */
  lemma {:induction false} AtMostTheCapWithoutReset(size: nat, w: Window, ticks: seq<Tick>, from: int, cap: nat)
    requires size > 0 && w.count == 0 && Ordered(w.last, ticks) && Respected(size, w, ticks)
    requires CapsWithin(ticks, from, from + size, cap) && !DividedByReset(size, w, ticks, from)
    ensures SumIn(ticks, from, from + size) <= cap
  {
    assert ticks[..|ticks|] == ticks;
    if ticks == [] || Run(size, w, ticks).last <= from {
      WindowInvariant(size, w, ticks, from, cap);
    } else {
      var front := ticks[..|ticks| - 1];
      UndividedEarlier(size, w, ticks, from);
      AtMostTheCapWithoutReset(size, w, front, from, cap);
      LastResetBounds(size, w, ticks);
    }
  }

  lemma UndividedEarlier(size: nat, w: Window, ticks: seq<Tick>, from: int)
    requires ticks != [] && !DividedByReset(size, w, ticks, from)
    ensures !DividedByReset(size, w, ticks[..|ticks| - 1], from)
  {
    var front := ticks[..|ticks| - 1];
    forall k | 0 <= k <= |front| ensures !(from < Run(size, w, front[..k]).last < from + size) {
      assert front[..k] == ticks[..k];
    }
  }

  /** An interval that starts at a reset is divided by none. */
  lemma ResetDividesNothing(size: nat, w: Window, ticks: seq<Tick>, k: nat)
    requires size > 0 && Ordered(w.last, ticks) && k <= |ticks|
    ensures !DividedByReset(size, w, ticks, Run(size, w, ticks[..k]).last)
  {
    var from := Run(size, w, ticks[..k]).last;
    forall j | 0 <= j <= |ticks| ensures !(from < Run(size, w, ticks[..j]).last < from + size) {
      if k <= j {
        assert ticks[..j][..k] == ticks[..k];
        ResetsApart(size, w, ticks[..j], k);
      } else {
        assert ticks[..k][..j] == ticks[..j];
        OrderedPrefix(w.last, ticks, k);
        ResetsGrow(size, w, ticks[..k], j);
      }
    }
  }

  lemma OrderedPrefix(start: int, ticks: seq<Tick>, k: nat)
    requires Ordered(start, ticks) && k <= |ticks|
    ensures Ordered(start, ticks[..k])
  {
  }

  lemma {:induction false} ResetsGrow(size: nat, w: Window, ticks: seq<Tick>, j: nat)
    requires size > 0 && Ordered(w.last, ticks) && j <= |ticks|
    ensures Run(size, w, ticks[..j]).last <= Run(size, w, ticks).last
  {
    if j == |ticks| {
      assert ticks[..j] == ticks;
    } else {
      var front := ticks[..|ticks| - 1];
      assert front[..j] == ticks[..j];
      ResetsGrow(size, w, front, j);
      LastResetBounds(size, w, front);
    }
  }

  // ---------------------------------------------------------------------------------------------
  // When one cap is enough
  // ---------------------------------------------------------------------------------------------

  /** The ticks may follow from `now` on, each that counts something in the interval under a cap of at most `cap`. */
  predicate Follows(size: nat, w: Window, now: int, more: seq<Tick>, from: int, cap: nat) {
    Ordered(now, more) && Respected(size, w, more) && CapsWithin(more, from, from + size, cap)
  }

  /** However a breaker that stands at `w` goes on after `spent` in the interval, the interval keeps to one cap. */
  ghost predicate OneCapWhateverFollows(size: nat, w: Window, spent: nat, now: int, from: int, cap: nat) {
    forall more :: Follows(size, w, now, more, from, cap) ==> spent + SumIn(more, from, from + size) <= cap
  }

  /**
   * The intervals that keep to one cap, by what was spent in them, and of that before the last reset. Once
   * the interval is over its sum decides. Once the window has passed, the next tick resets: the interval must
   * have started, with nothing spent. Until then it starts either no later than the last reset, with nothing
   * spent before it; or in between, with the cap used up and nothing of it in the interval; or as the window passes.
   * Where nothing may be spent nothing is.
   */
  predicate KeepsToOneCap(size: nat, w: Window, spent: nat, before: nat, now: int, from: int, cap: nat) {
    if cap == 0 then true
    else if from + size <= now then spent <= cap
    else if w.last + size <= now then from <= now && spent == 0
    else if from <= w.last then before == 0
    else from == w.last + size || (from < w.last + size && w.count >= cap && spent == 0)
  }

  /** When the last reset falls inside the interval or before it, what follows shares the cap with the counter. */
  lemma {:induction false} FromTheReset(size: nat, w: Window, now: int, more: seq<Tick>, from: int, cap: nat)
    requires size > 0 && from <= w.last <= now && w.count <= cap && Follows(size, w, now, more, from, cap)
    ensures var r, s := Run(size, w, more), SumIn(more, from, from + size);
      && w.count + s <= cap
      && (if r.last == w.last then r.count >= w.count + s else r.last >= w.last + size)
  {
    if more != [] {
      var front := more[..|more| - 1];
      OrderedPrefix(now, more, |front|);
      assert CapsWithin(front, from, from + size, cap);
      FromTheReset(size, w, now, front, from, cap);
      LastResetBounds(size, w, front);
    }
  }

  /** When nothing can be counted in the interval before its first reset, it keeps to the cap of that reset. */
  lemma {:induction false} AfterTheWindow(size: nat, w: Window, now: int, more: seq<Tick>, from: int, cap: nat)
    requires size > 0 && w.last <= now && Follows(size, w, now, more, from, cap)
    requires from <= w.last + size || from <= now
    requires w.count >= cap || from >= w.last + size || now >= w.last + size
    ensures var r, s := Run(size, w, more), SumIn(more, from, from + size);
      && (if r.last == w.last then s == 0 && r.count >= w.count else r.last >= from && s <= cap)
      && (w.last != r.last < from + size ==> s <= r.count)
  {
    if more != [] {
      var front := more[..|more| - 1];
      OrderedPrefix(now, more, |front|);
      assert CapsWithin(front, from, from + size, cap);
      AfterTheWindow(size, w, now, front, from, cap);
      LastResetBounds(size, w, front);
    }
  }

  /** Under a cap of zero nothing is counted. */
  lemma {:induction false} NothingUnderNoCap(size: nat, w: Window, ticks: seq<Tick>, from: int, to: int)
    requires Respected(size, w, ticks) && CapsWithin(ticks, from, to, 0)
    ensures SumIn(ticks, from, to) == 0
  {
    if ticks != [] {
      assert CapsWithin(ticks[..|ticks| - 1], from, to, 0);
      NothingUnderNoCap(size, w, ticks[..|ticks| - 1], from, to);
    }
  }

  /** What a single tick adds. */
  lemma OneTick(size: nat, w: Window, t: Tick)
    ensures Run(size, w, [t]) == After(size, w, t)
    ensures Respected(size, w, [t]) <==> (t.amount > 0 ==> After(size, w, t).count <= t.cap)
    ensures forall from, to :: SumIn([t], from, to) == if from <= t.time < to then t.amount else 0
  {
    assert [t][..0] == [];
    assert forall from, to :: SumIn([], from, to) == 0;
    assert Run(size, w, []) == w;
  }

  /** What is left of the cap just before the window passes, then all of it again. */
  function SpendTwice(size: nat, w: Window, cap: nat): seq<Tick>
    requires size > 0
  {
    [Tick(w.last + size - 1, if w.count < cap then cap - w.count else 0, cap), Tick(w.last + size, cap, cap)]
  }

  lemma SpendTwiceFollows(size: nat, w: Window, now: int, from: int, cap: nat)
    requires size > 0 && w.last <= now < w.last + size && w.last < from < w.last + size
    ensures Follows(size, w, now, SpendTwice(size, w, cap), from, cap)
    ensures SumIn(SpendTwice(size, w, cap), from, from + size) == cap + if w.count < cap then cap - w.count else 0
  {
    var ticks := SpendTwice(size, w, cap);
    assert ticks[..1] == [ticks[0]];
    OneTick(size, w, ticks[0]);
    assert Run(size, w, ticks) == After(size, Run(size, w, [ticks[0]]), ticks[1]);
    assert SumIn(ticks, from, from + size) == SumIn([ticks[0]], from, from + size) + cap;
  }

  /** A reset just before the interval makes room for a later one inside it. */
  lemma ResetBefore(size: nat, w: Window, now: int, from: int, cap: nat) returns (more: seq<Tick>)
    requires size > 1 && w.last <= now < from && w.last + size < from
    ensures Follows(size, w, now, more, from, cap) && SumIn(more, from, from + size) == 2 * cap
  {
    var reset := Tick(from - 1, 0, cap);
    var rolled := After(size, w, reset);
    SpendTwiceFollows(size, rolled, from - 1, from, cap);
    var rest := SpendTwice(size, rolled, cap);
    more := [reset] + rest;
    OneTick(size, w, reset);
    RunAppended(size, w, [reset], rest);
    SumInAppended([reset], rest, from, from + size);
  }

  lemma {:induction false} RunAppended(size: nat, w: Window, ticks: seq<Tick>, more: seq<Tick>)
    ensures Run(size, w, ticks + more) == Run(size, Run(size, w, ticks), more)
    ensures Respected(size, w, ticks + more)
       <==> Respected(size, w, ticks) && Respected(size, Run(size, w, ticks), more)
  {
    if more == [] {
      assert ticks + more == ticks;
    } else {
      assert (ticks + more)[..|ticks + more| - 1] == ticks + more[..|more| - 1];
      RunAppended(size, w, ticks, more[..|more| - 1]);
    }
  }

  lemma {:induction false} SumInAppended(ticks: seq<Tick>, more: seq<Tick>, from: int, to: int)
    ensures SumIn(ticks + more, from, to) == SumIn(ticks, from, to) + SumIn(more, from, to)
  {
    if more == [] {
      assert ticks + more == ticks;
    } else {
      assert (ticks + more)[..|ticks + more| - 1] == ticks + more[..|more| - 1];
      SumInAppended(ticks, more[..|more| - 1], from, to);
    }
  }

  lemma {:induction false} SumInSplit(ticks: seq<Tick>, from: int, mid: int, to: int)
    requires from <= mid <= to
    ensures SumIn(ticks, from, to) == SumIn(ticks, from, mid) + SumIn(ticks, mid, to)
  {
    if ticks != [] {
      SumInSplit(ticks[..|ticks| - 1], from, mid, to);
    }
  }

  /** Until the interval is over, a counter that was reset inside it is within the cap. */
  lemma {:induction false} CountWithinCap(size: nat, w: Window, ticks: seq<Tick>, from: int, cap: nat)
    requires size > 0 && w.count == 0 && Ordered(w.last, ticks) && Respected(size, w, ticks)
    requires CapsWithin(ticks, from, from + size, cap)
    requires from <= Run(size, w, ticks).last && Now(w.last, ticks) < from + size
    ensures Run(size, w, ticks).count <= cap
  {
    if ticks != [] {
      var front, t := ticks[..|ticks| - 1], ticks[|ticks| - 1];
      LastResetBounds(size, w, front);
      LastResetBounds(size, w, ticks);
      if from <= Run(size, w, front).last {
        assert CapsWithin(front, from, from + size, cap);
        CountWithinCap(size, w, front, from, cap);
      }
    }
  }

  /** What a run has counted in an interval that is not over, by where its last reset falls. */
  lemma SpentSoFar(size: nat, w: Window, ticks: seq<Tick>, now: int, from: int, cap: nat)
    requires size > 0 && w.count == 0 && Ordered(w.last, ticks) && Respected(size, w, ticks)
    requires CapsWithin(ticks, from, from + size, cap) && Now(w.last, ticks) <= now < from + size
    ensures var r, spent := Run(size, w, ticks), SumIn(ticks, from, from + size);
      && (from <= r.last ==> spent == SumIn(ticks, from, r.last) + r.count && r.count <= cap)
      && (from >= r.last + size ==> spent == 0)
  {
    var r, last := Run(size, w, ticks), Now(w.last, ticks);
    LastResetBounds(size, w, ticks);
    CounterIsSumSinceReset(size, w, ticks);
    if from <= r.last {
      CountWithinCap(size, w, ticks, from, cap);
      SumInLater(ticks, r.last, last + 1, from + size);
      SumInSplit(ticks, from, r.last, from + size);
    } else if from >= r.last + size {
      SumInEmpty(ticks, from, from + size);
    }
  }

  /** Nothing that follows brings the interval above the cap. */
  lemma KeptWhateverFollows(size: nat, w: Window, ticks: seq<Tick>, now: int, more: seq<Tick>, from: int, cap: nat)
    requires size > 0 && w.count == 0 && Ordered(w.last, ticks) && Respected(size, w, ticks)
    requires CapsWithin(ticks, from, from + size, cap) && Now(w.last, ticks) <= now
    requires var r := Run(size, w, ticks);
      && Follows(size, r, now, more, from, cap)
      && KeepsToOneCap(size, r, SumIn(ticks, from, from + size), SumIn(ticks, from, r.last), now, from, cap)
    ensures SumIn(ticks, from, from + size) + SumIn(more, from, from + size) <= cap
  {
    hide SumIn, Run, Respected, CapsWithin;
    var r := Run(size, w, ticks);
    LastResetBounds(size, w, ticks);
    if cap == 0 {
      NothingUnderNoCap(size, w, ticks, from, from + size);
      NothingUnderNoCap(size, r, more, from, from + size);
    } else if from + size <= now {
      SumInEmpty(more, from, from + size);
    } else {
      SpentSoFar(size, w, ticks, now, from, cap);
      if from <= r.last && now < r.last + size {
        FromTheReset(size, r, now, more, from, cap);
      } else {
        AfterTheWindow(size, r, now, more, from, cap);
      }
    }
  }

  /** Otherwise something that may follow does. */
  lemma BroughtAbove(size: nat, w: Window, ticks: seq<Tick>, now: int, from: int, cap: nat) returns (more: seq<Tick>)
    requires size > 1 && w.count == 0 && Ordered(w.last, ticks) && Respected(size, w, ticks)
    requires CapsWithin(ticks, from, from + size, cap) && Now(w.last, ticks) <= now
    requires var r := Run(size, w, ticks);
      !KeepsToOneCap(size, r, SumIn(ticks, from, from + size), SumIn(ticks, from, r.last), now, from, cap)
    ensures Follows(size, Run(size, w, ticks), now, more, from, cap)
    ensures SumIn(ticks, from, from + size) + SumIn(more, from, from + size) > cap
  {
    hide SumIn, Run, Respected;
    var r := Run(size, w, ticks);
    LastResetBounds(size, w, ticks);
    if from + size <= now {
      more := [];
      NothingFollows(size, r, now, from, cap);
    } else {
      SpentSoFar(size, w, ticks, now, from, cap);
      if from <= r.last && now < r.last + size {
        more := [Tick(now, cap - r.count, cap)];
        OneTick(size, r, more[0]);
      } else if now < r.last + size && from < r.last + size {
        more := SpendTwice(size, r, cap);
        SpendTwiceFollows(size, r, now, from, cap);
      } else if from <= now {
        more := [Tick(now, cap, cap)];
        OneTick(size, r, more[0]);
      } else {
        more := ResetBefore(size, r, now, from, cap);
      }
    }
  }

  lemma NothingFollows(size: nat, w: Window, now: int, from: int, cap: nat)
    ensures Follows(size, w, now, [], from, cap) && SumIn([], from, from + size) == 0
  {
  }

  /**
   * One cap per window length, as the documentation puts it, is not what the code keeps. At any moment of
   * any run and for any interval, over, under way or to come, it is kept whatever follows if and only if
   * the counter and what was spent in the interval are as `KeepsToOneCap` has it.
   */
  lemma OneCapExactly(size: nat, w: Window, ticks: seq<Tick>, now: int, from: int, cap: nat)
    requires size > 1 && w.count == 0 && Ordered(w.last, ticks) && Respected(size, w, ticks)
    requires CapsWithin(ticks, from, from + size, cap) && Now(w.last, ticks) <= now
    ensures var r, spent := Run(size, w, ticks), SumIn(ticks, from, from + size);
      OneCapWhateverFollows(size, r, spent, now, from, cap)
      <==> KeepsToOneCap(size, r, spent, SumIn(ticks, from, r.last), now, from, cap)
  {
    hide Follows, SumIn, Run, Respected, Ordered, CapsWithin, KeepsToOneCap;
    var r, spent := Run(size, w, ticks), SumIn(ticks, from, from + size);
    if KeepsToOneCap(size, r, spent, SumIn(ticks, from, r.last), now, from, cap) {
      forall more | Follows(size, r, now, more, from, cap) ensures spent + SumIn(more, from, from + size) <= cap {
        KeptWhateverFollows(size, w, ticks, now, more, from, cap);
      }
    } else {
      var more := BroughtAbove(size, w, ticks, now, from, cap);
    }
  }

  /** So a run that has reached such a moment keeps the interval to one cap to its end. */
  lemma OneCapOnwards(size: nat, w: Window, ticks: seq<Tick>, j: nat, now: int, from: int, cap: nat)
    requires size > 0 && w.count == 0 && Ordered(w.last, ticks) && Respected(size, w, ticks)
    requires CapsWithin(ticks, from, from + size, cap) && j <= |ticks| && Now(w.last, ticks[..j]) <= now
    requires forall i :: j <= i < |ticks| ==> now <= ticks[i].time
    requires var r := Run(size, w, ticks[..j]);
      KeepsToOneCap(size, r, SumIn(ticks[..j], from, from + size), SumIn(ticks[..j], from, r.last), now, from, cap)
    ensures SumIn(ticks, from, from + size) <= cap
  {
    hide SumIn, Run, Respected, KeepsToOneCap;
    var done, more := ticks[..j], ticks[j..];
    assert ticks == done + more;
    RunAppended(size, w, done, more);
    SumInAppended(done, more, from, from + size);
    OrderedPrefix(w.last, ticks, j);
    assert CapsWithin(done, from, from + size, cap) && CapsWithin(more, from, from + size, cap);
    KeptWhateverFollows(size, w, done, now, more, from, cap);
  }

  /** Spending the cap just before a reset and again right after it doubles it. */
  lemma TwiceTheCapIsReached(size: nat, cap: nat)
    requires size > 1 && cap > 0
    ensures var w, ticks := Window(0, 0), [Tick(size - 1, cap, cap), Tick(size, cap, cap)];
      && Ordered(w.last, ticks) && Respected(size, w, ticks)
      && SumIn(ticks, size - 1, size - 1 + size) == 2 * cap
  {
    var w, first, second := Window(0, 0), Tick(size - 1, cap, cap), Tick(size, cap, cap);
    var ticks := [first, second];
    assert ticks[..1] == [first];
    OneTick(size, w, first);
    assert Run(size, w, ticks) == After(size, Run(size, w, [first]), second);
    assert SumIn(ticks, size - 1, size - 1 + size) == SumIn([first], size - 1, size - 1 + size) + cap;
  }
}
