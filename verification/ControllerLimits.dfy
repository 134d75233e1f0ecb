/** The daily mint breaker over whole runs: the third instance of the fixed window, counted in blocks. */
module ControllerLimits {
  import opened Bytes
  import opened Options
  import opened ControllerHistory
  import opened ControllerState
  import FW = FixedWindow

  /** Block heights never go back. */
  predicate Chronological(txs: seq<Transaction>) {
    forall i, j :: 0 <= i <= j < |txs| ==> txs[i].inv.height <= txs[j].inv.height
  }

  function Cap(c: Controller): nat { if c.maxDailyMint > 0 then c.maxDailyMint else 0 }

  /** The raw units an accepted mint, issued or delayed, counts, with the cap then in force. */
  function MintTick(c: Controller, inv: Invocation, call: Call): Option<FW.Tick> {
    if IsMint(call) && call.amount >= 0 then Some(FW.Tick(inv.height, call.amount, Cap(c))) else None
  }

  function MintTicks(rt: Runtime, txs: seq<Transaction>): seq<FW.Tick> {
    if txs == [] then []
    else
      var front, tx := txs[..|txs| - 1], txs[|txs| - 1];
      var w := RunOf(rt, front);
      FW.Extend(MintTicks(rt, front),
                if w.Live? && LiveStep(rt, w.c, tx.inv, tx.call).Done? then MintTick(w.c, tx.inv, tx.call) else None)
  }

  /** The height of the accepted initialize. */
  function StartOf(rt: Runtime, txs: seq<Transaction>): int {
    if txs == [] then 0
    else
      var front, tx := txs[..|txs| - 1], txs[|txs| - 1];
      if RunOf(rt, front).Fresh? then tx.inv.height else StartOf(rt, front)
  }

  predicate WindowIs(c: Controller, w: FW.Window) { c.dailyMinted == w.count && c.dailyResetHeight == w.last }

  /** checkDailyLimit is the shared breaker with a window of 1440 blocks. */
  lemma CheckIsBreaker(c: Controller, w: FW.Window, inv: Invocation, amount: i64)
    requires WindowIs(c, w) && amount >= 0
    requires DailyCheck(c.dailyMinted, c.dailyResetHeight, c.maxDailyMint, inv.height, amount).Some?
    ensures var r := DailyCheck(c.dailyMinted, c.dailyResetHeight, c.maxDailyMint, inv.height, amount).value;
      var after := FW.After(RATE_LIMIT_WINDOW, w, FW.Tick(inv.height, amount, Cap(c)));
      r.0 == after.count && r.1 == after.last && after.count <= Cap(c)
  {
  }

  lemma MintCounts(rt: Runtime, c: Controller, inv: Invocation, call: Call)
    requires NATIVE_SOL_MINT in c.tokens && IsMint(call) && LiveStep(rt, c, inv, call).Done?
    ensures call.amount >= MIN_MINT_AMOUNT
    ensures var d := LiveStep(rt, c, inv, call).c;
      var r := DailyCheck(c.dailyMinted, c.dailyResetHeight, c.maxDailyMint, inv.height, call.amount);
      r.Some? && d.dailyMinted == r.value.0 && d.dailyResetHeight == r.value.1
  {
    hide MintMessage, LegacyMintMessage, Quorum, DailyCheck, Scaled;
  }

  lemma OthersKeepCount(rt: Runtime, c: Controller, inv: Invocation, call: Call)
    requires NATIVE_SOL_MINT in c.tokens && !IsMint(call) && LiveStep(rt, c, inv, call).Done?
    ensures var d := LiveStep(rt, c, inv, call).c; d.dailyMinted == c.dailyMinted && d.dailyResetHeight == c.dailyResetHeight
  {
    hide MintMessage, BurnId, DivisorFor;
  }

  /** The breaker's entries are the window its ticks leave, and every tick respected its cap. */
  lemma {:induction false} MintBreakerRuns(rt: Runtime, txs: seq<Transaction>)
    requires Chronological(txs)
    ensures match RunOf(rt, txs)
      case Fresh => MintTicks(rt, txs) == []
      case Live(c) =>
        var start, ticks := StartOf(rt, txs), MintTicks(rt, txs);
        && WindowIs(c, FW.Run(RATE_LIMIT_WINDOW, FW.Window(0, start), ticks))
        && FW.Respected(RATE_LIMIT_WINDOW, FW.Window(0, start), ticks)
        && FW.Ordered(start, ticks)
        && txs != [] && FW.Now(start, ticks) <= txs[|txs| - 1].inv.height
  {
    hide LiveStep, DailyCheck, FW.After, FW.Ordered, FW.Respected;
    if txs != [] {
      var front, tx := txs[..|txs| - 1], txs[|txs| - 1];
      MintBreakerRuns(rt, front);
      match RunOf(rt, front)
      case Fresh => NoTicks(tx.inv.height);
      case Live(c) =>
        var start, ticks := StartOf(rt, front), MintTicks(rt, front);
        if LiveStep(rt, c, tx.inv, tx.call).Done? {
          if IsMint(tx.call) {
            MintCounts(rt, c, tx.inv, tx.call);
            CheckIsBreaker(c, FW.Run(RATE_LIMIT_WINDOW, FW.Window(0, start), ticks), tx.inv, tx.call.amount);
            FW.Extended(RATE_LIMIT_WINDOW, FW.Window(0, start), ticks, MintTick(c, tx.inv, tx.call));
          } else {
            OthersKeepCount(rt, c, tx.inv, tx.call);
          }
        }
    }
  }

  lemma NoTicks(start: int)
    ensures FW.Ordered(start, []) && FW.Respected(RATE_LIMIT_WINDOW, FW.Window(0, start), [])
  {
  }

  /**
   * The raw units accepted within any 1440 blocks come to at most twice the largest daily cap in force
   * in them, and the counter is what was accepted since its last reset.
   */
  lemma DailyMintBound(rt: Runtime, txs: seq<Transaction>, from: int, cap: nat)
    requires Chronological(txs) && RunOf(rt, txs).Live?
    requires FW.CapsWithin(MintTicks(rt, txs), from, from + RATE_LIMIT_WINDOW, cap)
    ensures var c, ticks := RunOf(rt, txs).c, MintTicks(rt, txs);
      && FW.SumIn(ticks, from, from + RATE_LIMIT_WINDOW) <= 2 * cap
      && c.dailyMinted == FW.SumIn(ticks, c.dailyResetHeight, FW.Now(StartOf(rt, txs), ticks) + 1)
  {
    hide RunOf, MintTicks, StartOf;
    var start, ticks := StartOf(rt, txs), MintTicks(rt, txs);
    MintBreakerRuns(rt, txs);
    FW.AtMostTwiceTheCap(RATE_LIMIT_WINDOW, FW.Window(0, start), ticks, from, cap);
    FW.CounterIsSumSinceReset(RATE_LIMIT_WINDOW, FW.Window(0, start), ticks);
  }

  // ---------------------------------------------------------------------------------------------
  // When one cap is enough
  // ---------------------------------------------------------------------------------------------

  lemma {:induction false} TicksPrefix(rt: Runtime, txs: seq<Transaction>, k: nat)
    requires k <= |txs|
    ensures MintTicks(rt, txs[..k]) <= MintTicks(rt, txs)
  {
    hide RunOf, LiveStep, MintTick;
    if k == |txs| {
      assert txs[..k] == txs;
    } else {
      var front := txs[..|txs| - 1];
      assert front[..k] == txs[..k];
      TicksPrefix(rt, front, k);
    }
  }

  lemma {:induction false} TicksOfPrefix(rt: Runtime, txs: seq<Transaction>, j: nat) returns (k: nat)
    requires j <= |MintTicks(rt, txs)|
    ensures k <= |txs| && MintTicks(rt, txs[..k]) == MintTicks(rt, txs)[..j]
  {
    hide RunOf, LiveStep, MintTick;
    if j == |MintTicks(rt, txs)| {
      k := |txs|;
      assert txs[..k] == txs;
    } else {
      var front := txs[..|txs| - 1];
      k := TicksOfPrefix(rt, front, j);
      assert front[..k] == txs[..k];
    }
  }

  /** The accepted initialize stays where it is. */
  lemma {:induction false} StartStays(rt: Runtime, txs: seq<Transaction>, k: nat)
    requires k <= |txs| && RunOf(rt, txs[..k]).Live?
    ensures RunOf(rt, txs).Live? && StartOf(rt, txs) == StartOf(rt, txs[..k])
  {
    hide Step;
    if k == |txs| {
      assert txs[..k] == txs;
    } else {
      var front := txs[..|txs| - 1];
      assert front[..k] == txs[..k];
      StartStays(rt, front, k);
    }
  }

  /** The counter was reset inside the interval, after its first block. */
  predicate ResetWithin(rt: Runtime, txs: seq<Transaction>, from: int, to: int) {
    exists k :: 0 <= k <= |txs| && RunOf(rt, txs[..k]).Live? && from < RunOf(rt, txs[..k]).c.dailyResetHeight < to
  }

  lemma ChronologicalPrefix(txs: seq<Transaction>, k: nat)
    requires Chronological(txs) && k <= |txs|
    ensures Chronological(txs[..k])
  {
  }

  /** The reset height of a run is that of the window its ticks leave. */
  lemma ResetOfPrefix(rt: Runtime, txs: seq<Transaction>, k: nat)
    requires Chronological(txs) && k <= |txs| && RunOf(rt, txs[..k]).Live?
    ensures RunOf(rt, txs[..k]).c.dailyResetHeight
         == FW.Run(RATE_LIMIT_WINDOW, FW.Window(0, StartOf(rt, txs)), MintTicks(rt, txs[..k])).last
  {
    hide RunOf, MintTicks, StartOf, Chronological;
    ChronologicalPrefix(txs, k);
    MintBreakerRuns(rt, txs[..k]);
    StartStays(rt, txs, k);
  }

  lemma {:induction false} LivePrefix(rt: Runtime, txs: seq<Transaction>) returns (k: nat)
    requires RunOf(rt, txs).Live?
    ensures k <= |txs| && RunOf(rt, txs[..k]).Live? && MintTicks(rt, txs[..k]) == []
  {
    hide LiveStep, MintTick;
    var front := txs[..|txs| - 1];
    if RunOf(rt, front).Live? {
      k := LivePrefix(rt, front);
      assert front[..k] == txs[..k];
    } else {
      k := |txs|;
      assert txs[..k] == txs;
      FreshHasNoTicks(rt, front);
    }
  }

  lemma {:induction false} FreshHasNoTicks(rt: Runtime, txs: seq<Transaction>)
    requires RunOf(rt, txs).Fresh?
    ensures MintTicks(rt, txs) == []
  {
    hide LiveStep, MintTick;
    if txs != [] {
      FreshHasNoTicks(rt, txs[..|txs| - 1]);
    }
  }

  lemma NoResetDivides(rt: Runtime, txs: seq<Transaction>, from: int)
    requires Chronological(txs) && RunOf(rt, txs).Live? && !ResetWithin(rt, txs, from, from + RATE_LIMIT_WINDOW)
    ensures !FW.DividedByReset(RATE_LIMIT_WINDOW, FW.Window(0, StartOf(rt, txs)), MintTicks(rt, txs), from)
  {
    hide RunOf, MintTicks, Chronological, StartOf, FW.Run;
    var ticks, w := MintTicks(rt, txs), FW.Window(0, StartOf(rt, txs));
    forall j | 0 <= j <= |ticks| ensures !(from < FW.Run(RATE_LIMIT_WINDOW, w, ticks[..j]).last < from + RATE_LIMIT_WINDOW) {
      var k := TicksOfPrefix(rt, txs, j);
      if RunOf(rt, txs[..k]).Fresh? {
        FreshHasNoTicks(rt, txs[..k]);
        k := LivePrefix(rt, txs);
      }
      ResetOfPrefix(rt, txs, k);
    }
  }

  /** In 1440 blocks that no reset of the counter divides, the raw units accepted come to at most one cap. */
  lemma DailyMintWithoutReset(rt: Runtime, txs: seq<Transaction>, from: int, cap: nat)
    requires Chronological(txs) && RunOf(rt, txs).Live? && !ResetWithin(rt, txs, from, from + RATE_LIMIT_WINDOW)
    requires FW.CapsWithin(MintTicks(rt, txs), from, from + RATE_LIMIT_WINDOW, cap)
    ensures FW.SumIn(MintTicks(rt, txs), from, from + RATE_LIMIT_WINDOW) <= cap
  {
    hide RunOf, MintTicks, StartOf, ResetWithin;
    MintBreakerRuns(rt, txs);
    NoResetDivides(rt, txs, from);
    FW.AtMostTheCapWithoutReset(RATE_LIMIT_WINDOW, FW.Window(0, StartOf(rt, txs)), MintTicks(rt, txs), from, cap);
  }

  /** So the 1440 blocks from any reset of a run keep to one cap. */
  lemma DailyMintFromReset(rt: Runtime, txs: seq<Transaction>, k: nat, cap: nat)
    requires Chronological(txs) && k <= |txs| && RunOf(rt, txs[..k]).Live?
    requires var from := RunOf(rt, txs[..k]).c.dailyResetHeight;
      FW.CapsWithin(MintTicks(rt, txs), from, from + RATE_LIMIT_WINDOW, cap)
    ensures var from := RunOf(rt, txs[..k]).c.dailyResetHeight;
      FW.SumIn(MintTicks(rt, txs), from, from + RATE_LIMIT_WINDOW) <= cap
  {
    hide RunOf, MintTicks, StartOf, FW.Run, FW.SumIn, FW.CapsWithin;
    var from, ticks, w := RunOf(rt, txs[..k]).c.dailyResetHeight, MintTicks(rt, txs), FW.Window(0, StartOf(rt, txs));
    var j := |MintTicks(rt, txs[..k])|;
    StartStays(rt, txs, k);
    TicksPrefix(rt, txs, k);
    assert MintTicks(rt, txs[..k]) == ticks[..j];
    ResetOfPrefix(rt, txs, k);
    MintBreakerRuns(rt, txs);
    FW.ResetDividesNothing(RATE_LIMIT_WINDOW, w, ticks, j);
    FW.AtMostTheCapWithoutReset(RATE_LIMIT_WINDOW, w, ticks, from, cap);
  }

  /** What the counter, its last reset and the mints so far must be for the 1440 blocks from `from` to keep to one cap. */
  predicate DayKeepsToOneCap(c: Controller, ticks: seq<FW.Tick>, now: int, from: int, cap: nat) {
    && c.dailyMinted >= 0
    && FW.KeepsToOneCap(RATE_LIMIT_WINDOW, FW.Window(c.dailyMinted, c.dailyResetHeight),
                        FW.SumIn(ticks, from, from + RATE_LIMIT_WINDOW), FW.SumIn(ticks, from, c.dailyResetHeight),
                        now, from, cap)
  }

  /**
   * In every state of every run, and for any 1440 blocks, over, under way or to come, the breaker itself keeps
   * the raw units accepted in them to one cap, whatever mints it is asked for next, if and only if the state
   * is as `DayKeepsToOneCap` has it.
   */
  lemma OneDailyCapExactly(rt: Runtime, txs: seq<Transaction>, from: int, cap: nat)
    requires Chronological(txs) && RunOf(rt, txs).Live?
    requires FW.CapsWithin(MintTicks(rt, txs), from, from + RATE_LIMIT_WINDOW, cap)
    ensures txs != [] && RunOf(rt, txs).c.dailyMinted >= 0
    ensures var c, ticks, now := RunOf(rt, txs).c, MintTicks(rt, txs), txs[|txs| - 1].inv.height;
      FW.OneCapWhateverFollows(RATE_LIMIT_WINDOW, FW.Window(c.dailyMinted, c.dailyResetHeight),
                               FW.SumIn(ticks, from, from + RATE_LIMIT_WINDOW), now, from, cap)
      <==> DayKeepsToOneCap(c, ticks, now, from, cap)
  {
    hide RunOf, MintTicks, StartOf, FW.Run, FW.SumIn, FW.KeepsToOneCap, FW.OneCapWhateverFollows;
    MintBreakerRuns(rt, txs);
    FW.OneCapExactly(RATE_LIMIT_WINDOW, FW.Window(0, StartOf(rt, txs)), MintTicks(rt, txs),
                     txs[|txs| - 1].inv.height, from, cap);
  }

  lemma {:induction false} LaterTicks(rt: Runtime, txs: seq<Transaction>, k: nat)
    requires Chronological(txs) && 0 < k <= |txs|
    ensures forall i :: |MintTicks(rt, txs[..k])| <= i < |MintTicks(rt, txs)| ==>
              txs[k - 1].inv.height <= MintTicks(rt, txs)[i].time
  {
    hide RunOf, LiveStep;
    if k == |txs| {
      assert txs[..k] == txs;
    } else {
      var front := txs[..|txs| - 1];
      assert front[..k] == txs[..k];
      LaterTicks(rt, front, k);
    }
  }

  /** A run that goes on from such a state by whatever transactions mints at most one cap in those 1440 blocks. */
  lemma OneDailyCapOnwards(rt: Runtime, txs: seq<Transaction>, k: nat, from: int, cap: nat)
    requires Chronological(txs) && 0 < k <= |txs| && RunOf(rt, txs[..k]).Live?
    requires FW.CapsWithin(MintTicks(rt, txs), from, from + RATE_LIMIT_WINDOW, cap)
    requires DayKeepsToOneCap(RunOf(rt, txs[..k]).c, MintTicks(rt, txs[..k]), txs[k - 1].inv.height, from, cap)
    ensures FW.SumIn(MintTicks(rt, txs), from, from + RATE_LIMIT_WINDOW) <= cap
  {
    hide RunOf, MintTicks, StartOf, FW.Run, FW.SumIn, FW.KeepsToOneCap;
    var front, ticks := txs[..k], MintTicks(rt, txs);
    var j := |MintTicks(rt, front)|;
    TicksPrefix(rt, txs, k);
    assert MintTicks(rt, front) == ticks[..j];
    LaterTicks(rt, txs, k);
    StartStays(rt, txs, k);
    ChronologicalPrefix(txs, k);
    MintBreakerRuns(rt, front);
    MintBreakerRuns(rt, txs);
    FW.OneCapOnwards(RATE_LIMIT_WINDOW, FW.Window(0, StartOf(rt, txs)), ticks, j, txs[k - 1].inv.height, from, cap);
  }
}
