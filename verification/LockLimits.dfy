/** The two outflow breakers of the lock program over whole runs, as instances of the fixed window. */
module LockLimits {
  import opened Bytes
  import opened Options
  import opened LockState
  import opened LockSpec
  import opened LockGuards
  import opened LockRuns
  import LockPayouts
  import FW = FixedWindow

  // ---------------------------------------------------------------------------------------------
  // Daily: both payout handlers
  // ---------------------------------------------------------------------------------------------

  /** What a transaction tells the daily breaker when it is accepted: nothing, or the lamports it pays. */
  function DailyTick(s: State, clock: Clock, ins: Instruction): Option<FW.Tick> {
    if ins.Unlock? then
      Some(FW.Tick(clock.now, if ins.unlock.amount >= s.config.largeWithdrawalThreshold then 0 else ins.unlock.amount,
                   s.config.maxDailyOutflow))
    else if ins.ExecuteScheduledUnlock? && ins.record in s.unlocks then
      Some(FW.Tick(clock.now, s.unlocks[ins.record].amount, s.config.maxDailyOutflow))
    else None
  }

  function DailyTicks(chain: Chain, s: State, txs: seq<Transaction>): seq<FW.Tick> {
    if txs == [] then [] else
      var front, tx := txs[..|txs| - 1], txs[|txs| - 1];
      var before := RunOf(chain, s, front);
      FW.Extend(DailyTicks(chain, s, front),
                if StepError(chain, before, tx.clock, tx.ins).None? then DailyTick(before, tx.clock, tx.ins) else None)
  }

  /** One transaction moves a breaker by its tick, if it has one, and within the cap. */
  predicate Ticked(size: nat, before: FW.Window, after: FW.Window, t: Option<FW.Tick>) {
    match t
    case None => after == before
    case Some(tick) => after == FW.After(size, before, tick) && (tick.amount > 0 ==> after.count <= tick.cap)
  }

  lemma OtherKeepsBreakers(chain: Chain, s: State, clock: Clock, ins: Instruction)
    requires !ins.Unlock? && !ins.ExecuteScheduledUnlock?
    ensures var c := StepEffect(chain, s, clock, ins).config;
      DailyWindow(c) == DailyWindow(s.config) && HourlyWindow(c) == HourlyWindow(s.config)
  {
  }

  lemma AcceptedWithinLimits(chain: Chain, s: State, clock: Clock, ins: Instruction)
    requires StepError(chain, s, clock, ins).None?
    ensures ins.Unlock? ==> DailyGuard(s.config, clock.now, ins.unlock.amount).None?
                            && HourlyGuard(s.config, clock.now, ins.unlock.amount).None?
    ensures ins.ExecuteScheduledUnlock? ==> ins.record in s.unlocks
                                            && DailyGuard(s.config, clock.now, s.unlocks[ins.record].amount).None?
  {
    hide StepError, DailyGuard, HourlyGuard;
    if ins.Unlock? {
      UnlockWithinLimits(chain, s, clock, ins);
    } else if ins.ExecuteScheduledUnlock? {
      ExecutionAccepted(chain, s, clock, ins);
    }
  }

  lemma UnlockTicks(chain: Chain, s: State, clock: Clock, ins: Instruction)
    requires ins.Unlock? && DailyGuard(s.config, clock.now, ins.unlock.amount).None?
    requires HourlyGuard(s.config, clock.now, ins.unlock.amount).None?
    ensures var c := UnlockEffect(chain, s, clock, ins.unlock).config;
      && Ticked(DAY_SECONDS, DailyWindow(s.config), DailyWindow(c), DailyTick(s, clock, ins))
      && Ticked(HOUR_SECONDS, HourlyWindow(s.config), HourlyWindow(c), HourlyTick(s, clock, ins))
  {
  }

  lemma ExecutionTicks(chain: Chain, s: State, clock: Clock, ins: Instruction)
    requires ins.ExecuteScheduledUnlock? && ins.record in s.unlocks
    requires DailyGuard(s.config, clock.now, s.unlocks[ins.record].amount).None?
    ensures var c := ExecuteScheduledUnlockEffect(chain, s, clock, ins.record).config;
      && Ticked(DAY_SECONDS, DailyWindow(s.config), DailyWindow(c), DailyTick(s, clock, ins))
      && HourlyWindow(c) == HourlyWindow(s.config)
  {
  }

  lemma BreakersTick(chain: Chain, s: State, clock: Clock, ins: Instruction)
    requires StepError(chain, s, clock, ins).None?
    ensures var c := StepEffect(chain, s, clock, ins).config;
      && Ticked(DAY_SECONDS, DailyWindow(s.config), DailyWindow(c), DailyTick(s, clock, ins))
      && Ticked(HOUR_SECONDS, HourlyWindow(s.config), HourlyWindow(c), HourlyTick(s, clock, ins))
  {
    hide StepError, DailyGuard, HourlyGuard, UnlockEffect, ExecuteScheduledUnlockEffect, DepositEffect, DepositSplEffect,
         UpdateConfigEffect, RegisterValidatorEffect, RemoveValidatorEffect, ProposeConfigChangeEffect,
         ExecuteConfigChangeEffect, FW.After;
    AcceptedWithinLimits(chain, s, clock, ins);
    if ins.Unlock? {
      UnlockTicks(chain, s, clock, ins);
    } else if ins.ExecuteScheduledUnlock? {
      ExecutionTicks(chain, s, clock, ins);
    } else {
      OtherKeepsBreakers(chain, s, clock, ins);
    }
  }

  /** The clock of the last transaction, or the start when there is none. */
  function Moment(start: int, txs: seq<Transaction>): int {
    if txs == [] then start else txs[|txs| - 1].clock.now
  }

  /** The breaker's fields are the window its ticks leave, and every tick respected its cap. */
  lemma {:induction false} DailyBreakerRuns(chain: Chain, s: State, start: int, txs: seq<Transaction>)
    requires Initial(s, start) && Chronological(start, txs)
    ensures var ticks := DailyTicks(chain, s, txs);
      && DailyWindow(RunOf(chain, s, txs).config) == FW.Run(DAY_SECONDS, FW.Window(0, start), ticks)
      && FW.Respected(DAY_SECONDS, FW.Window(0, start), ticks)
      && FW.Ordered(start, ticks)
      && FW.Now(start, ticks) <= Moment(start, txs)
  {
    hide StepError, StepEffect, FW.After;
    if txs == [] {
    } else {
      var front, tx := txs[..|txs| - 1], txs[|txs| - 1];
      var before := RunOf(chain, s, front);
      DailyBreakerRuns(chain, s, start, front);
      if StepError(chain, before, tx.clock, tx.ins).None? {
        BreakersTick(chain, before, tx.clock, tx.ins);
        FW.Extended(DAY_SECONDS, FW.Window(0, start), DailyTicks(chain, s, front), DailyTick(before, tx.clock, tx.ins));
      }
    }
  }

  /** The lamports paid at times in [from, to), by both handlers together. */
  function PaidBetween(events: seq<Event>, from: int, to: int): nat {
    if events == [] then 0 else
      var e := events[|events| - 1];
      PaidBetween(events[..|events| - 1], from, to)
      + if LockPayouts.IsPayout(e) && from <= e.timestamp < to then e.amount else 0
  }

  lemma PaidAppended(events: seq<Event>, e: Event, from: int, to: int)
    ensures PaidBetween(events + [e], from, to) ==
            PaidBetween(events, from, to) + if LockPayouts.IsPayout(e) && from <= e.timestamp < to then e.amount else 0
  {
    assert (events + [e])[..|events + [e]| - 1] == events;
  }

  /** What a transaction pays is what it tells the daily breaker. */
  lemma PaidStep(chain: Chain, s: State, clock: Clock, ins: Instruction, from: int, to: int)
    requires ins.ExecuteScheduledUnlock? ==> ins.record in s.unlocks
    ensures var tick := DailyTick(s, clock, ins);
      PaidBetween(StepEffect(chain, s, clock, ins).events, from, to)
      == PaidBetween(s.events, from, to) + if tick.Some? && from <= tick.value.time < to then tick.value.amount else 0
  {
    hide UpdateConfigEffect, RegisterValidatorEffect, RemoveValidatorEffect, ProposeConfigChangeEffect,
         ExecuteConfigChangeEffect, FW.After, FW.Roll, PaidBetween, ToLE;
    var t := StepEffect(chain, s, clock, ins);
    if LockPayouts.Administrative(ins) {
      LockPayouts.AdministrativeFrame(chain, s, clock, ins);
    } else if |t.events| > |s.events| {
      assert t.events == s.events + [t.events[|s.events|]];
      PaidAppended(s.events, t.events[|s.events|], from, to);
    }
  }

  lemma {:induction false} PaidIsTicked(chain: Chain, s: State, start: int, txs: seq<Transaction>, from: int, to: int)
    requires Initial(s, start)
    ensures PaidBetween(RunOf(chain, s, txs).events, from, to) == FW.SumIn(DailyTicks(chain, s, txs), from, to)
  {
    hide StepError, StepEffect, DailyTick;
    if txs == [] {
    } else {
      var front, tx := txs[..|txs| - 1], txs[|txs| - 1];
      var before := RunOf(chain, s, front);
      PaidIsTicked(chain, s, start, front, from, to);
      if StepError(chain, before, tx.clock, tx.ins).None? {
        AcceptedWithinLimits(chain, before, tx.clock, tx.ins);
        PaidStep(chain, before, tx.clock, tx.ins, from, to);
        FW.SumExtended(DailyTicks(chain, s, front), DailyTick(before, tx.clock, tx.ins), from, to);
      }
    }
  }

  /** No transaction in the interval ran under a daily cap above `cap`. */
  predicate DailyCapsWithin(chain: Chain, s: State, txs: seq<Transaction>, from: int, to: int, cap: nat) {
    forall k :: 0 <= k < |txs| && from <= txs[k].clock.now < to ==> RunOf(chain, s, txs[..k]).config.maxDailyOutflow <= cap
  }

  lemma {:induction false} DailyTickCaps(chain: Chain, s: State, txs: seq<Transaction>, from: int, to: int, cap: nat)
    requires DailyCapsWithin(chain, s, txs, from, to, cap)
    ensures FW.CapsWithin(DailyTicks(chain, s, txs), from, to, cap)
  {
    hide StepError, StepEffect, Apply;
    if txs == [] {
    } else {
      var front := txs[..|txs| - 1];
      forall k | 0 <= k < |front| && from <= front[k].clock.now < to
        ensures RunOf(chain, s, front[..k]).config.maxDailyOutflow <= cap
      {
        assert front[..k] == txs[..k];
      }
      DailyTickCaps(chain, s, front, from, to, cap);
    }
  }

  /**
   * The lamports both payout handlers pay within any 24 hours come to at most twice the largest daily
   * cap in force in them, and the counter is what was paid since its last reset.
   */
  lemma DailyOutflowBound(chain: Chain, s: State, start: int, txs: seq<Transaction>, from: int, cap: nat)
    requires Initial(s, start) && Chronological(start, txs)
    requires DailyCapsWithin(chain, s, txs, from, from + DAY_SECONDS, cap)
    ensures var t := RunOf(chain, s, txs);
      && PaidBetween(t.events, from, from + DAY_SECONDS) <= 2 * cap
      && t.config.currentDailyOutflow
         == PaidBetween(t.events, t.config.lastDailyReset, FW.Now(start, DailyTicks(chain, s, txs)) + 1)
  {
    hide StepError, StepEffect, Apply, DailyTicks, RunOf;
    var ticks, t := DailyTicks(chain, s, txs), RunOf(chain, s, txs);
    DailyBreakerRuns(chain, s, start, txs);
    DailyTickCaps(chain, s, txs, from, from + DAY_SECONDS, cap);
    FW.AtMostTwiceTheCap(DAY_SECONDS, FW.Window(0, start), ticks, from, cap);
    PaidIsTicked(chain, s, start, txs, from, from + DAY_SECONDS);
    FW.CounterIsSumSinceReset(DAY_SECONDS, FW.Window(0, start), ticks);
    PaidIsTicked(chain, s, start, txs, t.config.lastDailyReset, FW.Now(start, ticks) + 1);
  }

  /** Each transaction's ticks come after those of the transactions before it. */
  lemma {:induction false} TicksPrefix(chain: Chain, s: State, txs: seq<Transaction>, k: nat)
    requires k <= |txs|
    ensures DailyTicks(chain, s, txs[..k]) <= DailyTicks(chain, s, txs)
  {
    hide StepError, DailyTick, Apply;
    if k == |txs| {
      assert txs[..k] == txs;
    } else {
      var front := txs[..|txs| - 1];
      assert front[..k] == txs[..k];
      TicksPrefix(chain, s, front, k);
    }
  }

  lemma {:induction false} TicksOfPrefix(chain: Chain, s: State, txs: seq<Transaction>, j: nat) returns (k: nat)
    requires j <= |DailyTicks(chain, s, txs)|
    ensures k <= |txs| && DailyTicks(chain, s, txs[..k]) == DailyTicks(chain, s, txs)[..j]
  {
    hide StepError, DailyTick, Apply;
    if j == |DailyTicks(chain, s, txs)| {
      k := |txs|;
      assert txs[..k] == txs;
    } else {
      var front := txs[..|txs| - 1];
      k := TicksOfPrefix(chain, s, front, j);
      assert front[..k] == txs[..k];
    }
  }

  /** The daily counter was reset inside the interval, after its first instant. */
  predicate ResetWithin(chain: Chain, s: State, txs: seq<Transaction>, from: int, to: int) {
    exists k :: 0 <= k <= |txs| && from < RunOf(chain, s, txs[..k]).config.lastDailyReset < to
  }

  lemma ChronologicalPrefix(start: int, txs: seq<Transaction>, k: nat)
    requires Chronological(start, txs) && k <= |txs|
    ensures Chronological(start, txs[..k])
  {
  }

  lemma NoResetDivides(chain: Chain, s: State, start: int, txs: seq<Transaction>, from: int)
    requires Initial(s, start) && Chronological(start, txs) && !ResetWithin(chain, s, txs, from, from + DAY_SECONDS)
    ensures !FW.DividedByReset(DAY_SECONDS, FW.Window(0, start), DailyTicks(chain, s, txs), from)
  {
    hide RunOf, DailyTicks, Chronological, FW.Run;
    var ticks := DailyTicks(chain, s, txs);
    forall j | 0 <= j <= |ticks|
      ensures !(from < FW.Run(DAY_SECONDS, FW.Window(0, start), ticks[..j]).last < from + DAY_SECONDS)
    {
      var k := TicksOfPrefix(chain, s, txs, j);
      ChronologicalPrefix(start, txs, k);
      DailyBreakerRuns(chain, s, start, txs[..k]);
    }
  }

  /** In 24 hours that no reset of the counter divides, the lamports paid come to at most one cap. */
  lemma DailyOutflowWithoutReset(chain: Chain, s: State, start: int, txs: seq<Transaction>, from: int, cap: nat)
    requires Initial(s, start) && Chronological(start, txs)
    requires DailyCapsWithin(chain, s, txs, from, from + DAY_SECONDS, cap)
    requires !ResetWithin(chain, s, txs, from, from + DAY_SECONDS)
    ensures PaidBetween(RunOf(chain, s, txs).events, from, from + DAY_SECONDS) <= cap
  {
    hide RunOf, DailyTicks, Chronological, FW.Run, FW.SumIn, DailyCapsWithin, ResetWithin;
    DailyBreakerRuns(chain, s, start, txs);
    DailyTickCaps(chain, s, txs, from, from + DAY_SECONDS, cap);
    NoResetDivides(chain, s, start, txs, from);
    FW.AtMostTheCapWithoutReset(DAY_SECONDS, FW.Window(0, start), DailyTicks(chain, s, txs), from, cap);
    PaidIsTicked(chain, s, start, txs, from, from + DAY_SECONDS);
  }

  /** So the 24 hours from any reset of a run keep to one cap: a day as the program counts days. */
  lemma DailyOutflowFromReset(chain: Chain, s: State, start: int, txs: seq<Transaction>, k: nat, cap: nat)
    requires Initial(s, start) && Chronological(start, txs) && k <= |txs|
    requires var from := RunOf(chain, s, txs[..k]).config.lastDailyReset;
      DailyCapsWithin(chain, s, txs, from, from + DAY_SECONDS, cap)
    ensures var from := RunOf(chain, s, txs[..k]).config.lastDailyReset;
      PaidBetween(RunOf(chain, s, txs).events, from, from + DAY_SECONDS) <= cap
  {
    hide RunOf, DailyTicks, Chronological, FW.Run, FW.SumIn, DailyCapsWithin;
    var from, ticks := RunOf(chain, s, txs[..k]).config.lastDailyReset, DailyTicks(chain, s, txs);
    var j := |DailyTicks(chain, s, txs[..k])|;
    TicksPrefix(chain, s, txs, k);
    assert DailyTicks(chain, s, txs[..k]) == ticks[..j];
    ChronologicalPrefix(start, txs, k);
    DailyBreakerRuns(chain, s, start, txs[..k]);
    DailyBreakerRuns(chain, s, start, txs);
    DailyTickCaps(chain, s, txs, from, from + DAY_SECONDS, cap);
    FW.ResetDividesNothing(DAY_SECONDS, FW.Window(0, start), ticks, j);
    FW.AtMostTheCapWithoutReset(DAY_SECONDS, FW.Window(0, start), ticks, from, cap);
    PaidIsTicked(chain, s, start, txs, from, from + DAY_SECONDS);
  }

  /** What the counter, its last reset and the payouts so far must be for the 24 hours from `from` to keep to one cap. */
  predicate DayKeepsToOneCap(t: State, now: int, from: int, cap: nat) {
    FW.KeepsToOneCap(DAY_SECONDS, DailyWindow(t.config), PaidBetween(t.events, from, from + DAY_SECONDS),
                     PaidBetween(t.events, from, t.config.lastDailyReset), now, from, cap)
  }

  /**
   * In every state of every run, and for any 24 hours, over, under way or to come, the breaker itself keeps
   * the lamports paid in them to one cap, whatever payouts it is asked for next, if and only if the state is
   * as `DayKeepsToOneCap` has it.
   */
  lemma OneDailyCapExactly(chain: Chain, s: State, start: int, txs: seq<Transaction>, from: int, cap: nat)
    requires Initial(s, start) && Chronological(start, txs)
    requires DailyCapsWithin(chain, s, txs, from, from + DAY_SECONDS, cap)
    ensures var t, now := RunOf(chain, s, txs), Moment(start, txs);
      FW.OneCapWhateverFollows(DAY_SECONDS, DailyWindow(t.config), PaidBetween(t.events, from, from + DAY_SECONDS),
                               now, from, cap)
      <==> DayKeepsToOneCap(t, now, from, cap)
  {
    hide RunOf, DailyTicks, FW.Run, FW.SumIn, FW.KeepsToOneCap, FW.OneCapWhateverFollows, DailyCapsWithin;
    var ticks, t := DailyTicks(chain, s, txs), RunOf(chain, s, txs);
    DailyBreakerRuns(chain, s, start, txs);
    DailyTickCaps(chain, s, txs, from, from + DAY_SECONDS, cap);
    PaidIsTicked(chain, s, start, txs, from, from + DAY_SECONDS);
    PaidIsTicked(chain, s, start, txs, from, t.config.lastDailyReset);
    FW.OneCapExactly(DAY_SECONDS, FW.Window(0, start), ticks, Moment(start, txs), from, cap);
  }

  lemma {:induction false} LaterTicks(chain: Chain, s: State, start: int, txs: seq<Transaction>, k: nat)
    requires Chronological(start, txs) && k <= |txs|
    ensures forall i :: |DailyTicks(chain, s, txs[..k])| <= i < |DailyTicks(chain, s, txs)| ==>
              Moment(start, txs[..k]) <= DailyTicks(chain, s, txs)[i].time
  {
    hide StepError, Apply;
    if k == |txs| {
      assert txs[..k] == txs;
    } else {
      var front := txs[..|txs| - 1];
      assert front[..k] == txs[..k];
      LaterTicks(chain, s, start, front, k);
    }
  }

  /** A run that goes on from such a state by whatever transactions pays at most one cap in those 24 hours. */
  lemma OneDailyCapOnwards(chain: Chain, s: State, start: int, txs: seq<Transaction>, k: nat, from: int, cap: nat)
    requires Initial(s, start) && Chronological(start, txs) && k <= |txs|
    requires DailyCapsWithin(chain, s, txs, from, from + DAY_SECONDS, cap)
    requires DayKeepsToOneCap(RunOf(chain, s, txs[..k]), Moment(start, txs[..k]), from, cap)
    ensures PaidBetween(RunOf(chain, s, txs).events, from, from + DAY_SECONDS) <= cap
  {
    hide RunOf, DailyTicks, FW.Run, FW.SumIn, FW.KeepsToOneCap, DailyCapsWithin;
    var front, ticks := txs[..k], DailyTicks(chain, s, txs);
    var j := |DailyTicks(chain, s, front)|;
    TicksPrefix(chain, s, txs, k);
    assert DailyTicks(chain, s, front) == ticks[..j];
    LaterTicks(chain, s, start, txs, k);
    ChronologicalPrefix(start, txs, k);
    DailyBreakerRuns(chain, s, start, front);
    DailyBreakerRuns(chain, s, start, txs);
    DailyTickCaps(chain, s, txs, from, from + DAY_SECONDS, cap);
    PaidIsTicked(chain, s, start, front, from, from + DAY_SECONDS);
    PaidIsTicked(chain, s, start, front, from, RunOf(chain, s, front).config.lastDailyReset);
    PaidIsTicked(chain, s, start, txs, from, from + DAY_SECONDS);
    FW.OneCapOnwards(DAY_SECONDS, FW.Window(0, start), ticks, j, Moment(start, front), from, cap);
  }

  // ---------------------------------------------------------------------------------------------
  // Hourly: accepted unlocks
  // ---------------------------------------------------------------------------------------------

  /** An accepted unlock consults the hourly breaker; while the cap is zero it counts nothing. */
  function HourlyTick(s: State, clock: Clock, ins: Instruction): Option<FW.Tick> {
    if ins.Unlock? then
      Some(FW.Tick(clock.now, if s.config.maxHourlyOutflow > 0 then ins.unlock.amount else 0, s.config.maxHourlyOutflow))
    else None
  }

  /** The lamports each accepted unlock asked for, paid or scheduled, with the hourly cap then in force. */
  function HourlyTicks(chain: Chain, s: State, txs: seq<Transaction>): seq<FW.Tick> {
    if txs == [] then [] else
      var front, tx := txs[..|txs| - 1], txs[|txs| - 1];
      var before := RunOf(chain, s, front);
      FW.Extend(HourlyTicks(chain, s, front),
                if StepError(chain, before, tx.clock, tx.ins).None? then HourlyTick(before, tx.clock, tx.ins) else None)
  }

  lemma {:induction false} HourlyBreakerRuns(chain: Chain, s: State, start: int, txs: seq<Transaction>)
    requires Initial(s, start) && Chronological(start, txs)
    ensures var ticks := HourlyTicks(chain, s, txs);
      && HourlyWindow(RunOf(chain, s, txs).config) == FW.Run(HOUR_SECONDS, FW.Window(0, start), ticks)
      && FW.Respected(HOUR_SECONDS, FW.Window(0, start), ticks)
      && FW.Ordered(start, ticks)
      && FW.Now(start, ticks) <= Moment(start, txs)
  {
    hide StepError, StepEffect, FW.After;
    if txs == [] {
    } else {
      var front, tx := txs[..|txs| - 1], txs[|txs| - 1];
      var before := RunOf(chain, s, front);
      HourlyBreakerRuns(chain, s, start, front);
      if StepError(chain, before, tx.clock, tx.ins).None? {
        BreakersTick(chain, before, tx.clock, tx.ins);
        FW.Extended(HOUR_SECONDS, FW.Window(0, start), HourlyTicks(chain, s, front), HourlyTick(before, tx.clock, tx.ins));
      }
    }
  }

  /**
   * The lamports accepted by unlock while the hourly breaker is on, within any hour, come to at most
   * twice the largest hourly cap in force in it.
   */
  lemma HourlyOutflowBound(chain: Chain, s: State, start: int, txs: seq<Transaction>, from: int, cap: nat)
    requires Initial(s, start) && Chronological(start, txs)
    requires FW.CapsWithin(HourlyTicks(chain, s, txs), from, from + HOUR_SECONDS, cap)
    ensures var t, ticks := RunOf(chain, s, txs), HourlyTicks(chain, s, txs);
      && FW.SumIn(ticks, from, from + HOUR_SECONDS) <= 2 * cap
      && t.config.currentHourlyOutflow == FW.SumIn(ticks, t.config.lastHourlyReset, FW.Now(start, ticks) + 1)
  {
    var ticks := HourlyTicks(chain, s, txs);
    HourlyBreakerRuns(chain, s, start, txs);
    FW.AtMostTwiceTheCap(HOUR_SECONDS, FW.Window(0, start), ticks, from, cap);
    FW.CounterIsSumSinceReset(HOUR_SECONDS, FW.Window(0, start), ticks);
  }
}
