/** The monitor's transaction-rate check and its bounded list of alerts. */
module AnomalyDetector {
  import opened SlidingLogs

  const RATE_WINDOW_MS := 60000
  const MAX_ALERTS: nat := 1000

  /** The part of an alert that its check determines. */
  datatype Alert = RateSpike(rate: nat, timestamp: int) | OtherAlert(id: string, timestamp: int)

  /** The last n entries. */
  function Last<T>(s: seq<T>, n: nat): seq<T> { if |s| > n then s[|s| - n..] else s }

  lemma LastAppend<T>(s: seq<T>, x: T, n: nat)
    requires n >= 1
    ensures Last(Last(s, n) + [x], n) == Last(s + [x], n)
  {
  }

  /** The transactions less than a minute older than the last one. */
  function LastMinute(history: seq<int>): seq<int> {
    if history == [] then [] else After(history, history[|history| - 1] - RATE_WINDOW_MS)
  }

  class AnomalyDetector {
    const maxTransactionsPerMinute: int
    var recentTransactions: seq<int>
    var alerts: seq<Alert>
    /** Every transaction and every alert since the detector was made. */
    ghost var history: seq<int>
    ghost var raised: seq<Alert>

    ghost predicate Valid()
      reads this
    {
      && Ordered(history)
      && recentTransactions == LastMinute(history)
      && alerts == Last(raised, MAX_ALERTS)
    }

    constructor (maxTransactionsPerMinute: int)
      ensures this.maxTransactionsPerMinute == maxTransactionsPerMinute
      ensures Valid() && history == [] && raised == []
    {
      this.maxTransactionsPerMinute := maxTransactionsPerMinute;
      recentTransactions := [];
      alerts := [];
      history := [];
      raised := [];
    }

    /** Records a transaction and alerts exactly when the full history holds more than the limit in the last minute. */
    method CheckTransactionRate(now: int)
      requires Valid() && NotAfter(history, now)
      modifies this
      ensures Valid() && history == old(history) + [now]
      ensures var rate := CountIn(history, now - RATE_WINDOW_MS, now);
        raised == if rate > maxTransactionsPerMinute then old(raised) + [RateSpike(rate, now)] else old(raised)
    {
      hide After, CountIn, LastMinute;
      LogKept(history, now);
      OneMore(history, now);
      recentTransactions := recentTransactions + [now];
      recentTransactions := Filter(recentTransactions, now - RATE_WINDOW_MS);
      history := history + [now];
      if |recentTransactions| > maxTransactionsPerMinute {
        RaiseAlert(RateSpike(|recentTransactions|, now));
      }
    }

    /** Appends an alert; only the last thousand are kept. */
    method RaiseAlert(alert: Alert)
      requires Valid()
      modifies `alerts, `raised
      ensures Valid() && raised == old(raised) + [alert]
    {
      LastAppend(raised, alert, MAX_ALERTS);
      raised := raised + [alert];
      alerts := alerts + [alert];
      if |alerts| > MAX_ALERTS {
        alerts := alerts[|alerts| - MAX_ALERTS..];
      }
    }
  }

  /** Filtering the pruned log with the new transaction is filtering the full history with it. */
  lemma LogKept(history: seq<int>, now: int)
    requires Ordered(history) && NotAfter(history, now)
    ensures After(LastMinute(history) + [now], now - RATE_WINDOW_MS) == LastMinute(history + [now])
  {
    hide After;
    AfterAppend(LastMinute(history), now, now - RATE_WINDOW_MS);
    AfterAppend(history, now, now - RATE_WINDOW_MS);
    if history != [] {
      AfterTwice(history, history[|history| - 1] - RATE_WINDOW_MS, now - RATE_WINDOW_MS);
    }
  }

  lemma OneMore(history: seq<int>, now: int)
    requires Ordered(history) && NotAfter(history, now)
    ensures Ordered(history + [now]) && NotAfter(history + [now], now)
    ensures CountIn(history + [now], now - RATE_WINDOW_MS, now) == |LastMinute(history + [now])|
  {
    CountUpToNow(history + [now], now - RATE_WINDOW_MS, now);
  }
}
