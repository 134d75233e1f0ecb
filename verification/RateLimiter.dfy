/** The chat bot's per-user rate limiter: a log of passed requests per user, pruned on use and by a timer. */
module RateLimiter {
  import opened Options
  import opened SlidingLogs

  datatype UserId = UserId(id: int)

  datatype Sender = Sender(id: UserId, isBot: bool)

  /** The next middleware is called, or the user is told off: by answering the button's query, or by a message. */
  datatype Verdict = Next | QueryAnswered | Replied

  type Logs = map<UserId, seq<int>>

  function LogOf(logs: Logs, uid: UserId): seq<int> { if uid in logs then logs[uid] else [] }

  /** Every bucket shows, after the cutoff, just what the full history of its user does. */
  ghost predicate Represents(buckets: Logs, passed: Logs, cutoff: int) {
    forall uid :: After(LogOf(buckets, uid), cutoff) == After(LogOf(passed, uid), cutoff)
  }

  ghost predicate Past(passed: Logs, now: int) { forall uid :: NotAfter(LogOf(passed, uid), now) }

  /** The requests in (t - windowMs, t]. */
  function InWindow(times: seq<int>, t: int, windowMs: nat): nat { CountIn(times, t - windowMs, t) }

  /** No user ever had more than the limit pass within one window. */
  ghost predicate WithinLimit(passed: Logs, windowMs: nat, limit: nat) {
    forall uid: UserId, t: int :: InWindow(LogOf(passed, uid), t, windowMs) <= limit
  }

  function Limit(maxRequests: int): nat { if maxRequests > 0 then maxRequests else 0 }

  /** What the timer leaves: each log filtered, the empty ones dropped. */
  function Pruned(buckets: Logs, cutoff: int): Logs {
    map uid | uid in buckets && After(buckets[uid], cutoff) != [] :: After(buckets[uid], cutoff)
  }

  /** Half way: the keys left are as they were. */
  function PartlyPruned(buckets: Logs, cutoff: int, left: set<UserId>): Logs {
    map uid | uid in buckets && (uid in left || After(buckets[uid], cutoff) != []) ::
      if uid in left then buckets[uid] else After(buckets[uid], cutoff)
  }

  lemma PruneOne(buckets: Logs, cutoff: int, left: set<UserId>, uid: UserId)
    requires uid in left && left <= buckets.Keys
    ensures uid in PartlyPruned(buckets, cutoff, left) && PartlyPruned(buckets, cutoff, left)[uid] == buckets[uid]
    ensures var part, kept := PartlyPruned(buckets, cutoff, left), After(buckets[uid], cutoff);
      PartlyPruned(buckets, cutoff, left - {uid}) == if kept == [] then part - {uid} else part[uid := kept]
  {
    hide After;
  }

  lemma PruneEnds(buckets: Logs, cutoff: int)
    ensures PartlyPruned(buckets, cutoff, buckets.Keys) == buckets
    ensures PartlyPruned(buckets, cutoff, {}) == Pruned(buckets, cutoff)
  {
    hide After;
  }

  class RateLimiter {
    const windowMs: nat
    const maxRequests: int
    var buckets: Logs
    ghost var passed: Logs
    ghost var clock: int

    ghost predicate Valid()
      reads this
    {
      && Represents(buckets, passed, clock - windowMs)
      && Past(passed, clock)
      && WithinLimit(passed, windowMs, Limit(maxRequests))
    }

    constructor (windowMs: nat, maxRequests: int, now: int)
      ensures this.windowMs == windowMs && this.maxRequests == maxRequests
      ensures Valid() && passed == map[] && clock == now
    {
      this.windowMs := windowMs;
      this.maxRequests := maxRequests;
      buckets := map[];
      passed := map[];
      clock := now;
    }

    /**
     * The middleware: calls the next one unless the user's window already holds the limit; what comes from
     * nobody or from a bot always goes on, and leaves no trace.
     */
    method Handle(from: Option<Sender>, isQuery: bool, now: int) returns (verdict: Verdict)
      requires Valid() && now >= clock
      modifies this
      ensures Valid() && clock == now && WithinLimit(passed, windowMs, Limit(maxRequests))
      ensures from.None? || from.value.isBot ==> verdict == Next && passed == old(passed) && buckets == old(buckets)
      ensures from.Some? && !from.value.isBot ==>
        var uid := from.value.id;
        && verdict == (if InWindow(LogOf(old(passed), uid), now, windowMs) < maxRequests then Next
                       else if isQuery then QueryAnswered else Replied)
        && passed == if verdict == Next then old(passed)[uid := LogOf(old(passed), uid) + [now]] else old(passed)
    {
      hide Represents, Past, WithinLimit;
      LaterRepresents(buckets, passed, clock - windowMs, now - windowMs);
      LaterPast(passed, clock, now);
      clock := now;
      if from.None? || from.value.isBot {
        return Next;
      }
      var uid := from.value.id;
      var cutoff := now - windowMs;
      var times := Filter(LogOf(buckets, uid), cutoff);
      WindowIsBucket(buckets, passed, windowMs, uid, now);
      if |times| >= maxRequests {
        return if isQuery then QueryAnswered else Replied;
      }
      PassKeepsRepresenting(buckets, passed, cutoff, now, uid);
      PassKeepsPast(passed, now, uid);
      PassKeepsLimit(passed, windowMs, Limit(maxRequests), uid, now);
      times := times + [now];
      buckets := buckets[uid := times];
      passed := passed[uid := LogOf(passed, uid) + [now]];
      return Next;
    }

    /** The timer: prunes every bucket and drops the empty ones, which no request can notice. */
    method Prune(now: int)
      requires Valid() && now >= clock
      modifies this
      ensures Valid() && clock == now && passed == old(passed)
      ensures buckets == Pruned(old(buckets), now - windowMs)
    {
      hide Represents, Past, WithinLimit, Pruned, PartlyPruned;
      ghost var before := buckets;
      LaterRepresents(buckets, passed, clock - windowMs, now - windowMs);
      LaterPast(passed, clock, now);
      clock := now;
      var cutoff := now - windowMs;
      PruneEnds(before, cutoff);
      var left := buckets;
      while left != map[]
        invariant left.Keys <= before.Keys && clock == now && passed == old(passed)
        invariant buckets == PartlyPruned(before, cutoff, left.Keys)
        decreases |left|
      {
        var uid :| uid in left;
        PruneOne(before, cutoff, left.Keys, uid);
        left := left - {uid};
        var kept := Filter(buckets[uid], cutoff);
        if |kept| == 0 {
          buckets := buckets - {uid};
        } else {
          buckets := buckets[uid := kept];
        }
      }
      PruneKeepsRepresenting(before, passed, cutoff);
    }
  }

  lemma LaterRepresents(buckets: Logs, passed: Logs, cutoff: int, later: int)
    requires Represents(buckets, passed, cutoff) && cutoff <= later
    ensures Represents(buckets, passed, later)
  {
    forall uid ensures After(LogOf(buckets, uid), later) == After(LogOf(passed, uid), later) {
      AfterTwice(LogOf(buckets, uid), cutoff, later);
      AfterTwice(LogOf(passed, uid), cutoff, later);
    }
  }

  lemma LaterPast(passed: Logs, now: int, later: int)
    requires Past(passed, now) && now <= later
    ensures Past(passed, later)
  {
    forall uid ensures NotAfter(LogOf(passed, uid), later) {
      assert NotAfter(LogOf(passed, uid), now);
    }
  }

  /** The filtered bucket is as long as the window of the full history is full. */
  lemma WindowIsBucket(buckets: Logs, passed: Logs, windowMs: nat, uid: UserId, now: int)
    requires Represents(buckets, passed, now - windowMs) && Past(passed, now)
    ensures |After(LogOf(buckets, uid), now - windowMs)| == InWindow(LogOf(passed, uid), now, windowMs)
  {
    CountUpToNow(LogOf(passed, uid), now - windowMs, now);
  }

  lemma PassKeepsRepresenting(buckets: Logs, passed: Logs, cutoff: int, now: int, uid: UserId)
    requires Represents(buckets, passed, cutoff)
    ensures Represents(buckets[uid := After(LogOf(buckets, uid), cutoff) + [now]],
                       passed[uid := LogOf(passed, uid) + [now]], cutoff)
  {
    hide After;
    var times, log := After(LogOf(buckets, uid), cutoff), LogOf(passed, uid);
    var b, p := buckets[uid := times + [now]], passed[uid := log + [now]];
    AfterTwice(LogOf(buckets, uid), cutoff, cutoff);
    AfterAppend(times, now, cutoff);
    AfterAppend(log, now, cutoff);
    assert After(log, cutoff) == times;
    forall u ensures After(LogOf(b, u), cutoff) == After(LogOf(p, u), cutoff) {
      if u != uid {
        assert LogOf(b, u) == LogOf(buckets, u) && LogOf(p, u) == LogOf(passed, u);
      }
    }
  }

  lemma PassKeepsPast(passed: Logs, now: int, uid: UserId)
    requires Past(passed, now)
    ensures Past(passed[uid := LogOf(passed, uid) + [now]], now)
  {
    var p := passed[uid := LogOf(passed, uid) + [now]];
    forall u ensures NotAfter(LogOf(p, u), now) {
      assert NotAfter(LogOf(passed, u), now);
    }
  }

  /** One more request at `now` when fewer than the limit passed in the window before it. */
  lemma PassKeepsLimit(passed: Logs, windowMs: nat, limit: nat, uid: UserId, now: int)
    requires WithinLimit(passed, windowMs, limit) && Past(passed, now)
    requires InWindow(LogOf(passed, uid), now, windowMs) < limit
    ensures WithinLimit(passed[uid := LogOf(passed, uid) + [now]], windowMs, limit)
  {
    var log := LogOf(passed, uid);
    var p := passed[uid := log + [now]];
    assert NotAfter(log, now);
    forall u: UserId, t: int ensures InWindow(LogOf(p, u), t, windowMs) <= limit {
      assert InWindow(LogOf(passed, u), t, windowMs) <= limit;
      if u == uid {
        CountAppend(log, now, t - windowMs, t);
        if t - windowMs < now <= t {
          NothingLater(log, now, t - windowMs, t);
          CountMonotoneEarlier(log, t - windowMs, now - windowMs, now);
        }
      }
    }
  }

  lemma CountMonotoneEarlier(times: seq<int>, from: int, lower: int, to: int)
    requires lower <= from
    ensures CountIn(times, from, to) <= CountIn(times, lower, to)
  {
    CountMonotone(times, from, to, lower, to);
  }

  /** Nothing is counted past the last time. */
  lemma {:induction false} NothingLater(times: seq<int>, now: int, from: int, to: int)
    requires NotAfter(times, now) && now <= to
    ensures CountIn(times, from, to) == CountIn(times, from, now)
  {
    if times != [] {
      NothingLater(times[..|times| - 1], now, from, to);
    }
  }

  /** So pruning never changes a decision. */
  lemma PruneKeepsRepresenting(buckets: Logs, passed: Logs, cutoff: int)
    requires Represents(buckets, passed, cutoff)
    ensures Represents(Pruned(buckets, cutoff), passed, cutoff)
  {
    var p := Pruned(buckets, cutoff);
    forall uid ensures After(LogOf(p, uid), cutoff) == After(LogOf(passed, uid), cutoff) {
      AfterTwice(LogOf(buckets, uid), cutoff, cutoff);
      assert After(LogOf(buckets, uid), cutoff) == After(LogOf(passed, uid), cutoff);
    }
  }
}
