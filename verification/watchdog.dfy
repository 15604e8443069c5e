/**
 The idle watchdog of awaitTurnEnd. Times and durations are integer nanoseconds;
 the ticker fires at the arming time plus each multiple of its interval.
 */
module Watchdog {
  import opened Options

  const WATCHDOG_INTERVAL := 15_000_000_000

  /**
   What happens around a wait: the clock's value before any listed activity, the
   times of activity in order, and when, if ever, the process dies and the wait is
   ended from outside (its waiter closed, or the harness shut down).
   */
  datatype Life = Life(since: int, activity: seq<int>, diedAt: Option<int>, endedAt: Option<int>)

  datatype Outcome = Ended | Killed(at: int) | StillWaiting

  /** What goes out: a recovered text, or TURN_IDLE_TIMEOUT. */
  datatype Emitted = Recovered(text: string) | IdleTimeout

  /** The interval: half the timeout, at most 15 s; 15 s also when half of it rounds to nothing. */
  function Interval(timeout: int): int
    requires timeout > 0
  {
    var half := timeout / 2;
    if 0 < half < WATCHDOG_INTERVAL then half else WATCHDOG_INTERVAL
  }

  function LastActivity(since: int, activity: seq<int>, t: int): int {
    if activity == [] then since
    else
      var n := |activity| - 1;
      if activity[n] <= t then activity[n] else LastActivity(since, activity[..n], t)
  }

  function LastBy(life: Life, t: int): int {
    LastActivity(life.since, life.activity, t)
  }

  predicate AliveAt(life: Life, t: int) {
    life.diedAt.None? || t < life.diedAt.value
  }

  predicate OverAt(life: Life, t: int) {
    life.endedAt.Some? && life.endedAt.value <= t
  }

  predicate Wedged(timeout: int, life: Life, t: int) {
    t - LastBy(life, t) >= timeout && AliveAt(life, t)
  }

  function Tick(timeout: int, arm: int, k: nat): int
    requires timeout > 0
  {
    arm + k * Interval(timeout)
  }

  /** Tick k comes while the wait lasts and finds the process wedged. */
  predicate Fires(timeout: int, arm: int, life: Life, k: nat)
    requires timeout > 0
  {
    !OverAt(life, Tick(timeout, arm, k)) && Wedged(timeout, life, Tick(timeout, arm, k))
  }

  /** What a wait reads and changes of the harness; `pending` are the texts a flush recovers. */
  class Harness {
    const timeout: int
    var pending: seq<string>
    var emitted: seq<Emitted>
    var killedByWatchdog: bool
    var kills: seq<int>

    constructor (timeout: int)
      ensures this.timeout == timeout && pending == [] && emitted == [] && !killedByWatchdog && kills == []
    {
      this.timeout := timeout;
      pending, emitted, killedByWatchdog, kills := [], [], false, [];
    }

    method FlushRecoveredAssistant()
      modifies `pending, `emitted
      ensures pending == [] && emitted == old(emitted) + RecoveredAll(old(pending))
      ensures |emitted| == |old(emitted)| + |old(pending)| && old(emitted) <= emitted
      ensures forall i | 0 <= i < |old(pending)| :: emitted[|old(emitted)| + i] == Recovered(old(pending)[i])
    {
      ghost var texts := pending;
      ghost var before := emitted;
      while pending != []
        invariant |pending| <= |texts| && pending == texts[|texts| - |pending|..]
        invariant emitted == before + RecoveredAll(texts[..|texts| - |pending|])
        decreases |pending|
      {
        ghost var n := |texts| - |pending|;
        assert texts[..n + 1][..n] == texts[..n] && pending[0] == texts[n];
        emitted := emitted + [Recovered(pending[0])];
        pending := pending[1..];
      }
      assert texts[..|texts|] == texts;
      RecoveredInOrder(texts);
    }

    /**
     awaitTurnEnd over its first `horizon` ticks; a timeout of 0 or less disables the
     watchdog. A process is killed at the first tick that finds it wedged: what was
     pending goes out, then the error, and the kill leaves its mark.
     */
    method AwaitTurnEnd(arm: int, life: Life, horizon: nat) returns (outcome: Outcome)
      modifies `pending, `emitted, `killedByWatchdog, `kills
      ensures outcome.Killed? ==>
                && pending == [] && emitted == old(emitted) + RecoveredAll(old(pending)) + [IdleTimeout]
                && |emitted| == |old(emitted)| + |old(pending)| + 1 && old(emitted) <= emitted
                && (forall i | 0 <= i < |old(pending)| :: emitted[|old(emitted)| + i] == Recovered(old(pending)[i]))
                && emitted[|emitted| - 1] == IdleTimeout
                && killedByWatchdog && kills == old(kills) + [outcome.at]
      ensures !outcome.Killed? ==>
                && pending == old(pending) && emitted == old(emitted)
                && killedByWatchdog == old(killedByWatchdog) && kills == old(kills)
      ensures timeout <= 0 ==> !outcome.Killed?
      ensures timeout > 0 && outcome.Killed? ==>
                exists k :: 1 <= k <= horizon && outcome.at == Tick(timeout, arm, k) && Fires(timeout, arm, life, k)
                            && forall j | 1 <= j < k :: !Fires(timeout, arm, life, j)
      ensures timeout > 0 && !outcome.Killed? ==> forall j | 1 <= j <= horizon :: !Fires(timeout, arm, life, j)
      ensures timeout > 0 && outcome.Ended? ==> OverAt(life, Tick(timeout, arm, horizon))
    {
      if timeout <= 0 {
        return if life.endedAt.Some? then Ended else StillWaiting;
      }
      var interval := WATCHDOG_INTERVAL;
      var half := timeout / 2;
      if half > 0 && half < interval {
        interval := half;
      }
      var k, now := 0, arm;
      while k < horizon
        invariant k <= horizon && now == Tick(timeout, arm, k)
        invariant forall j | 1 <= j <= k :: !Fires(timeout, arm, life, j)
        invariant unchanged(this)
      {
        k, now := k + 1, now + interval;
        assert now == Tick(timeout, arm, k);
        if life.endedAt.Some? && life.endedAt.value <= now {
          OverStaysOver(timeout, arm, life, k);
          TicksGrow(timeout, arm, k, horizon);
          return Ended;
        }
        if now - LastBy(life, now) < timeout {
          continue;
        }
        if !AliveAt(life, now) {
          continue;
        }
        assert Fires(timeout, arm, life, k);
        FlushRecoveredAssistant();
        emitted := emitted + [IdleTimeout];
        killedByWatchdog := true;
        kills := kills + [now];
        return Killed(now);
      }
      return StillWaiting;
    }
  }

  function RecoveredAll(texts: seq<string>): seq<Emitted> {
    if texts == [] then []
    else RecoveredAll(texts[..|texts| - 1]) + [Recovered(texts[|texts| - 1])]
  }

  lemma {:induction false} RecoveredInOrder(texts: seq<string>)
    ensures |RecoveredAll(texts)| == |texts|
    ensures forall i | 0 <= i < |texts| :: RecoveredAll(texts)[i] == Recovered(texts[i])
  {
    if texts != [] {
      RecoveredInOrder(texts[..|texts| - 1]);
    }
  }

  lemma TicksGrow(timeout: int, arm: int, j: nat, k: nat)
    requires timeout > 0 && j <= k
    ensures Tick(timeout, arm, j) <= Tick(timeout, arm, k)
  {
    assert Tick(timeout, arm, k) == Tick(timeout, arm, j) + (k - j) * Interval(timeout);
  }

  lemma TickZero(timeout: int, arm: int)
    requires timeout > 0
    ensures Tick(timeout, arm, 0) == arm && Interval(timeout) > 0
  {
  }

  lemma OverStaysOver(timeout: int, arm: int, life: Life, k: nat)
    requires timeout > 0 && OverAt(life, Tick(timeout, arm, k))
    ensures forall j: nat | k <= j :: !Fires(timeout, arm, life, j)
  {
    forall j: nat | k <= j
      ensures !Fires(timeout, arm, life, j)
    {
      TicksGrow(timeout, arm, k, j);
    }
  }

  // ------------------------------------------------------------------
  // When it fires

  lemma {:induction false} LastActivityBounds(since: int, activity: seq<int>, t: int, i: nat)
    requires i < |activity| && activity[i] <= t
    requires forall a, b | 0 <= a <= b < |activity| :: activity[a] <= activity[b]
    ensures LastActivity(since, activity, t) >= activity[i]
    decreases |activity|
  {
    var n := |activity| - 1;
    if activity[n] > t {
      LastActivityBounds(since, activity[..n], t, i);
    }
  }

  lemma {:induction false} NoActivityBetween(since: int, activity: seq<int>, s: int, t: int)
    requires s <= t && forall i | 0 <= i < |activity| :: activity[i] <= s || t < activity[i]
    ensures LastActivity(since, activity, t) == LastActivity(since, activity, s)
    decreases |activity|
  {
    if activity != [] {
      NoActivityBetween(since, activity[..|activity| - 1], s, t);
    }
  }

  function Max(a: int, b: int): int {
    if a < b then b else a
  }

  /** The first tick at or after m, counting from the first one after arming. */
  function TickAfter(timeout: int, arm: int, m: int): (k: nat)
    requires timeout > 0 && arm <= m
    ensures 1 <= k && m <= Tick(timeout, arm, k) <= m + Interval(timeout)
  {
    var interval := Interval(timeout);
    var q, r := (m - arm) / interval, (m - arm) % interval;
    assert m == arm + q * interval + r;
    assert (q + 1) * interval == q * interval + interval;
    if q > 0 && r == 0 then q else q + 1
  }

  /**
   A process silent since `last` and alive is killed no later than one interval after
   the timeout has run, or after arming if that is later.
   */
  lemma WedgedIsKilledInTime(timeout: int, arm: int, life: Life, last: int)
    requires timeout > 0
    requires
      var deadline := Max(arm, last + timeout) + Interval(timeout);
      && last <= deadline
      && LastBy(life, last) == last
      && (forall i | 0 <= i < |life.activity| :: life.activity[i] <= last || deadline < life.activity[i])
      && (life.diedAt.None? || deadline < life.diedAt.value)
      && (life.endedAt.None? || deadline < life.endedAt.value)
    ensures exists k: nat :: 1 <= k && Fires(timeout, arm, life, k)
                             && Tick(timeout, arm, k) <= Max(arm, last + timeout) + Interval(timeout)
  {
    var k := TickAfter(timeout, arm, Max(arm, last + timeout));
    NoActivityBetween(life.since, life.activity, last, Tick(timeout, arm, k));
    assert Fires(timeout, arm, life, k);
  }

  /** For timeouts of 2 ns and more, and only for them, there are two checks per timeout; at 1 ns one every 15 s. */
  lemma IntervalIsHalf(timeout: int)
    requires timeout > 0
    ensures timeout >= 2 <==>
              Interval(timeout) == if timeout / 2 < WATCHDOG_INTERVAL then timeout / 2 else WATCHDOG_INTERVAL
    ensures timeout >= 2 <==> 2 * Interval(timeout) <= timeout
  {
  }

  /** How the wait ends when the process stays silent: killed once, at the latest at the deadline. */
  method AwaitSilentProcess(h: Harness, arm: int, life: Life, last: int, horizon: nat) returns (at: int)
    requires h.timeout > 0
    requires
      var deadline := Max(arm, last + h.timeout) + Interval(h.timeout);
      && last <= deadline
      && LastBy(life, last) == last
      && (forall i | 0 <= i < |life.activity| :: life.activity[i] <= last || deadline < life.activity[i])
      && (life.diedAt.None? || deadline < life.diedAt.value)
      && (life.endedAt.None? || deadline < life.endedAt.value)
      && Tick(h.timeout, arm, horizon) >= deadline
    modifies h
    ensures h.kills == old(h.kills) + [at] && h.killedByWatchdog
    ensures h.emitted == old(h.emitted) + RecoveredAll(old(h.pending)) + [IdleTimeout]
    ensures |h.emitted| == |old(h.emitted)| + |old(h.pending)| + 1
    ensures forall i | 0 <= i < |old(h.pending)| :: h.emitted[|old(h.emitted)| + i] == Recovered(old(h.pending)[i])
    ensures at <= Max(arm, last + h.timeout) + Interval(h.timeout)
    ensures at - LastBy(life, at) >= h.timeout
  {
    hide Tick, Interval, LastActivity, OverAt, AliveAt, RecoveredAll;
    var timeout := h.timeout;
    var outcome := h.AwaitTurnEnd(arm, life, horizon);
    TickZero(timeout, arm);
    assert Tick(timeout, arm, horizon) > Tick(timeout, arm, 0);
    WedgedIsKilledInTime(timeout, arm, life, last);
    ghost var k: nat :| 1 <= k && Fires(timeout, arm, life, k)
                        && Tick(timeout, arm, k) <= Max(arm, last + timeout) + Interval(timeout);
    if k > horizon {
      TicksGrow(timeout, arm, horizon, k);
      assert Tick(timeout, arm, k) == Tick(timeout, arm, horizon);
      assert horizon > 0 && Fires(timeout, arm, life, horizon);
      k := horizon;
    }
    assert outcome.Killed?;
    ghost var first: nat :| 1 <= first <= horizon && outcome.at == Tick(timeout, arm, first)
                            && Fires(timeout, arm, life, first)
                            && forall j | 1 <= j < first :: !Fires(timeout, arm, life, j);
    assert first <= k;
    TicksGrow(timeout, arm, first, k);
    return outcome.at;
  }

  /** With activity in order, the last by a time is the latest that is not after it. */
  lemma {:induction false} LastIsLatest(since: int, activity: seq<int>, t: int)
    requires forall a, b | 0 <= a <= b < |activity| :: activity[a] <= activity[b]
    ensures
      var last := LastActivity(since, activity, t);
      && (last == since || last in activity)
      && (forall a | a in activity && a <= t :: a <= last <= t)
      && ((forall a | a in activity :: a > t) ==> last == since)
    decreases |activity|
  {
    if activity != [] {
      var n := |activity| - 1;
      assert activity[n] in activity;
      if activity[n] > t {
        LastIsLatest(since, activity[..n], t);
        assert forall a :: a in activity <==> a in activity[..n] || a == activity[n];
      }
    }
  }

  /** Consecutive activity, from the clock's first value to `until`, is never a timeout apart. */
  predicate GapsUnder(timeout: int, life: Life, until: int) {
    var a := [life.since] + life.activity + [until];
    forall i | 0 <= i < |a| - 1 :: a[i + 1] - a[i] < timeout
  }

  lemma {:induction false} GapsKeepLastRecent(timeout: int, since: int, activity: seq<int>, until: int, t: int)
    requires since <= t < until
    requires GapsUnder(timeout, Life(since, activity, None, None), until)
    ensures t - LastActivity(since, activity, t) < timeout
    decreases |activity|
  {
    var a := [since] + activity + [until];
    assert a[|activity| + 1] - a[|activity|] < timeout;
    if activity != [] {
      var n := |activity| - 1;
      assert a[|activity|] == activity[n];
      if activity[n] > t {
        var b := [since] + activity[..n] + [activity[n]];
        assert forall i | 0 <= i < |b| :: b[i] == a[i];
        GapsKeepLastRecent(timeout, since, activity[..n], activity[n], t);
      }
    }
  }

  /** A process whose gaps stay under the timeout until it dies or the wait is over is never killed. */
  lemma BusyIsNeverKilled(timeout: int, arm: int, life: Life, until: int, k: nat)
    requires timeout > 0 && life.since <= arm
    requires life.diedAt == Some(until) || life.endedAt == Some(until)
    requires GapsUnder(timeout, life, until)
    ensures !Fires(timeout, arm, life, k)
  {
    var t := Tick(timeout, arm, k);
    TicksGrow(timeout, arm, 0, k);
    if t < until {
      GapsKeepLastRecent(timeout, life.since, life.activity, until, t);
    }
  }

  /** Arming does not reset the clock: a process already silent long enough is killed at the first tick. */
  lemma ArmingDoesNotResetTheClock(timeout: int, arm: int, life: Life)
    requires timeout > 0
    requires
      var first := arm + Interval(timeout);
      && LastBy(life, first) <= first - timeout
      && (life.diedAt.None? || first < life.diedAt.value)
      && (life.endedAt.None? || first < life.endedAt.value)
    ensures Fires(timeout, arm, life, 1)
  {
  }
}
