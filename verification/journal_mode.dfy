/**
 The retry loop that moves state.db into WAL. Times are integer nanoseconds.
 */
module JournalMode {

  const MILLISECOND := 1_000_000
  const BUSY_TIMEOUT := 5000 * MILLISECOND

  /** What the PRAGMA came back with, and the clock right after it. */
  datatype Reply = Mode(settled: string) | Refused(error: string)

  datatype Attempt = Attempt(reply: Reply, now: int)

  /** The clock at entry and what each attempt would meet. */
  datatype Env = Env(start: int, attempts: nat -> Attempt)

  datatype Outcome = Switched | QueryFailed(error: string) | Unsettled(mode: string)

  /** strings.EqualFold with "WAL". */
  predicate IsWal(mode: string) {
    |mode| == 3 && mode[0] in {'W', 'w'} && mode[1] in {'A', 'a'} && mode[2] in {'L', 'l'}
  }

  lemma WalInAnyCase(mode: string)
    ensures IsWal(mode) <==> mode in {"wal", "waL", "wAl", "wAL", "Wal", "WaL", "WAl", "WAL"}
  {
    if IsWal(mode) {
      assert mode == [mode[0], mode[1], mode[2]];
    }
  }

  predicate Settles(env: Env, k: nat) {
    var reply := env.attempts(k).reply;
    reply.Mode? && IsWal(reply.settled)
  }

  /** The sleep after attempt k, counting from 0. */
  function Backoff(k: nat): int {
    (k + 1) * MILLISECOND
  }

  function Deadline(env: Env): int {
    env.start + BUSY_TIMEOUT
  }

  /** Sleeping after attempt k would end before the deadline. */
  predicate MaySleep(env: Env, k: nat) {
    env.attempts(k).now + Backoff(k) < Deadline(env)
  }

  /** The clock never runs backwards and a sleep lasts at least as long as asked. */
  ghost predicate ClockAdvances(env: Env) {
    env.attempts(0).now >= env.start && forall k: nat :: SleepLasts(env, k)
  }

  ghost predicate SleepLasts(env: Env, k: nat) {
    env.attempts(k + 1).now >= env.attempts(k).now + Backoff(k)
  }

  // ------------------------------------------------------------------
  // The sum of the sleeps

  function Slept(k: nat): int {
    if k == 0 then 0 else Slept(k - 1) + Backoff(k - 1)
  }

  lemma {:induction false} SleptIsTriangular(k: nat)
    ensures 2 * Slept(k) == k * (k + 1) * MILLISECOND
  {
    if k > 0 {
      SleptIsTriangular(k - 1);
      assert (k - 1) * k + 2 * k == k * (k + 1);
    }
  }

  lemma {:induction false} SleptGrows(j: nat, k: nat)
    requires j <= k
    ensures Slept(j) <= Slept(k)
  {
    if j < k {
      SleptGrows(j, k - 1);
    }
  }

  lemma NinetyNineSleepsFit(k: nat)
    ensures Slept(k) < BUSY_TIMEOUT <==> k <= 99
  {
    SleptIsTriangular(99);
    SleptIsTriangular(100);
    if k <= 99 {
      SleptGrows(k, 99);
    } else {
      SleptGrows(100, k);
    }
  }

  // ------------------------------------------------------------------
  // The loop

  method SwitchJournalMode(env: Env) returns (outcome: Outcome, attempts: nat, sleeps: nat)
    requires ClockAdvances(env)
    ensures 1 <= attempts <= 100 && sleeps == attempts - 1
    ensures forall k | 0 <= k < sleeps :: MaySleep(env, k)
    ensures outcome == Switched <==> exists k :: 0 <= k < attempts && Settles(env, k)
    ensures outcome == Switched ==> Settles(env, attempts - 1)
    ensures outcome == Switched ==>
              && env.attempts(attempts - 1).reply.Mode?
              && env.attempts(attempts - 1).reply.settled
                 in {"wal", "waL", "wAl", "wAL", "Wal", "WaL", "WAl", "WAL"}
    ensures outcome.Unsettled? ==> outcome.mode !in {"wal", "waL", "wAl", "wAL", "Wal", "WaL", "WAl", "WAL"}
    ensures outcome != Switched ==> !MaySleep(env, attempts - 1)
    ensures outcome != Switched ==>
              match env.attempts(attempts - 1).reply
              case Refused(error) => outcome == QueryFailed(error)
              case Mode(settled) => outcome == Unsettled(settled)
  {
    var deadline := env.start + BUSY_TIMEOUT;
    var backoff := MILLISECOND;
    var reply;
    attempts, sleeps := 0, 0;
    while true
      invariant sleeps == attempts <= 99 && backoff == Backoff(sleeps)
      invariant env.attempts(attempts).now >= env.start + Slept(sleeps)
      invariant forall k | 0 <= k < sleeps :: MaySleep(env, k) && !Settles(env, k)
      decreases 100 - attempts
    {
      ghost var k := attempts;
      var attempt := env.attempts(attempts);
      attempts := attempts + 1;
      reply := attempt.reply;
      WalInAnyCase(if reply.Mode? then reply.settled else "");
      if reply.Mode? && IsWal(reply.settled) {
        assert Settles(env, k);
        return Switched, attempts, sleeps;
      }
      if attempt.now + backoff >= deadline {
        break;
      }
      assert MaySleep(env, k) && SleepLasts(env, k);
      sleeps, backoff := sleeps + 1, backoff + MILLISECOND;
      NinetyNineSleepsFit(sleeps);
    }
    if reply.Refused? {
      return QueryFailed(reply.error), attempts, sleeps;
    }
    return Unsettled(reply.settled), attempts, sleeps;
  }

  /** With a clock that only the sleeps advance and no success, the loop makes all 100 attempts. */
  method ExhaustTheBound(env: Env) returns (outcome: Outcome, attempts: nat, sleeps: nat)
    requires env.attempts(0).now == env.start
    requires forall k: nat :: SleepIsExact(env, k)
    requires forall k: nat :: !Settles(env, k)
    ensures attempts == 100 && sleeps == 99 && outcome != Switched
  {
    forall k: nat
      ensures SleepLasts(env, k)
    {
      assert SleepIsExact(env, k);
    }
    outcome, attempts, sleeps := SwitchJournalMode(env);
    ExactClock(env, attempts - 1);
    NinetyNineSleepsFit(attempts);
  }

  ghost predicate SleepIsExact(env: Env, k: nat) {
    env.attempts(k + 1).now == env.attempts(k).now + Backoff(k)
  }

  lemma {:induction false} ExactClock(env: Env, k: nat)
    requires env.attempts(0).now == env.start
    requires forall j: nat :: SleepIsExact(env, j)
    ensures env.attempts(k).now == env.start + Slept(k)
  {
    if k > 0 {
      ExactClock(env, k - 1);
      assert SleepIsExact(env, k - 1);
    }
  }
}
