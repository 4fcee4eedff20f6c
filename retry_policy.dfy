/**
 * The capped reconnect counter both the websocket service (cap 10) and the video stream
 * component (cap 5) keep: a failure schedules one more reconnect only while the counter
 * is below the cap, and then increments it.
 */
module RetryPolicy {

  /** Whether a failure seen with `attempts` already used schedules a reconnect. */
  predicate Schedules(attempts: nat, max: nat): (s: bool)
    ensures s ==> attempts + 1 <= max
    ensures attempts >= max ==> !s
    ensures attempts < max ==> s
  {
    attempts < max
  }

  /** The counter after one failure. */
  function NextAttempts(attempts: nat, max: nat): (r: nat)
    ensures attempts <= max ==> r <= max
    ensures attempts <= r <= attempts + 1
    ensures r != attempts <==> Schedules(attempts, max)
  {
    if attempts < max then attempts + 1 else attempts
  }

  /** The counter after `failures` failures with no successful open in between. */
  function AttemptsAfter(attempts: nat, max: nat, failures: nat): nat
    decreases failures
  {
    if failures == 0 then attempts
    else AttemptsAfter(NextAttempts(attempts, max), max, failures - 1)
  }

  /** How many reconnects those `failures` failures schedule. */
  function ScheduledDuring(attempts: nat, max: nat, failures: nat): nat
    decreases failures
  {
    if failures == 0 then 0
    else (if Schedules(attempts, max) then 1 else 0)
         + ScheduledDuring(NextAttempts(attempts, max), max, failures - 1)
  }

  /**
   * Within one failure episode the counter climbs by one per failure until it reaches the
   * cap and then stays there: at most `max - attempts` reconnects are ever scheduled.
   */
  lemma {:induction false} EpisodeBounded(attempts: nat, max: nat, failures: nat)
    requires attempts <= max
    ensures AttemptsAfter(attempts, max, failures)
            == if attempts + failures <= max then attempts + failures else max
    ensures ScheduledDuring(attempts, max, failures)
            == AttemptsAfter(attempts, max, failures) - attempts
    ensures ScheduledDuring(attempts, max, failures) <= max - attempts
    decreases failures
  {
    if failures > 0 {
      EpisodeBounded(NextAttempts(attempts, max), max, failures - 1);
    }
  }

  /** Once the cap is reached no failure schedules anything. */
  lemma {:induction false} ExhaustedStaysExhausted(max: nat, failures: nat)
    ensures AttemptsAfter(max, max, failures) == max
    ensures ScheduledDuring(max, max, failures) == 0
    decreases failures
  {
    if failures > 0 {
      ExhaustedStaysExhausted(max, failures - 1);
    }
  }
}
