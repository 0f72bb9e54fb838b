/**
 * The fixed-timestep accounting of `Logic::run` on an integer microsecond clock.
 * After every tick the loop reads the clock: if it is more than three ticks
 * behind schedule it resynchronises to the current time without sleeping;
 * otherwise the schedule advances by one tick and the loop sleeps until then
 * if that moment is still ahead.
 */
module Scheduler {

  /** `std::chrono::microseconds TICK_TIME{1000000 / 120}`. */
  const TICK_TIME: int := 1000000 / 120

  /** How far behind, in ticks, the loop may fall before it resynchronises. */
  const MAX_LAG: int := 3

  /** The next scheduled tick time, and how long to sleep before it (0: no sleep). */
  datatype Plan = Plan(lastUpdate: int, sleep: nat)

  /** One scheduling step after a tick, with the clock reading `now`. */
  function NextPlan(lastUpdate: int, now: int): (p: Plan)
    ensures now - p.lastUpdate <= 2 * TICK_TIME
    ensures p.sleep > 0 ==> now + p.sleep == p.lastUpdate
    ensures p.lastUpdate == now || p.lastUpdate == lastUpdate + TICK_TIME
  {
    if now > lastUpdate + TICK_TIME * MAX_LAG then Plan(now, 0)
    else if now < lastUpdate + TICK_TIME then Plan(lastUpdate + TICK_TIME, lastUpdate + TICK_TIME - now)
    else Plan(lastUpdate + TICK_TIME, 0)
  }

  /** A tick lasts 8333 microseconds (integer division truncates 8333.3). */
  lemma TickTimeValue()
    ensures TICK_TIME == 8333
  {
  }

  /** The schedule resynchronises exactly when the loop is more than three ticks behind; otherwise it advances one tick. */
  lemma ResyncExactlyWhenBehind(lastUpdate: int, now: int)
    ensures now > lastUpdate + MAX_LAG * TICK_TIME ==> NextPlan(lastUpdate, now).lastUpdate == now
    ensures now <= lastUpdate + MAX_LAG * TICK_TIME ==> NextPlan(lastUpdate, now).lastUpdate == lastUpdate + TICK_TIME
  {
  }

  /** The loop sleeps exactly when it did not resynchronise and the next tick time is still ahead. */
  lemma SleepExactlyWhenAhead(lastUpdate: int, now: int)
    ensures NextPlan(lastUpdate, now).sleep > 0 <==> now < lastUpdate + TICK_TIME
  {
  }

  /** With a clock that does not run backwards past the schedule, a sleep is at most one tick long. */
  lemma SleepAtMostOneTick(lastUpdate: int, now: int)
    requires lastUpdate <= now
    ensures NextPlan(lastUpdate, now).sleep <= TICK_TIME
    ensures NextPlan(lastUpdate, now).lastUpdate - now <= TICK_TIME
  {
  }

  /** A stall of ten ticks resets the schedule to the current time instead of queueing ten catch-up ticks. */
  lemma StallResets(lastUpdate: int)
    ensures NextPlan(lastUpdate, lastUpdate + 10 * TICK_TIME) == Plan(lastUpdate + 10 * TICK_TIME, 0)
  {
  }

  /** A lag of up to three ticks is caught up: the next tick runs without sleeping. */
  lemma SmallLagCatchesUp(lastUpdate: int, lag: int)
    requires TICK_TIME <= lag <= MAX_LAG * TICK_TIME
    ensures NextPlan(lastUpdate, lastUpdate + lag) == Plan(lastUpdate + TICK_TIME, 0)
  {
  }
}
