/** The three call sites of the advisory service and how each consults
    and feeds the shared circuit breaker: the fleet-wide optimisation loop
    (index.js:89-124), the `ai-chat` tick (index.js:423-468) and the
    `ai-move` tick (index.js:471-513). */
module Advisor {
  import opened Wrappers
  import Breaker

  datatype Site = Optimization | AiChat | AiMove

  /** What a call returned: an answer, or a failure. */
  datatype Reply<T> = Answer(value: T) | Fail(failure: Breaker.Failure)

  /** The fields the optimisation loop writes back: `joinDelay` and
      `intensity`, exactly as parsed. */
  datatype Advice = Advice(joinDelay: int, intensity: int)

  /** What one tick of a call site does. */
  datatype Decision = Idle | LocalFallback | CallService

  /** Only the optimisation and ai-chat sites look at the failure status;
      the ai-move site only logs. */
  predicate WatchesRateLimit(site: Site) {
    site != AiMove
  }

  /** The breaker after a failed call at `site`. */
  function AfterFailure(site: Site, b: Breaker.Breaker, f: Breaker.Failure, now: int): (r: Breaker.Breaker)
    ensures !WatchesRateLimit(site) || f == Breaker.OtherFailure ==> r == b
    ensures WatchesRateLimit(site) && f == Breaker.RateLimited ==>
              r == Breaker.Breaker(true, Some(now + Breaker.Cooldown))
  {
    if WatchesRateLimit(site) then Breaker.OnFailure(b, f, now) else b
  }

  /** `runAiOptimization` goes past its guard only with AI enabled, a
      non-empty live list and a closed breaker. */
  function OptimizationTick(aiActive: bool, live: nat, b: Breaker.Breaker): (d: Decision)
    ensures d != LocalFallback
    ensures d == CallService <==> aiActive && live > 0 && !b.broken
  {
    if !aiActive || live == 0 || b.broken then Idle else CallService
  }

  /** The ai-chat tick: idle while paused or without an entity, a local
      fallback line while the breaker is tripped, a call otherwise. */
  function ChatTick(paused: bool, hasEntity: bool, b: Breaker.Breaker): (d: Decision)
    ensures d == Idle <==> paused || !hasEntity
    ensures d == CallService <==> !paused && hasEntity && !b.broken
  {
    if paused || !hasEntity then Idle
    else if b.broken then LocalFallback
    else CallService
  }

  /** The ai-move tick: idle while paused or without an entity; a local
      position nudge while the breaker is tripped or when the tick is not
      one of the sampled five percent (`sampled` is `Math.random() <= 0.05`);
      a call otherwise. */
  function MoveTick(paused: bool, hasEntity: bool, b: Breaker.Breaker, sampled: bool): (d: Decision)
    ensures d == Idle <==> paused || !hasEntity
    ensures d == CallService <==> !paused && hasEntity && !b.broken && sampled
  {
    if paused || !hasEntity then Idle
    else if b.broken || !sampled then LocalFallback
    else CallService
  }

  /** While the breaker is tripped no site calls out. */
  lemma BrokenMeansNoCalls(aiActive: bool, live: nat, paused: bool, hasEntity: bool,
                           sampled: bool, b: Breaker.Breaker)
    requires b.broken
    ensures OptimizationTick(aiActive, live, b) != CallService
    ensures ChatTick(paused, hasEntity, b) != CallService
    ensures MoveTick(paused, hasEntity, b, sampled) != CallService
  {
  }
}
