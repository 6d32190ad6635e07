/** The advisory-service circuit breaker (index.js:86-87, 107-114,
    442-449): a flag and the deadline of the one pending cooldown timer.
    A rate-limit failure (HTTP 429) sets the flag and re-arms the timer for
    ten minutes from now, cancelling any earlier one; when the timer fires
    the flag clears. Time is an abstract clock in milliseconds. */
module Breaker {
  import opened Wrappers

  /** `setTimeout(..., 600000)`. */
  const Cooldown: nat := 600000

  /** `aiCircuitBroken`, and when the cooldown timer `aiCooldownTimer` is
      pending, the time it fires. */
  datatype Breaker = Breaker(broken: bool, cooldownUntil: Option<int>)

  const Closed: Breaker := Breaker(false, None)

  /** The flag is set exactly while a cooldown timer is pending. */
  predicate Valid(b: Breaker) {
    b.broken <==> b.cooldownUntil.Some?
  }

  /** How an advisory call failed: `e.status === 429` or anything else. */
  datatype Failure = RateLimited | OtherFailure

  /** The `.catch` handler of a call site that watches for rate limits. A
      429 trips the breaker with a fresh deadline; any other failure leaves
      it as it was. */
  function OnFailure(b: Breaker, f: Failure, now: int): (r: Breaker)
    ensures f == RateLimited ==> r.broken && r.cooldownUntil == Some(now + Cooldown)
    ensures f == OtherFailure ==> r == b
    ensures Valid(b) ==> Valid(r)
  {
    match f
    case RateLimited => Breaker(true, Some(now + Cooldown))
    case OtherFailure => b
  }

  /** The clock reaches `now`: a pending cooldown whose deadline has passed
      fires and clears the flag; otherwise nothing changes. */
  function Advance(b: Breaker, now: int): (r: Breaker)
    ensures Valid(b) ==> Valid(r)
    ensures r.broken ==> b.broken
    ensures b.broken && b.cooldownUntil.Some? && now < b.cooldownUntil.value ==> r == b
    ensures b.cooldownUntil.Some? && b.cooldownUntil.value <= now ==> !r.broken
  {
    match b.cooldownUntil
    case Some(d) => if d <= now then Closed else b
    case None => b
  }

  /** What happens to the breaker over time: failures reported by call
      sites and clock advances, each at a time. */
  datatype Happening = Failed(failure: Failure, at: int) | Tick(at: int)

  function AtTime(h: Happening): int {
    match h
    case Failed(_, t) => t
    case Tick(t) => t
  }

  function Replay(b: Breaker, hs: seq<Happening>): Breaker
    decreases |hs|
  {
    if |hs| == 0 then b
    else
      var b' := match hs[0]
        case Failed(f, t) => OnFailure(b, f, t)
        case Tick(t) => Advance(b, t);
      Replay(b', hs[1..])
  }

  /** Once tripped at `t0`, the breaker stays tripped through anything that
      happens before `t0` plus ten minutes (and not before `t0`): further
      failures only push the deadline later. */
  lemma {:induction false} StaysBrokenForCooldown(b: Breaker, t0: int, hs: seq<Happening>)
    requires Valid(b) && b.broken && b.cooldownUntil.value >= t0 + Cooldown
    requires forall k :: 0 <= k < |hs| ==> t0 <= AtTime(hs[k]) < t0 + Cooldown
    ensures Replay(b, hs).broken
    decreases |hs|
  {
    if |hs| > 0 {
      var b' := match hs[0]
        case Failed(f, t) => OnFailure(b, f, t)
        case Tick(t) => Advance(b, t);
      assert t0 <= AtTime(hs[0]) < t0 + Cooldown;
      assert b'.broken && b'.cooldownUntil.value >= t0 + Cooldown;
      StaysBrokenForCooldown(b', t0, hs[1..]);
    }
  }

  /** A 429 at `t0` followed by nothing but the clock reaching `t0` plus ten
      minutes leaves the breaker closed again. */
  lemma ClosesAfterCooldown(b: Breaker, t0: int)
    ensures Replay(b, [Failed(RateLimited, t0), Tick(t0 + Cooldown)]) == Closed
  {
    var hs := [Failed(RateLimited, t0), Tick(t0 + Cooldown)];
    var tripped := Breaker(true, Some(t0 + Cooldown));
    assert hs[1..] == [Tick(t0 + Cooldown)];
    assert Replay(b, hs) == Replay(tripped, hs[1..]);
    assert hs[1..][1..] == [];
    assert Replay(tripped, hs[1..]) == Replay(Closed, []);
  }
}
