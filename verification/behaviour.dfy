/** The operator-visible behaviour of the fleet, event by event: what
    starting, stopping, pausing and resuming do; what a firing timer,
    a login and a termination do to the live list and the announcements;
    how sends are counted; and how the advisory call sites drive the
    breaker. */
module Behaviour {
  import opened Wrappers
  import opened Orchestrator
  import opened Invariant
  import Scheduler
  import Naming
  import Proxy
  import Breaker
  import Advisor
  import Gate
  import Reconnect
  import Text

  // ---------------------------------------------------------------- start and stop

  /** `start-test` (index.js:134-144): the fleet is unpaused, the payload
      merged into the configuration with the intensity defaulting to 5,
      the live list emptied, and exactly one pending timer per requested
      slot scheduled, in non-decreasing order of due time and each carrying
      the requested count. The fleet then runs exactly when that count is
      positive. */
  lemma StartSchedules(f: Fleet, u: ConfigUpdate, intensity: Option<int>, enableAi: bool, jitters: seq<nat>)
    requires WellFormed(StartTest(u, intensity, enableAi, jitters))
    ensures var r := Step(f, StartTest(u, intensity, enableAi, jitters));
            && !r.paused && r.aiActive == enableAi && r.bots == []
            && r.config.intensity == (if intensity.Some? && intensity.value != 0 then intensity.value else 5)
            && r.config.count == u.count.GetOr(f.config.count)
            && |r.spawns| == (if StartCount(u) > 0 then StartCount(u) else 0)
            && (forall i :: 0 <= i < |r.spawns| ==> !r.spawns[i].fired && r.spawns[i].total == StartCount(u))
            && (forall i, k :: 0 <= i < k < |r.spawns| ==> r.spawns[i].due <= r.spawns[k].due)
            && r.reconnects == f.reconnects
            && (IsRunning(r) <==> StartCount(u) > 0)
  {
  }

  /** A count that is missing, zero or unparsable starts nothing: the
      fleet ends up stopped. */
  lemma StartWithoutCountStops(f: Fleet, u: ConfigUpdate, intensity: Option<int>, enableAi: bool)
    requires u.count.None? || u.count.value <= 0
    ensures var r := Step(f, StartTest(u, intensity, enableAi, []));
            !IsRunning(r) && r.spawns == [] && r.bots == []
  {
  }

  /** `stop-test` (index.js:182-185): the fleet is unpaused and no longer
      running; nothing is announced, the configuration is kept, and the
      replacement timers already scheduled are not cancelled. */
  lemma StopClears(f: Fleet)
    ensures var r := Step(f, StopTest);
            && !IsRunning(r) && !r.paused && r.bots == [] && r.spawns == []
            && r.reconnects == f.reconnects && r.log == f.log && r.config == f.config
            && r.totalJoins == f.totalJoins
  {
  }

  /** Because stopping leaves replacement timers pending, one that comes
      due after a stop still creates a session whenever the configured
      count is positive. */
  lemma {:induction false} StopLeavesReconnects(f: Fleet, k: nat, draw: nat)
    requires draw < Naming.SuffixSpan
    requires k < |f.reconnects| && !f.reconnects[k].fired && f.reconnects[k].due <= f.clock
    requires f.config.count > 0
    ensures var r := Step(Step(f, StopTest), ReconnectFires(k, draw));
            && |r.sessions| == |f.sessions| + 1
            && r.sessions[|f.sessions|].listening
            && r.bots == []
  {
    var s := Step(f, StopTest);
    assert s.reconnects == f.reconnects && s.bots == [] && s.config == f.config;
    var s1 := s.(reconnects := s.reconnects[k := s.reconnects[k].(fired := true)]);
    assert Step(s, ReconnectFires(k, draw)) == CreateSession(s1, 0, f.config.count, draw);
  }

  // ---------------------------------------------------------------- timers

  /** A start timer that is pending and due is consumed, and creates a
      session exactly when the live list is below the count it captured;
      any other firing changes nothing. */
  lemma DropCheck(f: Fleet, k: nat, draw: nat)
    requires draw < Naming.SuffixSpan
    ensures var r := Step(f, SpawnFires(k, draw));
            if k < |f.spawns| && !f.spawns[k].fired && f.spawns[k].due <= f.clock then
              && r.spawns[k].fired && |r.spawns| == |f.spawns|
              && r.bots == f.bots
              && (|r.sessions| == |f.sessions| + 1 <==> |f.bots| < f.spawns[k].total)
              && (|r.sessions| == |f.sessions| <==> |f.bots| >= f.spawns[k].total)
            else r == f
  {
  }

  /** The session a firing creates is named and proxied for ordinal
      `|bots|`: its username begins with the configured base (or
      `CRYSTAL`), and it gets a proxy, whose address carries a scheme,
      exactly when a proxy list is configured. */
  lemma {:induction false} CreatedSessionIdentity(f: Fleet, k: nat, draw: nat)
    requires draw < Naming.SuffixSpan
    requires k < |f.spawns| && !f.spawns[k].fired && f.spawns[k].due <= f.clock
    requires |f.bots| < f.spawns[k].total
    ensures var r := Step(f, SpawnFires(k, draw));
            var s := r.sessions[|f.sessions|];
            var b := Naming.BaseName(f.config.username);
            var n := Naming.Min(Naming.MaxLength, |b|);
            && |r.sessions| == |f.sessions| + 1
            && 0 < |s.username| <= Naming.MaxLength && s.username[..n] == b[..n]
            && (s.proxy.Some? <==> |f.config.proxies| > 0)
            && (s.proxy.Some? ==> Text.Contains(s.proxy.value, Proxy.SchemeSeparator))
            && s.proxy == Proxy.SelectProxy(f.config.proxies, |f.bots|)
  {
    Naming.UsernameStartsWithBase(f.config.username, |f.bots|, draw);
  }

  // ---------------------------------------------------------------- login, cleanup, termination

  /** A session's first login makes it live, counts one join and announces
      it once; the handler does not run again. */
  lemma {:induction false} LoginAnnounces(f: Fleet, id: nat)
    requires Inv(f)
    requires id < |f.sessions| && f.sessions[id].listening && !f.sessions[id].loggedIn
    ensures var r := Step(f, Login(id));
            && r.bots == f.bots + [id]
            && r.totalJoins == f.totalJoins + 1
            && r.log == f.log + [Joined(id)]
            && Step(r, Login(id)) == r
  {
    NotLiveBeforeLogin(f, id);
  }

  /** Cleanup runs once: a second call changes nothing. */
  lemma CleanupIdempotent(f: Fleet, id: nat)
    requires id < |f.sessions|
    ensures Cleanup(Cleanup(f, id), id) == Cleanup(f, id)
  {
  }

  /** The first cleanup of a live bot removes it from its place in the
      live list, keeps every other bot in order, and announces one
      disconnection. */
  lemma {:induction false} CleanupRemovesOne(f: Fleet, id: nat) returns (i: nat)
    requires Inv(f)
    requires id < |f.sessions| && id in f.bots
    ensures i < |f.bots| && f.bots[i] == id
    ensures var r := Cleanup(f, id);
            && r.bots == f.bots[..i] + f.bots[i + 1..]
            && r.log == f.log + [Disconnected(id)]
            && CountOf(r.log, Disconnected(id)) == 1
  {
    i := RemoveFirstKeepsOrder(f.bots, id);
    assert Live(f, f.bots[i]);
    CleanupPreserves(f, id);
  }

  /** The termination handlers of a listening session: a replacement is
      scheduled exactly when the cause asks for one and, judged before the
      cleanup, the fleet is running and not paused; it is due five seconds
      later, ten for a kick. Then the session is cleaned up: off the live
      list, announced once, and deaf to any later termination. */
  lemma TerminationPolicy(f: Fleet, id: nat, cause: Reconnect.Termination)
    requires Inv(f)
    requires id < |f.sessions| && f.sessions[id].listening
    ensures var r := Step(f, Terminated(id, cause));
            var scheduled := !Reconnect.IsQuiet(cause) && IsRunning(f) && !f.paused;
            && |r.reconnects| == |f.reconnects| + (if scheduled then 1 else 0)
            && r.reconnects[..|f.reconnects|] == f.reconnects
            && (scheduled ==>
                  r.reconnects[|f.reconnects|] == ReconnectTimer(f.clock + (if cause.Kicked? then 10000 else 5000), false))
            && r.sessions[id].cleanedUp && !r.sessions[id].listening
            && id !in r.bots
            && CountOf(r.log, Disconnected(id)) == 1
            && (forall c :: Step(r, Terminated(id, c)) == r)
  {
    TerminationSchedules(f, id, cause);
    TerminationCleansUp(f, id, cause);
  }

  /** The reconnect half of a termination: the decision, taken on the
      state before cleanup, and the timer it adds. */
  lemma {:induction false} TerminationSchedules(f: Fleet, id: nat, cause: Reconnect.Termination)
    requires id < |f.sessions| && f.sessions[id].listening
    ensures var r := Step(f, Terminated(id, cause));
            var scheduled := !Reconnect.IsQuiet(cause) && IsRunning(f) && !f.paused;
            && |r.reconnects| == |f.reconnects| + (if scheduled then 1 else 0)
            && r.reconnects[..|f.reconnects|] == f.reconnects
            && (scheduled ==>
                  r.reconnects[|f.reconnects|] == ReconnectTimer(f.clock + (if cause.Kicked? then 10000 else 5000), false))
            && r.spawns == f.spawns
  {
    var f1 := ScheduleReplacement(f, cause);
    assert f1.reconnects[..|f.reconnects|] == f.reconnects;
  }

  /** The cleanup half of a termination. */
  lemma {:induction false} TerminationCleansUp(f: Fleet, id: nat, cause: Reconnect.Termination)
    requires Inv(f)
    requires id < |f.sessions| && f.sessions[id].listening
    ensures var r := Step(f, Terminated(id, cause));
            && r.sessions[id].cleanedUp && !r.sessions[id].listening
            && id !in r.bots && r.bots == RemoveFirst(f.bots, id)
            && CountOf(r.log, Disconnected(id)) == 1
            && (forall c :: Step(r, Terminated(id, c)) == r)
  {
    var f1 := ScheduleReplacement(f, cause);
    Frame(f, f1);
    assert !f1.sessions[id].cleanedUp;
    CleanupPreserves(f1, id);
    TerminatedOnce(Cleanup(f1, id), id);
  }

  /** A session that no longer listens ignores every termination. */
  lemma TerminatedOnce(f: Fleet, id: nat)
    requires id < |f.sessions| && !f.sessions[id].listening
    ensures forall c :: Step(f, Terminated(id, c)) == f
  {
  }

  /** A session that was still connecting when the fleet was stopped keeps
      its listeners: it logs in afterwards and becomes live although no
      timer is pending, so the live count can exceed a configured count of
      zero; and when it is then kicked, the live list is non-empty at the
      moment the handler asks `isRunning()`, so a replacement is scheduled
      for a stopped fleet. */
  lemma {:induction false} StoppedFleetStillReconnects(f: Fleet, id: nat, reason: string)
    requires Inv(f)
    requires id < |f.sessions| && f.sessions[id].listening && !f.sessions[id].loggedIn
    requires f.config.count == 0
    ensures var f1 := Step(Step(f, StopTest), Login(id));
            var f2 := Step(f1, Terminated(id, Reconnect.Kicked(reason)));
            && !IsRunning(Step(f, StopTest))
            && f1.bots == [id] && |f1.bots| > f1.config.count
            && |f2.reconnects| == |f.reconnects| + 1
            && f2.bots == [] && !IsRunning(f2)
  {
    LoginAfterStop(f, id);
    var f1 := Step(Step(f, StopTest), Login(id));
    var cause := Reconnect.Kicked(reason);
    TerminationSchedules(f1, id, cause);
    TerminationCleansUp(f1, id, cause);
    assert RemoveFirst([id], id) == [];
  }

  /** The first half of the scenario above: the session logs in after the
      stop and is the only live bot. */
  lemma {:induction false} LoginAfterStop(f: Fleet, id: nat)
    requires Inv(f)
    requires id < |f.sessions| && f.sessions[id].listening && !f.sessions[id].loggedIn
    ensures var f1 := Step(Step(f, StopTest), Login(id));
            && Inv(f1) && f1.bots == [id] && f1.sessions[id].listening
            && f1.config == f.config && f1.reconnects == f.reconnects && !f1.paused && f1.spawns == []
  {
    var fp := f.(paused := false);
    Frame(f, fp);
    NotLiveBeforeLogin(f, id);
    var f0 := StopBots(fp);
    assert Step(f, StopTest) == f0;
    assert f0.sessions[id] == f.sessions[id];
    StopPreserves(fp);
    LoginPreserves(f0, id);
    var f1 := OnLogin(f0, id);
    assert Step(f0, Login(id)) == f1;
    assert f1.bots == [id];
  }

  // ---------------------------------------------------------------- pause and traffic

  /** Pausing and resuming only flip the flag: the live list, the sessions
      and every timer stay as they are, and pausing a running fleet then
      resuming it gives back the same fleet. */
  lemma PauseResume(f: Fleet)
    ensures var p := Step(f, PauseTest);
            && p.paused && p.bots == f.bots && p.sessions == f.sessions
            && p.spawns == f.spawns && p.reconnects == f.reconnects
            && (IsRunning(p) <==> IsRunning(f))
            && !Step(p, ResumeTest).paused
            && (!f.paused ==> Step(p, ResumeTest) == f)
  {
  }

  /** A send through a session counts one packet exactly when it reaches a
      wrapper and passes the gate: anything while running, only keep-alives
      and teleport confirmations while paused. Nothing else changes. */
  lemma SendCounts(f: Fleet, id: nat, p: Gate.Packet)
    ensures var r := Step(f, Send(id, p));
            && r.packetCount == f.packetCount +
                 (if id < |f.sessions| && Wrapped(f.sessions[id], p) && Gate.PassesGate(f.paused, p) then 1 else 0)
            && r == f.(packetCount := r.packetCount)
  {
    Gate.CountedIffPasses(f.paused, p);
  }

  /** While paused, no chat of any session is counted, and a broadcast
      counts nothing; while running, a broadcast counts one packet per
      live bot. */
  lemma PausedChatSilent(f: Fleet, id: nat)
    ensures f.paused ==> Step(f, Send(id, Gate.Chat)) == f && Step(f, BroadcastChat) == f
    ensures !f.paused ==> Step(f, BroadcastChat).packetCount == f.packetCount + |f.bots|
  {
    Gate.CountedIffPasses(f.paused, Gate.Chat);
  }

  /** The per-second tick publishes the packets counted since the last
      tick, the live count and the number of joins announced so far, and
      restarts the count. */
  lemma TelemetryReports(f: Fleet)
    requires Inv(f)
    ensures var r := Step(f, TelemetryTick);
            && r.packetCount == 0 && r.lastPktSec == f.packetCount
            && r.log == f.log + [Traffic(f.packetCount, |f.bots|, JoinsIn(f.log))]
  {
  }

  // ---------------------------------------------------------------- configuration

  /** `load-proxy-file` (index.js:187-210): when the file exists every
      configured proxy is a non-empty address with a scheme, and loading
      the same list again as a file yields the same list; when it does not
      the fleet is untouched. */
  lemma LoadProxyFileSets(f: Fleet, kind: string, content: Option<string>)
    requires Proxy.NoWhitespace(kind)
    ensures var r := Step(f, LoadProxyFile(kind, content));
            && (content.None? ==> r == f)
            && (content.Some? ==>
                  && (forall k :: 0 <= k < |r.config.proxies| ==>
                        |r.config.proxies[k]| > 0 && Text.Contains(r.config.proxies[k], Proxy.SchemeSeparator))
                  && Proxy.LoadProxyList(kind, Text.Join(r.config.proxies, '\n')) == r.config.proxies)
  {
    if content.Some? {
      Proxy.LoadReload(kind, content.value);
    }
  }

  /** `update-config` (index.js:162-169): present fields replace the old
      ones, an unparsable or zero intensity keeps the old intensity, and
      neither the fleet nor its timers change. */
  lemma UpdateConfigMerges(f: Fleet, u: ConfigUpdate, intensity: Option<int>)
    ensures var r := Step(f, UpdateConfig(u, intensity));
            && r.config.username == u.username.GetOr(f.config.username)
            && r.config.joinDelay == u.joinDelay.GetOr(f.config.joinDelay)
            && r.config.intensity == (if intensity.Some? && intensity.value != 0 then intensity.value else f.config.intensity)
            && r.bots == f.bots && r.spawns == f.spawns && r.reconnects == f.reconnects && r.paused == f.paused
  {
  }

  // ---------------------------------------------------------------- advisory calls and the breaker

  /** An optimisation tick sends a request exactly when AI is on, a bot
      is live and the breaker is closed, and then records it as the newest
      in-flight call; a tick changes nothing else. */
  lemma OptimizeStarts(f: Fleet)
    ensures var r := Step(f, OptimizeTick);
            var calls := f.aiActive && |f.bots| > 0 && !f.breaker.broken;
            && (calls ==> r.calls == f.calls + [Call(Advisor.Optimization, false)])
            && (!calls ==> r == f)
            && r == f.(calls := r.calls)
  {
  }

  /** The reply to a pending optimisation request, whenever it arrives:
      nothing is checked again, so it applies even after AI was switched
      off, the live list emptied or the breaker tripped. A 429 trips the
      breaker (or restarts its cooldown) for ten minutes from the time of
      the reply; any other failure and an unparsable answer change
      nothing; parsed advice is written into the configuration as is, a
      negative join delay included. The call is then answered. */
  lemma OptimizeOutcome(f: Fleet, k: nat, reply: Advisor.Reply<Option<Advisor.Advice>>)
    requires k < |f.calls| && f.calls[k] == Call(Advisor.Optimization, false)
    ensures var r := Step(f, CallReturns(k, reply));
            var answered := f.calls[k := Call(Advisor.Optimization, true)];
            && (reply == Advisor.Fail(Breaker.RateLimited) ==>
                  r == f.(calls := answered, breaker := Breaker.Breaker(true, Some(f.clock + Breaker.Cooldown))))
            && (reply == Advisor.Fail(Breaker.OtherFailure) || reply == Advisor.Answer(None) ==>
                  r == f.(calls := answered))
            && (reply.Answer? && reply.value.Some? ==>
                  && r.config.joinDelay == reply.value.value.joinDelay
                  && r.config.intensity == reply.value.value.intensity
                  && r.config.count == f.config.count && r.config.mode == f.config.mode
                  && r == f.(calls := answered, config := r.config))
  {
  }

  /** A reply counts once: a second reply to the same call, or a reply to
      no call, changes nothing. */
  lemma ReplyOnce(f: Fleet, k: nat, reply: Advisor.Reply<Option<Advisor.Advice>>)
    ensures var r := Step(f, CallReturns(k, reply));
            k < |f.calls| && !f.calls[k].answered ==> |r.calls| == |f.calls| && r.calls[k].answered
    ensures k >= |f.calls| || f.calls[k].answered ==> Step(f, CallReturns(k, reply)) == f
  {
  }

  /** A request sent before AI was switched off still applies its advice
      when it returns afterwards. */
  lemma AdviceAfterAiOff(f: Fleet, a: Advisor.Advice)
    requires f.aiActive && |f.bots| > 0 && !f.breaker.broken
    ensures var f1 := Step(Step(f, OptimizeTick), ToggleAi(false));
            var r := Step(f1, CallReturns(|f.calls|, Advisor.Answer(Some(a))));
            && !r.aiActive && r.config.joinDelay == a.joinDelay && r.config.intensity == a.intensity
  {
    OptimizeStarts(f);
    var f1 := Step(Step(f, OptimizeTick), ToggleAi(false));
    assert f1.calls[|f.calls|] == Call(Advisor.Optimization, false);
    OptimizeOutcome(f1, |f.calls|, Advisor.Answer(Some(a)));
  }

  /** An ai-chat tick sends a request exactly when the fleet is unpaused,
      the bot has an entity and the breaker is closed. */
  lemma AiChatStarts(f: Fleet, hasEntity: bool)
    ensures var r := Step(f, AiChatTick(hasEntity));
            var calls := !f.paused && hasEntity && !f.breaker.broken;
            && (calls ==> r.calls == f.calls + [Call(Advisor.AiChat, false)])
            && (!calls ==> r == f)
            && r == f.(calls := r.calls)
  {
  }

  /** A rate-limited reply to a pending ai-chat request trips the breaker
      for ten minutes from the time of the reply, even when it is already
      tripped: the cooldown is restarted. Any other outcome leaves it. */
  lemma AiChatTrips(f: Fleet, k: nat, reply: Advisor.Reply<Option<Advisor.Advice>>)
    requires k < |f.calls| && f.calls[k] == Call(Advisor.AiChat, false)
    ensures var r := Step(f, CallReturns(k, reply));
            && (reply == Advisor.Fail(Breaker.RateLimited) ==>
                  r.breaker == Breaker.Breaker(true, Some(f.clock + Breaker.Cooldown)))
            && (reply != Advisor.Fail(Breaker.RateLimited) ==> r.breaker == f.breaker)
            && r.config == f.config
  {
  }

  /** While tripped, a late 429 restarts the cooldown: its deadline moves
      to ten minutes after the reply, later than before once the clock has
      moved past the trip. */
  lemma LateFailureRearms(f: Fleet, k: nat)
    requires Breaker.Valid(f.breaker) && f.breaker.broken
    requires k < |f.calls| && !f.calls[k].answered && f.calls[k].site != Advisor.AiMove
    requires f.breaker.cooldownUntil.value < f.clock + Breaker.Cooldown
    ensures var r := Step(f, CallReturns(k, Advisor.Fail(Breaker.RateLimited)));
            && r.breaker.broken && r.breaker.cooldownUntil.value == f.clock + Breaker.Cooldown
            && r.breaker.cooldownUntil.value > f.breaker.cooldownUntil.value
  {
  }

  /** The ai-move site never touches the breaker or the configuration:
      neither its tick nor any reply to its request changes anything but
      the in-flight calls. */
  lemma AiMoveNeverTrips(f: Fleet, hasEntity: bool, sampled: bool, k: nat,
                         reply: Advisor.Reply<Option<Advisor.Advice>>)
    ensures var r := Step(f, AiMoveTick(hasEntity, sampled));
            && (!f.paused && hasEntity && !f.breaker.broken && sampled <==> |r.calls| == |f.calls| + 1)
            && r == f.(calls := r.calls)
    ensures k < |f.calls| && f.calls[k].site == Advisor.AiMove ==>
              var r := Step(f, CallReturns(k, reply));
              r == f.(calls := r.calls)
  {
  }

  /** While the breaker is tripped no tick sends a request: the
      optimisation, ai-chat and ai-move ticks change nothing. Requests
      already in flight are not stopped: a 429 reply to one of them still
      reaches the breaker and restarts the cooldown. */
  lemma BrokenBlocksCalls(f: Fleet, hasEntity: bool, sampled: bool)
    requires f.breaker.broken
    ensures Step(f, OptimizeTick) == f
    ensures Step(f, AiChatTick(hasEntity)) == f
    ensures Step(f, AiMoveTick(hasEntity, sampled)) == f
    ensures forall k :: 0 <= k < |f.calls| && !f.calls[k].answered && f.calls[k].site != Advisor.AiMove ==>
              Step(f, CallReturns(k, Advisor.Fail(Breaker.RateLimited))).breaker ==
                Breaker.Breaker(true, Some(f.clock + Breaker.Cooldown))
  {
    forall k | 0 <= k < |f.calls| && !f.calls[k].answered && f.calls[k].site != Advisor.AiMove
      ensures Step(f, CallReturns(k, Advisor.Fail(Breaker.RateLimited))).breaker ==
                Breaker.Breaker(true, Some(f.clock + Breaker.Cooldown))
    {
      if f.calls[k].site == Advisor.Optimization {
        OptimizeOutcome(f, k, Advisor.Fail(Breaker.RateLimited));
      } else {
        AiChatTrips(f, k, Advisor.Fail(Breaker.RateLimited));
      }
    }
  }

  /** Once tripped, the breaker closes again when the clock reaches the
      deadline, and not before. */
  lemma {:induction false} BreakerCooldown(f: Fleet, now: int)
    requires Breaker.Valid(f.breaker) && f.breaker.broken
    requires f.clock <= now
    ensures var r := Step(f, ClockAdvance(now));
            r.breaker.broken <==> now < f.breaker.cooldownUntil.value
  {
  }

  /** The breaker has been tripped at or after `t0` and the clock has not
      gone back before `t0`. */
  predicate TrippedSince(f: Fleet, t0: int) {
    && Breaker.Valid(f.breaker) && f.breaker.broken
    && f.breaker.cooldownUntil.value >= t0 + Breaker.Cooldown
    && f.clock >= t0
  }

  /** Only the clock and the replies touch the breaker: every event whose
      time, if it sets one, is before the end of the cooldown keeps it
      tripped. */
  lemma StepKeepsTrip(f: Fleet, e: Event, t0: int)
    requires WellFormed(e) && TrippedSince(f, t0)
    requires e.ClockAdvance? ==> e.now < t0 + Breaker.Cooldown
    ensures TrippedSince(Step(f, e), t0)
  {
    match e
    case StartTest(u, intensity, enableAi, jitters) =>
      var f1 := f.(paused := false, config := Merge(f.config, u, OrElse(intensity, 5)), aiActive := enableAi);
      assert Step(f, e) == StartBots(f1, StartCount(u), jitters);
    case StopTest =>
      assert Step(f, e) == StopBots(f.(paused := false));
    case SpawnFires(k, draw) =>
    case ReconnectFires(k, draw) =>
    case Terminated(id, cause) =>
    case _ =>
  }

  /** No event of `es` moves the clock to `deadline` or later. */
  predicate ClockStaysBefore(es: seq<Event>, deadline: int) {
    forall k :: 0 <= k < |es| && es[k].ClockAdvance? ==> es[k].now < deadline
  }

  /** The fleet-level counterpart of `Breaker.StaysBrokenForCooldown`:
      once a 429 reply has tripped the breaker, it stays tripped through
      any run of events while the clock stays before ten minutes after
      that reply, whatever else happens (stops, restarts, other replies,
      later 429s). */
  lemma {:induction false} TripHolds(f: Fleet, t0: int, es: seq<Event>)
    requires TrippedSince(f, t0)
    requires forall k :: 0 <= k < |es| ==> WellFormed(es[k])
    requires ClockStaysBefore(es, t0 + Breaker.Cooldown)
    ensures Run(f, es).breaker.broken
    decreases |es|
  {
    if |es| > 0 {
      StepKeepsTrip(f, es[0], t0);
      assert ClockStaysBefore(es[1..], t0 + Breaker.Cooldown) by {
        forall k | 0 <= k < |es[1..]| && es[1..][k].ClockAdvance?
          ensures es[1..][k].now < t0 + Breaker.Cooldown
        {
          assert es[1..][k] == es[k + 1];
        }
      }
      TripHolds(Step(f, es[0]), t0, es[1..]);
    }
  }

  /** A rate-limited reply to a pending optimisation or ai-chat request
      starts such a cooldown at the time of the reply, so by `TripHolds`
      the breaker stays tripped for the ten minutes that follow. */
  lemma ReplyTrips(f: Fleet, k: nat)
    requires k < |f.calls| && !f.calls[k].answered && f.calls[k].site != Advisor.AiMove
    ensures TrippedSince(Step(f, CallReturns(k, Advisor.Fail(Breaker.RateLimited))), f.clock)
  {
  }
}
