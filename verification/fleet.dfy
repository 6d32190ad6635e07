/** The fleet control plane of index.js as one immutable state record and a
    step function over the events that drive it: operator commands, timers
    firing, session lifecycle events, wrapped sends, the telemetry tick and
    the advisory call sites. Everything the program hands to foreign code
    (the game client, the socket server, the completion API, the SOCKS
    agent) is either an event or an input of one. */
module Orchestrator {
  import opened Wrappers
  import Proxy
  import Naming
  import Scheduler
  import Breaker
  import Advisor
  import Gate
  import Reconnect

  // ---------------------------------------------------------------- data

  /** `botConfig` (index.js:32-42); the proxy list holds already-loaded
      entries. */
  datatype Config = Config(
    count: int,
    intensity: int,
    joinDelay: int,
    username: string,
    proxies: seq<string>,
    mode: string)

  const InitialConfig: Config := Config(0, 5, 500, "GODX", [], "stay")

  /** One client object created by `createSingleBot`.
      `listening`: its event listeners are still attached (cleanup and
      `stopBots` remove them all). `loggedIn`: its once-only `login`
      handler has run, so its `chat` and `write` are wrapped.
      `cleanedUp`: the one-shot `_hasCleanedUp` guard. `released`:
      `stopBots` dropped its protocol client, so its write wrapper can no
      longer be reached. */
  datatype Session = Session(
    username: string,
    proxy: Option<string>,
    listening: bool,
    loggedIn: bool,
    cleanedUp: bool,
    released: bool)

  /** An entry of `activeTimeouts`: the slot's due time, the `count` its
      closure captured, and whether it has fired (firing does not remove
      it from the list). */
  datatype SpawnTimer = SpawnTimer(due: int, total: int, fired: bool)

  /** A replacement spawn scheduled by a termination handler. Its target
      is read from the configuration when it fires. */
  datatype ReconnectTimer = ReconnectTimer(due: int, fired: bool)

  /** An advisory request that has left the process. The call sites
      `await` the reply, so it arrives as a later event, after any number of
      others; `answered` records that it has been handled. */
  datatype Call = Call(site: Advisor.Site, answered: bool)

  /** What the control plane publishes: per-session `joined` and
      `disconnected` lifecycle events, and the per-second traffic snapshot. */
  datatype Notice =
    | Joined(id: nat)
    | Disconnected(id: nat)
    | Traffic(packets: nat, live: nat, joins: nat)

  /** The process-wide state. Sessions are identified by their position
      in `sessions` (the order they were created in); `bots` is the live
      list of index.js:31 as a list of such positions. */
  datatype Fleet = Fleet(
    config: Config,
    bots: seq<nat>,
    sessions: seq<Session>,
    spawns: seq<SpawnTimer>,
    reconnects: seq<ReconnectTimer>,
    paused: bool,
    aiActive: bool,
    totalJoins: nat,
    packetCount: nat,
    lastPktSec: nat,
    breaker: Breaker.Breaker,
    calls: seq<Call>,
    clock: int,
    log: seq<Notice>)

  const Init: Fleet := Fleet(InitialConfig, [], [], [], [], false, false, 0, 0, 0, Breaker.Closed, [], 0, [])

  /** The fields of a `start-test` or `update-config` payload that the
      model reads, already converted to numbers; `None` means absent. */
  datatype ConfigUpdate = ConfigUpdate(
    count: Option<int>,
    username: Option<string>,
    proxies: Option<seq<string>>,
    mode: Option<string>,
    joinDelay: Option<int>)

  /** Everything that can happen to the fleet. */
  datatype Event =
    | StartTest(update: ConfigUpdate, intensity: Option<int>, enableAi: bool, jitters: seq<nat>)
    | UpdateConfig(update: ConfigUpdate, intensity: Option<int>)
    | ToggleAi(enabled: bool)
    | StopTest
    | PauseTest
    | ResumeTest
    | LoadProxyFile(kind: string, content: Option<string>)
    | ClockAdvance(now: int)
    | SpawnFires(slot: nat, draw: nat)
    | ReconnectFires(index: nat, draw: nat)
    | Login(id: nat)
    | Terminated(id: nat, cause: Reconnect.Termination)
    | Send(id: nat, packet: Gate.Packet)
    | BroadcastChat
    | TelemetryTick
    | OptimizeTick
    | AiChatTick(hasEntity: bool)
    | AiMoveTick(hasEntity: bool, sampled: bool)
    | CallReturns(index: nat, reply: Advisor.Reply<Option<Advisor.Advice>>)

  /** The random inputs an event carries are in range: one jitter below
      200 per scheduled slot, and suffix draws below 90000. */
  predicate WellFormed(e: Event) {
    match e
    case StartTest(u, _, _, js) =>
      && |js| == Scheduler.SlotCount(StartCount(u))
      && forall k :: 0 <= k < |js| ==> js[k] < Scheduler.JitterBound
    case SpawnFires(_, d) => d < Naming.SuffixSpan
    case ReconnectFires(_, d) => d < Naming.SuffixSpan
    case _ => true
  }

  // ---------------------------------------------------------------- helpers

  /** `parseInt(x) || fallback`: a missing, unparsable or zero value gives
      the fallback. */
  function OrElse(parsed: Option<int>, fallback: int): (r: int)
    ensures parsed.Some? && parsed.value != 0 ==> r == parsed.value
    ensures parsed.None? || parsed.value == 0 ==> r == fallback
  {
    if parsed.Some? && parsed.value != 0 then parsed.value else fallback
  }

  /** The argument of `startBots` in the `start-test` handler. */
  function StartCount(u: ConfigUpdate): int {
    OrElse(u.count, 0)
  }

  /** `{...botConfig, ...data, intensity}`: present fields replace the old
      ones, absent fields keep them. */
  function Merge(c: Config, u: ConfigUpdate, intensity: int): (r: Config)
    ensures r.intensity == intensity
    ensures r.count == u.count.GetOr(c.count)
    ensures r.username == u.username.GetOr(c.username)
    ensures r.proxies == u.proxies.GetOr(c.proxies)
    ensures r.mode == u.mode.GetOr(c.mode)
    ensures r.joinDelay == u.joinDelay.GetOr(c.joinDelay)
  {
    Config(u.count.GetOr(c.count), intensity, u.joinDelay.GetOr(c.joinDelay),
           u.username.GetOr(c.username), u.proxies.GetOr(c.proxies), u.mode.GetOr(c.mode))
  }

  /** `bots.indexOf(x)` followed by `splice(index, 1)` when found: the list
      without its first `x`. */
  function RemoveFirst(s: seq<nat>, x: nat): (r: seq<nat>)
    ensures x !in s ==> r == s
    ensures x in s ==> |r| == |s| - 1
    ensures forall y :: y != x ==> (y in r <==> y in s)
    ensures NoDuplicates(s) ==> NoDuplicates(r) && x !in r
    decreases |s|
  {
    if |s| == 0 then []
    else if s[0] == x then s[1..]
    else
      var rest := RemoveFirst(s[1..], x);
      assert NoDuplicates(s) ==> NoDuplicates(s[1..]) && s[0] !in s[1..] by {
        if NoDuplicates(s) {
          forall i, j | 0 <= i < j < |s[1..]| ensures s[1..][i] != s[1..][j] {
            assert s[1..][i] == s[i + 1] && s[1..][j] == s[j + 1];
          }
          forall j | 0 <= j < |s[1..]| ensures s[1..][j] != s[0] {
            assert s[1..][j] == s[j + 1];
          }
        }
      }
      [s[0]] + rest
  }

  /** Removing the first `x` deletes one position and keeps every other
      element in its order. */
  lemma {:induction false} RemoveFirstKeepsOrder(s: seq<nat>, x: nat) returns (i: nat)
    requires x in s
    ensures i < |s| && s[i] == x
    ensures RemoveFirst(s, x) == s[..i] + s[i + 1..]
    decreases |s|
  {
    if s[0] == x {
      i := 0;
    } else {
      var i' := RemoveFirstKeepsOrder(s[1..], x);
      i := i' + 1;
      assert RemoveFirst(s, x) == [s[0]] + RemoveFirst(s[1..], x);
      ConsGap(s, i');
    }
  }

  /** Putting the first element back in front of the tail with one gap
      gives the whole sequence with the gap one position later. */
  lemma ConsGap(s: seq<nat>, i': nat)
    requires i' + 1 < |s|
    ensures [s[0]] + (s[1..][..i'] + s[1..][i' + 1..]) == s[..i' + 1] + s[i' + 2..]
  {
    assert s[..i' + 1] == [s[0]] + s[1..][..i'];
    assert s[i' + 2..] == s[1..][i' + 1..];
  }

  predicate NoDuplicates(s: seq<nat>) {
    forall i, j :: 0 <= i < j < |s| ==> s[i] != s[j]
  }

  /** How many times `n` was published. */
  function CountOf(log: seq<Notice>, n: Notice): nat
    decreases |log|
  {
    if |log| == 0 then 0
    else CountOf(log[..|log| - 1], n) + (if log[|log| - 1] == n then 1 else 0)
  }

  /** How many `joined` events were published. */
  function JoinsIn(log: seq<Notice>): nat
    decreases |log|
  {
    if |log| == 0 then 0
    else JoinsIn(log[..|log| - 1]) + (if log[|log| - 1].Joined? then 1 else 0)
  }

  lemma CountAppend(log: seq<Notice>, x: Notice, n: Notice)
    ensures CountOf(log + [x], n) == CountOf(log, n) + (if x == n then 1 else 0)
    ensures JoinsIn(log + [x]) == JoinsIn(log) + (if x.Joined? then 1 else 0)
  {
    assert (log + [x])[..|log|] == log;
  }

  /** `isRunning()` (index.js:370-372): timers were scheduled since the last
      stop, or some bot is live. */
  predicate IsRunning(f: Fleet) {
    |f.spawns| > 0 || |f.bots| > 0
  }

  // ---------------------------------------------------------------- operations

  /** What `stopBots` does to one bot of the live list. */
  function Stopped(s: Session): Session {
    s.(listening := false, released := true)
  }

  /** `stopBots` (index.js:708-738): every start-scheduled timer is
      cancelled and forgotten, the live list is emptied, and every bot that
      was on it loses its listeners and its protocol client, without a
      `disconnected` event. Reconnect timers, sessions still connecting,
      the configuration and the log are left alone. */
  function StopBots(f: Fleet): (r: Fleet)
    ensures r.spawns == [] && r.bots == [] && !IsRunning(r)
    ensures |r.sessions| == |f.sessions|
    ensures forall id :: 0 <= id < |f.sessions| && id !in f.bots ==> r.sessions[id] == f.sessions[id]
    ensures forall id :: 0 <= id < |f.sessions| && id in f.bots ==>
              !r.sessions[id].listening && r.sessions[id].released
    ensures forall id :: 0 <= id < |f.sessions| ==>
              && r.sessions[id].loggedIn == f.sessions[id].loggedIn
              && r.sessions[id].cleanedUp == f.sessions[id].cleanedUp
              && (r.sessions[id].listening ==> f.sessions[id].listening)
    ensures r == f.(spawns := [], bots := [], sessions := r.sessions)
  {
    var sessions := seq(|f.sessions|, id requires 0 <= id < |f.sessions| =>
      if id in f.bots then Stopped(f.sessions[id]) else f.sessions[id]);
    f.(spawns := [], bots := [], sessions := sessions)
  }

  /** `startBots(count)` (index.js:687-706): stop, then one pending timer per
      slot, due after that slot's staggered delay and carrying `count` as
      its target. */
  function StartBots(f: Fleet, count: int, jitters: seq<nat>): (r: Fleet)
    requires |jitters| == Scheduler.SlotCount(count)
    requires forall k :: 0 <= k < |jitters| ==> jitters[k] < Scheduler.JitterBound
    ensures r.bots == [] && |r.spawns| == Scheduler.SlotCount(count)
    ensures forall i :: 0 <= i < |r.spawns| ==>
              && !r.spawns[i].fired && r.spawns[i].total == count
              && f.clock <= r.spawns[i].due <= f.clock + Scheduler.MaxDelay
    ensures forall i :: 0 <= i < |r.spawns| ==> r.spawns[i].due == f.clock + Scheduler.SlotDelay(i, jitters[i])
    ensures forall i, k :: 0 <= i < k < |r.spawns| ==> r.spawns[i].due <= r.spawns[k].due
    ensures forall i, k :: 0 <= i < k < |r.spawns| && r.spawns[k].due < f.clock + Scheduler.MaxDelay ==>
              r.spawns[i].due < r.spawns[k].due
    ensures r == StopBots(f).(spawns := r.spawns)
  {
    var stopped := StopBots(f);
    var delays := Scheduler.Delays(count, jitters);
    stopped.(spawns := seq(|delays|, i requires 0 <= i < |delays| =>
      SpawnTimer(f.clock + delays[i], count, false)))
  }

  /** `createSingleBot(ordinal, total)` (index.js:223-291): nothing when the
      live list has already reached `total`; otherwise a new client object,
      listening but not yet logged in, named and proxied for `ordinal`. */
  function CreateSession(f: Fleet, ordinal: nat, total: int, draw: nat): (r: Fleet)
    requires draw < Naming.SuffixSpan
    ensures |f.bots| >= total ==> r == f
    ensures |f.bots| < total ==>
              && r == f.(sessions := r.sessions)
              && |r.sessions| == |f.sessions| + 1
              && r.sessions[..|f.sessions|] == f.sessions
              && var s := r.sessions[|f.sessions|];
                 s.listening && !s.loggedIn && !s.cleanedUp && !s.released
                 && s.username == Naming.Username(f.config.username, ordinal, draw)
                 && s.proxy == Proxy.SelectProxy(f.config.proxies, ordinal)
  {
    if |f.bots| >= total then f
    else
      var s := Session(Naming.Username(f.config.username, ordinal, draw),
                       Proxy.SelectProxy(f.config.proxies, ordinal), true, false, false, false);
      f.(sessions := f.sessions + [s])
  }

  /** The `cleanup` closure (index.js:294-309) for session `id`: a no-op once
      it has run; the first time it marks the session cleaned up, drops its
      listeners, removes it from the live list and publishes one
      `disconnected` event. */
  function Cleanup(f: Fleet, id: nat): (r: Fleet)
    requires id < |f.sessions|
    ensures |r.sessions| == |f.sessions|
    ensures f.sessions[id].cleanedUp ==> r == f
    ensures r.sessions[id].cleanedUp
    ensures !f.sessions[id].cleanedUp ==>
              && !r.sessions[id].listening
              && r.sessions[id].loggedIn == f.sessions[id].loggedIn
              && r.sessions[id].released == f.sessions[id].released
              && (NoDuplicates(f.bots) ==> id !in r.bots && NoDuplicates(r.bots))
              && r.log == f.log + [Disconnected(id)]
    ensures forall j :: 0 <= j < |f.sessions| && j != id ==> r.sessions[j] == f.sessions[j]
    ensures forall j :: j != id ==> (j in r.bots <==> j in f.bots)
    ensures r == f.(sessions := r.sessions, bots := r.bots, log := r.log)
  {
    if f.sessions[id].cleanedUp then f
    else
      f.(sessions := f.sessions[id := f.sessions[id].(cleanedUp := true, listening := false)],
         bots := RemoveFirst(f.bots, id),
         log := f.log + [Disconnected(id)])
  }

  /** The `login` handler (index.js:322-336): on its only run it wraps the
      session's sends and, when the session is not yet live, appends it,
      counts a join and publishes `joined`. */
  function OnLogin(f: Fleet, id: nat): Fleet {
    if id < |f.sessions| && f.sessions[id].listening && !f.sessions[id].loggedIn then
      var f1 := f.(sessions := f.sessions[id := f.sessions[id].(loggedIn := true)]);
      if id in f.bots then f1
      else f1.(bots := f.bots + [id], totalJoins := f.totalJoins + 1, log := f.log + [Joined(id)])
    else f
  }

  /** The `error`, `close`, `end` and `kicked` handlers (index.js:338-363)
      of a session still listening: the replacement spawn, when the cause
      asks for one and the fleet is running and not paused, is scheduled
      first, judged on the state before cleanup; then cleanup runs. */
  function OnTerminated(f: Fleet, id: nat, cause: Reconnect.Termination): Fleet {
    if id < |f.sessions| && f.sessions[id].listening then
      Cleanup(ScheduleReplacement(f, cause), id)
    else f
  }

  /** The reconnect decision, taken before cleanup: a replacement timer is
      queued when the cause calls for one and the fleet is running and not
      paused. Only the reconnect queue changes. */
  function ScheduleReplacement(f: Fleet, cause: Reconnect.Termination): (r: Fleet)
    ensures r == f.(reconnects := r.reconnects)
  {
    var delay := Reconnect.ReplacementDelay(cause);
    if delay.Some? && IsRunning(f) && !f.paused
    then f.(reconnects := f.reconnects + [ReconnectTimer(f.clock + delay.value, false)])
    else f
  }

  /** A start-scheduled timer fires (index.js:700-703): only a pending,
      due timer does anything; it is marked fired, and unless the live list
      has reached the count it captured, a session is created for ordinal
      `|bots|`. */
  function OnSpawnFires(f: Fleet, k: nat, draw: nat): Fleet
    requires draw < Naming.SuffixSpan
  {
    if k < |f.spawns| && !f.spawns[k].fired && f.spawns[k].due <= f.clock then
      var t := f.spawns[k];
      var f1 := f.(spawns := f.spawns[k := t.(fired := true)]);
      if |f1.bots| >= t.total then f1 else CreateSession(f1, |f1.bots|, t.total, draw)
    else f
  }

  /** A replacement timer fires (index.js:346, 354, 360): the same creation,
      against the configured count as it is now. */
  function OnReconnectFires(f: Fleet, k: nat, draw: nat): Fleet
    requires draw < Naming.SuffixSpan
  {
    if k < |f.reconnects| && !f.reconnects[k].fired && f.reconnects[k].due <= f.clock then
      var f1 := f.(reconnects := f.reconnects[k := f.reconnects[k].(fired := true)]);
      CreateSession(f1, |f1.bots|, f1.config.count, draw)
    else f
  }

  /** A send through session `id` reaches a wrapper once the session has
      logged in, except a write after `stopBots` released the client. */
  predicate Wrapped(s: Session, p: Gate.Packet) {
    s.loggedIn && !(p.Write? && s.released)
  }

  /** A send through session `id` counts one packet when it reaches a
      wrapper and passes the pause gate. */
  function OnSend(f: Fleet, id: nat, p: Gate.Packet): Fleet {
    if id < |f.sessions| && Wrapped(f.sessions[id], p) && Gate.Counted(Gate.Send(f.paused, p))
    then f.(packetCount := f.packetCount + 1)
    else f
  }

  /** `broadcast-chat` (index.js:176-180): the wrapped `chat` of every live
      bot, each counted unless the fleet is paused. */
  function OnBroadcast(f: Fleet): Fleet {
    if Gate.Counted(Gate.Send(f.paused, Gate.Chat)) then f.(packetCount := f.packetCount + |f.bots|) else f
  }

  /** A call site's tick: past its guard, the request leaves and is
      recorded as in flight; otherwise nothing happens here (the fallback
      lines and moves a tick may produce are not modelled). */
  function StartCall(f: Fleet, site: Advisor.Site, d: Advisor.Decision): Fleet {
    if d == Advisor.CallService then f.(calls := f.calls + [Call(site, false)]) else f
  }

  /** The reply to in-flight call `k`, handled whatever happened since the
      call left: nothing is checked again. At the optimisation site
      (index.js:103-119) parsed advice is written into the configuration
      unchecked and an answer that did not parse is dropped; at every site
      a failure goes to the breaker through the site's `.catch`, at the
      time the reply arrives. A reply to no pending call changes nothing. */
  function OnReply(f: Fleet, k: nat, reply: Advisor.Reply<Option<Advisor.Advice>>): Fleet {
    if k < |f.calls| && !f.calls[k].answered then
      var site := f.calls[k].site;
      var f1 := f.(calls := f.calls[k := Call(site, true)]);
      match reply
      case Answer(advice) =>
        if site == Advisor.Optimization && advice.Some?
        then f1.(config := f1.config.(joinDelay := advice.value.joinDelay, intensity := advice.value.intensity))
        else f1
      case Fail(e) => f1.(breaker := Advisor.AfterFailure(site, f1.breaker, e, f1.clock))
    else f
  }

  /** One event. */
  function Step(f: Fleet, e: Event): Fleet
    requires WellFormed(e)
  {
    match e
    case StartTest(u, intensity, enableAi, jitters) =>
      var f1 := f.(paused := false, config := Merge(f.config, u, OrElse(intensity, 5)), aiActive := enableAi);
      StartBots(f1, StartCount(u), jitters)
    case UpdateConfig(u, intensity) =>
      f.(config := Merge(f.config, u, OrElse(intensity, f.config.intensity)))
    case ToggleAi(enabled) => f.(aiActive := enabled)
    case StopTest => StopBots(f.(paused := false))
    case PauseTest => f.(paused := true)
    case ResumeTest => f.(paused := false)
    case LoadProxyFile(kind, content) =>
      if content.Some? then f.(config := f.config.(proxies := Proxy.LoadProxyList(kind, content.value))) else f
    case ClockAdvance(now) =>
      if now >= f.clock then f.(clock := now, breaker := Breaker.Advance(f.breaker, now)) else f
    case SpawnFires(k, draw) => OnSpawnFires(f, k, draw)
    case ReconnectFires(k, draw) => OnReconnectFires(f, k, draw)
    case Login(id) => OnLogin(f, id)
    case Terminated(id, cause) => OnTerminated(f, id, cause)
    case Send(id, p) => OnSend(f, id, p)
    case BroadcastChat => OnBroadcast(f)
    case TelemetryTick =>
      f.(lastPktSec := f.packetCount, packetCount := 0,
         log := f.log + [Traffic(f.packetCount, |f.bots|, f.totalJoins)])
    case OptimizeTick =>
      StartCall(f, Advisor.Optimization, Advisor.OptimizationTick(f.aiActive, |f.bots|, f.breaker))
    case AiChatTick(hasEntity) =>
      StartCall(f, Advisor.AiChat, Advisor.ChatTick(f.paused, hasEntity, f.breaker))
    case AiMoveTick(hasEntity, sampled) =>
      StartCall(f, Advisor.AiMove, Advisor.MoveTick(f.paused, hasEntity, f.breaker, sampled))
    case CallReturns(k, reply) => OnReply(f, k, reply)
  }

  /** Events applied in order. */
  function Run(f: Fleet, es: seq<Event>): Fleet
    requires forall k :: 0 <= k < |es| ==> WellFormed(es[k])
    decreases |es|
  {
    if |es| == 0 then f else Run(Step(f, es[0]), es[1..])
  }
}
