# Fleet control plane of a load-generation server, in Dafny

`index.js` runs a socket server through which an operator starts, stops,
pauses and reconfigures a fleet of game-client sessions (“bots”), one
per login, all aimed at one game server. This project models the
server's control plane:

- the spawn scheduler: `startBots`, `stopBots` and `isRunning`;
- the bot lifecycle in `createSingleBot`, which covers naming, the drop
  check, proxy choice, the login handler, the one-shot cleanup and the
  reconnect policy;
- the loader that turns a proxy file into configured entries;
- the pause gate in `setupBotBehavior`, with its packet counter;
- the circuit breaker that three advisory call sites share.

The model is a pure state machine. `Orchestrator.Fleet` holds everything
the process keeps in module-level variables: the configuration, the live
list, the pending timers, the pause and AI flags, the counters, the
breaker, the advisory requests in flight, a clock and the published
announcements.
`Orchestrator.Step` applies one event. An event is an operator command,
a timer firing, a session's login or termination, a wrapped send, the
telemetry tick, an advisory call site's tick, or the reply to an
advisory request. The call sites `await` the service, so a tick only
sends the request; its reply is a separate, later event that is handled
whatever happened in between.

Each session has an identity: its position in the list of every session
ever created. The flags on a session record four things:
- whether its listeners are still attached;
- whether its once-only login handler has run;
- whether its cleanup has run;
- whether `stopBots` released its protocol client, after which its
  wrapped `write` can no longer be reached.

Random numbers arrive as bounded inputs:
- the 0–199 ms jitter of each slot;
- the five-digit suffix draw;
- whether an ai-move tick is among the sampled five percent.

The modules:
- `Text`: JavaScript's `trim`, `split`, `includes`, `startsWith`,
  first-occurrence `replace`, and decimal rendering.
- `Proxy`: the proxy-file transform and the round-robin choice with its
  socks4 rewrite.
- `Naming`: usernames.
- `Scheduler`: the slot delays.
- `Breaker`, `Advisor`: the breaker and its call sites.
- `Gate`: the send wrappers.
- `Reconnect`: the termination causes.
- `Orchestrator`: the state and `Step`.
- `Invariant`: what every reachable state satisfies.
- `Behaviour`: event-by-event properties.

Three places where the code does something a reader may not expect; the
model follows the code:
- A replacement spawn is scheduled when `isRunning() && !isPaused` holds
  before cleanup. It does not depend on the desired count being positive.
- The wrapped `chat` reads a name that is not in scope at index.js:380
  (`stealthMode` is local to the socket connection handler). So once the
  counter has been incremented, an unpaused chat throws and is never
  delivered. `Gate.Send` calls this outcome `Aborted`: counted but not
  forwarded.
- `replace('socks4://', 'socks4a://')` is not anchored. The socks4
  rewrite is idempotent only for entries with no `socks4://` after their
  start, and `Proxy.NormalizeIdempotent` states it with that condition.

## Model

| member | source | states |
|---|---|---|
| Text.Trim | index.js:193 | the result has no leading or trailing whitespace, is empty exactly when the line is all whitespace, and leaves an already trimmed line unchanged |
| Text.TrimIsInfix | index.js:193 | the trimmed line is a contiguous piece of the line with only whitespace cut from either end |
| Text.TrimIdempotent | index.js:193 | trimming twice is trimming once |
| Text.JoinSplit | index.js:192 | splitting on newlines and joining back with newlines gives the original text |
| Text.SplitJoin | index.js:192 | joining newline-free lines and splitting again gives the lines back |
| Text.ReplaceFirstSplits | index.js:284 | a string-pattern replace cuts at the first occurrence of the pattern and splices the replacement in |
| Text.ReplaceFirstAbsent | index.js:284 | replacing a pattern that does not occur changes nothing |
| Text.ParseNatToString | index.js:227-228 | the decimal text of a number reads back as that number |
| Text.NatToStringLength | index.js:227-228 | a number's decimal text has at most k digits exactly when the number is below 10^k |
| Proxy.WithScheme | index.js:196-200 | a line without `://` becomes `<type>://` followed by the line; a line with one is kept as is; the result always has a scheme |
| Proxy.LoadProxyList | index.js:192-201 | every loaded entry is non-empty and carries a scheme separator |
| Proxy.LoadReload | index.js:192-201 | writing a loaded list one entry per line and loading it again as a file of the same type yields the same list |
| Proxy.LoadCleanList | index.js:192-201 | a list of non-empty, trimmed, single-line, already-schemed entries survives being joined by newlines and loaded again unchanged |
| Proxy.LoadBlankFile | index.js:192-201 | a file of only whitespace and newlines loads as the empty list |
| Proxy.LoadTwoLines | index.js:192-201 | a bare first line gets the file's type as scheme, and a schemed second line is kept as is, in file order |
| Proxy.LoadExample | index.js:192-201 | a socks5 file with `1.2.3.4:1080` and `socks4://5.6.7.8:1080` loads as `socks5://1.2.3.4:1080` followed by the second line |
| Proxy.NormalizeUrl | index.js:282-285 | the URL handed to the SOCKS agent always carries a scheme |
| Proxy.NormalizeBare | index.js:282 | an entry without a scheme becomes a socks5 URL |
| Proxy.NormalizeSocks4 | index.js:283-285 | a leading `socks4://` is upgraded to `socks4a://` with the rest of the address kept |
| Proxy.NormalizeSocks4a | index.js:283-285 | a `socks4a://` entry with no later `socks4://` is left unchanged |
| Proxy.UpgradedHasNoSocks4 | index.js:284 | after the upgrade no `socks4://` remains when none followed the leading one |
| Proxy.NormalizeIdempotent | index.js:282-285 | normalising an already normalised URL changes nothing, for entries with at most a leading `socks4://` |
| Proxy.SelectProxy | index.js:279-285 | a session gets no proxy exactly when the list is empty, and otherwise a URL with a scheme |
| Proxy.SelectRoundRobin | index.js:280 | ordinal i and ordinal i plus the list length get the same proxy, and the first ordinals take the entries in order |
| Proxy.SelectExample | index.js:279-285 | the second session of the loaded example gets `socks4a://5.6.7.8:1080` |
| Naming.BaseName | index.js:226 | the base is never empty: the configured name when there is one, `CRYSTAL` otherwise |
| Naming.Suffix | index.js:227 | the random suffix lies in 10000..99999 and always has five digits |
| Naming.Username | index.js:226-228 | a username is non-empty and at most 16 characters |
| Naming.UsernameStartsWithBase | index.js:226-228 | a username begins with as much of the base as fits |
| Naming.UsernameSuffixReadable | index.js:227-228 | when the full name fits in 16 characters it is not cut: the base, an underscore, the ordinal's digits, which read back as the ordinal, an underscore and five digits, which read back as the suffix |
| Naming.DefaultNameFits | index.js:226-228 | with the shipped base `GODX`, ordinals below 100000 are never cut |
| Naming.LongBaseCollides | index.js:228 | a base of 16 or more characters gives every session the same name |
| Scheduler.SlotDelay | index.js:693-698 | a slot's delay never exceeds 2^31 - 1 |
| Scheduler.SlotInBatchWindow | index.js:693-698 | below the cap, a slot fires inside its batch's two-second window, at least 600 ms before the next batch starts |
| Scheduler.SlotDelayIncreasing | index.js:690-698 | a later slot never fires earlier than an earlier one, and strictly later while below the cap, whatever the jitters |
| Scheduler.Delays | index.js:690-704 | one delay per slot for a positive count and none otherwise, each the slot's capped delay for its jitter, in non-decreasing order and strictly increasing below the cap |
| Scheduler.BatchHoldsAtMostFive | index.js:690-694 | at most five slots share a batch |
| Breaker.OnFailure | index.js:107-114 | a 429 trips the breaker with a deadline ten minutes from now; any other failure leaves it as it was; both keep the flag in step with the timer |
| Breaker.Advance | index.js:111 | the breaker closes once the clock reaches its deadline, never reopens on its own, and is untouched before the deadline |
| Breaker.StaysBrokenForCooldown | index.js:107-114 | once tripped at t0, the breaker stays tripped through any failures and clock ticks before t0 plus ten minutes |
| Breaker.ClosesAfterCooldown | index.js:107-114 | a 429 at t0 followed only by the clock reaching t0 plus ten minutes leaves the breaker closed |
| Reconnect.ReplacementDelay | index.js:338-363 | ECONNRESET, ETIMEDOUT and `close` never ask for a replacement; a kick asks for one after 10 s and every other cause after 5 s |
| Gate.Send | index.js:376-408 | a chat is never forwarded (it is suppressed or aborted), and a write is never aborted |
| Gate.CountedIffPasses | index.js:376-406 | a send is counted exactly when it passes the gate: anything while running, only keep-alives and teleport confirmations while paused |
| Advisor.AfterFailure | index.js:442-449 | a 429 trips the breaker at the optimisation and ai-chat sites; the ai-move site and other failures leave it |
| Advisor.OptimizationTick | index.js:90 | the optimisation loop calls out exactly when AI is on, some bot is live and the breaker is closed |
| Advisor.ChatTick | index.js:424-431 | an ai-chat tick idles exactly when paused or without an entity, and calls out exactly when also the breaker is closed |
| Advisor.MoveTick | index.js:472-475 | an ai-move tick idles exactly when paused or without an entity, and calls out only with a closed breaker on a sampled tick |
| Advisor.BrokenMeansNoCalls | index.js:428-431 | while the breaker is tripped no call site calls out |
| Orchestrator.RemoveFirst | index.js:304-305 | removing a bot drops exactly one entry when it is listed and nothing otherwise, keeps every other bot, and keeps a duplicate-free list duplicate-free without the bot |
| Orchestrator.RemoveFirstKeepsOrder | index.js:304-305 | the removal deletes the bot's own position and keeps the others in order |
| Orchestrator.StopBots | index.js:708-738 | after a stop nothing is scheduled, the live list is empty and the fleet is not running; live bots lose their listeners and client, and every other session, the replacement timers and the log are untouched |
| Orchestrator.StartBots | index.js:687-706 | a start empties the live list and schedules exactly one pending timer per slot, each carrying the count and due at the current time plus the slot's delay, in non-decreasing order and strictly increasing below the cap |
| Orchestrator.CreateSession | index.js:223-291 | nothing is created once the live list has reached the total; otherwise one new listening session, not yet logged in, named and proxied for its ordinal, is added and nothing else changes |
| Orchestrator.Cleanup | index.js:294-309 | the first cleanup marks the session, detaches it, takes it off the live list and announces one disconnection; a second does nothing; other sessions are untouched |
| Invariant.CleanupPreserves | index.js:294-309 | cleanup keeps the live list sound and the announcements in step with the session flags |
| Invariant.LoginKeepsLiveList | index.js:322-327 | a first login appends a bot that was not yet live, so the live list stays duplicate-free |
| Invariant.LoginKeepsLog | index.js:322-327 | a first login announces the bot once and counts one join |
| Invariant.StepPreserves | index.js:294-363 | every event keeps the live list duplicate-free and listening, announces each session as joined and as disconnected at most once, keeps the join counter equal to the joined announcements, and keeps the breaker consistent |
| Invariant.RunKeepsInv | index.js:294-363 | any sequence of events keeps that invariant |
| Invariant.Reachable | index.js:302-327 | in every reachable state the live list has no duplicates, every live bot was announced joined once and never disconnected, and no session is announced twice |
| Behaviour.StartSchedules | index.js:134-144 | start-test unpauses, merges the payload with intensity defaulting to 5, empties the live list, schedules one pending timer per requested bot in non-decreasing order, and leaves the fleet running exactly when the count is positive |
| Behaviour.StartWithoutCountStops | index.js:687-706 | a missing, zero or negative count leaves the fleet stopped |
| Behaviour.StopClears | index.js:708-738 | stop-test unpauses and stops the fleet, without announcing anything and without cancelling replacement timers |
| Behaviour.StopLeavesReconnects | index.js:708-710 | a replacement timer that comes due after a stop still creates a session when the configured count is positive |
| Behaviour.DropCheck | index.js:700-703 | a due start timer is consumed and creates a session exactly when the live list is below its captured count; any other firing is a no-op |
| Behaviour.CreatedSessionIdentity | index.js:226-285 | a created session's name begins with the base, and it has a schemed proxy exactly when proxies are configured, chosen for ordinal `bots.length` |
| Behaviour.LoginAnnounces | index.js:322-336 | a first login makes the bot live, counts one join and announces it; a second login does nothing |
| Behaviour.CleanupIdempotent | index.js:295-296 | cleaning up twice is cleaning up once |
| Behaviour.CleanupRemovesOne | index.js:302-307 | cleaning up a live bot removes it from its position, keeps the others in order and announces exactly one disconnection |
| Behaviour.TerminationPolicy | index.js:338-363 | a replacement is scheduled, before cleanup, exactly when the cause asks for one and the fleet is running and unpaused; it is due in 5 s (10 s for a kick); the session is then cleaned up, announced once and ignores later terminations |
| Behaviour.TerminationSchedules | index.js:344-362 | a termination of a listening session appends one replacement timer, due in 5 s or 10 s for a kick, exactly when the cause is not a quiet network error and the fleet is running and unpaused, and touches nothing else in the timer queues |
| Behaviour.TerminationCleansUp | index.js:294-309 | after a termination the session is cleaned up and no longer listening, has left the live list by the first-occurrence removal, is announced as disconnected exactly once, and ignores every later termination |
| Behaviour.StoppedFleetStillReconnects | index.js:358-362 | a session still connecting at a stop logs in afterwards and becomes live with a count of zero; when it is kicked, a replacement is scheduled although the fleet was stopped |
| Behaviour.LoginAfterStop | index.js:322-327 | a session connecting at a stop becomes the only live bot when it logs in |
| Behaviour.PauseResume | index.js:212-220 | pausing and resuming change only the flag, and resuming a fleet paused from running restores it exactly |
| Behaviour.SendCounts | index.js:376-406 | a send counts one packet exactly when it reaches a wrapper and passes the pause gate; nothing else changes |
| Behaviour.PausedChatSilent | index.js:176-180 | while paused no chat or broadcast is counted; while running a broadcast counts one packet per live bot |
| Behaviour.TelemetryReports | index.js:56-79 | the per-second tick publishes the packets since the last tick, the live count and the number of joins announced, and restarts the count |
| Behaviour.LoadProxyFileSets | index.js:187-210 | loading an existing file configures schemed, non-empty entries that reload to the same list; a missing file changes nothing |
| Behaviour.UpdateConfigMerges | index.js:162-169 | present fields replace the old ones, a missing or unparsable intensity keeps the old one, and the fleet is untouched |
| Behaviour.OptimizeStarts | index.js:90 | an optimisation tick sends a request exactly when AI is on, a bot is live and the breaker is closed, records it as in flight, and changes nothing else |
| Behaviour.OptimizeOutcome | index.js:103-119 | the reply to a pending optimisation request applies whatever happened since it was sent: a 429 trips the breaker (or restarts its cooldown) for ten minutes from the reply; other failures and unparsable answers change nothing; parsed advice is written into the configuration unchecked |
| Behaviour.ReplyOnce | index.js:103-114 | a request is answered once: its reply marks it answered, and a second reply or a reply to no request changes nothing |
| Behaviour.AdviceAfterAiOff | index.js:116-119 | advice requested before AI was switched off is still written into the configuration when it arrives afterwards |
| Behaviour.AiChatStarts | index.js:423-438 | an ai-chat tick sends a request exactly when the fleet is unpaused, the bot has an entity and the breaker is closed, and changes nothing else |
| Behaviour.AiChatTrips | index.js:442-449 | a 429 reply to a pending ai-chat request trips the breaker for ten minutes from the reply, even when it is already tripped; any other reply leaves the breaker and the configuration |
| Behaviour.LateFailureRearms | index.js:443-446 | while tripped, a late 429 from a request sent earlier moves the cooldown deadline to ten minutes after the reply, later than before |
| Behaviour.AiMoveNeverTrips | index.js:471-513 | an ai-move tick sends a request exactly when unpaused, with an entity, a closed breaker and a sampled tick; neither the tick nor any reply to its request changes anything but the requests in flight |
| Behaviour.BrokenBlocksCalls | index.js:89-90 | while tripped, no optimisation, ai-chat or ai-move tick sends a request or changes anything; a 429 reply to a request already in flight still restarts the cooldown |
| Behaviour.StepKeepsTrip | index.js:107-114 | a breaker tripped since t0 stays tripped, with a deadline no earlier than t0 plus ten minutes, across any event that does not move the clock to that time or later |
| Behaviour.TripHolds | index.js:107-114 | once tripped at t0, the breaker stays tripped through any run of events, stops, restarts and further replies included, while the clock stays before t0 plus ten minutes |
| Behaviour.ReplyTrips | index.js:107-111 | a 429 reply to a pending optimisation or ai-chat request leaves the breaker tripped until ten minutes after the reply |
| Behaviour.BreakerCooldown | index.js:107-114 | a tripped breaker closes exactly when the clock reaches its deadline |

## Left out

- Socket transport, status broadcasts and dashboard payloads: the model
  publishes only the `joined`, `disconnected` and traffic announcements
  that its properties are about.
- The game client, the SOCKS agent and the completion API are foreign
  code. Their effects enter the model as events: login, termination,
  an advisory reply or failure.
- Proxy agent construction failures (index.js:281-287) are not modelled;
  a session always gets the chosen URL.
- Per-mode action bodies (index.js:422-678) are out of scope. Their
  sends appear only as `Send` events. Their intervals, and the `end`
  handler that clears them, are left out. So are the lines and moves the
  ai-chat and ai-move ticks produce after a reply.
- Advisory replies are opaque. Parsing the optimisation JSON is an
  `Option` that is either absent or holds the two numbers.
- `save-script` and `run-script` execute operator code and are left out.
- Telemetry CPU, memory, latency and uptime figures are floating-point
  host measurements and are not modelled.
- `global.gc`, the process-wide exception swallowing and the `health`
  and `packet` listeners are left out: none changes the control-plane
  state.
- Concurrency: events are applied one at a time. JavaScript runs each
  handler to completion between `await`s, so each handler is split at its
  `await`: the advisory call sites become a tick that sends a request
  and a later reply event. Within one step nothing else interleaves.
- Orchestrator.Config: `count` and `joinDelay` are integers. The source
  stores the raw payload value, which may be a non-numeric string that
  compares as NaN.
- Orchestrator.CreateSession: the host, port, version and client options
  are not modelled.
- Naming.Username: lengths are counted in Unicode code points, while
  `substring(0, 16)` counts UTF-16 code units. The two agree for bases
  without characters beyond U+FFFF; a JavaScript cut can split a
  surrogate pair, which a Dafny string cannot hold.
- Naming.UsernameSuffixReadable: "fits in 16" is counted in code points,
  so it agrees with the source only for bases without characters beyond
  U+FFFF.
- Naming.LongBaseCollides: the common name is the first 16 code points;
  for bases with characters beyond U+FFFF the source keeps the first 16
  UTF-16 code units instead.
- Timers: `setTimeout` delays are whole milliseconds. The start jitter
  and the username suffix are modelled by the floor of the random draw.
