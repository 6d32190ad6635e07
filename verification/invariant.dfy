/** What stays true of the fleet through any sequence of events: the live
    list holds distinct, logged-in, still-listening sessions; every
    session is announced as joined at most once and as disconnected at
    most once (exactly when it logged in, resp. was cleaned up); the join
    counter counts the `joined` announcements; and the breaker flag agrees
    with its cooldown timer. */
module Invariant {
  import opened Wrappers
  import opened Orchestrator
  import Breaker
  import Advisor
  import Scheduler

  /** Session `id` may sit on the live list. */
  predicate Live(f: Fleet, id: nat) {
    id < |f.sessions| && f.sessions[id].listening && f.sessions[id].loggedIn && !f.sessions[id].cleanedUp
  }

  predicate LiveListSound(f: Fleet) {
    && NoDuplicates(f.bots)
    && (forall k :: 0 <= k < |f.bots| ==> Live(f, f.bots[k]))
  }

  predicate SessionsSound(f: Fleet) {
    forall id :: 0 <= id < |f.sessions| ==> f.sessions[id].cleanedUp ==> !f.sessions[id].listening
  }

  /** The published log agrees with the session flags. */
  ghost predicate LogSound(f: Fleet) {
    && (forall id: nat :: CountOf(f.log, Disconnected(id)) == if id < |f.sessions| && f.sessions[id].cleanedUp then 1 else 0)
    && (forall id: nat :: CountOf(f.log, Joined(id)) == if id < |f.sessions| && f.sessions[id].loggedIn then 1 else 0)
    && f.totalJoins == JoinsIn(f.log)
  }

  ghost predicate Inv(f: Fleet) {
    LiveListSound(f) && SessionsSound(f) && LogSound(f) && Breaker.Valid(f.breaker)
  }

  lemma InitInv()
    ensures Inv(Init)
  {
  }

  /** Appending a notice that is neither `joined` nor `disconnected`
      leaves every count alone. */
  lemma {:induction false} AppendTraffic(log: seq<Notice>, x: Notice)
    requires x.Traffic?
    ensures forall id: nat :: CountOf(log + [x], Disconnected(id)) == CountOf(log, Disconnected(id))
    ensures forall id: nat :: CountOf(log + [x], Joined(id)) == CountOf(log, Joined(id))
    ensures JoinsIn(log + [x]) == JoinsIn(log)
  {
    forall id: nat
      ensures CountOf(log + [x], Disconnected(id)) == CountOf(log, Disconnected(id))
      ensures CountOf(log + [x], Joined(id)) == CountOf(log, Joined(id))
    {
      CountAppend(log, x, Disconnected(id));
      CountAppend(log, x, Joined(id));
    }
    CountAppend(log, x, x);
  }

  /** `stopBots` keeps the invariant: it only empties lists and detaches
      listeners. */
  lemma StopPreserves(f: Fleet)
    requires Inv(f)
    ensures Inv(StopBots(f))
  {
  }

  /** A newly created session is neither live nor announced. */
  lemma CreatePreserves(f: Fleet, ordinal: nat, total: int, draw: nat)
    requires Inv(f) && draw < Naming.SuffixSpan
    ensures Inv(CreateSession(f, ordinal, total, draw))
  {
    var r := CreateSession(f, ordinal, total, draw);
    if |f.bots| < total {
      forall k | 0 <= k < |r.bots| ensures Live(r, r.bots[k]) {
        assert Live(f, f.bots[k]);
        assert r.sessions[f.bots[k]] == f.sessions[f.bots[k]];
      }
    }
  }

  lemma {:induction false} CleanupPreserves(f: Fleet, id: nat)
    requires LiveListSound(f) && SessionsSound(f) && LogSound(f)
    requires id < |f.sessions|
    ensures var r := Cleanup(f, id);
            LiveListSound(r) && SessionsSound(r) && LogSound(r)
  {
    if !f.sessions[id].cleanedUp {
      var r := Cleanup(f, id);
      forall k | 0 <= k < |r.bots| ensures Live(r, r.bots[k]) {
        var j := r.bots[k];
        assert j != id;
        assert j in f.bots;
      }
      forall i: nat
        ensures CountOf(r.log, Disconnected(i)) == if i < |r.sessions| && r.sessions[i].cleanedUp then 1 else 0
        ensures CountOf(r.log, Joined(i)) == if i < |r.sessions| && r.sessions[i].loggedIn then 1 else 0
      {
        CountAppend(f.log, Disconnected(id), Disconnected(i));
        CountAppend(f.log, Disconnected(id), Joined(i));
      }
      CountAppend(f.log, Disconnected(id), Disconnected(id));
    }
  }

  /** A session still connecting is not on the live list. */
  lemma NotLiveBeforeLogin(f: Fleet, id: nat)
    requires LiveListSound(f)
    requires id < |f.sessions| && !f.sessions[id].loggedIn
    ensures id !in f.bots
  {
    forall k | 0 <= k < |f.bots| ensures f.bots[k] != id {
      assert Live(f, f.bots[k]);
    }
  }

  lemma {:induction false} LoginKeepsLiveList(f: Fleet, id: nat)
    requires LiveListSound(f)
    requires id < |f.sessions| && f.sessions[id].listening && !f.sessions[id].loggedIn
    requires f.sessions[id].listening ==> !f.sessions[id].cleanedUp
    ensures LiveListSound(OnLogin(f, id))
  {
    NotLiveBeforeLogin(f, id);
    var r := OnLogin(f, id);
    assert r.bots == f.bots + [id];
    forall k | 0 <= k < |r.bots| ensures Live(r, r.bots[k]) {
      if k < |f.bots| {
        assert r.bots[k] == f.bots[k] && Live(f, f.bots[k]);
      }
    }
  }

  lemma {:induction false} LoginKeepsLog(f: Fleet, id: nat)
    requires LiveListSound(f) && LogSound(f)
    requires id < |f.sessions| && f.sessions[id].listening && !f.sessions[id].loggedIn
    ensures LogSound(OnLogin(f, id))
  {
    NotLiveBeforeLogin(f, id);
    var r := OnLogin(f, id);
    assert r.log == f.log + [Joined(id)];
    forall i: nat
      ensures CountOf(r.log, Disconnected(i)) == if i < |r.sessions| && r.sessions[i].cleanedUp then 1 else 0
      ensures CountOf(r.log, Joined(i)) == if i < |r.sessions| && r.sessions[i].loggedIn then 1 else 0
    {
      CountAppend(f.log, Joined(id), Disconnected(i));
      CountAppend(f.log, Joined(id), Joined(i));
    }
    CountAppend(f.log, Joined(id), Joined(id));
  }

  lemma LoginPreserves(f: Fleet, id: nat)
    requires Inv(f)
    ensures Inv(OnLogin(f, id))
  {
    if id < |f.sessions| && f.sessions[id].listening && !f.sessions[id].loggedIn {
      LoginKeepsLiveList(f, id);
      LoginKeepsLog(f, id);
    }
  }

  lemma TerminatedPreserves(f: Fleet, id: nat, cause: Reconnect.Termination)
    requires Inv(f)
    ensures Inv(OnTerminated(f, id, cause))
  {
    if id < |f.sessions| && f.sessions[id].listening {
      var f1 := ScheduleReplacement(f, cause);
      Frame(f, f1);
      CleanupPreserves(f1, id);
    }
  }

  lemma SpawnPreserves(f: Fleet, k: nat, draw: nat)
    requires Inv(f) && draw < Naming.SuffixSpan
    ensures Inv(OnSpawnFires(f, k, draw))
  {
    if k < |f.spawns| && !f.spawns[k].fired && f.spawns[k].due <= f.clock {
      var f1 := f.(spawns := f.spawns[k := f.spawns[k].(fired := true)]);
      CreatePreserves(f1, |f1.bots|, f.spawns[k].total, draw);
    }
  }

  lemma ReconnectPreserves(f: Fleet, k: nat, draw: nat)
    requires Inv(f) && draw < Naming.SuffixSpan
    ensures Inv(OnReconnectFires(f, k, draw))
  {
    if k < |f.reconnects| && !f.reconnects[k].fired && f.reconnects[k].due <= f.clock {
      var f1 := f.(reconnects := f.reconnects[k := f.reconnects[k].(fired := true)]);
      CreatePreserves(f1, |f1.bots|, f1.config.count, draw);
    }
  }

  /** An event that leaves the live list, the sessions, the log and the
      join counter alone keeps the invariant when the breaker stays
      consistent. */
  lemma Frame(f: Fleet, r: Fleet)
    requires Inv(f)
    requires r.bots == f.bots && r.sessions == f.sessions && r.log == f.log && r.totalJoins == f.totalJoins
    requires Breaker.Valid(r.breaker)
    ensures Inv(r)
  {
  }

  lemma StartPreserves(f: Fleet, count: int, jitters: seq<nat>)
    requires Inv(f)
    requires |jitters| == Scheduler.SlotCount(count)
    requires forall k :: 0 <= k < |jitters| ==> jitters[k] < Scheduler.JitterBound
    ensures Inv(StartBots(f, count, jitters))
  {
    StopPreserves(f);
    Frame(StopBots(f), StartBots(f, count, jitters));
  }

  lemma TelemetryPreserves(f: Fleet)
    requires Inv(f)
    ensures Inv(Step(f, TelemetryTick))
  {
    AppendTraffic(f.log, Traffic(f.packetCount, |f.bots|, f.totalJoins));
  }

  /** Every event keeps the invariant. */
  lemma StepPreserves(f: Fleet, e: Event)
    requires Inv(f) && WellFormed(e)
    ensures Inv(Step(f, e))
  {
    if e.StartTest? || e.StopTest? || e.TelemetryTick? {
      CommandPreserves(f, e);
    } else if e.SpawnFires? || e.ReconnectFires? || e.Login? || e.Terminated? {
      LifecyclePreserves(f, e);
    } else if e.CallReturns? {
      ReplyPreserves(f, e.index, e.reply);
    } else {
      Frame(f, Step(f, e));
    }
  }

  /** A reply touches only the in-flight calls, the configuration and the
      breaker, and leaves the breaker consistent. */
  lemma ReplyPreserves(f: Fleet, k: nat, reply: Advisor.Reply<Option<Advisor.Advice>>)
    requires Inv(f)
    ensures Inv(OnReply(f, k, reply))
  {
    Frame(f, OnReply(f, k, reply));
  }

  lemma CommandPreserves(f: Fleet, e: Event)
    requires Inv(f) && WellFormed(e)
    requires e.StartTest? || e.StopTest? || e.TelemetryTick?
    ensures Inv(Step(f, e))
  {
    match e
    case StartTest(u, intensity, enableAi, jitters) =>
      var f1 := f.(paused := false, config := Merge(f.config, u, OrElse(intensity, 5)), aiActive := enableAi);
      Frame(f, f1);
      StartPreserves(f1, StartCount(u), jitters);
    case StopTest =>
      Frame(f, f.(paused := false));
      StopPreserves(f.(paused := false));
    case TelemetryTick => TelemetryPreserves(f);
  }

  lemma LifecyclePreserves(f: Fleet, e: Event)
    requires Inv(f) && WellFormed(e)
    requires e.SpawnFires? || e.ReconnectFires? || e.Login? || e.Terminated?
    ensures Inv(Step(f, e))
  {
    match e
    case SpawnFires(k, draw) => SpawnPreserves(f, k, draw);
    case ReconnectFires(k, draw) => ReconnectPreserves(f, k, draw);
    case Login(id) => LoginPreserves(f, id);
    case Terminated(id, cause) => TerminatedPreserves(f, id, cause);
  }

  /** From start-up, any sequence of events keeps the invariant. */
  lemma {:induction false} RunKeepsInv(f: Fleet, es: seq<Event>)
    requires Inv(f)
    requires forall k :: 0 <= k < |es| ==> WellFormed(es[k])
    ensures Inv(Run(f, es))
    decreases |es|
  {
    if |es| > 0 {
      StepPreserves(f, es[0]);
      RunKeepsInv(Step(f, es[0]), es[1..]);
    }
  }

  /** The consequences an operator sees, for every reachable state: no
      bot is on the live list twice, every live bot was announced as
      joined exactly once and never as disconnected, and no session is
      ever announced twice. */
  lemma Reachable(es: seq<Event>)
    requires forall k :: 0 <= k < |es| ==> WellFormed(es[k])
    ensures var f := Run(Init, es);
            && NoDuplicates(f.bots)
            && (forall k :: 0 <= k < |f.bots| ==>
                  CountOf(f.log, Joined(f.bots[k])) == 1 && CountOf(f.log, Disconnected(f.bots[k])) == 0)
            && (forall id: nat :: CountOf(f.log, Disconnected(id)) <= 1)
            && (forall id: nat :: CountOf(f.log, Joined(id)) <= 1)
  {
    InitInv();
    RunKeepsInv(Init, es);
  }
}
