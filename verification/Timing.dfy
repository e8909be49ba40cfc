/** Time: nothing is scheduled in the past, and a server's accumulated busy time never exceeds its capacity. */
module Timing {
  import opened Domain
  import opened Sums
  import opened Clusters
  import S = Servers
  import Slots
  import Wiring

  ghost predicate Started(c: S.Completion, now: Time)
  {
    c.task.serviceStartedAt.Some? && c.task.serviceStartedAt.value <= now
  }

  /** Every scheduled event lies ahead, every running service has started, and an arrival is a task's start. */
  ghost predicate Timely(g: Cluster)
  {
    && Earliest(g, g.now)
    && (forall i :: 0 <= i < |g.completions| ==> Started(g.completions[i], g.now))
    && (forall i :: 0 <= i < |g.arrivals| ==> g.arrivals[i].at == g.arrivals[i].task.start)
  }

  /** How long a service has run at server `s`. */
  function Elapsed(s: nat, now: Time): S.Completion -> int
  {
    (c: S.Completion) => if c.server == s && c.task.serviceStartedAt.Some? then now - c.task.serviceStartedAt.value else 0
  }

  /** Time spent in service so far: by completed tasks, and by the running ones. */
  ghost function Work(g: Cluster, s: nat): int
    requires s < |g.servers|
  {
    g.servers[s].busy + Sum(g.completions, Elapsed(s, g.now))
  }

  /** A server's work since `t0` fits in its slots. */
  ghost predicate Utilised(g: Cluster, t0: Time)
  {
    forall s: nat :: s < |g.servers| ==> UtilisedAt(g, s, t0)
  }

  ghost predicate UtilisedAt(g: Cluster, s: nat, t0: Time)
  {
    s < |g.servers| && Work(g, s) <= g.servers[s].cfg.maxConcurrency * (g.now - t0)
  }

  // Servers

  /** Services that start now, and events not before now. */
  ghost predicate Prompt(fx: S.ServerEffects, now: Time)
  {
    && (forall i :: 0 <= i < |fx.out.completions| ==>
          fx.out.completions[i].task.serviceStartedAt == Some(now) && fx.out.completions[i].at >= now)
    && (forall i :: 0 <= i < |fx.out.scheduled| ==> fx.out.scheduled[i].at >= now)
  }

  lemma {:induction false} DrainPrompt(fx: S.ServerEffects, now: Time)
    requires Prompt(fx, now)
    ensures Prompt(S.DrainQueue(fx, now), now) && S.DrainQueue(fx, now).server.busy == fx.server.busy
    decreases |fx.server.queue|
  {
    var v := fx.server;
    if v.inFlight < v.cfg.maxConcurrency && v.queue != [] {
      DrainPrompt(S.BeginService(S.TakeHead(fx, now), v.queue[0], now), now);
    }
  }

  lemma EvictionPrompt(fx: S.ServerEffects, start: Time, now: Time)
    requires fx.server.queue != [] && Prompt(fx, now)
    ensures Prompt(S.ApplyEviction(fx, start, now), now) && S.ApplyEviction(fx, start, now).server.busy == fx.server.busy
  {
  }

  lemma SheddingPrompt(fx: S.ServerEffects, start: Time, now: Time)
    requires fx.server.cfg.shedding.Some? ==> fx.server.queue != []
    requires Prompt(fx, now)
    ensures Prompt(S.ApplyShedding(fx, start, now), now) && S.ApplyShedding(fx, start, now).server.busy == fx.server.busy
  {
  }

  lemma InputPrompt(v: S.ServerState, task: Task, now: Time)
    requires v.Valid()
    ensures Prompt(S.Input(v, task, now), now) && S.Input(v, task, now).server.busy == v.busy
  {
    if v.cfg.mode == S.Push && v.inFlight >= v.cfg.maxConcurrency {
      var queued := S.Begin(S.SampleLevel(v.(queue := v.queue + [task]), now));
      EvictionPrompt(queued, task.start, now);
      SheddingPrompt(S.ApplyEviction(queued, task.start, now), task.start, now);
    }
  }

  lemma CompletePrompt(v: S.ServerState, task: Task, now: Time)
    requires v.inFlight > 0
    ensures Prompt(S.Complete(v, task, now), now) && S.Complete(v, task, now).server.busy == v.busy + task.duration
  {
    if v.cfg.mode == S.Push {
      DrainPrompt(S.Ended(v, task, now), now);
    }
  }

  // Steps

  /** A handler that adds prompt events to a timely state leaves a timely state. */
  lemma ServerTimely(g: Cluster, s: nat, fx: S.ServerEffects)
    requires Timely(g) && s < |g.servers| && Prompt(fx, g.now)
    ensures Timely(AfterServer(g, s, fx))
  {
    var h := AfterServer(g, s, fx);
    forall i | 0 <= i < |h.timers| ensures g.now <= h.timers[i].at {
      assert h.timers[i] in g.timers || h.timers[i] in fx.out.scheduled;
    }
  }

  /** Moving on to an event that is due, which leaves the schedule. */
  lemma AdvanceTimely(g: Cluster, g0: Cluster)
    requires Timely(g) && Earliest(g, g0.now) && g0.now >= g.now
    requires forall i :: 0 <= i < |g0.arrivals| ==> g0.arrivals[i] in g.arrivals
    requires forall i :: 0 <= i < |g0.initialPulls| ==> g0.initialPulls[i] in g.initialPulls
    requires forall i :: 0 <= i < |g0.completions| ==> g0.completions[i] in g.completions
    requires forall i :: 0 <= i < |g0.timers| ==> g0.timers[i] in g.timers
    ensures Timely(g0)
  {
  }

  // A server step in general: the event or message leaves its channel, time moves on to the event, and the
  // handler's effects are added.

  ghost predicate ServerStep(g: Cluster, g0: Cluster, s: nat)
  {
    && s < |g.servers| && g0.servers == g.servers && g0.now >= g.now
    && Earliest(g, g0.now)
    && g0.arrivals == g.arrivals
    && (forall i :: 0 <= i < |g0.initialPulls| ==> g0.initialPulls[i] in g.initialPulls)
    && (forall i :: 0 <= i < |g0.completions| ==> g0.completions[i] in g.completions)
    && (forall i :: 0 <= i < |g0.timers| ==> g0.timers[i] in g.timers)
  }

  lemma ServerStepTimely(g: Cluster, g0: Cluster, s: nat, fx: S.ServerEffects)
    requires Timely(g) && ServerStep(g, g0, s) && Prompt(fx, g0.now)
    ensures Timely(AfterServer(g0, s, fx))
  {
    AdvanceTimely(g, g0);
    ServerTimely(g0, s, fx);
  }

  lemma TaskTimely(g: Cluster, i: nat)
    requires WellFormed(g) && i < |g.tasks| && Timely(g)
    ensures Timely(TaskDelivered(g, i))
  {
    var m := g.tasks[i];
    assert TaskAt(g.topo, m.server, m.task);
    InputPrompt(g.servers[m.server], m.task, g.now);
    ServerStepTimely(g, g.(tasks := RemoveAt(g.tasks, i)), m.server, S.Input(g.servers[m.server], m.task, g.now));
  }

  lemma IntentTimely(g: Cluster, i: nat)
    requires WellFormed(g) && i < |g.intents| && Timely(g)
    ensures Timely(IntentDelivered(g, i))
  {
    var m := g.intents[i];
    assert IntentAt(g.topo, m.server, m.intent);
    ServerStepTimely(g, g.(intents := RemoveAt(g.intents, i)), m.server,
                     S.ReceiveIntent(g.servers[m.server], m.intent));
  }

  lemma CompletionTimely(g: Cluster, i: nat)
    requires WellFormed(g) && Timely(g) && i < |g.completions| && Enabled(g, FireCompletion(i))
    ensures Timely(CompletionFired(g, i))
  {
    var c := g.completions[i];
    assert CompletionAt(g.topo, c);
    CompletePrompt(g.servers[c.server], c.task, c.at);
    ServerStepTimely(g, g.(now := c.at, completions := RemoveAt(g.completions, i)), c.server,
                     S.Complete(g.servers[c.server], c.task, c.at));
  }

  lemma InitialPullTimely(g: Cluster, i: nat)
    requires WellFormed(g) && Timely(g) && i < |g.initialPulls| && Enabled(g, FireInitialPull(i))
    ensures Timely(InitialPullFired(g, i))
  {
    var q := g.initialPulls[i];
    ServerStepTimely(g, g.(now := q.at, initialPulls := RemoveAt(g.initialPulls, i)), q.server,
                     S.RequestPull(g.servers[q.server]));
  }

  lemma TimerTimely(g: Cluster, i: nat)
    requires WellFormed(g) && Timely(g) && i < |g.timers| && Enabled(g, FireTimer(i))
    ensures Timely(TimerFired(g, i))
  {
    var e := g.timers[i];
    assert TimerAt(g.topo, e);
    ServerStepTimely(g, g.(now := e.at, timers := RemoveAt(g.timers, i)), e.server,
                     TimerEffects(g.servers[e.server], e));
  }

  /** The time at which a step happens. */
  ghost function TimeOf(g: Cluster, step: Step): Time
    requires WellFormed(g) && Enabled(g, step)
  {
    match step
    case Arrive(i, _) => g.arrivals[i].at
    case FireCompletion(i) => g.completions[i].at
    case FireInitialPull(i) => g.initialPulls[i].at
    case FireTimer(i) => g.timers[i].at
    case _ => g.now
  }

  lemma NextTime(g: Cluster, step: Step)
    requires WellFormed(g) && Enabled(g, step)
    ensures Next(g, step).now == TimeOf(g, step) >= g.now
  {
  }

  lemma ArriveTimely(g: Cluster, i: nat, pick: nat)
    requires WellFormed(g) && Timely(g) && i < |g.arrivals| && Enabled(g, Arrive(i, pick))
    ensures Timely(Arrived(g, i, pick))
  {
    AdvanceTimely(g, g.(now := g.arrivals[i].at, arrivals := RemoveAt(g.arrivals, i)));
  }

  lemma BalancerTimely(g: Cluster, step: Step)
    requires WellFormed(g) && Enabled(g, step) && Timely(g)
    requires step.DeliverPull? || step.DeliverRelease? || step.DeliverEvicted? || step.DeliverShed?
    ensures Timely(Next(g, step))
  {
  }

  lemma NextKeepsTimely(g: Cluster, step: Step)
    requires WellFormed(g) && Enabled(g, step) && Timely(g)
    ensures Timely(Next(g, step))
  {
    match step
    case Arrive(i, pick) => ArriveTimely(g, i, pick);
    case DeliverTask(i) => TaskTimely(g, i);
    case DeliverIntent(i) => IntentTimely(g, i);
    case FireCompletion(i) => CompletionTimely(g, i);
    case FireInitialPull(i) => InitialPullTimely(g, i);
    case FireTimer(i) => TimerTimely(g, i);
    case _ => BalancerTimely(g, step);
  }

  // Utilisation

  lemma Product(a: nat, b: nat, dt: nat)
    requires a <= b
    ensures a * dt <= b * dt
  {
  }

  /** While time passes a server works at most as many seconds per second as it has slots. */
  lemma AdvanceWork(g: Cluster, later: Time, s: nat)
    requires later >= g.now && Slots.SlotsAt(g, s)
    requires forall i :: 0 <= i < |g.completions| ==> Started(g.completions[i], g.now)
    ensures Work(g.(now := later), s) <= Work(g, s) + g.servers[s].cfg.maxConcurrency * (later - g.now)
  {
    var dt := later - g.now;
    SumLinear(g.completions, Elapsed(s, g.now), Slots.RunningAt(s), Elapsed(s, later), dt);
    Product(g.servers[s].inFlight, g.servers[s].cfg.maxConcurrency, dt);
  }

  /** A handler starts services that have not yet worked, and counts the work of one that ends. */
  lemma ServerWork(g: Cluster, t: nat, fx: S.ServerEffects, s: nat)
    requires t < |g.servers| && s < |g.servers| && Prompt(fx, g.now)
    ensures Work(AfterServer(g, t, fx), s) == Work(g, s) + if s == t then fx.server.busy - g.servers[t].busy else 0
  {
    SumConcat(g.completions, fx.out.completions, Elapsed(s, g.now));
    SumZero(fx.out.completions, Elapsed(s, g.now));
  }

  ghost predicate SameWork(g: Cluster, later: Time, h: Cluster, s: nat)
  {
    |h.servers| == |g.servers| && s < |g.servers| && Work(h, s) == Work(g.(now := later), s)
  }

  lemma TaskWork(g: Cluster, i: nat, s: nat)
    requires WellFormed(g) && i < |g.tasks| && s < |g.servers|
    ensures SameWork(g, g.now, TaskDelivered(g, i), s)
  {
    var m := g.tasks[i];
    assert TaskAt(g.topo, m.server, m.task);
    InputPrompt(g.servers[m.server], m.task, g.now);
    ServerWork(g.(tasks := RemoveAt(g.tasks, i)), m.server, S.Input(g.servers[m.server], m.task, g.now), s);
  }

  lemma IntentWork(g: Cluster, i: nat, s: nat)
    requires WellFormed(g) && i < |g.intents| && s < |g.servers|
    ensures SameWork(g, g.now, IntentDelivered(g, i), s)
  {
    var m := g.intents[i];
    assert IntentAt(g.topo, m.server, m.intent);
    ServerWork(g.(intents := RemoveAt(g.intents, i)), m.server, S.ReceiveIntent(g.servers[m.server], m.intent), s);
  }

  lemma CompletionWork(g: Cluster, i: nat, s: nat)
    requires WellFormed(g) && i < |g.completions| && g.servers[g.completions[i].server].inFlight > 0 && s < |g.servers|
    ensures SameWork(g, g.completions[i].at, CompletionFired(g, i), s)
  {
    var c := g.completions[i];
    assert CompletionAt(g.topo, c);
    SumRemove(g.completions, i, Elapsed(s, c.at));
    CompletePrompt(g.servers[c.server], c.task, c.at);
    ServerWork(g.(now := c.at, completions := RemoveAt(g.completions, i)), c.server,
               S.Complete(g.servers[c.server], c.task, c.at), s);
  }

  lemma InitialPullWork(g: Cluster, i: nat, s: nat)
    requires WellFormed(g) && i < |g.initialPulls| && s < |g.servers|
    ensures SameWork(g, g.initialPulls[i].at, InitialPullFired(g, i), s)
  {
    var q := g.initialPulls[i];
    ServerWork(g.(now := q.at, initialPulls := RemoveAt(g.initialPulls, i)), q.server,
               S.RequestPull(g.servers[q.server]), s);
  }

  lemma TimerWork(g: Cluster, i: nat, s: nat)
    requires WellFormed(g) && i < |g.timers| && s < |g.servers|
    ensures SameWork(g, g.timers[i].at, TimerFired(g, i), s)
  {
    var e := g.timers[i];
    assert TimerAt(g.topo, e);
    ServerWork(g.(now := e.at, timers := RemoveAt(g.timers, i)), e.server, TimerEffects(g.servers[e.server], e), s);
  }

  /** Work is done only while time passes: no handler adds to it or loses any. */
  lemma NextWork(g: Cluster, step: Step, s: nat)
    requires WellFormed(g) && Enabled(g, step) && s < |g.servers|
    ensures SameWork(g, TimeOf(g, step), Next(g, step), s)
  {
    match step
    case DeliverTask(i) => TaskWork(g, i, s);
    case DeliverIntent(i) => IntentWork(g, i, s);
    case FireCompletion(i) => CompletionWork(g, i, s);
    case FireInitialPull(i) => InitialPullWork(g, i, s);
    case FireTimer(i) => TimerWork(g, i, s);
    case _ =>
  }

  lemma SameSlots(g: Cluster, step: Step, s: nat)
    requires WellFormed(g) && Enabled(g, step) && s < |Next(g, step).servers|
    ensures |Next(g, step).servers| == |g.servers|
    ensures Next(g, step).servers[s].cfg.maxConcurrency == g.servers[s].cfg.maxConcurrency
  {
    Wiring.NextKeepsWellFormed(g, step);
    assert ServerAt(g.topo, s, g.servers[s]);
    assert ServerAt(Next(g, step).topo, s, Next(g, step).servers[s]);
  }

  lemma Windows(m: nat, t0: Time, t1: Time, t2: Time, w1: int, w2: int)
    requires w1 <= m * (t1 - t0) && w2 <= w1 + m * (t2 - t1)
    ensures w2 <= m * (t2 - t0)
  {
    assert m * (t2 - t0) == m * (t1 - t0) + m * (t2 - t1);
  }

  /** Utilisation never exceeds one: no server is ever charged more busy time than its slots have had. */
  lemma NextKeepsUtilised(g: Cluster, step: Step, t0: Time)
    requires WellFormed(g) && Enabled(g, step) && Timely(g) && Slots.SlotsOk(g) && Utilised(g, t0)
    ensures Utilised(Next(g, step), t0)
  {
    var h := Next(g, step);
    NextTime(g, step);
    forall s: nat | s < |h.servers| ensures UtilisedAt(h, s, t0) {
      NextUtilisedAt(g, step, s, t0);
    }
  }

  lemma NextUtilisedAt(g: Cluster, step: Step, s: nat, t0: Time)
    requires WellFormed(g) && Enabled(g, step) && Timely(g) && Slots.SlotsOk(g) && Utilised(g, t0)
    requires s < |Next(g, step).servers|
    ensures UtilisedAt(Next(g, step), s, t0)
  {
    SameSlots(g, step, s);
    NextTime(g, step);
    NextWork(g, step, s);
    WorkFits(g, Next(g, step), s, t0);
  }

  lemma WorkFits(g: Cluster, h: Cluster, s: nat, t0: Time)
    requires Timely(g) && Slots.SlotsOk(g) && s < |g.servers| && Utilised(g, t0)
    requires h.now >= g.now && SameWork(g, h.now, h, s)
    requires h.servers[s].cfg.maxConcurrency == g.servers[s].cfg.maxConcurrency
    ensures UtilisedAt(h, s, t0)
  {
    assert Slots.SlotsAt(g, s) && UtilisedAt(g, s, t0);
    AdvanceWork(g, h.now, s);
    Windows(g.servers[s].cfg.maxConcurrency, t0, g.now, h.now, Work(g, s), Work(h, s));
  }

  lemma InitialTimely(g: Cluster)
    requires Initial(g)
    ensures Timely(g) && Utilised(g, g.now)
  {
  }
}
